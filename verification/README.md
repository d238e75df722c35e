# Verified models of the device firmware

Dafny models of the parts of this ESP32 firmware that carry hard logic, and proofs about them. `dafny verify dfyconfig.toml` checks everything.

| files | what they model |
|---|---|
| `PassportVoice`, `PassportExclusion`, `PassportAudio`, `PassportReplies`, `PassportMute`, `PassportProgress`, `PassportWitness`, `VoiceSession`, `ReplyBox` | the AI Passport's push-to-talk session: button task, play task, transport callbacks and screen as one interleaving machine |
| `EpaperFrame`, `EpaperPaint`, `ContentKey`, `ContentTold`, `EpaperUi` | the 3.97" e-paper: byte buffer, drawing, fast repaint, change detection, refresh policy and transfers |
| `EpaperRequests`, `EpaperDesk`, `EpaperController` | its control task: cancellable requests, what keys, rows and results do, and the confirm that waits for the display |
| `EpaperDevice` | control task and display worker together |
| `Adpcm`, `AdpcmEncoder` | the IMA-ADPCM coder against the decoder of the SDK |
| `WavFile`, `WavRecorder`, `WavReader`, `WavChunks`, `WavRoundTrip`, `Resampler` | recording to a WAV file, reading one, and playing it at 16 kHz |
| `RecordingPages`, `RecordingCursor`, `Recordings` | listing a directory in pages |
| `SpeakerReset` | resetting a speaker while audio arrives |
| `BoxFilter`, `AvatarScaler` | shrinking the avatar |
| `BadgeStore` | the badge's write-back store |
| `Basics` | bytes, samples, little-endian words |

The concurrent parts are state machines. One event is one atomic action of one task; `After(events)` is the state after any list of events, so a statement about `After(events)` for all `events` is a statement about every reachable state of every interleaving. Code that works on objects and buffers is modelled by classes and methods over them.

Some of what the proofs found is worth knowing:

- **Passport, silent reply.** A Start that arrives while early audio is already playing mutes the codec at the next pass (`ai_passport.cc:459-464`) and leaves `priming` down; line 488 unmutes only when `priming` is up. The reply is then written to a muted codec until the buffer has run dry for 90 ms. `ReplyPlayedMuted` is such a run; `ChunkIsSilentIff` says over all runs which chunks are silent, `StaysSilent` that a silent chunk makes all later ones silent until the buffer runs dry or a generation begins.
- **Passport, clipped tail.** Audio that arrives between the play task's count of an empty buffer and its `playback_done_` store lets `FinishReply` succeed with up to one chunk unplayed (`ReplyFinishedUnplayed`); nothing else does (`FinishedReplyIsPlayed`).
- **E-paper, reverted content.** After a failed transfer, content that equals the one painted before counts as unchanged: its view is reported as displayed although the panel's image is unknown (`Ui.RevertAfterFailure`, and `RevertedRun` from the start). A confirm can fire on such a panel; `Device.Turn` says what is known then.
- **E-paper, bars in names.** The change key joins texts with `|`; an agent or session name with a bar can make two different screens look unchanged (`BarCollision`), and so can a hint that reads like an activation code. `FieldsToldExactly` and `PicturesToldExactly` are the exact conditions.
- **E-paper, setup scene.** The fast repaint is exact for every font if and only if `Safe` holds; outside the setup scene it always does (`IncrementalExact`).
- **Watch speaker.** A block with an odd number of bytes shifts the next one by half a sample (`OddBlockShifts`), and only such blocks do (`WholeIffEven`).
- **Badge.** If Load cannot read the store, memory shows defaults while the flash keeps the old values, and nothing is pending (`NoUpdateIsLost`).
- **Recordings.** `next_offset` is cut to 16 bits; the cursor is exact only up to position 65535 (`CursorExact`). In a longer directory it starts again: asked for one entry at a time the list ends if and only if at most 65536 entries count (`EndsExactly`).

## Model

| member | source | states |
|---|---|---|
| PassportExclusion.SpeakerExcludesMicrophone | firmware/apps/ai-passport/ai_passport.cc:389-532 | in every reachable state: a published Listening token means that the play task is not between its locked check and the end of the write and the codec is muted; the microphone is on only under a Listening token |
| PassportExclusion.AlwaysExcluded | firmware/apps/ai-passport/ai_passport.cc:523-644 | the inductive invariant behind it: hold flag, ticket and answer, publish before release |
| PassportAudio.PlayedIsPrefix | firmware/apps/ai-passport/ai_passport.cc:402-498 | per generation the codec got a prefix of what PlayAudio accepted in that generation; for the buffer's generation accepted = handed over + chunk in hand + buffer; a chunk is written only in the buffer's generation and in whole samples |
| PassportAudio.FinishedReplyIsPlayed | firmware/apps/ai-passport/ai_passport.cc:426-521 | when FinishReply succeeds the unplayed rest is the chunk in hand, at most 640 bytes; and there is one only if PlayAudio accepted something between the count of the empty buffer and the store of `playback_done_` |
| PassportAudio.ArrivalConserves | firmware/apps/ai-passport/ai_passport.cc:122-140 | PlayAudio takes a block whole and at the end of its generation exactly when it is welcome and fits, and otherwise none of it; conservation goes on |
| PassportReplies.CommandsAreObeyedOnce | firmware/apps/ai-passport/ai_passport.cc:582-593 | over every run: per generation at most one Start, one End and one final status are taken, Start and a final status exclude each other, each was posted in its own generation, every taken Start makes Speak succeed and every taken End makes Drain succeed |
| PassportReplies.FinalStatusEnds | firmware/apps/ai-passport/ai_passport.cc:582-591 | over every run: once a final status is taken the session is in a later generation, or the button task is in FailSession about to pause and cancel; nothing more is taken in that generation |
| PassportReplies.OrdersAreObeyed | firmware/apps/ai-passport/ai_passport.cc:592-593 | over every run, within its generation: a taken Start has the session speaking, a taken End has it draining or on the way to Drain |
| PassportProgress.FailureEnds | firmware/apps/ai-passport/ai_passport.cc:594-703 | a failed send or playback, a played-out reply, a wait or drain that took too long, a screen that never came, a codec or stream that refuses: each ends the generation, whatever happens next |
| PassportProgress.GivenUpForAReason | firmware/apps/ai-passport/ai_passport.cc:572-703 | a session that waits for a reply is given up only for one of these, a final status, the link seen down, or a press of the button |
| PassportProgress.WaitWasSent | firmware/apps/ai-passport/ai_passport.cc:686-693 | a session waits for a reply only if an utterance was sent in its generation: a tap waits for nothing |
| PassportProgress.LinkIsLast | firmware/apps/ai-passport/ai_passport.cc:176-179 | every task sees the link as the last status told it |
| PassportProgress.SessionFollowsLink | firmware/apps/ai-passport/ai_passport.cc:572-579 | past Connect the session is disconnected exactly if the loop saw the link down |
| PassportProgress.HoldStops | firmware/apps/ai-passport/ai_passport.cc:439-498 | over every run: while the hold flag is up and not released the codec gets at most the one chunk past its check |
| PassportProgress.CallbacksHold | firmware/apps/ai-passport/ai_passport.cc:161-180 | a final status and a link that is not ready raise that flag |
| PassportProgress.FinishHolds | firmware/apps/ai-passport/ai_passport.cc:513-521 | so does FinishReply |
| PassportProgress.ChunkWasChecked | firmware/apps/ai-passport/ai_passport.cc:477-498 | a chunk on its way to the codec passed a check under the lock at which its token was published and its screen flushed, the link up, nothing held, and a started reply was being spoken |
| PassportProgress.RenderedWasShown | firmware/apps/ai-passport/voice_ui.cc:184-308 | a token counts as rendered only while its screen is the last one flushed, with no panel failure since |
| PassportProgress.PlaysForAWait | firmware/apps/ai-passport/ai_passport.cc:439-498 | the play task takes audio only for a session that waits for a reply |
| PassportProgress.EndIsSeen | firmware/apps/ai-passport/ai_passport.cc:122-168 | once End was accepted, or the audio ended after it, the play task can see it until it begins another generation, whatever audio arrives |
| PassportProgress.DoneWasDrained | firmware/apps/ai-passport/ai_passport.cc:446-455 | a reply counts as played out only if the play task found it ended, nothing counted, and 90 ms since the last chunk |
| PassportProgress.FinishedWasEnded | firmware/apps/ai-passport/ai_passport.cc:513-521 | FinishReply succeeds only for a spoken, draining reply whose End was accepted and that was found played out |
| PassportReplies.PostKeepsDisciplined | firmware/apps/ai-passport/ai_passport.cc:161-169 | a callback's Post keeps box, token and session consistent, whatever the status |
| PassportMute.FirstChunkIsHeard | firmware/apps/ai-passport/ai_passport.cc:402-491 | the first chunk of every generation is written to an unmuted codec |
| PassportMute.ChunkIsSilentIff | firmware/apps/ai-passport/ai_passport.cc:402-498 | over every run: a chunk reaches a muted codec if and only if, with no new generation and no dry buffer since the last chunk, that chunk was silent or its write failed or the play task muted since (441, 451, 461, 484) |
| PassportMute.StaysSilent | firmware/apps/ai-passport/ai_passport.cc:402-498 | once a chunk is silent every later one is, until the buffer has run dry for 90 ms or a new generation |
| PassportWitness.ReplyPlayedMuted | firmware/apps/ai-passport/ai_passport.cc:456-491 | a reachable run in which a reply chunk is written to a muted codec although nothing holds the speaker |
| PassportWitness.ReplyFinishedUnplayed | firmware/apps/ai-passport/ai_passport.cc:426-521 | a reachable state in which FinishReply succeeds while a chunk of the reply is still in hand |
| PassportWitness.ReplyHeard | firmware/apps/ai-passport/ai_passport.cc:389-693 | a whole conversation that ends well: pressed, sent, started, heard to its last byte, finished, and ready again with the microphone off |
| VoiceSession.WrappedNext | firmware/apps/ai-passport/voice_session.h:102-106 | the 29-bit generation follows the unbounded count and is zero only at the start |
| VoiceSession.WrappedTellsApart | firmware/apps/ai-passport/voice_session.h:102-106 | two generations fewer than 2^29 - 1 apart have equal counters only if they are the same |
| VoiceSession.Session.Advance | firmware/apps/ai-passport/voice_session.h:102-106 | a new, nonzero generation; draining ends |
| VoiceSession.Session.SetConnected | firmware/apps/ai-passport/voice_session.h:22-34 | changes state exactly when the link does, each time in a new generation |
| VoiceSession.Session.Listen | firmware/apps/ai-passport/voice_session.h:36-41 | starts a new generation unless offline or listening |
| VoiceSession.Session.Release | firmware/apps/ai-passport/voice_session.h:43-52 | a sent utterance waits in the same generation, a tap cancels it |
| VoiceSession.Session.Speak | firmware/apps/ai-passport/voice_session.h:54-58 | succeeds exactly for the current generation while thinking |
| VoiceSession.Session.Drain | firmware/apps/ai-passport/voice_session.h:60-65 | succeeds exactly once for the current generation while speaking |
| VoiceSession.Session.Finish | firmware/apps/ai-passport/voice_session.h:67-71 | succeeds exactly while draining, and starts a new generation |
| VoiceSession.Session.Cancel | firmware/apps/ai-passport/voice_session.h:73-76 | a new generation, ready unless offline |
| ReplyBox.AcceptedIff | firmware/apps/ai-passport/voice_session.h:126-140 | after any calls a status is accepted exactly when its epoch, the time between two changes of generation, has accepted no final status and: for End, no End, while speaking or started; for the others, no Start, while thinking |
| ReplyBox.AcceptedOnce | firmware/apps/ai-passport/voice_session.h:119-147 | over any calls: within an epoch no kind is accepted twice, nor two final statuses, nor Start and a final one |
| ReplyBox.TakenOnce | firmware/apps/ai-passport/voice_session.h:119-147 | over any calls: what is taken was accepted in that epoch and is taken once; everything the present epoch accepted is either pending or taken |
| ReplyBox.NothingSurvives | firmware/apps/ai-passport/voice_session.h:119-124 | another generation finds an empty box |
| ReplyBox.Serve | firmware/apps/ai-passport/voice_session.h:115-147 | the box object answers any list of posts and takes as the four rows above say |
| EpaperFrame.BlackPixel | firmware/apps/waveshare-epaper-397-wifi/epaper_frame.h:17-21 | on the turned 480x800 grid exactly this pixel becomes black; off the panel nothing changes |
| EpaperFrame.ClearBox | firmware/apps/waveshare-epaper-397-wifi/epaper_frame.h:22-29 | exactly the box's pixels on the panel become white |
| EpaperFrame.ChangedRect | firmware/apps/waveshare-epaper-397-wifi/epaper_frame.h:30-44 | false exactly when the buffers are equal; otherwise the smallest byte-aligned rectangle on the panel that covers every differing pixel |
| EpaperFrame.SamePixels | firmware/apps/waveshare-epaper-397-wifi/epaper_frame.h:17-21 | frames that agree on every pixel of the grid are equal byte for byte |
| EpaperPaint.IncrementalExact | firmware/apps/waveshare-epaper-397-wifi/epaper_wifi_ui.cc:184-253 | the selection and header repaints equal the full repaint for every font if and only if `Safe` holds, which fails only in the setup scene |
| EpaperPaint.MarkerRepaint | firmware/apps/waveshare-epaper-397-wifi/epaper_wifi_ui.cc:192-200 | pixel by pixel, moving the marker on the older picture gives the newer picture |
| EpaperPaint.HeaderRepaint | firmware/apps/waveshare-epaper-397-wifi/epaper_wifi_ui.cc:201-214 | pixel by pixel, redrawing the header on the older picture gives the newer picture |
| EpaperPaint.CulpritShows | firmware/apps/waveshare-epaper-397-wifi/epaper_wifi_ui.cc:184-253 | whenever `Safe` fails, a font and a pixel that the fast repaint gets wrong |
| EpaperPaint.ShowsIsUnique | firmware/apps/waveshare-epaper-397-wifi/epaper_wifi_ui.cc:201-253 | a list of drawing operations determines the frame bit for bit |
| EpaperPaint.HeaderTells | firmware/apps/waveshare-epaper-397-wifi/epaper_wifi_ui.cc:202-213 | two headers are the same exactly for the same volume, battery as far as known, and state of the link |
| EpaperPaint.SetupReads | firmware/apps/waveshare-epaper-397-wifi/epaper_wifi_ui.cc:216-224 | what can be read in the setup scene |
| EpaperPaint.SceneReads | firmware/apps/waveshare-epaper-397-wifi/epaper_wifi_ui.cc:225-251 | what can be read in the others: code, titles, hint, identity, detail, answer, footer |
| ContentKey.JoinedInjective | firmware/apps/waveshare-epaper-397-wifi/epaper_wifi_ui.cc:173-179 | the joined key of texts without bars is no other texts' key |
| ContentTold.FieldsToldExactly | firmware/apps/waveshare-epaper-397-wifi/epaper_wifi_ui.cc:173-181 | the key tells the painted values apart from all others if and only if none of them holds a bar |
| ContentTold.PicturesToldExactly | firmware/apps/waveshare-epaper-397-wifi/epaper_wifi_ui.cc:173-181 | whatever counts as unchanged looks the same if and only if no code was painted, the hint does not read like one, and no text holds a bar, where in the setup scene bars in the rows, which it does not show, are harmless unless a piece of them can pass for the selected row |
| ContentKey.UnchangedSameOps | firmware/apps/waveshare-epaper-397-wifi/epaper_wifi_ui.cc:173-181 | unchanged content has the picture that was painted, when that one holds no bar, both or neither show a code and, in the setup scene, the same hint |
| ContentKey.BarCollision | firmware/apps/waveshare-epaper-397-wifi/epaper_wifi_ui.cc:173-181 | two contents with equal keys and different pictures |
| ContentKey.ChangedFromNothing | firmware/apps/waveshare-epaper-397-wifi/epaper_wifi_ui.cc:153-181 | before anything was painted every content counts as changed |
| EpaperUi.RefreshPolicy.Success | firmware/apps/waveshare-epaper-397-wifi/epaper_refresh.h:17-21 | base image valid, failures forgotten, partial updates counted from the last full one |
| EpaperUi.RefreshPolicy.Failure | firmware/apps/waveshare-epaper-397-wifi/epaper_refresh.h:22-26 | base image invalid, retry after half a second doubling up to four seconds |
| EpaperUi.Ui.Repaint | firmware/apps/waveshare-epaper-397-wifi/epaper_wifi_ui.cc:184-253 | if the base frame is the full repaint of the painted content and the fast way is safe, the frame becomes the full repaint of the new content |
| EpaperUi.Ui.Transmit | firmware/apps/waveshare-epaper-397-wifi/epaper_wifi_ui.cc:255-283 | transfers exactly when the base is unknown or pixels changed; success makes this content the painted one on the panel, failure leaves the panel unknown and the record as it was |
| EpaperUi.Ui.Refresh | firmware/apps/waveshare-epaper-397-wifi/epaper_wifi_ui.cc:182-283 | one paint and transfer keeps the display invariant, with the kind of the transfer logged as `RunOfTransfers` tells it |
| EpaperUi.Ui.Iterate | firmware/apps/waveshare-epaper-397-wifi/epaper_wifi_ui.cc:157-284 | nothing happens before the retry time; unchanged content is only reported as displayed; changed content is painted, and transferred exactly when the base is unknown or pixels differ; a reported view is on the panel if and only if the base is valid |
| EpaperUi.Ui.Loop | firmware/apps/waveshare-epaper-397-wifi/epaper_wifi_ui.cc:157-285 | over any run with failing transfers: painted base valid = policy valid, the base is the full repaint of the painted content, every transfer admissible |
| EpaperUi.Ui.RevertAfterFailure | firmware/apps/waveshare-epaper-397-wifi/epaper_wifi_ui.cc:181-284 | content with another picture whose transfer fails, then the painted content again: it is reported as displayed and the panel's image is unknown |
| EpaperUi.RevertedRun | firmware/apps/waveshare-epaper-397-wifi/epaper_wifi_ui.cc:154-284 | a run from the start that ends so: the volume goes up for one failed transfer and down again |
| EpaperUi.RunOfTransfers | firmware/apps/waveshare-epaper-397-wifi/epaper_refresh.h:9-33 | over any run a transfer is full if and only if it is the first or follows a failure, or the 64 before it were partial, or scene or page is another than the last transfer's, or the smallest rectangle around what changed takes a third of the panel; and it goes to the image the last one left |
| EpaperUi.PartialsAreBounded | firmware/apps/waveshare-epaper-397-wifi/epaper_refresh.h:9-33 | partial updates only onto a known image, one full among any 65 in a row |
| EpaperUi.ScenesDiffer | firmware/apps/waveshare-epaper-397-wifi/epaper_wifi_ui.cc:34-42 | which statuses share a scene |
| EpaperUi.BackoffDoubles | firmware/apps/waveshare-epaper-397-wifi/epaper_refresh.h:22-26 | the delay after failures starts at half a second and doubles up to four |
| EpaperUi.QuietIsSafe | firmware/apps/waveshare-epaper-397-wifi/epaper_wifi_ui.cc:216-251 | a setup scene without rows and code never endangers the fast repaint |
| EpaperRequests.RequestState.Begin | firmware/apps/waveshare-epaper-397-wifi/epaper_requests.h:9-13 | a nonzero id exactly when none is in flight; zero is skipped when the counter wraps |
| EpaperRequests.RequestState.Cancel | firmware/apps/waveshare-epaper-397-wifi/epaper_requests.h:14-14 | the request in flight will not apply |
| EpaperRequests.RequestState.Complete | firmware/apps/waveshare-epaper-397-wifi/epaper_requests.h:16-22 | only the id in flight completes, and it applies only if still active |
| EpaperRequests.OneJob | firmware/apps/waveshare-epaper-397-wifi/epaper_wifi.cc:141-184 | in every reachable state exactly one of the two queues and the worker holds the job in flight, or none does and none is; Submit never meets a full queue and the worker's send never blocks |
| EpaperRequests.AppliedIffNotCancelled | firmware/apps/waveshare-epaper-397-wifi/epaper_requests.h:14-22 | a result is applied if and only if nothing was cancelled since its Begin |
| EpaperController.PendingConfirm.Take | firmware/apps/waveshare-epaper-397-wifi/epaper_controls.h:51-56 | fires once, exactly when the requested view is current and displayed; a newer view drops it |
| EpaperController.Controller.ChangePage | firmware/apps/waveshare-epaper-397-wifi/epaper_wifi.cc:109-112 | a new view, no wait and no pending confirm |
| EpaperController.Controller.SyncAgent | firmware/apps/waveshare-epaper-397-wifi/epaper_wifi.cc:118-140 | the whole state after it: an outage forgets the bound agent and goes home from a call or another page, another agent goes home and drops a session that was not its own |
| EpaperDesk.AgentKnown | firmware/apps/waveshare-epaper-397-wifi/epaper_wifi.cc:118-140 | an outage forgets the agent but nothing saved, ends the call and goes home; another agent ends the call and keeps the session only if it was its own; the same agent changes nothing else |
| EpaperDesk.TurnKnowsAgent | firmware/apps/waveshare-epaper-397-wifi/epaper_wifi.cc:350-372 | a turn that polls ends with the agent the platform told, and a call that ended is over |
| EpaperDesk.TurnKeepsCall | firmware/apps/waveshare-epaper-397-wifi/epaper_wifi.cc:198-374 | every turn keeps: a call is only on the home page, with an agent and a session, and with nothing awaited |
| EpaperController.Controller.Submit | firmware/apps/waveshare-epaper-397-wifi/epaper_wifi.cc:141-150 | the whole state after it: a job is queued, in a new view, exactly when none is in flight and the queue has room |
| EpaperController.Controller.ReceiveNetwork | firmware/apps/waveshare-epaper-397-wifi/epaper_wifi.cc:179-197 | does to the state what `ResultDoes` and `OtherResultDoesNothing` are about, and keeps the invariant |
| EpaperDesk.ResultDoes | firmware/apps/waveshare-epaper-397-wifi/epaper_wifi.cc:179-197 | an applied result ends the wait; a list for the bound agent is shown from its first row, a created session becomes the session, back home; an error, another agent or an empty name change no row |
| EpaperDesk.OtherResultDoesNothing | firmware/apps/waveshare-epaper-397-wifi/epaper_wifi.cc:182-184 | a cancelled or foreign result only clears what is in flight |
| EpaperController.Controller.ShowList | firmware/apps/waveshare-epaper-397-wifi/epaper_wifi.cc:188-190 | list, offset, more and page change in one step with a new view |
| EpaperController.Controller.Choose | firmware/apps/waveshare-epaper-397-wifi/epaper_wifi.cc:212-240 | does to the state what `ChosenPerforms` is about |
| EpaperDesk.ChosenPerforms | firmware/apps/waveshare-epaper-397-wifi/epaper_wifi.cc:151-240 | choosing performs the meaning of the row under the cursor: a call ends or starts, a list or a new session is asked for exactly when the platform answers and nothing is in flight, Reset or Home opens on its first row, forgetting clears agent and session, a session is taken; if the list's agent is gone nothing of it happens |
| EpaperDesk.RowPerforms | firmware/apps/waveshare-epaper-397-wifi/epaper_wifi.cc:228-238 | row arithmetic of the session list: session, next page, previous page, back, each with its effect |
| EpaperDesk.RowsComplete | firmware/apps/waveshare-epaper-397-wifi/epaper_wifi.cc:228-245 | every page can be left by its last row; a list offers each conversation, a next page exactly if there is more, and a previous one if it is not the first |
| EpaperController.Controller.HandleInput | firmware/apps/waveshare-epaper-397-wifi/epaper_wifi.cc:297-332 | does to the state what the next four rows are about, keeps the invariant, and records the row when a confirm is taken up |
| EpaperDesk.ArrowsMove | firmware/apps/waveshare-epaper-397-wifi/epaper_wifi.cc:320-323 | Up and Down move the cursor by one row around the ends, in a new view, and nothing else |
| EpaperDesk.ArrowsUndo | firmware/apps/waveshare-epaper-397-wifi/epaper_wifi.cc:320-323 | each arrow undoes the other |
| EpaperDesk.CenterAndMenu | firmware/apps/waveshare-epaper-397-wifi/epaper_wifi.cc:316-331 | a confirm becomes pending exactly for a center key on the page in sight, with no wait, no other confirm and no call to end; the menu key opens the menu |
| EpaperDesk.KeysIgnored | firmware/apps/waveshare-epaper-397-wifi/epaper_wifi.cc:297-319 | keys in the setup scene, keys out of sight other than Back, and the home page's volume keys change nothing here |
| EpaperDesk.CenterEndsCall | firmware/apps/waveshare-epaper-397-wifi/epaper_wifi.cc:316-318 | on the home page Center ends a call at once |
| EpaperDesk.BackLeaves | firmware/apps/waveshare-epaper-397-wifi/epaper_wifi.cc:301-308 | Back gives up the pending confirm and leaves the wait, else the call, else the page, and never touches session or agent |
| EpaperController.Controller.TakeConfirm | firmware/apps/waveshare-epaper-397-wifi/epaper_wifi.cc:345-349 | a confirm that fires performs the meaning of the very row of its request; every screen published for that view shows that row, or is the notice of a wait that ended in it |
| EpaperController.Controller.Turn | firmware/apps/waveshare-epaper-397-wifi/epaper_wifi.cc:333-374 | the whole state after a turn, with the confirm's promise; every turn keeps the invariant that no row moves without a new view, and publishes the current rows |
| EpaperDevice.Device.Turn | firmware/apps/waveshare-epaper-397-wifi/epaper_wifi.cc:246-374 | with the display worker: when a confirm fires, the content reported as displayed marks the row of the request with words that promise what the confirm does, or is the notice of a wait that ended in its view; and the panel shows this content, or the last transfer failed and its image is unknown, provided the contents so far were such that neither the fast repaint nor the key can go wrong. The screen it publishes lists the page's rows, or none while a request is awaited |
| EpaperDevice.RowPromises | firmware/apps/waveshare-epaper-397-wifi/epaper_wifi.cc:272-290 | for every row of every page: which words go with which action, both ways; a conversation's row carries the number and the name of the very session it takes |
| EpaperDevice.Device.Iterate | firmware/apps/waveshare-epaper-397-wifi/epaper_wifi_ui.cc:157-284 | a turn of the worker, on any screen published so far, keeps that promise |
| EpaperDevice.RowsAreDrawn | firmware/apps/waveshare-epaper-397-wifi/epaper_wifi_ui.cc:240-245 | outside the setup scene a screen with rows has every row drawn and the marker beside the selected one |
| Adpcm.EncodeSample | firmware/apps/korvo-ble/adpcm_encoder.h:45-72 | the coder's predictor and step index move exactly as the decoder's will on the code it returns |
| Adpcm.StepsGrowByATenth | firmware/apps/korvo-ble/adpcm_encoder.h:26-37 | each of the steps is the one before and a tenth of it, to within one |
| Adpcm.IndexSteps | firmware/apps/korvo-ble/adpcm_encoder.h:38-41 | small codes lower the index by one, large ones raise it by 2, 4, 6, 8 |
| Adpcm.Tracking | firmware/apps/korvo-ble/adpcm_encoder.h:45-72 | within twice the step the new error is at most step/8 + 2, clamping included; further away the predictor closes in without passing the sample and the index rises by 8 up to 88 |
| Adpcm.BudgetDrops | firmware/apps/korvo-ble/adpcm_encoder.h:45-72 | on a held input a measure of the distance to rest falls with every sample |
| Adpcm.Converges | firmware/apps/korvo-ble/adpcm_encoder.h:45-72 | on a constant input, from any state, the reconstruction is within 2 after at most 101 samples and stays there |
| Adpcm.HeaderRoundTrip | firmware/apps/korvo-ble/adpcm_encoder.h:109-114 | the decoder reads sample 0 and the step index back from the block header |
| Adpcm.NibbleRoundTrip | firmware/apps/korvo-ble/adpcm_encoder.h:116-121 | the decoder reads every code back, the earlier sample from the low nibble |
| Adpcm.Lockstep | firmware/components/agent_link/src/audio/adpcm.h:67-83 | decoding a block reproduces the encoder's predictor and index after every sample |
| AdpcmEncoder.StreamLockstep | firmware/apps/korvo-ble/adpcm_encoder.h:83-122 | for every sample sequence: ceil(n/505) blocks of 256 bytes, each with a header index in 0..88 that is the index the block before left, and decoding each gives the encoder's own sequence |
| AdpcmEncoder.PaddingSettles | firmware/apps/korvo-ble/adpcm_encoder.h:94-104 | what fills the last block cannot be heard: from 101 samples after the end the decoder is within 2 of the last sample |
| AdpcmEncoder.Encoder.Push | firmware/apps/korvo-ble/adpcm_encoder.h:83-89 | after every 505th sample the block of exactly those samples |
| AdpcmEncoder.Encoder.Flush | firmware/apps/korvo-ble/adpcm_encoder.h:94-104 | nothing if nothing is pending, else one block with the last sample held |
| AdpcmEncoder.Encoder.EncodeBlock | firmware/apps/korvo-ble/adpcm_encoder.h:109-122 | writes the block and carries its final step index on |
| WavRecorder.Recorder.BuildHeader | firmware/apps/korvo-ble/wav_recorder.cc:49-87 | the 44 or 60 header bytes with 32-bit sizes |
| WavRecorder.Recorder.Start | firmware/apps/korvo-ble/wav_recorder.cc:99-130 | closes a recording under way; refuses no name and an existing path; a fresh file with a placeholder header otherwise |
| WavRecorder.Recorder.Write | firmware/apps/korvo-ble/wav_recorder.cc:132-159 | appends the bytes, or the blocks they complete; fails only if the card falls short |
| WavRecorder.Recorder.Stop | firmware/apps/korvo-ble/wav_recorder.cc:161-177 | without a card fault the file is the header and the audio of everything written, the last partial block included |
| WavRoundTrip.SizesMatch | firmware/apps/korvo-ble/wav_recorder.cc:49-97 | RIFF and data sizes are the true ones exactly while they fit 32 bits; ADPCM audio is 256*ceil(samples/505) bytes and its fact chunk counts the real samples |
| WavRoundTrip.ListedDuration | firmware/apps/korvo-ble/wav_recorder.cc:33-46 | the duration worked out from the file size: exact for PCM, that of the padded samples for ADPCM |
| WavRoundTrip.DurationIs | firmware/apps/korvo-ble/wav_recorder.cc:33-46 | a duration is the whole milliseconds the samples last |
| WavRoundTrip.HeaderDescribesBlocks | firmware/apps/korvo-ble/wav_recorder.cc:72-86 | an ADPCM header's block size, bits, samples per block and byte rate agree with each other, with the rate and with the audio |
| WavRoundTrip.PlayerReadsRecording | firmware/apps/paper-s31-wifi/paper_protocol.h:72-101 | ReadWav accepts a PCM recording if and only if it is nonempty, even, 8 to 48 kHz and at most 512 MiB, and gives its rate, one channel and exactly the bytes written |
| WavRoundTrip.PlayerRefusesAdpcm | firmware/apps/paper-s31-wifi/paper_protocol.h:88-94 | ReadWav refuses every ADPCM recording |
| WavReader.ReadWav | firmware/apps/paper-s31-wifi/paper_protocol.h:72-101 | the loop over chunks accepts exactly what the parse of the bytes accepts, unless the card fails; an accepted file stands at its first sample |
| WavReader.ReadChunk | firmware/apps/paper-s31-wifi/paper_protocol.h:83-97 | one chunk, its padding and its effect on what is known |
| WavReader.AcceptedIsPlayable | firmware/apps/paper-s31-wifi/paper_protocol.h:76-100 | whatever the bytes: an accepted file is mono or stereo at 8 to 48 kHz with whole frames that all lie inside the file |
| WavChunks.ReadsChunks | firmware/apps/paper-s31-wifi/paper_protocol.h:72-101 | for every list of chunks with padding and anything behind it: the file is accepted with these parameters and this place if and only if its size is in range, the format and data chunks that count give them, and no format before is bad; other chunks never matter |
| WavChunks.OrdinaryFile | firmware/apps/paper-s31-wifi/paper_protocol.h:83-100 | mono or stereo, 8 to 48 kHz, with any other chunks before, between and behind: rate, channels and exactly the data are found |
| Resampler.FrameExists | firmware/apps/paper-s31-wifi/paper_music.cc:78-82 | output sample k exists exactly while its frame, ceil((k+1)*rate/16000) - 1, does |
| Resampler.MeanOfChannels | firmware/apps/paper-s31-wifi/paper_music.cc:79-79 | a stereo frame becomes the mean of its channels but for half a unit lost toward zero |
| Resampler.Emit | firmware/apps/paper-s31-wifi/paper_music.cc:80-81 | a frame is repeated exactly for the output samples it is sounding at |
| Resampler.Convert | firmware/apps/paper-s31-wifi/paper_music.cc:77-82 | a chunk's output is the next stretch of the resampled file and fits 2048 samples |
| Resampler.BoundIsTight | firmware/apps/paper-s31-wifi/paper_music.cc:77-82 | a whole chunk of 8 kHz mono fills the 2048 samples |
| Resampler.Play | firmware/apps/paper-s31-wifi/paper_music.cc:71-84 | what is handed on is always a beginning of the resampled file, and all floor(frames*16000/rate) samples of it unless stopped or the card fails |
| Resampler.PlayFile | firmware/apps/paper-s31-wifi/paper_music.cc:65-86 | the same for any file, and nothing for one the reader refuses |
| Recordings.Listing.HandleList | firmware/apps/korvo-ble/recordings.cc:35-154 | every error case with its code and an untouched buffer, and otherwise the serialised page |
| Recordings.Listing.List | firmware/apps/korvo-ble/recordings.cc:72-149 | one pass over the directory gives the page from the offset, or 1005 if its first entry does not fit |
| Recordings.AnswerReadsBack | firmware/apps/korvo-ble/recordings.cc:128-149 | parsing the answer gives the page if and only if its entries can be counted in 16 bits, which up to 1 MiB they always can |
| Recordings.RecordingIsListed | firmware/apps/korvo-ble/recordings.cc:127-137 | on the wire a stopped recording has its name, the size of its file, the time of its last change and the length of its samples, each in its place |
| Recordings.RequestReadsBack | firmware/apps/korvo-ble/recordings.cc:43-57 | requests of every length read back as written, and an unknown scope is refused |
| RecordingPages.CutIsFirst | firmware/apps/korvo-ble/recordings.cc:91-126 | a page ends at the first entry it may not pass: entry limit reached, or an entry that can be shown does not fit |
| RecordingPages.PageParses | firmware/apps/korvo-ble/recordings.h:14-17 | the wire format of any page can be read back |
| RecordingCursor.PageFits | firmware/apps/korvo-ble/recordings.cc:121-149 | every page fits the response and its entry limit |
| RecordingCursor.CursorExact | firmware/apps/korvo-ble/recordings.cc:142-147 | a page with more to come makes progress, and next_offset is the place behind the passed entries exactly up to 65535 |
| RecordingCursor.CollectsOnce | firmware/apps/korvo-ble/recordings.cc:83-147 | for at most 65536 counted entries and any limits in every request: following next_offset ends, and collects every entry that can be shown once and in order, or everything before an entry too large for the page asked for |
| RecordingCursor.FailsOnLargeEntry | firmware/apps/korvo-ble/recordings.cc:120-126 | with one budget the listing fails if and only if some entry that can be shown is larger than it |
| RecordingCursor.NeverEnds | firmware/apps/korvo-ble/recordings.cc:83-147 | where every entry fits and the directory is longer than a page behind offset 65535, every page ever asked for has more to come, and no entry further back is shown |
| RecordingCursor.OneAtATime | firmware/apps/korvo-ble/recordings.cc:83-147 | asked for one entry at a time the n-th request is for offset n, and from 0 again after 65536 |
| RecordingCursor.EndsExactly | firmware/apps/korvo-ble/recordings.cc:83-147 | one at a time the list ends if and only if at most 65536 entries count |
| SpeakerReset.ResetSafe | firmware/apps/m5stack-stopwatch-wifi/watch_wifi_audio.cc:29-81 | over every interleaving of Play, Reset and PlayLoop: buffered bytes were accepted in the generation in force, a chunk handed over was accepted in the generation re-read before it, played bytes are a subsequence of the accepted ones |
| SpeakerReset.ResetTakesEffect | firmware/apps/m5stack-stopwatch-wifi/watch_wifi_audio.cc:43-81 | after a Reset nothing accepted earlier is handed over, but for the one chunk past its last check |
| SpeakerReset.ChunksAreWhole | firmware/apps/ai-passport-wifi/passport_wifi_audio.cc:32-72 | on the Passport every chunk begins and ends on a sample; on the watch so long as every block is even |
| SpeakerReset.QueueFits | firmware/apps/ai-passport-wifi/passport_wifi_audio.cc:32-41 | the buffer never holds more than its capacity |
| SpeakerReset.LevelIsHonest | firmware/apps/ai-passport-wifi/passport_wifi_audio.cc:26-41 | a block that fits what the advertised level leaves free is accepted whole, unless something comes between; while a Reset is pending nothing is promised |
| SpeakerReset.BlockIsHeard | firmware/apps/m5stack-stopwatch-wifi/watch_wifi_audio.cc:29-81 | on both devices, from any resting state, a block that fits and is left alone reaches the codec whole, but for half a sample at its end |
| SpeakerReset.OddBlockShifts | firmware/apps/m5stack-stopwatch-wifi/watch_wifi_audio.cc:29-81 | on the watch any odd block that fits the buffer makes the next block start in the middle of a sample |
| SpeakerReset.WholeIffEven | firmware/apps/m5stack-stopwatch-wifi/watch_wifi_audio.cc:29-81 | on the watch blocks of a given length, among even ones, leave every chunk whole in every run if and only if that length is even |
| BoxFilter.WeightsOfPixel | firmware/apps/wownny-muse/voice_ui.cc:334-344 | the weights of an output pixel sum to the image's width |
| BoxFilter.WeightsOfCell | firmware/apps/wownny-muse/voice_ui.cc:334-344 | the weights a source cell gets from all output pixels sum to the output's width |
| BoxFilter.BlendBetween | firmware/apps/wownny-muse/voice_ui.cc:356-369 | a rounded channel lies between the least and the greatest value under the pixel |
| BoxFilter.RoundedIsNearest | firmware/apps/wownny-muse/voice_ui.cc:367-369 | the rounded channel is a nearest whole number to the mean |
| BoxFilter.BlendTotal | firmware/apps/wownny-muse/voice_ui.cc:346-369 | before rounding the output holds every cell exactly px*px times |
| AvatarScaler.Avatar.InitTaps | firmware/apps/wownny-muse/voice_ui.cc:334-344 | for px <= width <= 2*px at most three taps a pixel, inside the image, with the exact overlaps as one-byte weights, and nothing outside them |
| AvatarScaler.Avatar.ShrinkAvatar | firmware/apps/wownny-muse/voice_ui.cc:346-371 | every output pixel is the rounded box average over the whole image, also where the image is only copied |
| AvatarScaler.Avatar.AddLine | firmware/apps/wownny-muse/voice_ui.cc:358-366 | the loop over taps adds up one line of the average of each channel |
| AvatarScaler.ScaledBetween | firmware/apps/wownny-muse/voice_ui.cc:356-369 | each channel of a packed output pixel lies between those of the cells under it |
| AvatarScaler.ConstantStays | firmware/apps/wownny-muse/voice_ui.cc:346-371 | an image of one colour keeps it at every size |
| AvatarScaler.SameSizeStays | firmware/apps/wownny-muse/voice_ui.cc:347-350 | at its own size the filter changes nothing |
| BadgeStore.NoUpdateIsLost | firmware/apps/work-badge/badge_data.cc:38-116 | over every interleaving with failing flash: a saved value that differs from memory is notified, pending or about to be notified, but for a field Load could not read; when all is quiet flash equals memory exactly but for such a field with another saved value |
| BadgeStore.MemoryShowsLast | firmware/apps/work-badge/badge_data.cc:77-116 | over every run memory shows the text of the last Set of a field, or without one what Load read or else the default |
| BadgeStore.LastSetIsSaved | firmware/apps/work-badge/badge_data.cc:38-116 | once all is quiet the next start shows that text, if and only if it is not so that Load overlooked a saved text and every Set brought the default |
| BadgeStore.GoodRoundSavesLast | firmware/apps/work-badge/badge_data.cc:38-60 | the same after one round without failure; a text other than the default is then always in the flash |
| BadgeStore.OneGoodRoundSavesAll | firmware/apps/work-badge/badge_data.cc:38-60 | once no Set runs, one round without failure leaves nothing pending and the flash as memory is |
| BadgeStore.Utf8SafeLen | firmware/apps/work-badge/badge_data.cc:64-69 | the longest cut of at most len bytes that is not before a continuation byte |
| BadgeStore.CutKeepsCharacters | firmware/apps/work-badge/badge_data.cc:62-69 | on UTF-8 text that cut keeps whole characters, as many as fit |
| BadgeStore.Stored | firmware/apps/work-badge/badge_data.cc:104-108 | the text up to its first zero byte, a text over 47 bytes cut by Utf8SafeLen first |

## Left out

- Counters that do not wrap: Passport generations beyond 2^29 - 1 apart, pause tickets, views and speaker generations are unbounded; `WrappedTellsApart` says how far apart 29-bit generations stay distinct.
- Weak memory ordering: tasks interleave by atomic actions, a region under a lock is one action.
- Time: deadlines, debouncing and the playback gate answer as they like; so do the unlocked early checks of the Passport's play task that a locked check repeats.
- Silence written to the Passport's codec between generations, statistics and logging.
- Glyphs and line breaking: a text is any set of pixels that depends only on its operation, clipped to its box; `WrapGlyph` is not modelled.
- The 2 KiB limit of the e-paper change key and the fixed sizes of its texts: strings are unbounded, so truncation is not modelled; nor is the delay that gathers a streamed answer.
- EpaperController.Controller.Turn: the platform's answers, storage, the call's end and the queues' readiness are parameters; messages, volume keys and battery are left out.
- EpaperDevice.Device.Turn: a turn of the control task is one step of the composition, so that the worker's two stores of scene and view do not fall between the task's two loads of them.
- The Passport's codec obeys every call of SetMute: the source discards the results, and the rows about muting rest on their success.
- WavRecorder.Recorder.Write: after a short write the file's contents are left open; what a truncated recording still holds is not stated.
- Recordings.Listing.HandleList: for response buffers above 1 MiB (the device has 128 bytes) the entry count may wrap, and only the error cases before the directory is read are stated; the directory does not change between pages.
- Recordings.Listing.List: the same holds for its page.
- Resampler.Play: what `PlayLocal` does with a chunk is not modelled, only what is handed to it.
- SpeakerReset.ResetSafe: the speaker clones of the e-paper, paper and korvo boards run the same protocol and are not modelled again; `PlayLocal` checks the generation outside the lock and is not covered.
- AvatarScaler.Avatar.ShrinkAvatar: 32-bit sums cannot overflow for images up to 255 cells wide and are plain integers.
- BadgeStore.NoUpdateIsLost: the writer task exists; without it nothing is ever saved.
- LVGL screens, touch, haptics, levels and other floating point, tool calls in JSON, board configuration and the Python tools.
- Small debouncers and clamps (`Key`, `Volume`, `Controls`) would add only easy members.
