/** A file with a position, as the C library gives it: writing and reading may stop short and seeking may
    fail, whenever the card likes. */
module WavFile {
  import opened Basics

  /** `before` with `data` in place of what was there from `at` on, longer if need be. */
  function Overwritten(before: seq<Byte>, at: nat, data: seq<Byte>): (bytes: seq<Byte>)
    requires at <= |before|
    ensures |bytes| == if at + |data| < |before| then |before| else at + |data|
  {
    before[..at] + data + if at + |data| < |before| then before[at + |data|..] else []
  }

  lemma Appended(before: seq<Byte>, data: seq<Byte>, from: nat)
    requires from <= |before|
    ensures Overwritten(before, |before|, data) == before + data
    ensures (before + data)[from..] == before[from..] + data
  {
  }

  class File {
    var bytes: seq<Byte>
    var position: nat
    /** Whether any operation so far has fallen short. */
    ghost var faulty: bool

    ghost predicate Valid()
      reads this
    {
      position <= |bytes|
    }

    constructor (content: seq<Byte>)
      ensures Valid() && bytes == content && position == 0 && !faulty
    {
      bytes, position, faulty := content, 0, false;
    }

    method Write(data: seq<Byte>) returns (n: nat)
      requires Valid()
      modifies this
      ensures Valid() && n <= |data| && faulty == (old(faulty) || n < |data|)
      ensures bytes == Overwritten(old(bytes), old(position), data[..n]) && position == old(position) + n
    {
      var any: int := *;
      n := if 0 <= any < |data| then any else |data|;
      faulty := faulty || n < |data|;
      bytes := Overwritten(bytes, position, data[..n]);
      position := position + n;
    }

    method Read(count: nat) returns (data: seq<Byte>)
      requires Valid()
      modifies `position, `faulty
      ensures Valid() && |data| <= count && position == old(position) + |data|
      ensures data == bytes[old(position)..position]
      ensures faulty == (old(faulty) || |data| < Min(count, |bytes| - old(position)))
    {
      var any: int := *;
      var most := Min(count, |bytes| - position);
      var n := if 0 <= any < most then any else most;
      faulty := faulty || n < most;
      data := bytes[position..position + n];
      position := position + n;
    }

    method Seek(to: nat) returns (ok: bool)
      requires Valid() && to <= |bytes|
      modifies `position, `faulty
      ensures Valid() && position == (if ok then to else old(position)) && faulty == (old(faulty) || !ok)
    {
      ok := *;
      faulty := faulty || !ok;
      if ok { position := to; }
    }
  }
}
