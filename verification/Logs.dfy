/** The supervisor's bounded log file: at the size cap it is emptied before the next complete write. */
module Logs {
  type Byte = b: int | 0 <= b < 256

  /** What a write wants on file: all of it, or the last `maximum` bytes of an oversized one. */
  function Trimmed(data: seq<Byte>, maximum: nat): (r: seq<Byte>) {
    if |data| > maximum then data[|data| - maximum..] else data
  }

  /** Whether the file is emptied first. */
  predicate Overflows(file: seq<Byte>, data: seq<Byte>, maximum: nat) {
    |data| > maximum || |file| + |data| > maximum
  }

  /** The file after one undisturbed write. */
  function After(file: seq<Byte>, data: seq<Byte>, maximum: nat): (r: seq<Byte>) {
    if data == [] then file
    else (if Overflows(file, data, maximum) then [] else file) + Trimmed(data, maximum)
  }

  class BoundedSupervisorLog {
    const maximum: nat
    /** No system call fails and nothing is written short. */
    const calm: bool
    var file: seq<Byte>
    var size: nat
    var closed: bool

    ghost predicate Valid()
      reads this
    {
      |file| <= maximum
    }

    /** Open an existing file; one that is already too long is emptied, or not opened at all. */
    constructor (maximum: nat, calm: bool, found: seq<Byte>)
      requires maximum > 0
      ensures Valid() && !closed && this.maximum == maximum && this.calm == calm
      ensures |found| <= maximum ==> file == found
    {
      this.maximum := maximum;
      this.calm := calm;
      file := if |found| > maximum then [] else found;
      size := if |found| > maximum then 0 else |found|;
      closed := false;
    }

    method Reset() returns (ok: bool)
      modifies this`file, this`size
      ensures file == [] || (!ok && file == old(file))
      ensures ok ==> file == [] && size == 0
      ensures calm ==> ok
    {
      var truncated: bool, rewound: bool := *, *;
      if !calm && !truncated {
        return false;
      }
      file := [];
      if !calm && !rewound {
        return false;
      }
      size := 0;
      ok := true;
    }

    /** One append by the operating system: some prefix, and perhaps an error. */
    method Append(data: seq<Byte>) returns (count: nat, ok: bool)
      requires data != []
      modifies this`file
      ensures count <= |data| && file == old(file) + data[..count]
      ensures calm ==> ok && count == |data|
    {
      var accepted: int, failed: bool := *, *;
      count := if calm || accepted > |data| then |data| else if accepted < 0 then 0 else accepted;
      file := file + data[..count];
      ok := calm || !failed;
    }

    /** Never leaves more than `maximum` bytes, and on success leaves exactly what the write is meant to. */
    method Write(input: seq<Byte>) returns (written: nat, ok: bool)
      requires Valid()
      modifies this`file, this`size
      ensures Valid()
      ensures closed ==> !ok && file == old(file)
      ensures ok ==> written == |input| && file == After(old(file), input, maximum)
      ensures !ok ==> written == 0 && PartlyWritten(old(file), file, input)
      ensures calm && !closed ==> ok
    {
      assert file == file + Trimmed(input, maximum)[..0];
      if closed {
        return 0, false;
      }
      if |input| == 0 {
        return 0, true;
      }
      var inspected: bool := *;
      if !calm && !inspected {
        return 0, false;
      }
      size := |file|;
      var data := input;
      if |data| > maximum {
        data := data[|data| - maximum..];
        ok := Reset();
      } else if size + |data| > maximum {
        ok := Reset();
      } else {
        ok := true;
      }
      assert file == file + data[..0];
      if !ok {
        return 0, false;
      }
      ok := WriteAll(data);
      written := if ok then |input| else 0;
    }

    /** What an interrupted write may leave: the old file or an emptied one, followed by a part of the data. */
    ghost predicate PartlyWritten(before: seq<Byte>, after: seq<Byte>, input: seq<Byte>) {
      exists k | 0 <= k <= |Trimmed(input, maximum)| ::
        || after == before + Trimmed(input, maximum)[..k]
        || (Overflows(before, input, maximum) && after == [] + Trimmed(input, maximum)[..k])
    }

    method WriteAll(data: seq<Byte>) returns (ok: bool)
      requires |file| + |data| <= maximum
      modifies this`file, this`size
      ensures ok ==> file == old(file) + data
      ensures exists k | 0 <= k <= |data| :: file == old(file) + data[..k]
      ensures calm ==> ok
    {
      var done := 0;
      assert file == old(file) + data[..0];
      while done < |data|
        invariant 0 <= done <= |data| && file == old(file) + data[..done]
        decreases |data| - done
      {
        var count, accepted := Append(data[done..]);
        assert data[..done] + data[done..][..count] == data[..done + count];
        done := done + count;
        size := size + count;
        if !accepted || count == 0 {
          return false;
        }
      }
      assert data[..done] == data;
      ok := true;
    }
  }

  // ---- any number of writes ------------------------------------------------------------------------------

  function Contents(found: seq<Byte>, writes: seq<seq<Byte>>, maximum: nat): (r: seq<Byte>) {
    if writes == [] then found
    else After(Contents(found, writes[..|writes| - 1], maximum), writes[|writes| - 1], maximum)
  }

  function Concat(writes: seq<seq<Byte>>): (r: seq<Byte>) {
    if writes == [] then [] else Concat(writes[..|writes| - 1]) + writes[|writes| - 1]
  }

  /** The bound holds after every write, failed or not; undisturbed writes leave what the rule says. */
  method WriteMany(log: BoundedSupervisorLog, writes: seq<seq<Byte>>)
    requires log.Valid()
    modifies log`file, log`size
    ensures log.Valid()
    ensures log.calm && !log.closed ==> log.file == Contents(old(log.file), writes, log.maximum)
  {
    for k := 0 to |writes|
      invariant log.Valid()
      invariant log.calm && !log.closed ==> log.file == Contents(old(log.file), writes[..k], log.maximum)
    {
      var written, ok := log.Write(writes[k]);
      assert writes[..k + 1][..k] == writes[..k];
    }
    assert writes[..|writes|] == writes;
  }

  /** The last writes from position k on, after nothing, after what was found, or after one oversized write. */
  predicate EndsWith(file: seq<Byte>, found: seq<Byte>, writes: seq<seq<Byte>>, maximum: nat, k: nat)
    requires k <= |writes|
  {
    || file == Concat(writes[k..])
    || (k == 0 && file == found + Concat(writes))
    || (k > 0 && |writes[k - 1]| > maximum && file == Trimmed(writes[k - 1], maximum) + Concat(writes[k..]))
  }

  /** The log always consists of the most recent whole writes, but for what an oversized one lost. */
  lemma {:induction false} ContentsAreRecentWrites(found: seq<Byte>, writes: seq<seq<Byte>>, maximum: nat) returns (k: nat)
    requires |found| <= maximum
    ensures k <= |writes| && EndsWith(Contents(found, writes, maximum), found, writes, maximum, k)
    ensures |Contents(found, writes, maximum)| <= maximum
  {
    if writes == [] {
      k := 0;
      assert found + Concat(writes) == found;
    } else {
      var before := writes[..|writes| - 1];
      var last := writes[|writes| - 1];
      k := ContentsAreRecentWrites(found, before, maximum);
      var file := Contents(found, before, maximum);
      if last == [] || !Overflows(file, last, maximum) {
        LaterWrite(writes, k);
        ConcatWhole(writes);
        assert found + Concat(writes) == found + Concat(before) + last;
        if k > 0 {
          assert Trimmed(writes[k - 1], maximum) + Concat(writes[k..]) == Trimmed(writes[k - 1], maximum) + Concat(before[k..]) + last;
        }
      } else if |last| > maximum {
        k := |writes|;
        assert Trimmed(last, maximum) + Concat(writes[k..]) == Trimmed(last, maximum);
      } else {
        k := |writes| - 1;
        assert writes[k..] == [last];
        assert writes[k..][..0] == [];
        assert Concat([last]) == Concat([]) + last;
      }
    }
  }

  lemma LaterWrite(writes: seq<seq<Byte>>, k: nat)
    requires writes != [] && k < |writes|
    ensures Concat(writes[k..]) == Concat(writes[..|writes| - 1][k..]) + writes[|writes| - 1]
  {
    assert writes[k..][..|writes[k..]| - 1] == writes[..|writes| - 1][k..];
  }

  lemma ConcatWhole(writes: seq<seq<Byte>>)
    requires writes != []
    ensures Concat(writes) == Concat(writes[..|writes| - 1]) + writes[|writes| - 1]
  {
  }
}
