/**
Copying one validated artifact into the staging directory: whatever the source does between
reads, a copy that succeeds has exactly the validated size and digest.
 */
module Staging {
  type Byte = b: int | 0 <= b < 256

  const BUFFER := 0x10_0000

  datatype Metadata = Metadata(size: nat, digest: seq<Byte>)

  /** An open source file. A `steady` one keeps its content and serves it piece by piece; any other may serve anything. */
  class SourceFile {
    const steady: bool
    const content: seq<Byte>
    var offset: nat

    ghost predicate Valid()
      reads this
    {
      offset <= |content|
    }

    constructor (content: seq<Byte>, steady: bool)
      ensures Valid() && this.content == content && this.steady == steady && offset == 0
    {
      this.content := content;
      this.steady := steady;
      offset := 0;
    }

    method Read() returns (chunk: seq<Byte>, eof: bool, failed: bool)
      requires Valid()
      modifies this`offset
      ensures Valid() && |chunk| <= BUFFER && old(offset) <= offset
      ensures steady ==> !failed && chunk == content[old(offset)..offset] && (eof ==> offset == |content|)
      ensures steady ==> eof || offset > old(offset)
    {
      if !steady {
        var any: seq<Byte> := *;
        eof, failed := *, *;
        chunk := if |any| > BUFFER then any[..BUFFER] else any;
        return;
      }
      failed := false;
      var rest := |content| - offset;
      if rest == 0 {
        return [], true, false;
      }
      var want: int := *;
      var count := if want < 1 then 1 else want;
      count := if count > BUFFER then BUFFER else count;
      count := if count > rest then rest else count;
      chunk := content[offset..offset + count];
      offset := offset + count;
      var together: bool := *;
      eof := together && offset == |content|;
    }
  }

  /** The staged file as it grows. */
  class StagedFile {
    var written: seq<Byte>

    constructor ()
      ensures written == []
    {
      written := [];
    }

    method Write(chunk: seq<Byte>, calm: bool) returns (ok: bool)
      modifies this
      ensures exists k | 0 <= k <= |chunk| :: written == old(written) + chunk[..k]
      ensures ok ==> written == old(written) + chunk
      ensures calm ==> ok
    {
      var accepted: int := *;
      var k := if calm || accepted > |chunk| then |chunk| else if accepted < 0 then 0 else accepted;
      written := written + chunk[..k];
      ok := k == |chunk|;
    }
  }

  /**
  The copy loop with its running digest. It never stages more than the validated size, success
  means exactly the validated content, and a steady source is copied whatever the chunks.
   */
  method CopyArtifact(source: SourceFile, staged: StagedFile, expected: Metadata, digest: seq<Byte> -> seq<Byte>) returns (ok: bool)
    requires source.Valid() && source.offset == 0 && staged.written == []
    modifies source, staged
    ensures |staged.written| <= expected.size
    ensures ok ==> |staged.written| == expected.size && digest(staged.written) == expected.digest
    ensures source.steady ==> (ok <==> |source.content| == expected.size && digest(source.content) == expected.digest)
    ensures source.steady && ok ==> staged.written == source.content
  {
    var hashed: seq<Byte> := [];
    var complete: bool;
    complete, hashed := CopyChunks(source, staged, expected.size);
    if !complete {
      return false;
    }
    ok := |hashed| == expected.size && digest(hashed) == expected.digest;
  }

  method CopyChunks(source: SourceFile, staged: StagedFile, size: nat) returns (complete: bool, hashed: seq<Byte>)
    requires source.Valid() && source.offset == 0 && staged.written == []
    modifies source, staged
    ensures |staged.written| <= size
    ensures complete ==> staged.written == hashed
    ensures source.steady ==> (complete <==> |source.content| <= size)
    ensures source.steady && complete ==> hashed == source.content
  {
    hashed := [];
    var attempts: int := *;
    if source.steady && attempts < |source.content| + 2 {
      attempts := |source.content| + 2;
    }
    while attempts > 0
      invariant source.Valid() && staged.written == hashed && |hashed| <= size
      invariant source.steady ==> hashed == source.content[..source.offset] && attempts > |source.content| - source.offset
    {
      var chunk, eof, failed := source.Read();
      if |chunk| > 0 {
        if |chunk| > size - |hashed| {
          return false, hashed;
        }
        var written := staged.Write(chunk, source.steady);
        if !written {
          return false, hashed;
        }
        hashed := hashed + chunk;
      }
      if eof {
        return true, hashed;
      }
      if failed {
        return false, hashed;
      }
      attempts := attempts - 1;
    }
    complete := false;
  }
}
