/** `_transfer` of `owned_copy.py`: a native copy that may fail anywhere, then a buffered one. */
module OwnedCopy {
  import opened Wrappers
  import opened Basics

  const Chunk: nat := 1024 * 1024

  datatype Mechanism = CopyFileRange | Buffered
  datatype Failure = SourceShortened | ShortWrite | ReadFailed | WriteFailed

  function Zeros(n: nat): seq<Byte> { seq(n, _ => 0) }

  /** A file after `data` is written at `pos`, zero-filled up to there. */
  function WriteAt(content: seq<Byte>, pos: nat, data: seq<Byte>): seq<Byte> {
    var padded := if pos <= |content| then content else content + Zeros(pos - |content|);
    padded[..pos] + data + (if pos + |data| <= |content| then content[pos + |data|..] else [])
  }

  ghost predicate Increasing(s: seq<nat>) { forall i, j :: 0 <= i < j < |s| ==> s[i] < s[j] }

  /** What a run may have reported on its way from `start` to `position`. */
  ghost predicate Reports(s: seq<nat>, start: nat, position: nat) {
    && Increasing(s)
    && (forall i :: 0 <= i < |s| ==> start < s[i] <= position)
  }

  function Last(s: seq<nat>, start: nat): nat { if s == [] then start else s[|s| - 1] }

  class Copy {
    const source: seq<Byte>
    const progress: bool
    var inPos: nat
    var out: seq<Byte>
    var outPos: nat
    var reported: nat
    var reports: seq<nat>
    // What the kernel last did wrong: a native copy that failed or stood still, and anything else.
    var nativeBroke: bool
    var trouble: Option<Failure>

    constructor (source: seq<Byte>, progress: bool, reported: nat)
      ensures this.source == source && this.progress == progress && this.reported == reported
      ensures inPos == 0 && out == [] && outPos == 0 && reports == []
      ensures !nativeBroke && trouble == None
    {
      this.source, this.progress, this.reported := source, progress, reported;
      inPos, out, outPos, reports := 0, [], 0, [];
      nativeBroke, trouble := false, None;
    }

    // ------------------------------------------------------------ the kernel

    /** Copies some bytes, fewer than asked perhaps; or fails, leaving file and offsets anyhow. */
    method CopyRange(most: nat) returns (r: Option<nat>)
      modifies this`inPos, this`out, this`outPos, this`nativeBroke
      ensures nativeBroke <==> old(nativeBroke) || r == None || r == Some(0)
      ensures r.Some? ==> r.value <= most && inPos == old(inPos) + r.value
      ensures r.Some? ==> outPos == old(outPos) + r.value
      ensures r == Some(0) ==> out == old(out)
      ensures r.Some? && r.value > 0 ==>
        inPos <= |source| && out == WriteAt(old(out), old(outPos), source[old(inPos)..inPos])
    {
      var fails: bool, n: nat := *, *;
      if fails {
        inPos, out, outPos := *, *, *;
        nativeBroke := true;
        return None;
      }
      if n > most { n := most; }
      if inPos + n > |source| { n := if inPos <= |source| then |source| - inPos else 0; }
      if n > 0 { out := WriteAt(out, outPos, source[inPos..inPos + n]); } else { nativeBroke := true; }
      inPos, outPos := inPos + n, outPos + n;
      r := Some(n);
    }

    /** Reads at least a byte unless the file ends. */
    method Read(most: nat) returns (r: Option<seq<Byte>>)
      requires most > 0
      modifies this`inPos, this`trouble
      ensures trouble == if r == None then Some(ReadFailed)
                         else if r.value == [] then Some(SourceShortened) else old(trouble)
      ensures r.Some? ==>
        && |r.value| <= most && inPos == old(inPos) + |r.value|
        && (r.value == [] <==> old(inPos) >= |source|)
        && (r.value != [] ==> inPos <= |source| && r.value == source[old(inPos)..inPos])
    {
      var fails: bool, n: nat := *, *;
      if fails { trouble := Some(ReadFailed); return None; }
      if inPos >= |source| { trouble := Some(SourceShortened); return Some([]); }
      if n == 0 { n := 1; }
      if n > most { n := most; }
      if inPos + n > |source| { n := |source| - inPos; }
      r := Some(source[inPos..inPos + n]);
      inPos := inPos + n;
    }

    method Write(data: seq<Byte>) returns (r: Option<nat>)
      modifies this`out, this`outPos, this`trouble
      ensures trouble == if r == None then Some(WriteFailed)
                         else if r.value == 0 then Some(ShortWrite) else old(trouble)
      ensures r.Some? ==>
        && r.value <= |data| && outPos == old(outPos) + r.value
        && out == WriteAt(old(out), old(outPos), data[..r.value])
    {
      var fails: bool, n: nat := *, *;
      if fails { out, outPos, trouble := *, *, Some(WriteFailed); return None; }
      if n > |data| { n := |data|; }
      if n == 0 { trouble := Some(ShortWrite); }
      out := WriteAt(out, outPos, data[..n]);
      outPos := outPos + n;
      r := Some(n);
    }

    // ------------------------------------------------------------ the program

    /** The first `copied` bytes have arrived and both offsets stand behind them. */
    ghost predicate Aligned(copied: nat)
      reads this
    {
      copied <= |source| && inPos == copied && outPos == copied && out == source[..copied]
    }

    ghost predicate Told(start: nat, position: nat)
      reads this
    {
      && Reports(reports, start, position) && reported == Last(reports, start)
      && (progress && position > start ==> reported == position)
      && (!progress ==> reports == [])
    }

    method Advance(position: nat, ghost start: nat, ghost high: nat)
      requires Told(start, high)
      modifies this`reported, this`reports
      ensures Told(start, Max(high, position))
    {
      if progress && position > reported {
        reported := position;
        reports := reports + [reported];
      }
    }

    /** True if every byte went the native way; `reached` is how far it got. */
    method Native(length: nat, ghost start: nat) returns (done: bool, ghost reached: nat)
      requires Aligned(0) && Told(start, 0)
      modifies this
      ensures reached <= length && Told(start, reached)
      ensures done ==> reached == length && Aligned(length)
      ensures nativeBroke <==> old(nativeBroke) || !done
      ensures trouble == old(trouble)
    {
      var copied := 0;
      while copied < length
        invariant copied <= length && Aligned(copied) && Told(start, copied)
        invariant nativeBroke == old(nativeBroke) && trouble == old(trouble)
        decreases length - copied
      {
        var r := CopyRange(Min(Chunk, length - copied));
        if r == None || r.value == 0 { return false, copied; }
        ghost var before := copied;
        copied := copied + r.value;
        Advance(copied, start, before);
      }
      return true, copied;
    }

    method Drain(block: seq<Byte>, from: nat, ghost start: nat, ghost reached: nat)
      returns (copied: nat, error: Option<Failure>)
      requires from <= inPos <= |source| && block == source[from..inPos] && inPos == from + |block|
      requires outPos == from && out == source[..from] && Told(start, Max(reached, from))
      modifies this
      ensures inPos == old(inPos) && nativeBroke == old(nativeBroke)
      ensures trouble == if error.Some? then error else old(trouble)
      ensures error == None ==> copied == inPos && Aligned(copied)
      ensures error.Some? ==> error != Some(SourceShortened)
      ensures copied <= inPos && Told(start, Max(reached, copied))
    {
      copied := from;
      var view := block;
      while view != []
        invariant from <= copied <= inPos == old(inPos) && view == source[copied..inPos]
        invariant outPos == copied && out == source[..copied] && Told(start, Max(reached, copied))
        invariant trouble == old(trouble) && nativeBroke == old(nativeBroke)
        decreases |view|
      {
        var r := Write(view);
        if r == None { return copied, Some(WriteFailed); }
        if r.value == 0 { return copied, Some(ShortWrite); }
        ghost var before := copied;
        copied := copied + r.value;
        assert view[..r.value] == source[before..copied];
        view := view[r.value..];
        Advance(copied, start, Max(reached, before));
      }
      error := None;
    }

    method Fallback(length: nat, ghost start: nat, ghost reached: nat)
      returns (r: Result<Mechanism, Failure>)
      requires Aligned(0) && Told(start, reached) && reached <= length && trouble == None
      modifies this
      ensures trouble == (match r case Ok(_) => None case Err(e) => Some(e))
      ensures nativeBroke == old(nativeBroke) && (r.Ok? ==> r.value == Buffered)
      ensures r.Ok? ==> Aligned(length) && Told(start, length)
      ensures r.Err? ==> Reports(reports, start, length) && (!progress ==> reports == [])
      ensures r == Err(SourceShortened) ==> |source| < length
    {
      var copied := 0;
      while copied < length
        invariant copied <= length && Aligned(copied) && Told(start, Max(reached, copied))
        invariant trouble == None && nativeBroke == old(nativeBroke)
        decreases length - copied
      {
        var block := Read(Min(Chunk, length - copied));
        if block == None { return Err(ReadFailed); }
        if block.value == [] { return Err(SourceShortened); }
        var error;
        copied, error := Drain(block.value, copied, start, reached);
        if error.Some? { return Err(error.value); }
      }
      r := Ok(Buffered);
    }

    /**
      Whatever the native copy left behind, a normal return means the first `length` bytes have
      arrived; and what was reported rises strictly from `reported` to at most `length`. The
      mechanism named is the one that copied, and the error the one that happened.
     */
    method Transfer(length: nat, hasCopyFileRange: bool) returns (r: Result<Mechanism, Failure>)
      requires Aligned(0) && reports == [] && !nativeBroke && trouble == None
      modifies this
      ensures trouble == (match r case Ok(_) => None case Err(e) => Some(e))
      ensures r.Ok? ==> (r.value == CopyFileRange <==> hasCopyFileRange && !nativeBroke)
      ensures r.Ok? ==> length <= |source| && out == source[..length]
      ensures r == Err(SourceShortened) ==> |source| < length
      ensures Reports(reports, old(reported), length)
      ensures !progress ==> reports == []
      ensures r.Ok? && progress && length > old(reported) ==> Last(reports, old(reported)) == length
    {
      ghost var start := reported;
      ghost var reached := 0;
      if hasCopyFileRange {
        var done;
        done, reached := Native(length, start);
        if done { return Ok(CopyFileRange); }
        out, outPos, inPos := [], 0, 0;
      }
      r := Fallback(length, start, reached);
    }
  }

}
