/** Draining a pipe of llama-server in blocks (gateway/server_manager.py, _drain_stream). */
module PipeDrainer {
  type Byte = b: nat | b < 256
  type Bytes = seq<Byte>

  const NL: Byte := 10
  const MAX_LINE := 8192
  const MAX_CHUNK := 65536

  /** The position of the first newline, or the length. */
  function FirstNl(s: Bytes): (i: nat)
    ensures i <= |s| && (i < |s| ==> s[i] == NL) && forall k :: 0 <= k < i ==> s[k] != NL
  {
    if s == [] || s[0] == NL then 0 else 1 + FirstNl(s[1..])
  }

  /** The complete lines of s, and what is left of an open one. */
  function Complete(s: Bytes): seq<Bytes>
    decreases |s|
  {
    var i := FirstNl(s);
    if i == |s| then [] else [s[..i]] + Complete(s[i + 1..])
  }

  function Open(s: Bytes): (r: Bytes)
    decreases |s|
  {
    var i := FirstNl(s);
    if i == |s| then s else Open(s[i + 1..])
  }

  /** What readline would have produced: every complete line, and the rest if there is any. */
  function Split(s: Bytes): seq<Bytes> { Complete(s) + if Open(s) == [] then [] else [Open(s)] }

  function Join(chunks: seq<Bytes>): Bytes {
    if chunks == [] then [] else chunks[0] + Join(chunks[1..])
  }

  /** The lines emitted for these blocks, pending being what is left of the previous ones. */
  function Drain(pending: Bytes, chunks: seq<Bytes>): seq<Bytes>
    decreases |chunks|
  {
    if chunks == [] then if pending == [] then [] else [pending]
    else
      var s := pending + chunks[0];
      if |Open(s)| > MAX_LINE then Complete(s) + ([Open(s)] + Drain([], chunks[1..]))
      else Complete(s) + Drain(Open(s), chunks[1..])
  }

  /** Some open line is cut at the end of a block that is not the last. */
  predicate Cut(pending: Bytes, chunks: seq<Bytes>)
    decreases |chunks|
  {
    chunks != []
    && (var s := pending + chunks[0];
        if |Open(s)| > MAX_LINE then |chunks| > 1 else Cut(Open(s), chunks[1..]))
  }

  function WithoutNl(s: Bytes): Bytes {
    if s == [] then [] else (if s[0] == NL then [] else [s[0]]) + WithoutNl(s[1..])
  }

  function Flat(lines: seq<Bytes>): Bytes { if lines == [] then [] else lines[0] + Flat(lines[1..]) }

  // ---------------------------------------------------------------- lines

  lemma {:induction false} FirstNlAppend(a: Bytes, b: Bytes)
    ensures FirstNl(a + b) == if FirstNl(a) < |a| then FirstNl(a) else |a| + FirstNl(b)
  {
    if a == [] {
      assert a + b == b;
    } else if a[0] != NL {
      assert (a + b)[1..] == a[1..] + b;
      FirstNlAppend(a[1..], b);
    }
  }

  lemma {:induction false} FirstLine(s: Bytes, i: nat)
    requires i == FirstNl(s)
    ensures i < |s| ==> Complete(s) == [s[..i]] + Complete(s[i + 1..]) && Open(s) == Open(s[i + 1..])
    ensures i == |s| ==> Complete(s) == [] && Open(s) == s
  {
  }

  /** Cutting the input anywhere, and keeping the open line, changes nothing. */
  lemma {:induction false} CompleteAppend(a: Bytes, b: Bytes)
    ensures Complete(a + b) == Complete(a) + Complete(Open(a) + b)
    ensures Open(a + b) == Open(Open(a) + b)
    decreases |a|
  {
    FirstNlAppend(a, b);
    var i := FirstNl(a);
    FirstLine(a, i);
    if i < |a| {
      FirstLine(a + b, i);
      SlicesAppend(a, b, i);
      CompleteAppend(a[i + 1..], b);
      ConsAppend(a[..i], Complete(a[i + 1..]), Complete(Open(a[i + 1..]) + b));
    }
  }

  lemma SlicesAppend(a: Bytes, b: Bytes, i: nat)
    requires i < |a|
    ensures (a + b)[..i] == a[..i] && (a + b)[i + 1..] == a[i + 1..] + b
  {
  }

  lemma ConsAppend(line: Bytes, s: seq<Bytes>, t: seq<Bytes>)
    ensures [line] + (s + t) == ([line] + s) + t
  {
  }

  lemma {:induction false} OpenHasNoNl(s: Bytes)
    ensures FirstNl(Open(s)) == |Open(s)|
    decreases |s|
  {
    var i := FirstNl(s);
    if i < |s| { OpenHasNoNl(s[i + 1..]); }
  }

  lemma {:induction false} SplitAppend(a: Bytes, b: Bytes)
    ensures Split(a + b) == Complete(a) + Split(Open(a) + b)
  {
    CompleteAppend(a, b);
  }

  // ---------------------------------------------------------------- nothing is lost

  lemma {:induction false} WithoutNlAppend(a: Bytes, b: Bytes)
    ensures WithoutNl(a + b) == WithoutNl(a) + WithoutNl(b)
  {
    if a == [] { assert a + b == b; } else {
      assert (a + b)[1..] == a[1..] + b;
      WithoutNlAppend(a[1..], b);
    }
  }

  lemma {:induction false} NoNlKept(s: Bytes)
    requires FirstNl(s) == |s|
    ensures WithoutNl(s) == s
  {
    if s != [] {
      assert s[0] != NL;
      NoNlKept(s[1..]);
    }
  }

  lemma {:induction false} FlatAppend(a: seq<Bytes>, b: seq<Bytes>)
    ensures Flat(a + b) == Flat(a) + Flat(b)
  {
    if a == [] { assert a + b == b; } else {
      assert (a + b)[1..] == a[1..] + b;
      FlatAppend(a[1..], b);
    }
  }

  lemma FlatCons(x: Bytes, lines: seq<Bytes>)
    ensures Flat([x] + lines) == x + Flat(lines)
  {
    assert ([x] + lines)[1..] == lines;
  }

  lemma Assoc(a: Bytes, b: Bytes, c: Bytes)
    ensures a + (b + c) == (a + b) + c
  {
  }

  lemma {:induction false} FirstLineKept(s: Bytes, i: nat)
    requires i == FirstNl(s) && i < |s|
    ensures WithoutNl(s) == s[..i] + WithoutNl(s[i + 1..])
  {
    if i > 0 {
      FirstLineKept(s[1..], i - 1);
      assert s[1..][i..] == s[i + 1..] && s[..i] == [s[0]] + s[1..][..i - 1];
      Assoc([s[0]], s[1..][..i - 1], WithoutNl(s[i + 1..]));
    }
  }

  lemma NoLines()
    ensures Flat([]) == []
  {
  }

  lemma {:induction false} CompleteKeeps(s: Bytes)
    ensures Flat(Complete(s)) + Open(s) == WithoutNl(s)
    decreases |s|
  {
    hide WithoutNl, Flat;
    var i := FirstNl(s);
    if i == |s| {
      NoNlKept(s);
      NoLines();
    } else {
      var t := s[i + 1..];
      CompleteKeeps(t);
      FirstLineKept(s, i);
      FlatCons(s[..i], Complete(t));
      Assoc(s[..i], Flat(Complete(t)), Open(t));
    }
  }

  /** For every chunking: all bytes but the newlines come out, in order, once. */
  lemma {:induction false} DrainLosesNothing(pending: Bytes, chunks: seq<Bytes>)
    requires FirstNl(pending) == |pending|
    ensures Flat(Drain(pending, chunks)) == WithoutNl(pending + Join(chunks))
    decreases |chunks|
  {
    if chunks == [] {
      assert pending + Join(chunks) == pending;
      NoNlKept(pending);
      if pending != [] { FlatCons(pending, []); assert [pending] + [] == [pending] && pending + [] == pending; }
    } else {
      var s, rest := pending + chunks[0], chunks[1..];
      var open := Open(s);
      OpenHasNoNl(s);
      BlockKept(pending, chunks[0], Join(rest));
      if |open| > MAX_LINE {
        DrainLosesNothing([], rest);
        FlatAppend(Complete(s), [open] + Drain([], rest));
        FlatCons(open, Drain([], rest));
        assert [] + Join(rest) == Join(rest);
      } else {
        DrainLosesNothing(open, rest);
        FlatAppend(Complete(s), Drain(open, rest));
        WithoutNlAppend(open, Join(rest));
        NoNlKept(open);
      }
    }
  }

  lemma BlockKept(pending: Bytes, chunk: Bytes, more: Bytes)
    ensures var s := pending + chunk;
            WithoutNl(pending + (chunk + more)) == Flat(Complete(s)) + (Open(s) + WithoutNl(more))
  {
    var s := pending + chunk;
    Assoc(pending, chunk, more);
    WithoutNlAppend(s, more);
    CompleteKeeps(s);
    Assoc(Flat(Complete(s)), Open(s), WithoutNl(more));
  }

  // ---------------------------------------------------------------- when the lines are the lines

  lemma {:induction false} UncutIsSplit(pending: Bytes, chunks: seq<Bytes>)
    requires FirstNl(pending) == |pending| && !Cut(pending, chunks)
    ensures Drain(pending, chunks) == Split(pending + Join(chunks))
    decreases |chunks|
  {
    if chunks == [] {
      assert pending + Join(chunks) == pending;
    } else {
      var s, rest := pending + chunks[0], chunks[1..];
      assert pending + Join(chunks) == s + Join(rest);
      SplitAppend(s, Join(rest));
      OpenHasNoNl(s);
      if |Open(s)| > MAX_LINE {
        assert Open(s) + Join(rest) == Open(s) && Drain([], rest) == [];
        assert [Open(s)] + [] == [Open(s)];
      } else {
        UncutIsSplit(Open(s), rest);
      }
    }
  }

  /** After block k the line that is open, what was pending before included, has more than 8192 bytes. */
  ghost predicate CutsAt(pending: Bytes, chunks: seq<Bytes>, k: nat)
    requires k < |chunks|
  {
    |Open(pending + Join(chunks[..k + 1]))| > 8192
  }

  /** A line is cut exactly if after some block that is not the last an open line has more than 8192 bytes. */
  lemma {:induction false} CutMeans(pending: Bytes, chunks: seq<Bytes>)
    ensures Cut(pending, chunks) <==> exists k :: 0 <= k < |chunks| - 1 && CutsAt(pending, chunks, k)
    decreases |chunks|
  {
    if |chunks| > 1 {
      var s, rest := pending + chunks[0], chunks[1..];
      assert chunks[..1] == [chunks[0]] && chunks[..1][1..] == [] && Join(chunks[..1]) == chunks[0];
      assert CutsAt(pending, chunks, 0) <==> |Open(s)| > 8192;
      CutMeans(Open(s), rest);
      forall k | 0 <= k < |rest| ensures CutsAt(Open(s), rest, k) <==> CutsAt(pending, chunks, k + 1) {
        CutLater(pending, chunks, k);
      }
      if |Open(s)| <= 8192 && exists k :: 0 <= k < |chunks| - 1 && CutsAt(pending, chunks, k) {
        var k :| 0 <= k < |chunks| - 1 && CutsAt(pending, chunks, k);
        assert CutsAt(Open(s), rest, k - 1);
      }
    } else if chunks != [] {
      assert !Cut(Open(pending + chunks[0]), chunks[1..]);
    }
  }

  lemma CutLater(pending: Bytes, chunks: seq<Bytes>, k: nat)
    requires k + 1 < |chunks|
    ensures CutsAt(Open(pending + chunks[0]), chunks[1..], k) <==> CutsAt(pending, chunks, k + 1)
  {
    var s, rest := pending + chunks[0], chunks[1..];
    assert chunks[..k + 2][1..] == rest[..k + 1];
    Assoc(pending, chunks[0], Join(rest[..k + 1]));
    CompleteAppend(s, Join(rest[..k + 1]));
  }

  /** Up to and including the first block after which the open line is too long, the emitted lines are the newline
      split of the input; the blocks after it are drained as if they were a stream of their own. */
  lemma {:induction false} FirstCut(pending: Bytes, chunks: seq<Bytes>, k: nat)
    requires FirstNl(pending) == |pending| && k < |chunks| && CutsAt(pending, chunks, k)
    requires forall j :: 0 <= j < k ==> !CutsAt(pending, chunks, j)
    ensures Drain(pending, chunks) == Split(pending + Join(chunks[..k + 1])) + Drain([], chunks[k + 1..])
    decreases k
  {
    var s, rest := pending + chunks[0], chunks[1..];
    assert chunks[..1][1..] == [] && Join(chunks[..1]) == chunks[0];
    OpenHasNoNl(s);
    if k == 0 {
      AssocLines(Complete(s), [Open(s)], Drain([], rest));
    } else {
      assert !CutsAt(pending, chunks, 0);
      CutLater(pending, chunks, k - 1);
      forall j | 0 <= j < k - 1 ensures !CutsAt(Open(s), rest, j) { CutLater(pending, chunks, j); }
      FirstCut(Open(s), rest, k - 1);
      var more := Join(rest[..k]);
      assert chunks[..k + 1][1..] == rest[..k] && chunks[k + 1..] == rest[k..];
      Assoc(pending, chunks[0], more);
      SplitAppend(s, more);
      AssocLines(Complete(s), Split(Open(s) + more), Drain([], rest[k..]));
    }
  }

  lemma AssocLines(a: seq<Bytes>, b: seq<Bytes>, c: seq<Bytes>)
    ensures a + (b + c) == (a + b) + c
  {
  }

  /** An open line in front of more input adds no line. */
  lemma OpenJoins(open: Bytes, s: Bytes)
    requires FirstNl(open) == |open| && s != []
    ensures |Split(open + s)| == |Split(s)|
  {
    FirstNlAppend(open, s);
    var i := FirstNl(s);
    if i < |s| {
      assert (open + s)[|open| + i + 1..] == s[i + 1..];
    }
  }

  lemma {:induction false} DrainCount(pending: Bytes, chunks: seq<Bytes>)
    requires FirstNl(pending) == |pending| && forall i :: 0 <= i < |chunks| ==> chunks[i] != []
    ensures |Drain(pending, chunks)| >= |Split(pending + Join(chunks))| + if Cut(pending, chunks) then 1 else 0
    decreases |chunks|
  {
    if chunks == [] {
      assert pending + Join(chunks) == pending;
    } else {
      var s, rest := pending + chunks[0], chunks[1..];
      assert pending + Join(chunks) == s + Join(rest);
      SplitAppend(s, Join(rest));
      OpenHasNoNl(s);
      if |Open(s)| > MAX_LINE {
        DrainCount([], rest);
        assert [] + Join(rest) == Join(rest);
        if rest != [] {
          assert Join(rest)[0] == rest[0][0];
          OpenJoins(Open(s), Join(rest));
        } else {
          assert Open(s) + Join(rest) == Open(s);
        }
      } else {
        DrainCount(Open(s), rest);
      }
    }
  }

  /** Exactly when no open line is longer than the bound at the end of a block other than the last, the
      emitted lines are the newline split of the input. */
  lemma {:induction false} DrainIsSplitIff(chunks: seq<Bytes>)
    requires forall i :: 0 <= i < |chunks| ==> chunks[i] != []
    ensures Drain([], chunks) == Split(Join(chunks)) <==> !exists k :: 0 <= k < |chunks| - 1 && CutsAt([], chunks, k)
  {
    CutMeans([], chunks);
    assert [] + Join(chunks) == Join(chunks);
    DrainCount([], chunks);
    if !Cut([], chunks) { UncutIsSplit([], chunks); }
  }

  // ---------------------------------------------------------------- lines that fit

  predicate AllFit(lines: seq<Bytes>) { forall i :: 0 <= i < |lines| ==> |lines[i]| <= 8192 }

  lemma {:induction false} FitsIsUncut(pending: Bytes, chunks: seq<Bytes>)
    requires FirstNl(pending) == |pending| && AllFit(Split(pending + Join(chunks)))
    ensures !Cut(pending, chunks)
    decreases |chunks|
  {
    if chunks != [] {
      var s, rest := pending + chunks[0], chunks[1..];
      assert pending + Join(chunks) == s + Join(rest);
      SplitAppend(s, Join(rest));
      OpenHasNoNl(s);
      var tail := Split(Open(s) + Join(rest));
      assert forall i :: 0 <= i < |tail| ==> tail[i] == Split(s + Join(rest))[|Complete(s)| + i];
      OpenFits(Open(s), Join(rest));
      FitsIsUncut(Open(s), rest);
    }
  }

  lemma OpenFits(open: Bytes, s: Bytes)
    requires FirstNl(open) == |open| && AllFit(Split(open + s))
    ensures |open| <= MAX_LINE
  {
    FirstNlAppend(open, s);
    if open != [] {
      var first := Split(open + s)[0];
      assert |first| >= |open|;
    }
  }

  /** In particular when every line fits the bound, for any chunking. */
  lemma {:induction false} FittingLinesAreKept(chunks: seq<Bytes>)
    requires AllFit(Split(Join(chunks)))
    ensures Drain([], chunks) == Split(Join(chunks))
  {
    assert [] + Join(chunks) == Join(chunks);
    FitsIsUncut([], chunks);
    UncutIsSplit([], chunks);
  }

  // ---------------------------------------------------------------- the loop

  lemma {:induction false} DrainStep(pending: Bytes, chunks: seq<Bytes>)
    requires chunks != []
    ensures var s := pending + chunks[0];
            Drain(pending, chunks) == if |Open(s)| > MAX_LINE then Complete(s) + [Open(s)] + Drain([], chunks[1..])
                                      else Complete(s) + Drain(Open(s), chunks[1..])
  {
    var s := pending + chunks[0];
    assert Complete(s) + [Open(s)] + Drain([], chunks[1..]) == Complete(s) + ([Open(s)] + Drain([], chunks[1..]));
  }

  /** The inner loop: partition at every newline. */
  method TakeLines(block: Bytes) returns (lines: seq<Bytes>, pending: Bytes)
    ensures lines == Complete(block) && pending == Open(block)
  {
    lines, pending := [], block;
    while true
      invariant Open(block) == Open(pending) && Complete(block) == lines + Complete(pending)
      decreases |pending|
    {
      var nl := FirstNl(pending);
      if nl == |pending| { break; }
      assert lines + Complete(pending) == lines + [pending[..nl]] + Complete(pending[nl + 1..]);
      lines := lines + [pending[..nl]];
      pending := pending[nl + 1..];
    }
  }

  lemma DrainFacts(chunks: seq<Bytes>)
    ensures Flat(Drain([], chunks)) == WithoutNl(Join(chunks))
    ensures AllFit(Split(Join(chunks))) ==> Drain([], chunks) == Split(Join(chunks))
  {
    assert [] + Join(chunks) == Join(chunks);
    DrainLosesNothing([], chunks);
    if AllFit(Split(Join(chunks))) { FittingLinesAreKept(chunks); }
  }

  /** One block of the outer loop. */
  method DrainBlock(pending: Bytes, chunk: Bytes, ghost more: seq<Bytes>) returns (lines: seq<Bytes>, open: Bytes)
    requires |pending| <= MAX_LINE && 0 < |chunk| <= MAX_CHUNK
    ensures |open| <= MAX_LINE && Drain(pending, [chunk] + more) == lines + Drain(open, more)
  {
    DrainStep(pending, [chunk] + more);
    assert ([chunk] + more)[1..] == more;
    lines, open := TakeLines(pending + chunk);
    if |open| > MAX_LINE {
      lines := lines + [open];
      open := [];
    }
  }

  /** _drain_stream over the blocks read until the end of the pipe; peak is the largest buffer between reads. */
  method DrainStream(chunks: seq<Bytes>) returns (lines: seq<Bytes>, peak: nat)
    requires forall i :: 0 <= i < |chunks| ==> 0 < |chunks[i]| <= MAX_CHUNK
    ensures lines == Drain([], chunks)
    ensures Flat(lines) == WithoutNl(Join(chunks))
    ensures (forall i :: 0 <= i < |Split(Join(chunks))| ==> |Split(Join(chunks))[i]| <= 8192) ==> lines == Split(Join(chunks))
    ensures peak <= 8192
  {
    lines := [];
    peak := 0;
    var pending: Bytes := [];
    for i := 0 to |chunks|
      invariant |pending| <= MAX_LINE && peak <= MAX_LINE
      invariant Drain([], chunks) == lines + Drain(pending, chunks[i..])
    {
      assert chunks[i..] == [chunks[i]] + chunks[i + 1..];
      var emitted;
      emitted, pending := DrainBlock(pending, chunks[i], chunks[i + 1..]);
      lines := lines + emitted;
      if |pending| > peak { peak := |pending|; }
    }
    if pending != [] { lines := lines + [pending]; }
    DrainFacts(chunks);
  }
}
