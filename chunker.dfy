/** `VectorDatabase.chunk_text`: splitting a text into overlapping, boundary-aware chunks.

    The loop keeps a window `[start, end)`. A window that does not reach the end of the text is
    cut after its last '.' or '\n' when that character lies beyond the first half of the window;
    the chunk is the stripped window, and the next window starts `chunk_overlap` characters
    before this one ended. The source does not check the overlap; the loop only moves forward
    when the overlap is smaller than the shortest possible window, which `Progresses` states. */
module Chunking {
  import opened Wrappers
  import opened TextUtil

  /** The chunking loop advances on every iteration. A window is either full (`size` long) or cut
      just after a boundary beyond `size * 0.5`, so it is longer than `size / 2 + 1`; the loop
      moves forward exactly when the overlap is shorter than both. */
  predicate Progresses(size: int, overlap: int) {
    size > 0 && overlap < size && 2 * overlap <= size + 2
  }

  predicate IsBoundary(c: char) {
    c == '.' || c == '\n'
  }

  /** The position in `text` of the last boundary character of `text[lo..hi]`, or -1. */
  function LastBoundaryIn(text: string, lo: nat, hi: nat): (r: int)
    requires lo <= hi <= |text|
    ensures r == -1 || (lo <= r < hi && IsBoundary(text[r]))
    ensures forall j :: lo <= j < hi && r < j ==> !IsBoundary(text[j])
    decreases hi - lo
  {
    if hi == lo then -1
    else if IsBoundary(text[hi - 1]) then hi - 1
    else LastBoundaryIn(text, lo, hi - 1)
  }

  /** The loop's `max(window.rfind('.'), window.rfind('\n'))` on `window = text[lo:hi]` finds that
      last boundary, counted from the start of the window. */
  lemma MaxRFindIsLastBoundary(text: string, lo: nat, hi: nat)
    requires lo <= hi <= |text|
    ensures var lb := LastBoundaryIn(text, lo, hi);
      Max(RFind(text[lo..hi], '.'), RFind(text[lo..hi], '\n')) == if lb == -1 then -1 else lb - lo
  {
    var window := text[lo..hi];
    var m := Max(RFind(window, '.'), RFind(window, '\n'));
    var lb := LastBoundaryIn(text, lo, hi);
    assert m == -1 || IsBoundary(window[m]);
    assert forall j :: m < j < |window| ==> !IsBoundary(window[j]);
    if lb != -1 {
      assert window[lb - lo] == text[lb];
    }
    if m != -1 {
      assert text[lo + m] == window[m];
    }
  }

  /** The `end` the loop settles on for the window that starts at `start`: the window is cut just
      after its last boundary when it stops short of the text's end and that boundary lies beyond
      the first half of the window (`last_boundary > chunk_size * 0.5`, with `last_boundary`
      counted from the window's start). */
  function WindowEnd(text: string, size: int, start: nat): int
    requires size > 0 && start < |text|
  {
    if start + size < |text| then
      var lb := LastBoundaryIn(text, start, start + size);
      if 2 * (lb - start) > size then lb + 1 else start + size
    else start + size
  }

  /** The cut rule, stated on the text: a window is non-empty and at most `size` long, and either
      full or longer than `size / 2 + 1`; a shortened window stops short of the text's end and ends
      on a boundary beyond its first half with no boundary after it inside the full window; and
      no boundary beyond the first half of a window is left out of it. */
  lemma CutRule(text: string, size: int, start: nat)
    requires size > 0 && start < |text|
    ensures var end := WindowEnd(text, size, start);
      start < end <= start + size && (end == start + size || 2 * (end - start) > size + 2)
    ensures var end := WindowEnd(text, size, start);
      end < start + size ==>
        && start + size < |text|
        && IsBoundary(text[end - 1])
        && 2 * (end - 1 - start) > size
        && (forall j :: end <= j < start + size ==> !IsBoundary(text[j]))
    ensures forall j :: start <= j < start + size && j < |text| && IsBoundary(text[j]) && 2 * (j - start) > size ==>
      j < WindowEnd(text, size, start)
  {
  }

  /** `Ends(text, size)[s]` is where the window starting at position `s` ends. */
  function Ends(text: string, size: int): (e: seq<int>)
    requires size > 0
    ensures |e| == |text| && forall s :: 0 <= s < |text| ==> e[s] == WindowEnd(text, size, s)
  {
    seq(|text|, s requires 0 <= s < |text| => WindowEnd(text, size, s))
  }

  /** Every window ends after its start, and the window after it starts later still. */
  predicate Advancing(ends: seq<int>, overlap: int) {
    forall s :: 0 <= s < |ends| ==> s < ends[s] && s < ends[s] - overlap
  }

  lemma ProgressAdvances(text: string, size: int, overlap: int)
    requires Progresses(size, overlap)
    ensures Advancing(Ends(text, size), overlap)
  {
    forall s | 0 <= s < |text| {
      CutRule(text, size, s);
    }
  }

  /** A window `[start, end)`; `end` is the loop's raw `end`, which may lie past the text. */
  datatype Window = Window(start: nat, end: nat)

  /** The windows the loop visits from `start` on, given where each window ends. */
  function WindowsOver(ends: seq<int>, overlap: int, start: nat): (ws: seq<Window>)
    requires Advancing(ends, overlap)
    ensures ws == [] <==> start >= |ends|
    ensures ws != [] ==> ws[0].start == start
    decreases |ends| - start
  {
    if start >= |ends| then []
    else [Window(start, ends[start])] + WindowsOver(ends, overlap, ends[start] - overlap)
  }

  /** The windows `chunk_text` visits: the first starts at 0. */
  function Windows(text: string, size: int, overlap: int): seq<Window>
    requires Progresses(size, overlap)
  {
    ProgressAdvances(text, size, overlap);
    WindowsOver(Ends(text, size), overlap, 0)
  }

  /** How the loop moves from window to window: each window starts inside the text and ends where
      `ends` says, the next starts `overlap` before the previous one ended, and the last one is the
      first whose successor would start at or past the end of the text. */
  lemma {:induction false} WindowsOverChain(ends: seq<int>, overlap: int, start: nat)
    requires Advancing(ends, overlap)
    ensures var ws := WindowsOver(ends, overlap, start);
      && (forall i :: 0 <= i < |ws| ==> ws[i].start < |ends| && ws[i].end == ends[ws[i].start])
      && (forall i :: 0 <= i < |ws| - 1 ==> ws[i + 1].start == ws[i].end - overlap < |ends|)
      && (ws != [] ==> ws[|ws| - 1].end - overlap >= |ends|)
    decreases |ends| - start
  {
    var ws := WindowsOver(ends, overlap, start);
    if start < |ends| {
      var rest := WindowsOver(ends, overlap, ends[start] - overlap);
      WindowsOverChain(ends, overlap, ends[start] - overlap);
      assert ws == [Window(start, ends[start])] + rest;
      forall i | 1 <= i < |ws| ensures ws[i] == rest[i - 1] {
      }
    }
  }

  /** The window list of `chunk_text`, stated on the text: it starts at 0, every window ends where
      `WindowEnd` puts it and is at most `size` long, consecutive windows are `overlap` apart, and
      the loop stops after the first window whose successor would start past the text. */
  lemma WindowsShape(text: string, size: int, overlap: int)
    requires Progresses(size, overlap)
    ensures var ws := Windows(text, size, overlap);
      && (ws == [] <==> text == [])
      && (ws != [] ==> ws[0].start == 0)
      && (forall i :: 0 <= i < |ws| ==>
            && ws[i].start < |text|
            && ws[i].end == WindowEnd(text, size, ws[i].start)
            && ws[i].start < ws[i].end <= ws[i].start + size)
      && (forall i :: 0 <= i < |ws| - 1 ==> ws[i + 1].start == ws[i].end - overlap < |text|)
      && (ws != [] ==> ws[|ws| - 1].end - overlap >= |text|)
  {
    ProgressAdvances(text, size, overlap);
    WindowsOverChain(Ends(text, size), overlap, 0);
    var ws := Windows(text, size, overlap);
    forall i | 0 <= i < |ws| ensures ws[i].end <= ws[i].start + size {
      CutRule(text, size, ws[i].start);
    }
  }

  lemma WindowsOverStep(ends: seq<int>, overlap: int, all: seq<Window>, done: seq<Window>, start: nat,
                        done': seq<Window>, start': nat)
    requires Advancing(ends, overlap) && start < |ends|
    requires all == done + WindowsOver(ends, overlap, start)
    requires done' == done + [Window(start, ends[start])]
    requires start' == ends[start] - overlap
    ensures all == done' + WindowsOver(ends, overlap, start')
  {
    var rest := WindowsOver(ends, overlap, start');
    assert WindowsOver(ends, overlap, start) == [Window(start, ends[start])] + rest;
    assert done + ([Window(start, ends[start])] + rest) == done' + rest;
  }

  /** `text[start:end].strip()`, with Python's clipping of slice bounds to the text. */
  function ChunkOf(text: string, w: Window): string {
    var e := Min(w.end, |text|);
    Strip(text[Min(w.start, e)..e])
  }

  /** The stripped window texts, in window order. */
  function ChunksOf(text: string, ws: seq<Window>): (cs: seq<string>)
    ensures |cs| == |ws|
  {
    if ws == [] then [] else ChunksOf(text, ws[..|ws| - 1]) + [ChunkOf(text, ws[|ws| - 1])]
  }

  lemma {:induction false} ChunksOfAt(text: string, ws: seq<Window>, i: nat)
    requires i < |ws|
    ensures ChunksOf(text, ws)[i] == ChunkOf(text, ws[i])
    decreases |ws|
  {
    if i < |ws| - 1 {
      ChunksOfAt(text, ws[..|ws| - 1], i);
    }
  }

  lemma ChunksOfStep(text: string, chunks: seq<string>, done: seq<Window>, w: Window,
                     chunks': seq<string>, done': seq<Window>)
    requires chunks == ChunksOf(text, done) && w.start < |text| && w.start < w.end
    requires chunks' == chunks + [Strip(text[w.start..Min(w.end, |text|)])] && done' == done + [w]
    ensures chunks' == ChunksOf(text, done')
  {
    assert done'[..|done|] == done;
  }

  /** What `chunk_text` returns: the text itself, unstripped, when it fits in one chunk, and the
      stripped windows otherwise. */
  function Chunks(text: string, size: int, overlap: int): seq<string>
    requires Progresses(size, overlap)
  {
    if |text| <= size then [text] else ChunksOf(text, Windows(text, size, overlap))
  }

  /** One iteration's choice of `end`, as the loop body computes it. */
  method NextEnd(text: string, chunkSize: int, start: nat) returns (end: int)
    requires chunkSize > 0 && start < |text|
    ensures end == WindowEnd(text, chunkSize, start)
  {
    end := start + chunkSize;
    if end < |text| {
      var window := text[start..end];
      var lastPeriod := RFind(window, '.');
      var lastNewline := RFind(window, '\n');
      var lastBoundary := Max(lastPeriod, lastNewline);
      MaxRFindIsLastBoundary(text, start, end);
      assert (lastBoundary as real > chunkSize as real * 0.5) == (2 * lastBoundary > chunkSize);
      if lastBoundary as real > chunkSize as real * 0.5 {
        end := start + lastBoundary + 1;
      }
    }
  }

  method ChunkText(text: string, chunkSize: int, chunkOverlap: int) returns (chunks: seq<string>)
    requires Progresses(chunkSize, chunkOverlap)
    ensures chunks == Chunks(text, chunkSize, chunkOverlap)
  {
    if |text| <= chunkSize {
      return [text];
    }
    chunks := [];
    var start := 0;
    ghost var ends := Ends(text, chunkSize);
    ghost var done: seq<Window> := [];
    ProgressAdvances(text, chunkSize, chunkOverlap);
    ghost var all := Windows(text, chunkSize, chunkOverlap);
    while start < |text|
      invariant 0 <= start
      invariant all == done + WindowsOver(ends, chunkOverlap, start)
      invariant chunks == ChunksOf(text, done)
      decreases |text| - start
    {
      var end := NextEnd(text, chunkSize, start);
      var w := Window(start, end);
      var chunk := Strip(text[start..Min(end, |text|)]);
      ghost var prevChunks, prevDone, prevStart := chunks, done, start;
      chunks := chunks + [chunk];
      done := done + [w];
      start := end - chunkOverlap;
      WindowsOverStep(ends, chunkOverlap, all, prevDone, prevStart, done, start);
      ChunksOfStep(text, prevChunks, prevDone, w, chunks, done);
    }
    assert done + WindowsOver(ends, chunkOverlap, start) == done;
  }

  predicate InWindow(w: Window, p: int) {
    w.start <= p < w.end
  }

  predicate Covers(ws: seq<Window>, p: int) {
    exists i :: 0 <= i < |ws| && InWindow(ws[i], p)
  }

  lemma {:induction false} WindowsOverCover(ends: seq<int>, overlap: int, start: nat, p: int)
    requires Advancing(ends, overlap) && overlap >= 0
    requires start <= p < |ends|
    ensures Covers(WindowsOver(ends, overlap, start), p)
    decreases |ends| - start
  {
    var ws := WindowsOver(ends, overlap, start);
    var next := ends[start] - overlap;
    var rest := WindowsOver(ends, overlap, next);
    assert ws == [Window(start, ends[start])] + rest;
    if p >= ends[start] {
      WindowsOverCover(ends, overlap, next, p);
      var i :| 0 <= i < |rest| && InWindow(rest[i], p);
      assert ws[i + 1] == rest[i];
    } else {
      assert InWindow(ws[0], p);
    }
  }

  /** With a non-negative overlap, consecutive windows overlap or abut, so every character of the
      text lies in some window. */
  lemma WindowsCover(text: string, size: int, overlap: int)
    requires Progresses(size, overlap) && overlap >= 0
    ensures forall p :: 0 <= p < |text| ==> Covers(Windows(text, size, overlap), p)
  {
    ProgressAdvances(text, size, overlap);
    forall p | 0 <= p < |text| ensures Covers(Windows(text, size, overlap), p) {
      WindowsOverCover(Ends(text, size), overlap, 0, p);
    }
  }

  /** There is always at least one chunk, and none is longer than the chunk size. */
  lemma ChunksBounded(text: string, size: int, overlap: int)
    requires Progresses(size, overlap)
    ensures |Chunks(text, size, overlap)| >= 1
    ensures forall i :: 0 <= i < |Chunks(text, size, overlap)| ==> |Chunks(text, size, overlap)[i]| <= size
  {
    if |text| > size {
      var ws := Windows(text, size, overlap);
      WindowsShape(text, size, overlap);
      forall i | 0 <= i < |ws| ensures |ChunksOf(text, ws)[i]| <= size {
        ChunksOfAt(text, ws, i);
        var e := Min(ws[i].end, |text|);
        assert |text[Min(ws[i].start, e)..e]| <= size;
        StripSpec(text[Min(ws[i].start, e)..e]);
      }
    }
  }
}
