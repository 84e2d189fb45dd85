/**
 * `chunk_text` of backend/app/retrieval/ingest.py: a window of `maxTokens` words slides
 * over the words of the text, stepping back `overlap` words before each next window.
 */
module Ingest {
  import opened Wrappers
  import opened Text

  /** The word positions `[lo, hi)` of one emitted chunk. */
  datatype Window = Window(lo: nat, hi: nat)

  /** `start = end - overlap`, then `if start < 0: start = 0`. */
  function NextStart(end: int, overlap: int): (r: nat)
    ensures 0 <= overlap ==> r <= end || end < 0
    ensures end - overlap >= 0 ==> r + overlap == end
    ensures end - overlap < 0 ==> r == 0
  {
    if end - overlap < 0 then 0 else end - overlap
  }

  predicate InBounds(ws: seq<Window>, n: nat) {
    forall i :: 0 <= i < |ws| ==> ws[i].lo <= ws[i].hi <= n
  }

  /** The windows the chunking loop visits over `n` words when `start` is where it stands. */
  function WindowsFrom(start: nat, n: nat, maxTokens: int, overlap: int): (ws: seq<Window>)
    requires 0 < maxTokens && overlap < maxTokens
    ensures |ws| > 0 <==> start < n
    ensures |ws| > 0 ==> ws[0].lo == start
    ensures forall i :: 0 <= i < |ws| ==>
              start <= ws[i].lo < ws[i].hi <= n && ws[i].hi - ws[i].lo <= maxTokens
    decreases n - start
  {
    if start >= n then []
    else
      var end := Min(start + maxTokens, n);
      [Window(start, end)] + (if end == n then [] else WindowsFrom(NextStart(end, overlap), n, maxTokens, overlap))
  }

  function Windows(n: nat, maxTokens: int, overlap: int): seq<Window>
    requires 0 < maxTokens && overlap < maxTokens
  {
    WindowsFrom(0, n, maxTokens, overlap)
  }

  /** The words each window covers. */
  function Pieces(words: seq<string>, ws: seq<Window>): (ps: seq<seq<string>>)
    requires InBounds(ws, |words|)
    ensures |ps| == |ws|
    ensures forall i :: 0 <= i < |ws| ==> ps[i] == words[ws[i].lo..ws[i].hi]
  {
    if ws == [] then [] else [words[ws[0].lo..ws[0].hi]] + Pieces(words, ws[1..])
  }

  /** `" ".join` applied to each piece. */
  function JoinAll(ps: seq<seq<string>>): (cs: seq<string>)
    ensures |cs| == |ps|
    ensures forall i :: 0 <= i < |ps| ==> cs[i] == Join(ps[i])
  {
    if ps == [] then [] else [Join(ps[0])] + JoinAll(ps[1..])
  }

  /** `s.split()` applied to each string. */
  function SplitAll(cs: seq<string>): (ps: seq<seq<string>>)
    ensures |ps| == |cs|
    ensures forall i :: 0 <= i < |cs| ==> ps[i] == Split(cs[i])
  {
    if cs == [] then [] else [Split(cs[0])] + SplitAll(cs[1..])
  }

  /**
   * The chunks `chunk_text` returns for the word sequence `words`: one per window, in order,
   * each the words of its window joined by single spaces; none at all only when there are no words.
   */
  function Chunks(words: seq<string>, maxTokens: int, overlap: int): (cs: seq<string>)
    requires 0 < maxTokens && overlap < maxTokens
    ensures |cs| == |Windows(|words|, maxTokens, overlap)|
    ensures cs == [] <==> words == []
    ensures forall i :: 0 <= i < |cs| ==>
              var w := Windows(|words|, maxTokens, overlap)[i];
              cs[i] == Join(words[w.lo..w.hi])
  {
    JoinAll(Pieces(words, Windows(|words|, maxTokens, overlap)))
  }

  /** The chunks of the windows from `start` on. */
  function ChunksFrom(words: seq<string>, start: nat, maxTokens: int, overlap: int): seq<string>
    requires 0 < maxTokens && overlap < maxTokens
  {
    JoinAll(Pieces(words, WindowsFrom(start, |words|, maxTokens, overlap)))
  }

  /**
   * The chunking loop itself. It terminates because `overlap < maxTokens`; with
   * `overlap >= maxTokens` it does not (see LoopNeverExits).
   */
  method ChunkText(text: string, maxTokens: int, overlap: int) returns (chunks: seq<string>)
    requires 0 < maxTokens && overlap < maxTokens
    ensures chunks == Chunks(Split(text), maxTokens, overlap)
  {
    var words := Split(text);
    chunks := [];
    var start := 0;
    while start < |words|
      invariant 0 <= start
      invariant chunks + ChunksFrom(words, start, maxTokens, overlap) == Chunks(words, maxTokens, overlap)
      decreases |words| - start
    {
      var end := Min(start + maxTokens, |words|);
      var chunk := Join(words[start..end]);
      ChunkLoopStep(words, chunks, start, maxTokens, overlap);
      if !IsBlank(chunk) {
        chunks := chunks + [chunk];
      }
      if end == |words| {
        break;
      }
      start := end - overlap;
      if start < 0 {
        start := 0;
      }
    }
  }

  /**
   * The loop body keeps the invariant: the window at `start` yields a non-blank chunk, and the
   * chunks collected so far plus that chunk plus those from the next start are all the chunks.
   */
  lemma ChunkLoopStep(words: seq<string>, acc: seq<string>, start: nat, maxTokens: int, overlap: int)
    requires AllWords(words)
    requires 0 < maxTokens && overlap < maxTokens && start < |words|
    requires acc + ChunksFrom(words, start, maxTokens, overlap) == Chunks(words, maxTokens, overlap)
    ensures var end := Min(start + maxTokens, |words|);
            var chunk := Join(words[start..end]);
            && !IsBlank(chunk)
            && (end == |words| ==> acc + [chunk] == Chunks(words, maxTokens, overlap))
            && (end < |words| ==>
                  (acc + [chunk]) + ChunksFrom(words, NextStart(end, overlap), maxTokens, overlap)
                  == Chunks(words, maxTokens, overlap))
  {
    var end := Min(start + maxTokens, |words|);
    var chunk := Join(words[start..end]);
    ChunksFromUnfold(words, start, maxTokens, overlap);
    WindowChunkNotBlank(words, start, maxTokens);
    if end < |words| {
      var rest := ChunksFrom(words, NextStart(end, overlap), maxTokens, overlap);
      assert (acc + [chunk]) + rest == acc + ([chunk] + rest);
    } else {
      assert [chunk] + [] == [chunk];
    }
  }

  /** The window at `start` always yields a chunk: at least one word, so never blank. */
  lemma WindowChunkNotBlank(words: seq<string>, start: nat, maxTokens: int)
    requires AllWords(words)
    requires 0 < maxTokens && start < |words|
    ensures !IsBlank(Join(words[start..Min(start + maxTokens, |words|)]))
  {
    var end := Min(start + maxTokens, |words|);
    assert AllWords(words[start..end]);
    JoinNotBlank(words[start..end]);
  }

  /** One step of the loop: the chunks from `start` on are this window's chunk, then those from the next start. */
  lemma ChunksFromUnfold(words: seq<string>, start: nat, maxTokens: int, overlap: int)
    requires 0 < maxTokens && overlap < maxTokens && start < |words|
    ensures var end := Min(start + maxTokens, |words|);
            ChunksFrom(words, start, maxTokens, overlap)
            == [Join(words[start..end])]
               + (if end == |words| then [] else ChunksFrom(words, NextStart(end, overlap), maxTokens, overlap))
  {
    var ws := WindowsFrom(start, |words|, maxTokens, overlap);
    var ps := Pieces(words, ws);
    assert ps[1..] == Pieces(words, ws[1..]);
    assert JoinAll(ps)[1..] == JoinAll(ps[1..]);
  }

  // ---------- Positions of the windows ----------

  /** The windows from `start` on: this window, then the windows from the next start. */
  lemma WindowsFromUnfold(start: nat, n: nat, maxTokens: int, overlap: int)
    requires 0 < maxTokens && overlap < maxTokens && start < n
    ensures var end := Min(start + maxTokens, n);
            WindowsFrom(start, n, maxTokens, overlap)
            == [Window(start, end)] + (if end == n then [] else WindowsFrom(NextStart(end, overlap), n, maxTokens, overlap))
  {
  }

  lemma MulPred(i: nat, d: int)
    requires i > 0
    ensures (i - 1) * d + d == i * d
  {
  }

  lemma {:induction false} WindowsFromAt(s: nat, n: nat, maxTokens: int, overlap: int, i: nat)
    requires 0 < maxTokens && overlap < maxTokens
    requires i < |WindowsFrom(s, n, maxTokens, overlap)|
    ensures WindowsFrom(s, n, maxTokens, overlap)[i].lo == s + i * (maxTokens - overlap)
    ensures WindowsFrom(s, n, maxTokens, overlap)[i].hi
            == Min(WindowsFrom(s, n, maxTokens, overlap)[i].lo + maxTokens, n)
    ensures i + 1 < |WindowsFrom(s, n, maxTokens, overlap)| ==> WindowsFrom(s, n, maxTokens, overlap)[i].hi < n
    decreases i
  {
    var ws := WindowsFrom(s, n, maxTokens, overlap);
    var end := Min(s + maxTokens, n);
    WindowsFromUnfold(s, n, maxTokens, overlap);
    if end != n {
      var s' := s + (maxTokens - overlap);
      assert NextStart(end, overlap) == s';
      var rest := WindowsFrom(s', n, maxTokens, overlap);
      assert ws == [Window(s, end)] + rest;
      if i > 0 {
        assert ws[i] == rest[i - 1];
        WindowsFromAt(s', n, maxTokens, overlap, i - 1);
        MulPred(i, maxTokens - overlap);
      }
    }
  }


  /** Window i starts at word i·(maxTokens − overlap) and ends maxTokens words later, or at the end. */
  lemma WindowPosition(n: nat, maxTokens: int, overlap: int, i: nat)
    requires 0 < maxTokens && overlap < maxTokens
    requires i < |Windows(n, maxTokens, overlap)|
    ensures Windows(n, maxTokens, overlap)[i].lo == i * (maxTokens - overlap)
    ensures Windows(n, maxTokens, overlap)[i].hi == Min(i * (maxTokens - overlap) + maxTokens, n)
  {
    WindowsFromAt(0, n, maxTokens, overlap, i);
  }

  /** Each window starts `overlap` words before its predecessor ends: they share exactly `overlap` words. */
  lemma ConsecutiveWindowsOverlap(n: nat, maxTokens: int, overlap: int, i: nat)
    requires 0 < maxTokens && overlap < maxTokens
    requires i + 1 < |Windows(n, maxTokens, overlap)|
    ensures Windows(n, maxTokens, overlap)[i + 1].lo == Windows(n, maxTokens, overlap)[i].hi - overlap
  {
    WindowsFromAt(0, n, maxTokens, overlap, i);
    WindowsFromAt(0, n, maxTokens, overlap, i + 1);
    assert (i + 1) * (maxTokens - overlap) == i * (maxTokens - overlap) + maxTokens - overlap;
  }

  lemma {:induction false} LastWindowFromEnds(s: nat, n: nat, maxTokens: int, overlap: int)
    requires 0 <= overlap < maxTokens && s < n
    ensures var ws := WindowsFrom(s, n, maxTokens, overlap); ws[|ws| - 1].hi == n
    decreases n - s
  {
    var end := Min(s + maxTokens, n);
    if end != n {
      var ws := WindowsFrom(s, n, maxTokens, overlap);
      var rest := WindowsFrom(NextStart(end, overlap), n, maxTokens, overlap);
      LastWindowFromEnds(NextStart(end, overlap), n, maxTokens, overlap);
      assert ws[|ws| - 1] == rest[|rest| - 1];
    }
  }

  /** With a non-negative overlap, the last window ends at the last word. */
  lemma LastWindowEnds(n: nat, maxTokens: int, overlap: int)
    requires 0 <= overlap < maxTokens && 0 < n
    ensures |Windows(n, maxTokens, overlap)| > 0
    ensures Windows(n, maxTokens, overlap)[|Windows(n, maxTokens, overlap)| - 1].hi == n
  {
    LastWindowFromEnds(0, n, maxTokens, overlap);
  }

  lemma {:induction false} CoveredFrom(s: nat, n: nat, maxTokens: int, overlap: int, j: nat)
    requires 0 <= overlap < maxTokens && s <= j < n
    ensures exists i :: 0 <= i < |WindowsFrom(s, n, maxTokens, overlap)|
              && WindowsFrom(s, n, maxTokens, overlap)[i].lo <= j < WindowsFrom(s, n, maxTokens, overlap)[i].hi
    decreases n - s
  {
    var ws := WindowsFrom(s, n, maxTokens, overlap);
    var end := Min(s + maxTokens, n);
    if j < end {
      assert ws[0].lo <= j < ws[0].hi;
    } else {
      var s' := NextStart(end, overlap);
      var rest := WindowsFrom(s', n, maxTokens, overlap);
      CoveredFrom(s', n, maxTokens, overlap, j);
      var k :| 0 <= k < |rest| && rest[k].lo <= j < rest[k].hi;
      assert ws[k + 1] == rest[k];
    }
  }

  /** Coverage: with a non-negative overlap every word lies in some window. */
  lemma EveryWordCovered(n: nat, maxTokens: int, overlap: int, j: nat)
    requires 0 <= overlap < maxTokens && j < n
    ensures exists i :: 0 <= i < |Windows(n, maxTokens, overlap)|
              && Windows(n, maxTokens, overlap)[i].lo <= j < Windows(n, maxTokens, overlap)[i].hi
  {
    CoveredFrom(0, n, maxTokens, overlap, j);
    var ws := WindowsFrom(0, n, maxTokens, overlap);
    var i :| 0 <= i < |ws| && ws[i].lo <= j < ws[i].hi;
    assert Windows(n, maxTokens, overlap)[i] == ws[i];
  }

  // ---------- Number of windows ----------

  function CeilDiv(a: nat, b: nat): nat
    requires b > 0
  {
    (a + b - 1) / b
  }

  lemma {:induction false} MulAtLeast(b: nat, k: nat)
    requires k >= 1
    ensures b * k >= b
    decreases k
  {
    if k > 1 {
      MulAtLeast(b, k - 1);
      assert b * k == b * (k - 1) + b;
    }
  }

  lemma DivStep(y: nat, b: nat)
    requires b > 0
    ensures (y + b) / b == y / b + 1
  {
    var q, r := y / b, y % b;
    var q2, r2 := (y + b) / b, (y + b) % b;
    assert y == b * q + r;
    assert y + b == b * q2 + r2;
    if q2 > q + 1 {
      MulAtLeast(b, q2 - q - 1);
      assert false;
    } else if q2 < q + 1 {
      MulAtLeast(b, q + 1 - q2);
      assert false;
    }
  }

  lemma CeilDivStep(a: nat, b: nat)
    requires 0 < b < a
    ensures CeilDiv(a, b) == 1 + CeilDiv(a - b, b)
  {
    DivStep(a - 1, b);
    assert a + b - 1 == (a - 1) + b;
    assert a - b + b - 1 == a - 1;
  }

  lemma CeilDivOne(a: nat, b: nat)
    requires 0 < a <= b
    ensures CeilDiv(a, b) == 1
  {
    assert b <= a + b - 1 < 2 * b;
  }

  lemma {:induction false} WindowCountFrom(s: nat, n: nat, maxTokens: int, overlap: int)
    requires 0 <= overlap < maxTokens
    ensures |WindowsFrom(s, n, maxTokens, overlap)|
            == if s >= n then 0
               else if n - s <= maxTokens then 1
               else 1 + CeilDiv(n - s - maxTokens, maxTokens - overlap)
    decreases n - s
  {
    if s < n && n - s > maxTokens {
      var step := maxTokens - overlap;
      var s' := s + step;
      assert NextStart(s + maxTokens, overlap) == s';
      WindowCountFrom(s', n, maxTokens, overlap);
      if n - s' <= maxTokens {
        CeilDivOne(n - s - maxTokens, step);
      } else {
        CeilDivStep(n - s - maxTokens, step);
      }
    }
  }

  /** Number of chunks: none for no words, one up to `maxTokens` words, then one per further step. */
  lemma WindowCount(n: nat, maxTokens: int, overlap: int)
    requires 0 <= overlap < maxTokens
    ensures |Windows(n, maxTokens, overlap)|
            == if n == 0 then 0
               else if n <= maxTokens then 1
               else 1 + CeilDiv(n - maxTokens, maxTokens - overlap)
  {
    WindowCountFrom(0, n, maxTokens, overlap);
  }

  /** The defaults 450/80 over 1000 words: three windows, [0,450), [370,820) and [740,1000). */
  lemma DefaultWindowsOverThousandWords()
    ensures Windows(1000, 450, 80) == [Window(0, 450), Window(370, 820), Window(740, 1000)]
  {
    var ws := Windows(1000, 450, 80);
    WindowCount(1000, 450, 80);
    assert |ws| == 3;
    WindowPosition(1000, 450, 80, 0);
    WindowPosition(1000, 450, 80, 1);
    WindowPosition(1000, 450, 80, 2);
  }

  // ---------- Reassembly ----------

  function Drop(p: seq<string>, k: nat): seq<string> {
    if k <= |p| then p[k..] else []
  }

  /** Every piece without its first `overlap` words, concatenated. */
  function DropShared(ps: seq<seq<string>>, overlap: nat): seq<string> {
    if ps == [] then [] else Drop(ps[0], overlap) + DropShared(ps[1..], overlap)
  }

  /** The first piece whole, then each later piece without the words it shares with its predecessor. */
  function Reassemble(ps: seq<seq<string>>, overlap: nat): seq<string> {
    if ps == [] then [] else ps[0] + DropShared(ps[1..], overlap)
  }

  lemma {:induction false} DropSharedFrom(words: seq<string>, s: nat, maxTokens: int, overlap: nat)
    requires overlap < maxTokens && s < |words| && s + overlap <= |words|
    ensures DropShared(Pieces(words, WindowsFrom(s, |words|, maxTokens, overlap)), overlap) == words[s + overlap..]
    decreases |words| - s
  {
    var n := |words|;
    var end := Min(s + maxTokens, n);
    var ps := Pieces(words, WindowsFrom(s, n, maxTokens, overlap));
    PiecesFromUnfold(words, s, maxTokens, overlap);
    if end == n {
      DropSharedStep(words, s, end, overlap, ps, []);
    } else {
      var s' := NextStart(end, overlap);
      DropSharedFrom(words, s', maxTokens, overlap);
      DropSharedStep(words, s, end, overlap, ps, Pieces(words, WindowsFrom(s', n, maxTokens, overlap)));
    }
  }

  /**
   * One step of the reassembly: a first piece `words[s..end]`, then pieces that rebuild
   * `words[end..]`, rebuild `words[s + overlap..]` once the first piece's shared words are dropped.
   */
  lemma DropSharedStep(words: seq<string>, s: nat, end: nat, overlap: nat, ps: seq<seq<string>>, rest: seq<seq<string>>)
    requires s + overlap <= end <= |words|
    requires ps == [words[s..end]] + rest
    requires DropShared(rest, overlap) == words[end..]
    ensures DropShared(ps, overlap) == words[s + overlap..]
  {
    assert ps[1..] == rest;
    assert Drop(ps[0], overlap) == words[s + overlap..end];
    assert words[s + overlap..end] + words[end..] == words[s + overlap..];
  }

  /** The pieces from `start` on: this window's words, then the pieces from the next start. */
  lemma PiecesFromUnfold(words: seq<string>, start: nat, maxTokens: int, overlap: int)
    requires 0 < maxTokens && overlap < maxTokens && start < |words|
    ensures var end := Min(start + maxTokens, |words|);
            Pieces(words, WindowsFrom(start, |words|, maxTokens, overlap))
            == [words[start..end]]
               + (if end == |words| then [] else Pieces(words, WindowsFrom(NextStart(end, overlap), |words|, maxTokens, overlap)))
  {
    var ws := WindowsFrom(start, |words|, maxTokens, overlap);
    var ps := Pieces(words, ws);
    assert ps[1..] == Pieces(words, ws[1..]);
  }

  /** The windows' words with the overlaps dropped concatenate back to the whole word sequence. */
  lemma PiecesReassemble(words: seq<string>, maxTokens: int, overlap: nat)
    requires overlap < maxTokens
    ensures Reassemble(Pieces(words, Windows(|words|, maxTokens, overlap)), overlap) == words
  {
    var n := |words|;
    if 0 < n <= maxTokens {
      ReassembleOneWindow(words, maxTokens, overlap);
    } else if maxTokens < n {
      ReassembleFromSecondWindow(words, maxTokens, overlap);
      ConcatSlices(words, maxTokens);
    }
  }

  lemma ReassembleOneWindow(words: seq<string>, maxTokens: int, overlap: nat)
    requires overlap < maxTokens && 0 < |words| <= maxTokens
    ensures Reassemble(Pieces(words, WindowsFrom(0, |words|, maxTokens, overlap)), overlap) == words
  {
    var n := |words|;
    var ws := WindowsFrom(0, n, maxTokens, overlap);
    assert ws == [Window(0, n)];
    assert Pieces(words, ws) == [words[0..n]];
    assert words[0..n] + [] == words;
  }

  lemma ReassembleFromSecondWindow(words: seq<string>, maxTokens: int, overlap: nat)
    requires overlap < maxTokens < |words|
    ensures Reassemble(Pieces(words, WindowsFrom(0, |words|, maxTokens, overlap)), overlap)
            == words[0..maxTokens] + words[maxTokens..]
  {
    var n := |words|;
    var ws := WindowsFrom(0, n, maxTokens, overlap);
    var rest := WindowsFrom(maxTokens - overlap, n, maxTokens, overlap);
    assert ws == [Window(0, maxTokens)] + rest;
    var ps := Pieces(words, ws);
    assert ps[1..] == Pieces(words, rest) by {
      assert ws[1..] == rest;
    }
    DropSharedFrom(words, maxTokens - overlap, maxTokens, overlap);
  }

  /** Splitting each chunk back into words and dropping the overlaps rebuilds the text's word sequence. */
  lemma ChunksReassemble(text: string, maxTokens: int, overlap: nat)
    requires overlap < maxTokens
    ensures Reassemble(SplitAll(Chunks(Split(text), maxTokens, overlap)), overlap) == Split(text)
  {
    var words := Split(text);
    var ps := Pieces(words, Windows(|words|, maxTokens, overlap));
    PiecesAreWords(words, Windows(|words|, maxTokens, overlap));
    SplitAllJoinAll(ps);
    PiecesReassemble(words, maxTokens, overlap);
  }

  lemma SliceWords(words: seq<string>, lo: nat, hi: nat)
    requires AllWords(words) && lo <= hi <= |words|
    ensures AllWords(words[lo..hi])
  {
    forall k | 0 <= k < hi - lo ensures IsWord(words[lo..hi][k]) {
      assert words[lo..hi][k] == words[lo + k];
    }
  }

  lemma PiecesAreWords(words: seq<string>, ws: seq<Window>)
    requires AllWords(words) && InBounds(ws, |words|)
    ensures forall i :: 0 <= i < |ws| ==> AllWords(Pieces(words, ws)[i])
  {
    forall i | 0 <= i < |ws| ensures AllWords(Pieces(words, ws)[i]) {
      SliceWords(words, ws[i].lo, ws[i].hi);
    }
  }

  lemma {:induction false} SplitAllJoinAll(ps: seq<seq<string>>)
    requires forall i :: 0 <= i < |ps| ==> AllWords(ps[i])
    ensures SplitAll(JoinAll(ps)) == ps
  {
    forall i | 0 <= i < |ps| ensures SplitAll(JoinAll(ps))[i] == ps[i] {
      SplitJoin(ps[i]);
    }
  }

  lemma ConcatSlices(s: seq<string>, k: nat)
    requires k <= |s|
    ensures s[0..k] + s[k..] == s
  {
  }

  // ---------- Chunk contents ----------

  /** Every chunk holds between 1 and `maxTokens` words, the words of its window. */
  lemma ChunkWordCount(text: string, maxTokens: int, overlap: int, i: nat)
    requires 0 < maxTokens && overlap < maxTokens
    requires i < |Chunks(Split(text), maxTokens, overlap)|
    ensures var w := Windows(|Split(text)|, maxTokens, overlap)[i];
            Split(Chunks(Split(text), maxTokens, overlap)[i]) == Split(text)[w.lo..w.hi]
    ensures 1 <= |Split(Chunks(Split(text), maxTokens, overlap)[i])| <= maxTokens
  {
    var words := Split(text);
    var ws := Windows(|words|, maxTokens, overlap);
    var w := ws[i];
    assert Chunks(words, maxTokens, overlap)[i] == Join(words[w.lo..w.hi]);
    SliceWords(words, w.lo, w.hi);
    SplitJoin(words[w.lo..w.hi]);
  }

  /** Text without words (empty or whitespace only) yields no chunks, and only such text does. */
  lemma NoChunksIffBlank(text: string, maxTokens: int, overlap: int)
    requires 0 < maxTokens && overlap < maxTokens
    ensures Chunks(Split(text), maxTokens, overlap) == [] <==> IsBlank(text)
  {
    SplitEmptyIffBlank(text);
  }

  /** At most `maxTokens` words give exactly one chunk: all words joined by single spaces. */
  lemma ShortTextOneChunk(text: string, maxTokens: int, overlap: int)
    requires 0 < maxTokens && overlap < maxTokens
    requires 0 < |Split(text)| <= maxTokens
    ensures Chunks(Split(text), maxTokens, overlap) == [Join(Split(text))]
  {
    var words := Split(text);
    assert Windows(|words|, maxTokens, overlap) == [Window(0, |words|)];
    assert words[0..|words|] == words;
  }

  // ---------- Termination of the loop ----------

  /**
   * Where `start` stands after `k` more iterations of the chunking loop over `n` words,
   * or None once the loop has exited. Any integer parameters are allowed here.
   */
  function StartAfter(k: nat, start: int, n: int, maxTokens: int, overlap: int): (r: Option<int>)
    ensures r.Some? ==> r.value < n
    ensures r.Some? && k > 0 ==> 0 <= r.value
    ensures k == 0 ==> (r.Some? <==> start < n)
  {
    if start >= n then None
    else if k == 0 then Some(start)
    else
      var end := Min(start + maxTokens, n);
      if end == n then None else StartAfter(k - 1, NextStart(end, overlap), n, maxTokens, overlap)
  }

  /**
   * `StartAfter` walks the same loop as `WindowsFrom`: while the loop runs, `start` after `i`
   * iterations is the first word of window `i`.
   */
  lemma {:induction false} StartAfterIsWindowStart(i: nat, start: nat, n: nat, maxTokens: int, overlap: int)
    requires 0 < maxTokens && overlap < maxTokens
    requires i < |WindowsFrom(start, n, maxTokens, overlap)|
    ensures StartAfter(i, start, n, maxTokens, overlap) == Some(WindowsFrom(start, n, maxTokens, overlap)[i].lo)
    decreases i
  {
    WindowsFromUnfold(start, n, maxTokens, overlap);
    if i > 0 {
      var end := Min(start + maxTokens, n);
      StartAfterIsWindowStart(i - 1, NextStart(end, overlap), n, maxTokens, overlap);
    }
  }

  /** From the top of the loop: after `i` iterations `start` is where window `i` of `Windows` begins. */
  lemma StartAfterMatchesWindows(i: nat, n: nat, maxTokens: int, overlap: int)
    requires 0 < maxTokens && overlap < maxTokens
    requires i < |Windows(n, maxTokens, overlap)|
    ensures StartAfter(i, 0, n, maxTokens, overlap) == Some(Windows(n, maxTokens, overlap)[i].lo)
  {
    StartAfterIsWindowStart(i, 0, n, maxTokens, overlap);
  }

  /** With `overlap >= maxTokens` and more than `maxTokens` words, `start` returns to 0 forever. */
  lemma {:induction false} LoopNeverExits(k: nat, n: int, maxTokens: int, overlap: int)
    requires maxTokens <= overlap && 0 < n && maxTokens < n
    ensures StartAfter(k, 0, n, maxTokens, overlap) == Some(0)
  {
    if k > 0 {
      assert NextStart(Min(maxTokens, n), overlap) == 0;
      LoopNeverExits(k - 1, n, maxTokens, overlap);
    }
  }

  /** With `0 < maxTokens` and `overlap < maxTokens` the loop has exited after `n - start` iterations. */
  lemma {:induction false} LoopExits(k: nat, start: int, n: int, maxTokens: int, overlap: int)
    requires 0 < maxTokens && overlap < maxTokens && 0 <= start
    requires k >= n - start
    ensures StartAfter(k, start, n, maxTokens, overlap) == None
    decreases k
  {
    if start < n {
      var end := Min(start + maxTokens, n);
      if end != n {
        LoopExits(k - 1, NextStart(end, overlap), n, maxTokens, overlap);
      }
    }
  }
}
