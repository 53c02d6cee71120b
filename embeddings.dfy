/** `chunk_text` of the context manager: a text is cut into windows of at
    most `chunkSize` words, each starting `chunkSize - overlap` words after
    the previous one, and each window is joined with single spaces. */
module Embeddings {
  import opened Strings

  function Min(a: int, b: int): int
  {
    if a <= b then a else b
  }

  /** The calls that return: either each window advances
      (`overlap < chunkSize`), or the first window already reaches the last
      word. Otherwise `chunkSize - overlap` underflows, or is 0 and the loop
      never ends. */
  predicate Returns(wordCount: nat, chunkSize: nat, overlap: nat)
  {
    overlap < chunkSize || wordCount <= chunkSize
  }

  /** The word windows from position `i` on: the window at `i` runs to
      `min(i + chunkSize, |words|)`, and the next one starts
      `chunkSize - overlap` words later unless this one reached the end. */
  function Windows(words: seq<string>, chunkSize: nat, overlap: nat, i: nat): seq<seq<string>>
    requires Returns(|words|, chunkSize, overlap)
    decreases |words| - i
  {
    if i >= |words| then []
    else
      var end := Min(i + chunkSize, |words|);
      [words[i..end]] + (if end >= |words| then [] else Windows(words, chunkSize, overlap, i + chunkSize - overlap))
  }

  /** One step of `Windows`: the window at `i`, then the windows after it. */
  lemma WindowsUnfold(words: seq<string>, chunkSize: nat, overlap: nat, i: nat)
    requires Returns(|words|, chunkSize, overlap) && i < |words|
    ensures var end := Min(i + chunkSize, |words|);
      && i < end
      && (end < |words| ==> overlap < chunkSize)
      && Windows(words, chunkSize, overlap, i)
         == [words[i..end]] + (if end >= |words| then [] else Windows(words, chunkSize, overlap, i + chunkSize - overlap))
  {
  }

  /** Each window joined with single spaces. */
  function JoinAll(windows: seq<seq<string>>): (r: seq<string>)
    ensures |r| == |windows|
  {
    if windows == [] then [] else [Join(windows[0], " ")] + JoinAll(windows[1..])
  }

  /** Chunk `k` is window `k` joined with single spaces. */
  lemma {:induction false} JoinAllAt(windows: seq<seq<string>>, k: nat)
    requires k < |windows|
    ensures JoinAll(windows)[k] == Join(windows[k], " ")
    decreases k
  {
    if k > 0 {
      JoinAllAt(windows[1..], k - 1);
    }
  }

  /** One step of the chunks: the joined window at `i`, then the chunks after it. */
  lemma ChunksUnfold(words: seq<string>, chunkSize: nat, overlap: nat, i: nat)
    requires Returns(|words|, chunkSize, overlap) && i < |words|
    ensures var end := Min(i + chunkSize, |words|);
      && i < end
      && (end < |words| ==> overlap < chunkSize)
      && JoinAll(Windows(words, chunkSize, overlap, i))
         == [Join(words[i..end], " ")]
            + (if end >= |words| then [] else JoinAll(Windows(words, chunkSize, overlap, i + chunkSize - overlap)))
  {
    var end := Min(i + chunkSize, |words|);
    WindowsUnfold(words, chunkSize, overlap, i);
    var rest := if end >= |words| then [] else Windows(words, chunkSize, overlap, i + chunkSize - overlap);
    assert ([words[i..end]] + rest)[1..] == rest;
  }

  /** The loop of `chunk_text` as a recursion: from position `i`, with the
      chunks `acc` pushed so far, the chunks it returns. */
  ghost function ChunkLoop(words: seq<string>, chunkSize: nat, overlap: nat, i: nat, acc: seq<string>): seq<string>
    requires Returns(|words|, chunkSize, overlap)
    decreases |words| - i
  {
    if i >= |words| then acc
    else
      var end := Min(i + chunkSize, |words|);
      var pushed := acc + [Join(words[i..end], " ")];
      if end >= |words| then pushed else ChunkLoop(words, chunkSize, overlap, i + chunkSize - overlap, pushed)
  }

  /** The loop returns the chunks pushed before it, then the joined windows. */
  lemma {:induction false} ChunkLoopJoinsWindows(words: seq<string>, chunkSize: nat, overlap: nat, i: nat, acc: seq<string>)
    requires Returns(|words|, chunkSize, overlap)
    ensures ChunkLoop(words, chunkSize, overlap, i, acc) == acc + JoinAll(Windows(words, chunkSize, overlap, i))
    decreases |words| - i
  {
    if i >= |words| {
      assert acc + [] == acc;
    } else {
      var end := Min(i + chunkSize, |words|);
      var chunk := Join(words[i..end], " ");
      ChunksUnfold(words, chunkSize, overlap, i);
      if end >= |words| {
        assert acc + [chunk] + [] == acc + [chunk];
      } else {
        ChunkLoopJoinsWindows(words, chunkSize, overlap, i + chunkSize - overlap, acc + [chunk]);
        assert (acc + [chunk]) + JoinAll(Windows(words, chunkSize, overlap, i + chunkSize - overlap))
            == acc + ([chunk] + JoinAll(Windows(words, chunkSize, overlap, i + chunkSize - overlap)));
      }
    }
  }

  /** `chunk_text`. */
  method ChunkText(text: string, chunkSize: nat, overlap: nat) returns (chunks: seq<string>)
    requires Returns(|Words(text)|, chunkSize, overlap)
    ensures chunks == JoinAll(Windows(Words(text), chunkSize, overlap, 0))
  {
    var words := Words(text);
    chunks := [];
    var i: nat := 0;
    while i < |words|
      invariant ChunkLoop(words, chunkSize, overlap, i, chunks) == ChunkLoop(words, chunkSize, overlap, 0, [])
      decreases |words| - i
    {
      var end := Min(i + chunkSize, |words|);
      var chunk := Join(words[i..end], " ");
      chunks := chunks + [chunk];
      if end >= |words| {
        break;
      }
      i := i + chunkSize - overlap;
    }
    assert chunks == JoinAll(Windows(words, chunkSize, overlap, 0)) by {
      ChunkLoopJoinsWindows(words, chunkSize, overlap, 0, []);
      assert [] + JoinAll(Windows(words, chunkSize, overlap, 0)) == JoinAll(Windows(words, chunkSize, overlap, 0));
    }
  }

  // ---------------------------------------------------------------- properties

  /** A text without words gives no chunks. */
  lemma NoWordsNoChunks(chunkSize: nat, overlap: nat)
    ensures Windows([], chunkSize, overlap, 0) == []
  {
  }

  /** Where window `k` after position `i` starts: `k` steps of
      `chunkSize - overlap` words later. */
  function WindowStart(i: int, chunkSize: nat, overlap: nat, k: nat): int
    decreases k
  {
    if k == 0 then i else WindowStart(i + chunkSize - overlap, chunkSize, overlap, k - 1)
  }

  /** The start of window `k` is `i + k * (chunkSize - overlap)`. */
  lemma {:induction false} WindowStartIsMultiple(i: int, chunkSize: nat, overlap: nat, k: nat)
    ensures WindowStart(i, chunkSize, overlap, k) == i + k * (chunkSize - overlap)
    decreases k
  {
    if k > 0 {
      WindowStartIsMultiple(i + chunkSize - overlap, chunkSize, overlap, k - 1);
      StepArithmetic(i, chunkSize - overlap, k);
    }
  }

  lemma StepArithmetic(i: int, step: int, k: int)
    ensures i + step + (k - 1) * step == i + k * step
  {
  }

  /** Window `k` from position `i` is the run of words from its start to
      `min(start + chunkSize, |words|)`, which it reaches, and it ends at the
      last word exactly when it is the last window. */
  lemma {:induction false} WindowShape(words: seq<string>, chunkSize: nat, overlap: nat, i: nat, k: nat)
    requires Returns(|words|, chunkSize, overlap)
    requires k < |Windows(words, chunkSize, overlap, i)|
    ensures var start := WindowStart(i, chunkSize, overlap, k);
      var end := Min(start + chunkSize, |words|);
      && 0 <= start < end <= |words|
      && Windows(words, chunkSize, overlap, i)[k] == words[start..end]
      && (end == |words| <==> k == |Windows(words, chunkSize, overlap, i)| - 1)
    decreases |words| - i
  {
    WindowsUnfold(words, chunkSize, overlap, i);
    if k > 0 {
      WindowShape(words, chunkSize, overlap, i + chunkSize - overlap, k - 1);
    }
  }

  /** Every window holds between 1 and `chunkSize` words. */
  lemma WindowSize(words: seq<string>, chunkSize: nat, overlap: nat, k: nat)
    requires Returns(|words|, chunkSize, overlap)
    requires k < |Windows(words, chunkSize, overlap, 0)|
    ensures 1 <= |Windows(words, chunkSize, overlap, 0)[k]| <= chunkSize
  {
    WindowShape(words, chunkSize, overlap, 0, k);
  }

  /** Chunk `k` starts at word `k * (chunkSize - overlap)`. */
  lemma WindowStartsAtMultiple(words: seq<string>, chunkSize: nat, overlap: nat, k: nat)
    requires Returns(|words|, chunkSize, overlap)
    requires k < |Windows(words, chunkSize, overlap, 0)|
    ensures var start := k * (chunkSize - overlap);
      0 <= start < |words| && Windows(words, chunkSize, overlap, 0)[k] == words[start..Min(start + chunkSize, |words|)]
  {
    WindowShape(words, chunkSize, overlap, 0, k);
    WindowStartIsMultiple(0, chunkSize, overlap, k);
  }

  /** The first chunk starts at the first word. */
  lemma FirstWindowStartsAtZero(words: seq<string>, chunkSize: nat, overlap: nat)
    requires Returns(|words|, chunkSize, overlap) && words != []
    ensures Windows(words, chunkSize, overlap, 0) != []
    ensures Windows(words, chunkSize, overlap, 0)[0] == words[..Min(chunkSize, |words|)]
  {
  }

  /** Consecutive windows share exactly `overlap` words: the last `overlap`
      words of one are the first `overlap` words of the next. */
  lemma ConsecutiveWindowsOverlap(words: seq<string>, chunkSize: nat, overlap: nat, k: nat)
    requires Returns(|words|, chunkSize, overlap)
    requires k + 1 < |Windows(words, chunkSize, overlap, 0)|
    ensures var w := Windows(words, chunkSize, overlap, 0);
      |w[k]| == chunkSize && overlap <= |w[k + 1]|
      && w[k][chunkSize - overlap..] == w[k + 1][..overlap]
  {
    var w := Windows(words, chunkSize, overlap, 0);
    var s := WindowStart(0, chunkSize, overlap, k);
    var e := Min(s + chunkSize - overlap + chunkSize, |words|);
    assert 0 <= s && s + chunkSize < |words| && overlap < chunkSize && s + chunkSize <= e
        && w[k] == words[s..s + chunkSize] && w[k + 1] == words[s + chunkSize - overlap..e] by {
      WindowShape(words, chunkSize, overlap, 0, k);
      WindowShape(words, chunkSize, overlap, 0, k + 1);
      NextWindowStart(0, chunkSize, overlap, k);
    }
    SliceOfSlice(words, s, s + chunkSize, chunkSize - overlap, chunkSize);
    SliceOfSlice(words, s + chunkSize - overlap, e, 0, overlap);
  }

  /** A slice of a slice is a slice. */
  lemma SliceOfSlice(xs: seq<string>, a: nat, b: nat, c: nat, d: nat)
    requires a <= b <= |xs| && c <= d <= b - a
    ensures xs[a..b][c..d] == xs[a + c..a + d]
  {
    assert forall i :: 0 <= i < d - c ==> xs[a..b][c..d][i] == xs[a + c + i];
  }

  lemma {:induction false} NextWindowStart(i: int, chunkSize: nat, overlap: nat, k: nat)
    ensures WindowStart(i, chunkSize, overlap, k + 1) == WindowStart(i, chunkSize, overlap, k) + chunkSize - overlap
    decreases k
  {
    if k > 0 {
      NextWindowStart(i + chunkSize - overlap, chunkSize, overlap, k - 1);
    }
  }

  /** Splitting a chunk on whitespace gives back its window: the chunk holds
      exactly those words, in order. */
  lemma ChunkWordsAreItsWindow(text: string, chunkSize: nat, overlap: nat, k: nat)
    requires Returns(|Words(text)|, chunkSize, overlap)
    requires k < |Windows(Words(text), chunkSize, overlap, 0)|
    ensures Words(JoinAll(Windows(Words(text), chunkSize, overlap, 0))[k]) == Windows(Words(text), chunkSize, overlap, 0)[k]
  {
    var words := Words(text);
    WindowShape(words, chunkSize, overlap, 0, k);
    var w := Windows(words, chunkSize, overlap, 0)[k];
    assert forall j :: 0 <= j < |w| ==> w[j] in words;
    JoinAllAt(Windows(words, chunkSize, overlap, 0), k);
    WordsOfJoin(w);
  }

  /** The repository's example has thirteen words: windows of 5 words
      overlapping by 2 then start at words 0, 3, 6 and 9, so there are four
      chunks and the first joins the first five words. */
  lemma ThirteenWordsExample(ws: seq<string>)
    requires |ws| == 13
    ensures Windows(ws, 5, 2, 0) == [ws[0..5], ws[3..8], ws[6..11], ws[9..13]]
    ensures JoinAll(Windows(ws, 5, 2, 0))[0] == Join(ws[..5], " ")
  {
    WindowsUnfold(ws, 5, 2, 0);
    WindowsUnfold(ws, 5, 2, 3);
    WindowsUnfold(ws, 5, 2, 6);
    WindowsUnfold(ws, 5, 2, 9);
    JoinAllAt(Windows(ws, 5, 2, 0), 0);
  }
}
