/**
 * Three routines of the retrieval module that work on given inputs:
 * sentence chunking with a half-chunk overlap, the ranking of scored
 * chunks with a top-k cut and a similarity threshold, and the rule-based
 * answer used when no language model replies.
 *
 * Sentences arrive already split; similarity scores arrive already computed.
 */
module VectorRag {
  import opened Wrappers
  import opened Python

  // ---------------------------------------------------------------------
  // Words

  /**
   * A sentence of the regex split with its word count, `len(text.split())`.
   */
  datatype Sentence = Sentence(text: string, words: nat)

  /** The texts of the sentences, in order. */
  function SentenceTexts(xs: seq<Sentence>): (r: seq<string>)
    ensures |r| == |xs| && forall k :: 0 <= k < |xs| ==> r[k] == xs[k].text
  {
    if xs == [] then [] else SentenceTexts(xs[..|xs| - 1]) + [xs[|xs| - 1].text]
  }

  /** `sum(len(s.split()) for s in chunk)` */
  function WordSum(chunk: seq<Sentence>): nat {
    if chunk == [] then 0 else WordSum(chunk[..|chunk| - 1]) + chunk[|chunk| - 1].words
  }

  /** The words of `s[lo..hi]`, counted on the indices. */
  function WordsBetween(s: seq<Sentence>, lo: nat, hi: nat): nat
    requires lo <= hi <= |s|
    decreases hi
  {
    if lo == hi then 0 else WordsBetween(s, lo, hi - 1) + s[hi - 1].words
  }

  lemma {:induction false} WordsBetweenSum(s: seq<Sentence>, lo: nat, hi: nat)
    requires lo <= hi <= |s|
    ensures WordsBetween(s, lo, hi) == WordSum(s[lo..hi])
  {
    if lo < hi {
      WordsBetweenSum(s, lo, hi - 1);
      assert s[lo..hi][..hi - 1 - lo] == s[lo..hi - 1];
    }
  }

  lemma WordSumSnoc(chunk: seq<Sentence>, s: Sentence)
    ensures WordSum(chunk + [s]) == WordSum(chunk) + s.words
  {
    assert (chunk + [s])[..|chunk|] == chunk;
  }

  // ---------------------------------------------------------------------
  // Chunking

  /** The chunk size of the retrieval index, in words. */
  const ChunkSize: nat := 300

  /** A chunk as the run `sentences[lo..hi]`. */
  datatype Run = Run(lo: nat, hi: nat)

  /** How many sentences of a chunk of `m` carry over into the next: the last ceil(m/2). */
  function Carry(m: nat): nat {
    (m + 1) / 2
  }

  /** Where the chunk opened after closing `r` starts. */
  function NextStart(r: Run): int {
    r.hi - (r.hi - r.lo + 1) / 2
  }

  /**
   * The chunking state after the first `i` sentences: the runs emitted so
   * far and the start of the chunk being built, which is `sentences[lo..i]`.
   */
  function Scan(s: seq<Sentence>, size: int, i: nat): (st: (seq<Run>, nat))
    requires i <= |s|
    ensures st.1 <= i
  {
    if i == 0 then ([], 0) else ScanStep(s, size, i - 1, Scan(s, size, i - 1))
  }

  /** One sentence of the scan: close the open chunk if sentence `j` would overflow it. */
  function ScanStep(s: seq<Sentence>, size: int, j: nat, st: (seq<Run>, nat)): (next: (seq<Run>, nat))
    requires st.1 <= j < |s|
    ensures next.1 <= j + 1
  {
    var lo := st.1;
    if WordsBetween(s, lo, j) + s[j].words > size && lo < j then
      (st.0 + [Run(lo, j)], j - Carry(j - lo))
    else
      st
  }

  /** The runs `_split_text` emits: those of the scan, then the chunk still open. */
  function Runs(s: seq<Sentence>, size: int): seq<Run> {
    var st := Scan(s, size, |s|);
    if st.1 < |s| then st.0 + [Run(st.1, |s|)] else st.0
  }

  /** The text of one chunk: its sentences joined by single spaces. */
  function ChunkText(s: seq<Sentence>, r: Run): string {
    if r.lo <= r.hi <= |s| then Join(" ", SentenceTexts(s[r.lo..r.hi])) else ""
  }

  predicate RunsInside(s: seq<Sentence>, runs: seq<Run>) {
    forall j :: 0 <= j < |runs| ==> runs[j].lo < runs[j].hi <= |s|
  }

  function ChunkTexts(s: seq<Sentence>, runs: seq<Run>): (texts: seq<string>)
    ensures |texts| == |runs|
  {
    if runs == [] then [] else ChunkTexts(s, runs[..|runs| - 1]) + [ChunkText(s, runs[|runs| - 1])]
  }

  /** `b` is the run opened when `a` was closed: it starts at the last ceil(m/2) sentences of `a`. */
  predicate Follows(a: Run, b: Run) {
    a.lo < a.hi < b.hi && b.lo == NextStart(a)
  }

  /**
   * The runs are consecutive windows over the sentences: the first starts
   * at sentence 0 and each later one follows the one before.
   */
  predicate Chained(runs: seq<Run>) {
    (runs != [] ==> runs[0].lo == 0)
    && forall j :: 0 <= j < |runs| - 1 ==> Follows(runs[j], runs[j + 1])
  }

  /** The run was closed because its next sentence would have overflowed it. */
  predicate Closed(s: seq<Sentence>, size: int, r: Run) {
    r.lo < r.hi < |s| && WordsBetween(s, r.lo, r.hi) + s[r.hi].words > size
  }

  predicate Overflowing(s: seq<Sentence>, size: int, runs: seq<Run>) {
    forall j :: 0 <= j < |runs| ==> Closed(s, size, runs[j])
  }

  lemma ChainedSnoc(runs: seq<Run>, r: Run)
    requires Chained(runs)
    requires runs == [] ==> r.lo == 0
    requires runs != [] ==> Follows(runs[|runs| - 1], r)
    ensures Chained(runs + [r])
  {
    var all := runs + [r];
    forall j | 0 <= j < |all| - 1
      ensures Follows(all[j], all[j + 1])
    {
      if j + 1 < |runs| {
        assert all[j] == runs[j] && all[j + 1] == runs[j + 1];
      }
    }
  }

  lemma OverflowingSnoc(s: seq<Sentence>, size: int, runs: seq<Run>, r: Run)
    requires Overflowing(s, size, runs) && Closed(s, size, r)
    ensures Overflowing(s, size, runs + [r])
  {
    var all := runs + [r];
    forall j | 0 <= j < |all|
      ensures Closed(s, size, all[j])
    {
      if j < |runs| {
        assert all[j] == runs[j];
      }
    }
  }

  /** Where the open chunk starts, given the runs closed before it. */
  predicate OpenStart(runs: seq<Run>, lo: nat) {
    if runs == [] then lo == 0
    else lo == NextStart(runs[|runs| - 1])
  }

  /** What holds of the scan after `i` sentences. */
  predicate ScanInvariant(s: seq<Sentence>, size: int, i: nat, runs: seq<Run>, lo: nat) {
    i <= |s| && lo <= i && (i > 0 ==> lo < i)
    && Chained(runs) && Overflowing(s, size, runs) && OpenStart(runs, lo)
    && (runs != [] ==> runs[|runs| - 1].hi < i)
  }

  lemma {:induction false} ScanKeepsInvariant(s: seq<Sentence>, size: int, i: nat)
    requires i <= |s|
    ensures ScanInvariant(s, size, i, Scan(s, size, i).0, Scan(s, size, i).1)
  {
    if i > 0 {
      ScanKeepsInvariant(s, size, i - 1);
      var st := Scan(s, size, i - 1);
      var runs, lo := st.0, st.1;
      var j := i - 1;
      var next := Scan(s, size, i);
      assert next == ScanStep(s, size, j, st);
      if WordsBetween(s, lo, j) + s[j].words > size && lo < j {
        var r := Run(lo, j);
        assert next.0 == runs + [r] && next.1 == NextStart(r);
        assert Closed(s, size, r);
        ChainedSnoc(runs, r);
        OverflowingSnoc(s, size, runs, r);
        assert OpenStart(next.0, next.1) by {
          assert next.0[|next.0| - 1] == r;
        }
      } else {
        assert next == st;
      }
    }
  }

  /**
   * `_split_text` on the sentences: no chunk for no sentences, at least one
   * otherwise; chunks are chained windows that start at the first sentence
   * and end at the last, so every sentence is in some chunk and the
   * chunks follow the input order; every chunk but the last was closed by
   * an overflow.
   */
  lemma SplitShape(s: seq<Sentence>, size: int)
    ensures var runs := Runs(s, size);
      RunsInside(s, runs) && Chained(runs)
      && (s == [] <==> runs == [])
      && (runs != [] ==> runs[|runs| - 1].hi == |s|)
      && Overflowing(s, size, runs[..|runs| - (if runs == [] then 0 else 1)])
  {
    ScanKeepsInvariant(s, size, |s|);
    var st := Scan(s, size, |s|);
    var runs, lo := st.0, st.1;
    OverflowingInside(s, size, runs);
    if lo < |s| {
      var r := Run(lo, |s|);
      var all := runs + [r];
      assert Runs(s, size) == all;
      assert all[..|all| - 1] == runs;
      ChainedSnoc(runs, r);
      assert RunsInside(s, all) by {
        forall j | 0 <= j < |all|
          ensures all[j].lo < all[j].hi <= |s|
        {
          if j < |runs| { assert all[j] == runs[j]; }
        }
      }
    } else {
      assert Runs(s, size) == runs;
    }
  }

  /** Each sentence lies in some chunk: the one of the first run that reaches past it. */
  lemma {:induction false} SentenceCovered(s: seq<Sentence>, size: int, k: nat)
    requires k < |s|
    ensures exists j :: 0 <= j < |Runs(s, size)| && Runs(s, size)[j].lo <= k < Runs(s, size)[j].hi
  {
    SplitShape(s, size);
    var runs := Runs(s, size);
    var j := 0;
    while runs[j].hi <= k
      invariant 0 <= j < |runs| && runs[j].lo <= k
      decreases |runs| - j
    {
      j := j + 1;
    }
  }

  lemma OverflowingInside(s: seq<Sentence>, size: int, runs: seq<Run>)
    requires Overflowing(s, size, runs)
    ensures RunsInside(s, runs)
  {
    forall j | 0 <= j < |runs|
      ensures runs[j].lo < runs[j].hi <= |s|
    {
      assert Closed(s, size, runs[j]);
    }
  }

  /** The scan after one more sentence, spelt out for the loop of `SplitText`. */
  lemma ScanNext(s: seq<Sentence>, size: int, i: nat)
    requires i < |s|
    ensures var runs, lo := Scan(s, size, i).0, Scan(s, size, i).1;
      if WordsBetween(s, lo, i) + s[i].words > size && lo < i then
        Scan(s, size, i + 1).0 == runs + [Run(lo, i)] && Scan(s, size, i + 1).1 == i - Carry(i - lo)
      else
        Scan(s, size, i + 1).0 == runs && Scan(s, size, i + 1).1 == lo
  {
  }

  lemma SliceSnoc<T>(s: seq<T>, lo: nat, i: nat)
    requires lo <= i < |s|
    ensures s[lo..i + 1] == s[lo..i] + [s[i]]
  {
  }

  lemma SliceSuffix<T>(s: seq<T>, lo: nat, i: nat, current: seq<T>, keep: nat)
    requires lo <= i <= |s| && current == s[lo..i] && keep <= |current|
    ensures current[|current| - keep..] == s[i - keep..i]
  {
    assert |current| == i - lo;
  }

  lemma ChunkTextsSnoc(s: seq<Sentence>, runs: seq<Run>, r: Run)
    ensures ChunkTexts(s, runs + [r]) == ChunkTexts(s, runs) + [ChunkText(s, r)]
  {
    assert (runs + [r])[..|runs|] == runs;
  }

  /** Chunk `j` is the space-join of the sentences of run `j`. */
  lemma {:induction false} ChunkTextsIndex(s: seq<Sentence>, runs: seq<Run>, j: nat)
    requires j < |runs|
    ensures ChunkTexts(s, runs)[j] == ChunkText(s, runs[j])
  {
    if j < |runs| - 1 {
      ChunkTextsIndex(s, runs[..|runs| - 1], j);
    }
  }

  /**
   * The loop state of `_split_text` after `i` sentences: the chunks emitted
   * are the texts of the runs the scan closed, the open chunk is the run
   * from the scan's start to sentence `i`, and the running count is its
   * word count.
   */
  predicate SplitState(s: seq<Sentence>, size: int, i: nat, chunks: seq<string>, current: seq<Sentence>, count: int) {
    i <= |s|
    && var st := Scan(s, size, i);
    chunks == ChunkTexts(s, st.0)
    && current == s[st.1..i] && count == WordSum(current)
  }

  /** The scan closes the open run at an overflowing sentence and restarts ceil(m/2) sentences back. */
  lemma EmitScan(s: seq<Sentence>, size: int, i: nat, current: seq<Sentence>)
    requires i < |s| && current == s[Scan(s, size, i).1..i]
    requires WordSum(current) + s[i].words > size && current != []
    ensures Scan(s, size, i + 1).0 == Scan(s, size, i).0 + [Run(Scan(s, size, i).1, i)]
    ensures Scan(s, size, i + 1).1 == i - Carry(|current|)
  {
    var lo := Scan(s, size, i).1;
    assert |current| == i - lo;
    WordsBetweenSum(s, lo, i);
    ScanNext(s, size, i);
  }

  /** The kept tail of the open chunk followed by sentence `i`, and its word count. */
  lemma EmitKept(s: seq<Sentence>, lo: nat, i: nat, current: seq<Sentence>, keep: nat)
    requires lo <= i < |s| && current == s[lo..i] && keep <= |current|
    ensures current[|current| - keep..] + [s[i]] == s[i - keep..i + 1]
    ensures WordSum(current[|current| - keep..]) + s[i].words == WordSum(s[i - keep..i + 1])
  {
    var kept := current[|current| - keep..];
    SliceSuffix(s, lo, i, current, keep);
    WordSumSnoc(kept, s[i]);
    SliceSnoc(s, i - keep, i);
  }

  /** Sentence `i` overflows the open chunk: it is emitted and its last ceil(m/2) sentences stay. */
  lemma SplitStateEmit(s: seq<Sentence>, size: int, i: nat, chunks: seq<string>, current: seq<Sentence>, count: int)
    requires i < |s| && SplitState(s, size, i, chunks, current, count)
    requires count + s[i].words > size && current != []
    ensures SplitState(s, size, i + 1, chunks + [Join(" ", SentenceTexts(current))],
      current[|current| - Carry(|current|)..] + [s[i]], WordSum(current[|current| - Carry(|current|)..]) + s[i].words)
  {
    var st := Scan(s, size, i);
    var lo := st.1;
    EmitScan(s, size, i, current);
    ChunkTextsSnoc(s, st.0, Run(lo, i));
    assert ChunkText(s, Run(lo, i)) == Join(" ", SentenceTexts(current));
    EmitKept(s, lo, i, current, Carry(|current|));
  }

  /** Sentence `i` fits, or the open chunk is empty: the sentence joins it. */
  lemma SplitStateKeep(s: seq<Sentence>, size: int, i: nat, chunks: seq<string>, current: seq<Sentence>, count: int)
    requires i < |s| && SplitState(s, size, i, chunks, current, count)
    requires !(count + s[i].words > size && current != [])
    ensures SplitState(s, size, i + 1, chunks, current + [s[i]], count + s[i].words)
  {
    WordsBetweenSum(s, Scan(s, size, i).1, i);
    ScanNext(s, size, i);
    WordSumSnoc(current, s[i]);
    SliceSnoc(s, Scan(s, size, i).1, i);
  }

  lemma SplitStateDone(s: seq<Sentence>, size: int, chunks: seq<string>, current: seq<Sentence>, count: int)
    requires SplitState(s, size, |s|, chunks, current, count)
    ensures ChunkTexts(s, Runs(s, size)) == if current != [] then chunks + [Join(" ", SentenceTexts(current))] else chunks
  {
    var st := Scan(s, size, |s|);
    if current != [] {
      ChunkTextsSnoc(s, st.0, Run(st.1, |s|));
    }
  }

  /**
   * `_split_text` over the sentences `re.split` produced. The running
   * count always equals the word count of the open chunk.
   */
  method SplitText(sentences: seq<Sentence>, size: int) returns (chunks: seq<string>)
    ensures chunks == ChunkTexts(sentences, Runs(sentences, size))
    ensures sentences == [] <==> chunks == []
  {
    chunks := [];
    var currentChunk := [];
    var currentLength := 0;
    var i := 0;
    while i < |sentences|
      invariant SplitState(sentences, size, i, chunks, currentChunk, currentLength)
    {
      chunks, currentChunk, currentLength := AddSentence(sentences, size, i, chunks, currentChunk, currentLength);
      i := i + 1;
    }
    SplitStateDone(sentences, size, chunks, currentChunk, currentLength);
    SplitShape(sentences, size);
    if currentChunk != [] {
      chunks := chunks + [Join(" ", SentenceTexts(currentChunk))];
    }
  }

  /** One pass of the loop body: sentence `i` closes the open chunk when it overflows it, then joins it. */
  method AddSentence(sentences: seq<Sentence>, size: int, i: nat, chunks: seq<string>, currentChunk: seq<Sentence>, currentLength: int)
    returns (chunks': seq<string>, currentChunk': seq<Sentence>, currentLength': int)
    requires i < |sentences| && SplitState(sentences, size, i, chunks, currentChunk, currentLength)
    ensures SplitState(sentences, size, i + 1, chunks', currentChunk', currentLength')
  {
    var sentence := sentences[i];
    var sentenceLength := sentence.words;
    chunks', currentChunk', currentLength' := chunks, currentChunk, currentLength;
    if currentLength + sentenceLength > size && currentChunk != [] {
      SplitStateEmit(sentences, size, i, chunks, currentChunk, currentLength);
      chunks' := chunks + [Join(" ", SentenceTexts(currentChunk))];
      currentChunk' := currentChunk[|currentChunk| - Carry(|currentChunk|)..];
      currentLength' := WordSum(currentChunk');
    } else {
      SplitStateKeep(sentences, size, i, chunks, currentChunk, currentLength);
    }
    currentChunk' := currentChunk' + [sentence];
    currentLength' := currentLength' + sentenceLength;
  }

  lemma {:induction false} WordsBetweenMonotone(s: seq<Sentence>, lo: nat, hi: nat, hi': nat)
    requires lo <= hi <= hi' <= |s|
    ensures WordsBetween(s, lo, hi) <= WordsBetween(s, lo, hi')
    decreases hi'
  {
    if hi < hi' {
      WordsBetweenMonotone(s, lo, hi, hi' - 1);
    }
  }

  /** A run closed at the start of the sentences means they hold more words than a chunk. */
  lemma ClosedFromStart(s: seq<Sentence>, size: int, runs: seq<Run>)
    requires Overflowing(s, size, runs)
    ensures runs != [] && runs[0].lo == 0 ==> WordSum(s) > size
  {
    if runs != [] && runs[0].lo == 0 {
      var r := runs[0];
      assert Closed(s, size, r);
      WordsBetweenMonotone(s, 0, r.hi + 1, |s|);
      assert s[0..|s|] == s;
      WordsBetweenSum(s, 0, |s|);
    }
  }

  /** Sentences whose words fit in one chunk stay together in a single chunk. */
  lemma {:induction false} FitsInOneChunk(s: seq<Sentence>, size: int)
    requires s != [] && WordSum(s) <= size
    ensures Runs(s, size) == [Run(0, |s|)]
  {
    SplitShape(s, size);
    var runs := Runs(s, size);
    var closed := runs[..|runs| - 1];
    assert closed != [] ==> closed[0] == runs[0];
    ClosedFromStart(s, size, closed);
  }

  // ---------------------------------------------------------------------
  // Ranking and selection

  /** How many retrieved chunks are kept by default. */
  const TopK: int := 3

  /** Chunks scoring at or below this are dropped. */
  const MinSimilarity: real := 0.1

  /** The longest excerpt of a chunk returned to the caller. */
  const ExcerptLength: nat := 1500

  /** A stored chunk, its document and its cosine similarity to the question. */
  datatype Candidate = Candidate(documentId: int, filename: string, text: string, score: real)

  /** `RetrievedChunk` */
  datatype RetrievedChunk = RetrievedChunk(documentId: int, filename: string, text: string, similarityScore: real)

  /** Non-increasing in score. */
  predicate Ranked(xs: seq<Candidate>) {
    forall i, j :: 0 <= i < j < |xs| ==> xs[i].score >= xs[j].score
  }

  /**
   * Inserts `x` ahead of the first element that does not score higher: `x`
   * comes before its equals, which is where a stable sort puts an element
   * that precedes them in the input.
   */
  function Insert(x: Candidate, ys: seq<Candidate>): seq<Candidate> {
    if ys == [] || ys[0].score <= x.score then [x] + ys else [ys[0]] + Insert(x, ys[1..])
  }

  /** `sorted(xs, key=score, reverse=True)`, stable. */
  function RankByScore(xs: seq<Candidate>): seq<Candidate> {
    if xs == [] then [] else Insert(xs[0], RankByScore(xs[1..]))
  }

  lemma {:induction false} InsertCounts(x: Candidate, ys: seq<Candidate>)
    ensures multiset(Insert(x, ys)) == multiset(ys) + multiset{x}
  {
    if ys != [] && ys[0].score > x.score {
      InsertCounts(x, ys[1..]);
      assert ys == [ys[0]] + ys[1..];
    }
  }

  lemma {:induction false} InsertBelow(x: Candidate, ys: seq<Candidate>, b: real)
    requires x.score <= b && forall k :: 0 <= k < |ys| ==> ys[k].score <= b
    ensures forall k :: 0 <= k < |Insert(x, ys)| ==> Insert(x, ys)[k].score <= b
  {
    if ys != [] && ys[0].score > x.score {
      InsertBelow(x, ys[1..], b);
    }
  }

  lemma {:induction false} InsertRanked(x: Candidate, ys: seq<Candidate>)
    requires Ranked(ys)
    ensures Ranked(Insert(x, ys))
  {
    if ys != [] && ys[0].score > x.score {
      var rest := Insert(x, ys[1..]);
      InsertRanked(x, ys[1..]);
      InsertBelow(x, ys[1..], ys[0].score);
      var r := [ys[0]] + rest;
      assert forall j :: 0 < j < |r| ==> r[j] == rest[j - 1];
    }
  }

  /** Ranking puts the candidates in non-increasing score order and loses or adds none. */
  lemma {:induction false} RankByScoreRanks(xs: seq<Candidate>)
    ensures Ranked(RankByScore(xs))
    ensures multiset(RankByScore(xs)) == multiset(xs)
  {
    if xs != [] {
      RankByScoreRanks(xs[1..]);
      InsertRanked(xs[0], RankByScore(xs[1..]));
      InsertCounts(xs[0], RankByScore(xs[1..]));
      assert xs == [xs[0]] + xs[1..];
    }
  }

  /** The candidates of `xs` whose score is `s`, in their order in `xs`. */
  function WithScore(xs: seq<Candidate>, s: real): seq<Candidate> {
    if xs == [] then [] else (if xs[0].score == s then [xs[0]] else []) + WithScore(xs[1..], s)
  }

  /** Insertion puts `x` ahead of every candidate that scores the same. */
  lemma {:induction false} InsertWithScore(x: Candidate, ys: seq<Candidate>, s: real)
    ensures WithScore(Insert(x, ys), s) == (if x.score == s then [x] else []) + WithScore(ys, s)
  {
    if ys == [] || ys[0].score <= x.score {
      WithScoreCons(x, ys, s);
    } else {
      var rest := Insert(x, ys[1..]);
      assert Insert(x, ys) == [ys[0]] + rest;
      assert ys == [ys[0]] + ys[1..];
      InsertWithScore(x, ys[1..], s);
      PassHigher(ys[0], x, ys[1..], rest, s);
    }
  }

  /** A candidate scoring above `x` that stays in front does not disturb the filtered order. */
  lemma PassHigher(a: Candidate, x: Candidate, tail: seq<Candidate>, rest: seq<Candidate>, s: real)
    requires a.score > x.score
    requires WithScore(rest, s) == (if x.score == s then [x] else []) + WithScore(tail, s)
    ensures WithScore([a] + rest, s) == (if x.score == s then [x] else []) + WithScore([a] + tail, s)
  {
    WithScoreCons(a, rest, s);
    WithScoreCons(a, tail, s);
    if x.score == s {
      assert a.score != s;
    } else {
      assert (if x.score == s then [x] else []) == [];
    }
  }

  /** Filtering a sequence that starts with `a`. */
  lemma WithScoreCons(a: Candidate, ys: seq<Candidate>, s: real)
    ensures WithScore([a] + ys, s) == (if a.score == s then [a] else []) + WithScore(ys, s)
  {
    assert ([a] + ys)[1..] == ys;
  }

  /** The sort is stable: for every score, the candidates with that score keep their input order. */
  lemma {:induction false} RankByScoreStable(xs: seq<Candidate>, s: real)
    ensures WithScore(RankByScore(xs), s) == WithScore(xs, s)
  {
    if xs != [] {
      RankByScoreStable(xs[1..], s);
      InsertWithScore(xs[0], RankByScore(xs[1..]), s);
    }
  }

  /** In particular, candidates that all score the same keep their input order. */
  lemma {:induction false} RankByScoreAllTied(xs: seq<Candidate>)
    requires forall k :: 0 <= k < |xs| ==> xs[k].score == xs[0].score
    ensures RankByScore(xs) == xs
  {
    if xs != [] {
      var rest := xs[1..];
      assert forall k :: 0 <= k < |rest| ==> rest[k].score == rest[0].score;
      RankByScoreAllTied(rest);
      assert xs == [xs[0]] + rest;
    }
  }

  /** What a passing candidate becomes: its first 1500 characters are kept. */
  function Excerpt(c: Candidate): (r: RetrievedChunk)
    ensures r.text <= c.text && |r.text| <= ExcerptLength
    ensures |c.text| <= ExcerptLength ==> r.text == c.text
  {
    RetrievedChunk(c.documentId, c.filename, Prefix(c.text, ExcerptLength), c.score)
  }

  /** The candidates above the similarity threshold, as excerpts, in order. */
  function AboveThreshold(xs: seq<Candidate>): seq<RetrievedChunk> {
    if xs == [] then []
    else
      var last := xs[|xs| - 1];
      AboveThreshold(xs[..|xs| - 1]) + (if last.score > MinSimilarity then [Excerpt(last)] else [])
  }

  /** The selection of `retrieve`: rank, cut at `topK`, drop low scores. */
  function Select(candidates: seq<Candidate>, topK: int): seq<RetrievedChunk> {
    AboveThreshold(Prefix(RankByScore(candidates), topK))
  }

  lemma {:induction false} AboveThresholdPasses(xs: seq<Candidate>)
    ensures |AboveThreshold(xs)| <= |xs|
    ensures forall k :: 0 <= k < |AboveThreshold(xs)| ==> AboveThreshold(xs)[k].similarityScore > MinSimilarity
  {
    if xs != [] {
      AboveThresholdPasses(xs[..|xs| - 1]);
    }
  }

  lemma {:induction false} AboveThresholdAtLeast(xs: seq<Candidate>, b: real)
    requires forall j :: 0 <= j < |xs| ==> xs[j].score >= b
    ensures forall k :: 0 <= k < |AboveThreshold(xs)| ==> AboveThreshold(xs)[k].similarityScore >= b
  {
    if xs != [] {
      AboveThresholdAtLeast(xs[..|xs| - 1], b);
    }
  }

  lemma {:induction false} AboveThresholdRanked(xs: seq<Candidate>)
    requires Ranked(xs)
    ensures forall i, j :: 0 <= i < j < |AboveThreshold(xs)| ==>
      AboveThreshold(xs)[i].similarityScore >= AboveThreshold(xs)[j].similarityScore
  {
    if xs != [] {
      var init, last := xs[..|xs| - 1], xs[|xs| - 1];
      AboveThresholdRanked(init);
      AboveThresholdAtLeast(init, last.score);
    }
  }

  /** A candidate is selected exactly when it is among the first `topK` ranked and scores above 0.1. */
  lemma {:induction false} AboveThresholdMembers(xs: seq<Candidate>, c: Candidate)
    ensures c in xs && c.score > MinSimilarity ==> Excerpt(c) in AboveThreshold(xs)
    ensures forall r :: r in AboveThreshold(xs) ==> exists j :: 0 <= j < |xs| && xs[j].score > MinSimilarity && r == Excerpt(xs[j])
  {
    if xs != [] {
      var init, last := xs[..|xs| - 1], xs[|xs| - 1];
      AboveThresholdMembers(init, c);
      assert xs == init + [last];
      forall r | r in AboveThreshold(xs)
        ensures exists j :: 0 <= j < |xs| && xs[j].score > MinSimilarity && r == Excerpt(xs[j])
      {
        if r in AboveThreshold(init) {
          var j :| 0 <= j < |init| && init[j].score > MinSimilarity && r == Excerpt(init[j]);
          assert xs[j] == init[j];
        } else {
          assert xs[|xs| - 1].score > MinSimilarity && r == Excerpt(xs[|xs| - 1]);
        }
      }
    }
  }

  /**
   * `retrieve` returns at most `top_k` chunks (and never more than
   * there are), in non-increasing score order, each scoring above 0.1.
   */
  lemma SelectBounds(candidates: seq<Candidate>, topK: int)
    ensures topK >= 0 ==> |Select(candidates, topK)| <= topK
    ensures |Select(candidates, topK)| <= |candidates|
    ensures forall k :: 0 <= k < |Select(candidates, topK)| ==> Select(candidates, topK)[k].similarityScore > MinSimilarity
    ensures forall i, j :: 0 <= i < j < |Select(candidates, topK)| ==>
      Select(candidates, topK)[i].similarityScore >= Select(candidates, topK)[j].similarityScore
  {
    var ranked := RankByScore(candidates);
    RankByScoreRanks(candidates);
    assert |ranked| == |candidates| by {
      assert |multiset(ranked)| == |multiset(candidates)|;
    }
    var top := Prefix(ranked, topK);
    assert Ranked(top) by {
      forall i, j | 0 <= i < j < |top|
        ensures top[i].score >= top[j].score
      {
        assert top[i] == ranked[i] && top[j] == ranked[j];
      }
    }
    AboveThresholdPasses(top);
    AboveThresholdRanked(top);
  }

  /**
   * Selected chunks are excerpts of given candidates scoring above 0.1;
   * conversely every one of the first `topK` ranked candidates that scores
   * above 0.1 is selected.
   */
  lemma SelectMembers(candidates: seq<Candidate>, topK: int, c: Candidate)
    ensures c in Prefix(RankByScore(candidates), topK) && c.score > MinSimilarity ==> Excerpt(c) in Select(candidates, topK)
    ensures forall r :: r in Select(candidates, topK) ==>
      exists c' :: c' in candidates && c'.score > MinSimilarity && r == Excerpt(c')
  {
    var ranked := RankByScore(candidates);
    var top := Prefix(ranked, topK);
    AboveThresholdMembers(top, c);
    RankByScoreRanks(candidates);
    forall r | r in Select(candidates, topK)
      ensures exists c' :: c' in candidates && c'.score > MinSimilarity && r == Excerpt(c')
    {
      var j :| 0 <= j < |top| && top[j].score > MinSimilarity && r == Excerpt(top[j]);
      assert top[j] in multiset(ranked);
    }
  }

  /**
   * The selection loop of `retrieve` over the candidates, whose scores are
   * given: nothing for no candidates; otherwise rank them and keep, among
   * the first `topK`, those scoring above 0.1, cut to 1500 characters.
   */
  method Retrieve(candidates: seq<Candidate>, topK: int) returns (retrieved: seq<RetrievedChunk>)
    ensures retrieved == Select(candidates, topK)
  {
    if candidates == [] {
      return [];
    }
    var scoredChunks := RankByScore(candidates);
    var top := Prefix(scoredChunks, topK);
    retrieved := [];
    var i := 0;
    while i < |top|
      invariant 0 <= i <= |top|
      invariant retrieved == AboveThreshold(top[..i])
    {
      var c := top[i];
      assert top[..i + 1][..i] == top[..i];
      if c.score > MinSimilarity {
        retrieved := retrieved + [Excerpt(c)];
      }
      i := i + 1;
    }
    assert top[..i] == top;
  }

  // ---------------------------------------------------------------------
  // Rule-based answer

  /** The answer of the assistant. */
  datatype Answer = Answer(answer: string, sources: seq<string>, confidence: string, answerMethod: string)

  const DefaultReasoning := "Risk influenced by current environmental conditions."
  const DefaultAction := "Continue monitoring and inspect canopy closely."

  /** The texts of a list of strings; None when an item is not a string (`join` raises TypeError). */
  function Texts(items: seq<Value>): (r: Option<seq<string>>)
    ensures r.Some? <==> forall k :: 0 <= k < |items| ==> items[k].Str?
    ensures r.Some? ==> |r.value| == |items| && forall k :: 0 <= k < |items| ==> r.value[k] == items[k].s
  {
    if items == [] then Some([])
    else match Texts(items[1..])
      case None => None
      case Some(rest) => if items[0].Str? then Some([items[0].s] + rest) else None
  }

  /** The characters of a string, each as a one-character string. */
  function Chars(s: string): (r: seq<string>)
    ensures |r| == |s| && forall k :: 0 <= k < |s| ==> r[k] == [s[k]]
  {
    if s == [] then [] else [[s[0]]] + Chars(s[1..])
  }

  /**
   * `" ".join(v[:2]) if v else default`; None when Python raises: `v` is
   * truthy but not sliceable, or a slice item is not a string.
   */
  function FirstTwo(v: Value, default: string): Option<string> {
    if !Truthy(v) then Some(default)
    else match v
      case List(items) =>
        (match Texts(Prefix(items, 2))
         case Some(ts) => Some(Join(" ", ts))
         case None => None)
      case Str(s) => Some(Join(" ", Chars(Prefix(s, 2))))
      case _ => None
  }

  /** `[c.filename for c in chunks]` */
  function Sources(chunks: seq<RetrievedChunk>): (r: seq<string>)
    ensures |r| == |chunks| && forall k :: 0 <= k < |chunks| ==> r[k] == chunks[k].filename
  {
    if chunks == [] then [] else [chunks[0].filename] + Sources(chunks[1..])
  }

  /** The answer text around its five parts. */
  function AnswerText(crop: string, level: string, score: string, reasoning: string, action: string): string {
    "For your " + crop + ": Disease risk is **" + level + "** (score: " + score + "/100). "
      + "\n\nWhy: " + reasoning + " "
      + "\n\nAction: " + action
  }

  /** The rule-based branch of `answer`, used when no language model reply came; None when Python raises. */
  function FallbackAnswer(live: map<string, Value>, chunks: seq<RetrievedChunk>): Option<Answer> {
    var riskLevel := Get(live, "risk_level", Str("UNKNOWN"));
    var riskScore := Get(live, "risk_score", Str("N/A"));
    var reasons := Get(live, "reasons", List([]));
    var actions := Get(live, "suggested_actions", List([]));
    var crop := Get(live, "crop_type", Str("crop"));
    match (FirstTwo(reasons, DefaultReasoning), FirstTwo(actions, DefaultAction))
    case (Some(reasoning), Some(actionText)) =>
      Some(Answer(AnswerText(Render(crop), Render(riskLevel), Render(riskScore), reasoning, actionText),
                  Sources(chunks), "medium", "rule-based"))
    case _ => None
  }

  /** First one or two strings of a list, space-joined; the default for an empty list. */
  lemma FirstTwoOfStrings(items: seq<Value>, default: string)
    requires forall k :: 0 <= k < |items| ==> items[k].Str?
    ensures items == [] ==> FirstTwo(List(items), default) == Some(default)
    ensures |items| == 1 ==> FirstTwo(List(items), default) == Some(items[0].s)
    ensures |items| >= 2 ==> FirstTwo(List(items), default) == Some(items[0].s + " " + items[1].s)
  {
    if |items| >= 2 {
      var ts := Texts(Prefix(items, 2)).value;
      assert ts == [items[0].s, items[1].s];
      assert Join(" ", ts) == ts[0] + " " + Join(" ", ts[1..]);
    } else if |items| == 1 {
      assert Texts(Prefix(items, 2)).value == [items[0].s];
    }
  }

  /** With none of the five fields present, every part of the answer is its default. */
  lemma FallbackDefaults(live: map<string, Value>, chunks: seq<RetrievedChunk>)
    requires "risk_level" !in live && "risk_score" !in live && "reasons" !in live
    requires "suggested_actions" !in live && "crop_type" !in live
    ensures FallbackAnswer(live, chunks) == Some(Answer(
      AnswerText("crop", "UNKNOWN", "N/A", DefaultReasoning, DefaultAction),
      Sources(chunks), "medium", "rule-based"))
  {
  }

  /**
   * When the reasons and actions are lists of strings (as a published
   * risk payload has them), the rule-based answer exists and quotes the
   * first two of each, or the default text for an empty list.
   */
  lemma FallbackQuotes(live: map<string, Value>, chunks: seq<RetrievedChunk>, reasons: seq<Value>, actions: seq<Value>)
    requires "reasons" in live && live["reasons"] == List(reasons)
    requires "suggested_actions" in live && live["suggested_actions"] == List(actions)
    requires forall k :: 0 <= k < |reasons| ==> reasons[k].Str?
    requires forall k :: 0 <= k < |actions| ==> actions[k].Str?
    ensures FallbackAnswer(live, chunks).Some?
    ensures var a := FallbackAnswer(live, chunks).value;
      a.sources == Sources(chunks) && a.confidence == "medium" && a.answerMethod == "rule-based"
      && a.answer == AnswerText(
           Render(Get(live, "crop_type", Str("crop"))),
           Render(Get(live, "risk_level", Str("UNKNOWN"))),
           Render(Get(live, "risk_score", Str("N/A"))),
           FirstTwo(List(reasons), DefaultReasoning).value,
           FirstTwo(List(actions), DefaultAction).value)
  {
    FirstTwoOfStrings(reasons, DefaultReasoning);
    FirstTwoOfStrings(actions, DefaultAction);
  }
}
