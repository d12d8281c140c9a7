/**
 chunk_text: greedy splitting at sentence ends, else at spaces, else at the limit; and the
 reading of a long prompt chunk by chunk through the cursor's index.
 */
module ChunkText {
  import opened Wire
  import opened Decimal
  import opened Prompts

  predicate Occurs(text: string, pat: string, p: int) {
    0 <= p && p + |pat| <= |text| && text[p..p + |pat|] == pat
  }

  /** std::string::rfind: the last occurrence that starts at `from` or before. */
  function RFind(text: string, pat: string, from: nat): (r: Option<nat>)
    ensures r.Some? ==> r.value <= from && Occurs(text, pat, r.value)
    ensures r.Some? ==> forall q :: r.value < q <= from ==> !Occurs(text, pat, q)
    ensures r.None? ==> forall q :: 0 <= q <= from ==> !Occurs(text, pat, q)
  {
    if Occurs(text, pat, from) then Some(from)
    else if from == 0 then None
    else RFind(text, pat, from - 1)
  }

  /** Where the chunk that starts at `pos` ends. */
  function CutAfter(text: string, pos: nat, maxChars: nat): nat {
    var end := Min(pos + maxChars, |text|);
    if end >= |text| then |text|
    else
      match RFind(text, ". ", end)
      case Some(p) => if p > pos then p + 2 else WordCut(text, pos, end)
      case None => WordCut(text, pos, end)
  }

  function WordCut(text: string, pos: nat, end: nat): nat {
    match RFind(text, " ", end)
    case Some(p) => if p > pos then p + 1 else end
    case None => end
  }

  lemma CutBounds(text: string, pos: nat, maxChars: nat)
    requires pos < |text| && maxChars > 0
    ensures pos < CutAfter(text, pos, maxChars) <= |text|
    ensures CutAfter(text, pos, maxChars) <= pos + maxChars + 2
  {
  }

  function ChunksFrom(text: string, pos: nat, maxChars: nat): seq<string>
    requires pos <= |text| && maxChars > 0
    decreases |text| - pos
  {
    if pos == |text| then []
    else
      CutBounds(text, pos, maxChars);
      var cut := CutAfter(text, pos, maxChars);
      [text[pos..cut]] + ChunksFrom(text, cut, maxChars)
  }

  /** The whole function, with its guard. */
  function Chunks(text: string, maxChars: nat): seq<string> {
    if text == "" || maxChars == 0 then [] else ChunksFrom(text, 0, maxChars)
  }

  method ChunkText(text: string, maxChars: nat) returns (chunks: seq<string>)
    ensures chunks == Chunks(text, maxChars)
  {
    chunks := [];
    if text == "" || maxChars == 0 { return; }
    var pos := 0;
    while pos < |text|
      invariant 0 <= pos <= |text|
      invariant chunks + ChunksFrom(text, pos, maxChars) == ChunksFrom(text, 0, maxChars)
      decreases |text| - pos
    {
      var end := Min(pos + maxChars, |text|);
      if end < |text| {
        var sentenceBreak := RFind(text, ". ", end);
        if sentenceBreak.Some? && sentenceBreak.value > pos {
          end := sentenceBreak.value + 2;
        } else {
          var space := RFind(text, " ", end);
          if space.Some? && space.value > pos { end := space.value + 1; }
        }
      }
      CutBounds(text, pos, maxChars);
      assert end == CutAfter(text, pos, maxChars);
      chunks := chunks + [text[pos..end]];
      pos := end;
    }
  }

  // ---- What the chunks are ----

  /** `p` is the last occurrence of `pat` that starts in (pos, limit]. */
  predicate LastIn(text: string, pat: string, pos: int, limit: int, p: int) {
    && pos < p <= limit && Occurs(text, pat, p)
    && forall q :: p < q <= limit ==> !Occurs(text, pat, q)
  }

  predicate NoneIn(text: string, pat: string, pos: int, limit: int) {
    forall q :: pos < q <= limit ==> !Occurs(text, pat, q)
  }

  /** The cut of a chunk that does not reach the end of the text: after the last sentence end
      within reach, else after the last space within reach, else exactly at the limit. */
  predicate ProperCut(text: string, pos: nat, maxChars: nat, cut: int) {
    var limit := pos + maxChars;
    if !NoneIn(text, ". ", pos, limit) then LastIn(text, ". ", pos, limit, cut - 2)
    else if !NoneIn(text, " ", pos, limit) then LastIn(text, " ", pos, limit, cut - 1)
    else cut == limit
  }

  /** A chunk is whatever fits, or properly cut. */
  predicate ProperChunk(text: string, pos: nat, maxChars: nat, cut: int) {
    if pos + maxChars >= |text| then cut == |text| else ProperCut(text, pos, maxChars, cut)
  }

  type Rule = (nat, int) -> bool

  function Proper(text: string, maxChars: nat): Rule {
    (pos: nat, cut: int) => ProperChunk(text, pos, maxChars, cut)
  }

  /** Consecutive nonempty pieces of the text from `pos` to its end, each cut by the rule. */
  predicate Pieces(text: string, pos: nat, rule: Rule, chunks: seq<string>)
    decreases |chunks|
  {
    if chunks == [] then pos == |text|
    else
      var cut := pos + |chunks[0]|;
      && pos < cut <= |text| && chunks[0] == text[pos..cut] && rule(pos, cut)
      && Pieces(text, cut, rule, chunks[1..])
  }

  /** The chunk list described without the algorithm. */
  predicate ProperChunks(text: string, maxChars: nat, chunks: seq<string>) {
    Pieces(text, 0, Proper(text, maxChars), chunks)
  }

  lemma CutIsProper(text: string, pos: nat, maxChars: nat)
    requires pos + maxChars < |text| && maxChars > 0
    ensures ProperCut(text, pos, maxChars, CutAfter(text, pos, maxChars))
  {
  }

  lemma FirstChunkIsProper(text: string, pos: nat, maxChars: nat)
    requires pos < |text| && maxChars > 0
    ensures ProperChunk(text, pos, maxChars, CutAfter(text, pos, maxChars))
  {
    if pos + maxChars < |text| { CutIsProper(text, pos, maxChars); }
  }

  lemma PiecesCons(text: string, pos: nat, rule: Rule, cut: nat, rest: seq<string>)
    requires pos < cut <= |text| && rule(pos, cut) && Pieces(text, cut, rule, rest)
    ensures Pieces(text, pos, rule, [text[pos..cut]] + rest)
  {
    assert ([text[pos..cut]] + rest)[1..] == rest;
  }

  lemma {:induction false} ChunksAreProper(text: string, pos: nat, maxChars: nat)
    requires pos <= |text| && maxChars > 0
    ensures Pieces(text, pos, Proper(text, maxChars), ChunksFrom(text, pos, maxChars))
    decreases |text| - pos
  {
    if pos < |text| {
      CutBounds(text, pos, maxChars);
      var cut := CutAfter(text, pos, maxChars);
      FirstChunkIsProper(text, pos, maxChars);
      ChunksAreProper(text, cut, maxChars);
      PiecesCons(text, pos, Proper(text, maxChars), cut, ChunksFrom(text, cut, maxChars));
    }
  }

  lemma ProperCutIsUnique(text: string, pos: nat, maxChars: nat, a: int, b: int)
    requires ProperCut(text, pos, maxChars, a) && ProperCut(text, pos, maxChars, b)
    ensures a == b
  {
  }

  lemma ProperChunkIsUnique(text: string, pos: nat, maxChars: nat, a: int, b: int)
    requires ProperChunk(text, pos, maxChars, a) && ProperChunk(text, pos, maxChars, b)
    ensures a == b
  {
    if pos + maxChars < |text| { ProperCutIsUnique(text, pos, maxChars, a, b); }
  }

  lemma SameChunks(a: seq<string>, b: seq<string>)
    requires a != [] && b != [] && a[0] == b[0] && a[1..] == b[1..]
    ensures a == b
  {
    assert a == [a[0]] + a[1..] && b == [b[0]] + b[1..];
  }

  lemma {:induction false} PiecesAreUnique(
    text: string, pos: nat, rule: Rule, a: seq<string>, b: seq<string>)
    requires Pieces(text, pos, rule, a) && Pieces(text, pos, rule, b)
    requires forall p: nat, c: int, d: int :: rule(p, c) && rule(p, d) ==> c == d
    ensures a == b
    decreases |a|
  {
    if a != [] && b != [] {
      PiecesAreUnique(text, pos + |a[0]|, rule, a[1..], b[1..]);
      SameChunks(a, b);
    }
  }

  /** The description leaves no choice. */
  lemma ProperChunksAreUnique(text: string, maxChars: nat, a: seq<string>, b: seq<string>)
    requires ProperChunks(text, maxChars, a) && ProperChunks(text, maxChars, b)
    ensures a == b
  {
    var rule := Proper(text, maxChars);
    forall p: nat, c: int, d: int | rule(p, c) && rule(p, d)
      ensures c == d
    {
      ProperChunkIsUnique(text, p, maxChars, c, d);
    }
    PiecesAreUnique(text, 0, rule, a, b);
  }

  function Join(chunks: seq<string>): string {
    if chunks == [] then "" else chunks[0] + Join(chunks[1..])
  }

  lemma SplitAt(text: string, pos: nat, cut: nat)
    requires pos <= cut <= |text|
    ensures text[pos..cut] + text[cut..] == text[pos..]
  {
  }

  lemma {:induction false} PiecesJoin(text: string, pos: nat, rule: Rule, chunks: seq<string>)
    requires pos <= |text| && Pieces(text, pos, rule, chunks)
    ensures Join(chunks) == text[pos..]
    decreases |chunks|
  {
    if chunks != [] {
      var cut := pos + |chunks[0]|;
      PiecesJoin(text, cut, rule, chunks[1..]);
      SplitAt(text, pos, cut);
    }
  }

  lemma {:induction false} PiecesFit(
    text: string, pos: nat, rule: Rule, longest: nat, chunks: seq<string>, i: nat)
    requires Pieces(text, pos, rule, chunks) && i < |chunks|
    requires forall p: nat, c: int :: rule(p, c) && c <= |text| ==> c <= p + longest
    ensures 0 < |chunks[i]| <= longest
    decreases |chunks|
  {
    if i > 0 { PiecesFit(text, pos + |chunks[0]|, rule, longest, chunks[1..], i - 1); }
  }

  /** Full specification, for a positive limit: the chunks are the one proper chunk list, they
      concatenate to the text, and each is nonempty and at most maxChars + 2 long. */
  lemma ChunksSpecified(text: string, maxChars: nat)
    requires maxChars > 0
    ensures var chunks := Chunks(text, maxChars);
            && ProperChunks(text, maxChars, chunks) && Join(chunks) == text
            && forall i :: 0 <= i < |chunks| ==> 0 < |chunks[i]| <= maxChars + 2
  {
    var chunks, rule := Chunks(text, maxChars), Proper(text, maxChars);
    ChunksAreProper(text, 0, maxChars);
    PiecesJoin(text, 0, rule, chunks);
    forall i | 0 <= i < |chunks|
      ensures 0 < |chunks[i]| <= maxChars + 2
    {
      PiecesFit(text, 0, rule, maxChars + 2, chunks, i);
    }
  }

  /** Nothing is lost if and only if the limit is positive or there is nothing to lose. */
  lemma LosslessIff(text: string, maxChars: nat)
    ensures Join(Chunks(text, maxChars)) == text <==> text == "" || maxChars > 0
  {
    if maxChars > 0 { ChunksSpecified(text, maxChars); }
  }

  predicate Straddles(text: string, pos: nat, maxChars: nat) {
    var limit := pos + maxChars;
    || Occurs(text, ". ", limit)
    || (maxChars > 1 && Occurs(text, ". ", limit - 1))
    || (NoneIn(text, ". ", pos, limit) && Occurs(text, " ", limit))
  }

  /** A chunk whose limit lies short of the end of the text exceeds the limit if and only if a sentence
      end starts right at the limit or one character before it (but after the chunk's first
      character), or, with no sentence end in reach, a space stands right at the limit. */
  lemma ExceedsLimitIff(text: string, pos: nat, maxChars: nat)
    requires maxChars > 0 && pos + maxChars < |text|
    ensures CutAfter(text, pos, maxChars) - pos > maxChars <==> Straddles(text, pos, maxChars)
  {
    CutIsProper(text, pos, maxChars);
  }

  /** A chunk whose limit reaches the end of the text fits. */
  lemma LastChunkFits(text: string, pos: nat, maxChars: nat)
    requires pos < |text| <= pos + maxChars
    ensures CutAfter(text, pos, maxChars) - pos <= maxChars
  {
  }

  /** The bound is reached for every limit: a sentence that ends exactly there. */
  lemma BoundIsTight(maxChars: nat)
    requires maxChars > 0
    ensures var text := seq(maxChars, _ => 'a') + ". b";
            |Chunks(text, maxChars)[..1]| == 1 && |Chunks(text, maxChars)[0]| == maxChars + 2
  {
    var text := seq(maxChars, _ => 'a') + ". b";
    assert Occurs(text, ". ", maxChars);
    assert CutAfter(text, 0, maxChars) == maxChars + 2;
  }

  // ---- Reading a prompt through the cursor ----

  const MAX_CHARS := 200000 * 4

  function PromptChunk(token: string, prompt: string): string {
    var chunks, i := Chunks(prompt, MAX_CHARS), Index(token);
    if 0 <= i < |chunks| then chunks[i] else ""
  }

  method PromptChunkForCursor(cursor: Cursor, fullPrompt: string) returns (chunk: string)
    ensures chunk == PromptChunk(cursor.token, fullPrompt)
  {
    var chunks := ChunkText(fullPrompt, MAX_CHARS);
    var idx := Index(cursor.token);
    if 0 <= idx < |chunks| { return chunks[idx]; }
    return "";
  }

  /** The chunks read at indices 0 .. n - 1, joined. */
  function Reads(prompt: string, n: nat): string {
    if n == 0 then "" else Reads(prompt, n - 1) + PromptChunk(ToText(n - 1), prompt)
  }

  lemma {:induction false} JoinOneMore(chunks: seq<string>, chunk: string)
    ensures Join(chunks + [chunk]) == Join(chunks) + chunk
  {
    if chunks == [] {
      assert [] + [chunk] == [chunk];
    } else {
      assert (chunks + [chunk])[1..] == chunks[1..] + [chunk];
      JoinOneMore(chunks[1..], chunk);
    }
  }

  lemma {:induction false} ReadsAreChunks(prompt: string, n: nat)
    requires n <= |Chunks(prompt, MAX_CHARS)| <= INT_MAX
    ensures Reads(prompt, n) == Join(Chunks(prompt, MAX_CHARS)[..n])
  {
    if n > 0 {
      var chunks := Chunks(prompt, MAX_CHARS);
      ReadsAreChunks(prompt, n - 1);
      IndexReadBack(n - 1);
      JoinOneMore(chunks[..n - 1], chunks[n - 1]);
      assert chunks[..n] == chunks[..n - 1] + [chunks[n - 1]];
    }
  }

  lemma {:induction false} FewerChunksThanChars(text: string, pos: nat, maxChars: nat)
    requires pos <= |text| && maxChars > 0
    ensures |ChunksFrom(text, pos, maxChars)| <= |text| - pos
    decreases |text| - pos
  {
    if pos < |text| {
      CutBounds(text, pos, maxChars);
      FewerChunksThanChars(text, CutAfter(text, pos, maxChars), maxChars);
    }
  }

  /** Reading at indices 0, 1, 2, ... until the first empty answer rebuilds the prompt. */
  lemma ReadingRebuilds(prompt: string) returns (n: nat)
    requires |prompt| < INT_MAX
    ensures Reads(prompt, n) == prompt && PromptChunk(ToText(n), prompt) == ""
    ensures forall i: nat :: i < n ==> PromptChunk(ToText(i), prompt) != ""
  {
    var chunks := Chunks(prompt, MAX_CHARS);
    n := |chunks|;
    FewerChunksThanChars(prompt, 0, MAX_CHARS);
    ChunksSpecified(prompt, MAX_CHARS);
    ReadsAreChunks(prompt, n);
    assert chunks[..n] == chunks;
    forall i: nat | i <= n
      ensures Index(ToText(i)) == i
    {
      IndexReadBack(i);
    }
  }
}
