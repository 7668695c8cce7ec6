/** LLM re-ranking, shared by `Retriever.re_rank` and `re_rank_chunks`: the
    scoring prompt, reading the reply as a Python `float` (0 when that
    fails), the stable sort by score descending and the `top_k` prefix. */
module Ranking {
  import opened Base
  import opened Text
  import opened Documents

  // ------------------------------------------------------------ prompt

  /** The scoring f-string up to the chunk's excerpt. Its continuation
      lines carry the indentation of the source line that writes it
      (`indent`): twelve spaces in the retriever, eight in the script. */
  function ScoringHead(indent: string, query: string): string
  {
    "\n" + indent + "Question: " + query + "\n\n" + indent + "Context Chunk (first 500 chars): "
  }

  /** The scoring f-string after the excerpt. */
  function ScoringTail(indent: string): string
  {
    "\n\n"
    + indent + "Rate the relevance of this chunk to the question on a scale from 0 (not relevant) to 10 (highly relevant).\n"
    + indent + "Only return the numeric score.\n"
    + indent
  }

  /** The scoring f-string. */
  function ScoringPrompt(indent: string, query: string, text: string): string
  {
    ScoringHead(indent, query) + Take(text, 500) + ScoringTail(indent)
  }

  const EngineIndent: string := "            "

  const ScriptIndent: string := "        "

  /** The prompt starts with the question header followed by the chunk's
      text up to its first 500 characters, and all of a shorter text. */
  lemma ScoringPromptExcerpt(indent: string, query: string, text: string)
    ensures ScoringHead(indent, query) + text[..Min(500, |text|)] <= ScoringPrompt(indent, query, text)
    ensures |text| <= 500 ==> ScoringHead(indent, query) + text <= ScoringPrompt(indent, query, text)
  {
    var head := ScoringHead(indent, query);
    var ex := Take(text, 500);
    var tail := ScoringTail(indent);
    assert ScoringPrompt(indent, query, text) == (head + ex) + tail;
    assert ex == text[..Min(500, |text|)];
    assert (head + ex) <= (head + ex) + tail;
    assert text[..|text|] == text;
  }

  // ------------------------------------------------------------ float()

  function Pow10(n: nat): (r: nat)
    ensures r >= 1
  {
    if n == 0 then 1 else 10 * Pow10(n - 1)
  }

  /** `10 ** e` as a real, for any integer `e`. */
  function Scale(e: int): real
  {
    if e >= 0 then Pow10(e) as real else 1.0 / (Pow10(-e) as real)
  }

  /** The index of the first character of `s` in `cs`, or `|s|`. */
  function IndexOf(s: string, cs: set<char>): (k: nat)
    ensures k <= |s|
    ensures forall i :: 0 <= i < k ==> s[i] !in cs
    ensures k < |s| ==> s[k] in cs
  {
    if s == [] || s[0] in cs then 0 else 1 + IndexOf(s[1..], cs)
  }

  /** `digits[.digits]` or `.digits`, with at least one digit. */
  function ParseMantissa(m: string): (r: Option<real>)
    ensures r.Some? ==> r.value >= 0.0
  {
    var d := IndexOf(m, {'.'});
    var whole := m[..d];
    var frac := if d < |m| then m[d + 1..] else [];
    if AllDigits(whole) && AllDigits(frac) && |whole| + |frac| > 0 then
      Some(DigitsValue(whole) as real + DigitsValue(frac) as real / (Pow10(|frac|) as real))
    else None
  }

  /** `[+|-]digits` after the exponent marker. */
  function ParseExponent(t: string): Option<int>
  {
    var neg := t != [] && t[0] == '-';
    var digits := if t != [] && (t[0] == '+' || t[0] == '-') then t[1..] else t;
    if digits != [] && AllDigits(digits) then
      Some(if neg then -(DigitsValue(digits) as int) else DigitsValue(digits) as int)
    else None
  }

  /** Python's `float(s)` on decimal literals: an optional sign, a mantissa
      and an optional exponent; `None` where `float` raises. */
  function ParseFloat(s: string): Option<real>
  {
    var neg := s != [] && s[0] == '-';
    var body := if s != [] && (s[0] == '+' || s[0] == '-') then s[1..] else s;
    var e := IndexOf(body, {'e', 'E'});
    var mantissa := ParseMantissa(body[..e]);
    var exponent := if e == |body| then Some(0) else ParseExponent(body[e + 1..]);
    if mantissa.None? || exponent.None? then None
    else Some((if neg then -1.0 else 1.0) * mantissa.value * Scale(exponent.value))
  }

  lemma AllDigitsIndexOf(s: string, cs: set<char>)
    requires AllDigits(s)
    requires forall c :: c in cs ==> !IsDigit(c)
    ensures IndexOf(s, cs) == |s|
  {
    var k := IndexOf(s, cs);
    if k < |s| {
      assert false;
    }
  }

  /** A reply that is a decimal integer is read as that number. */
  lemma ParseFloatOfNat(n: nat)
    ensures ParseFloat(NatToString(n)) == Some(n as real)
  {
    var s := NatToString(n);
    ParseNatToString(n);
    assert IsDigit(s[0]);
    AllDigitsIndexOf(s, {'e', 'E'});
    AllDigitsIndexOf(s, {'.'});
    assert s[..|s|] == s;
    assert DigitsValue([]) == 0;
  }

  /** The score a reply yields: 0 when the call raised or the stripped
      content is not a number; parsed scores are not clamped. */
  function ScoreOf(reply: Reply): (score: real)
    ensures reply.Failure? ==> score == 0.0
  {
    match reply
    case Failure => 0.0
    case Content(c) =>
      match ParseFloat(Strip(c))
      case None => 0.0
      case Some(v) => v
  }

  lemma StripPadded(s: string)
    requires s != [] && !IsSpace(s[0]) && !IsSpace(s[|s| - 1])
    ensures Strip(" " + s + "\n") == s
  {
    var c := " " + s + "\n";
    assert c[1..] == s + "\n";
    assert (s + "\n")[0] == s[0];
    assert StripStart(c) == StripStart(s + "\n");
    assert StripStart(s + "\n") == s + "\n";
    assert (s + "\n")[..|s|] == s;
    assert StripEnd(s + "\n") == StripEnd(s);
  }

  /** A number surrounded by whitespace, as models often reply, scores as
      that number. */
  lemma ScoreOfSpec(reply: Reply, n: nat)
    requires reply == Content(" " + NatToString(n) + "\n")
    ensures ScoreOf(reply) == n as real
  {
    var s := NatToString(n);
    ParseFloatOfNat(n);
    assert IsDigit(s[0]) && IsDigit(s[|s| - 1]);
    StripPadded(s);
  }

  // ------------------------------------------------------------ sorting

  /** A chunk with its score and its position in the retrieved list. */
  datatype Scored = Scored(score: real, pos: nat, doc: Document)

  /** `a` comes before `b` in the sorted list: a higher score, or an equal
      score and an earlier position (the sort is stable). */
  predicate Before(a: Scored, b: Scored)
  {
    a.score > b.score || (a.score == b.score && a.pos < b.pos)
  }

  predicate Ranked(xs: seq<Scored>)
  {
    forall i, j :: 0 <= i < j < |xs| ==> Before(xs[i], xs[j])
  }

  /** Positions strictly increase along the list. */
  predicate InOrder(xs: seq<Scored>)
  {
    forall i, j :: 0 <= i < j < |xs| ==> xs[i].pos < xs[j].pos
  }

  /** Inserts `x` after every element whose score is at least its own. */
  function Insert(x: Scored, xs: seq<Scored>): (r: seq<Scored>)
    ensures multiset(r) == multiset(xs) + multiset{x}
  {
    if xs == [] then [x]
    else if xs[0].score >= x.score then
      assert xs == [xs[0]] + xs[1..];
      [xs[0]] + Insert(x, xs[1..])
    else [x] + xs
  }

  /** `list.sort(key=score, reverse=True)`: a stable sort by score,
      highest first, built by inserting the elements in their list order. */
  function SortDesc(xs: seq<Scored>): (r: seq<Scored>)
    ensures multiset(r) == multiset(xs)
  {
    if xs == [] then []
    else
      assert xs == xs[..|xs| - 1] + [xs[|xs| - 1]];
      Insert(xs[|xs| - 1], SortDesc(xs[..|xs| - 1]))
  }

  /** A head that comes before every element of a ranked list keeps it ranked. */
  lemma ConsRanked(h: Scored, rest: seq<Scored>)
    requires Ranked(rest)
    requires forall j :: 0 <= j < |rest| ==> Before(h, rest[j])
    ensures Ranked([h] + rest)
  {
    var r := [h] + rest;
    forall i, j | 0 <= i < j < |r| ensures Before(r[i], r[j]) {
      assert r[j] == rest[j - 1];
      if i > 0 {
        assert r[i] == rest[i - 1];
      }
    }
  }

  /** Inserting a later element into the tail keeps the head in front. */
  lemma InsertKeepsHead(x: Scored, xs: seq<Scored>)
    requires xs != [] && Ranked(xs) && xs[0].score >= x.score
    requires forall y :: y in xs ==> y.pos < x.pos
    ensures forall j :: 0 <= j < |Insert(x, xs[1..])| ==> Before(xs[0], Insert(x, xs[1..])[j])
  {
    var rest := Insert(x, xs[1..]);
    forall j | 0 <= j < |rest| ensures Before(xs[0], rest[j]) {
      assert rest[j] in multiset(rest);
      if rest[j] != x {
        assert rest[j] in multiset(xs[1..]);
        var k :| 0 <= k < |xs[1..]| && xs[1..][k] == rest[j];
        assert Before(xs[0], xs[k + 1]);
      }
    }
  }

  lemma {:induction false} InsertRanked(x: Scored, xs: seq<Scored>)
    requires Ranked(xs)
    requires forall y :: y in xs ==> y.pos < x.pos
    ensures Ranked(Insert(x, xs))
  {
    if xs != [] {
      if xs[0].score >= x.score {
        assert forall y :: y in xs[1..] ==> y in xs;
        InsertRanked(x, xs[1..]);
        InsertKeepsHead(x, xs);
        ConsRanked(xs[0], Insert(x, xs[1..]));
      } else {
        forall j | 0 <= j < |xs| ensures Before(x, xs[j]) {
          if j > 0 {
            assert Before(xs[0], xs[j]);
          }
        }
        ConsRanked(x, xs);
      }
    }
  }

  /** Sorting a list whose positions increase gives the list ordered by
      score, highest first, with ties in their original order. */
  lemma {:induction false} SortDescRanked(xs: seq<Scored>)
    requires InOrder(xs)
    ensures Ranked(SortDesc(xs))
  {
    if xs != [] {
      var init := xs[..|xs| - 1];
      var last := xs[|xs| - 1];
      assert InOrder(init);
      SortDescRanked(init);
      forall y | y in SortDesc(init) ensures y.pos < last.pos {
        assert y in multiset(SortDesc(init));
        assert y in multiset(init);
        var k :| 0 <= k < |init| && init[k] == y;
      }
      InsertRanked(last, SortDesc(init));
    }
  }

  // ------------------------------------------------------------ ranking

  /** The scoring prompt for chunk `d`. */
  function ScoreRequest(indent: string, query: string, d: Document): Prompt
  {
    PlainPrompt(ScoringPrompt(indent, query, d.text))
  }

  /** The scoring prompt, as a function of the chunk. */
  function Requester(indent: string, query: string): Document -> Prompt
  {
    d => ScoreRequest(indent, query, d)
  }

  /** Entry `i` holds chunk `i`, tagged with its position `i`. */
  predicate Tagged(all: seq<Scored>, chunks: seq<Document>)
  {
    |all| == |chunks| && forall i :: 0 <= i < |all| ==> all[i].pos == i && all[i].doc == chunks[i]
  }

  /** `scored_chunks` after the scoring loop: each chunk with the score its
      own request earned, at its own position. */
  function ScoreWith(llm: Llm, request: Document -> Prompt, score: Reply -> real, chunks: seq<Document>): (r: seq<Scored>)
    ensures Tagged(r, chunks)
  {
    seq(|chunks|, i requires 0 <= i < |chunks| =>
      Scored(score(llm(request(chunks[i]))), i, chunks[i]))
  }

  /** `scored_chunks` of `re_rank` with the prompt written at `indent`. */
  function ScoreAll(llm: Llm, indent: string, query: string, chunks: seq<Document>): (r: seq<Scored>)
    ensures Tagged(r, chunks)
  {
    ScoreWith(llm, Requester(indent, query), ScoreOf, chunks)
  }

  /** The scoring loop of `re_rank`: one model call per chunk, in input
      order, each chunk's reply scored on its own and tagged with its
      position. `request` builds the prompt and `score` reads the reply
      (both `re_rank`s pass the scoring prompt and `ScoreOf`). `prompts`
      are the calls made. */
  method ScoreChunks(llm: Llm, request: Document -> Prompt, score: Reply -> real, chunks: seq<Document>)
    returns (scored: seq<Scored>, ghost prompts: seq<Prompt>)
    ensures scored == ScoreWith(llm, request, score, chunks)
    ensures InOrder(scored)
    ensures |prompts| == |chunks|
    ensures forall i :: 0 <= i < |chunks| ==> prompts[i] == request(chunks[i])
  {
    scored, prompts := [], [];
    var i := 0;
    while i < |chunks|
      invariant 0 <= i <= |chunks| && |scored| == i && |prompts| == i
      invariant forall j :: 0 <= j < i ==> scored[j] == Scored(score(llm(request(chunks[j]))), j, chunks[j])
      invariant forall j :: 0 <= j < i ==> prompts[j] == request(chunks[j])
    {
      var chunk := chunks[i];
      var prompt := request(chunk);
      prompts := prompts + [prompt];
      var reply := llm(prompt);
      scored := scored + [Scored(score(reply), i, chunk)];
      i := i + 1;
    }
  }

  function Docs(xs: seq<Scored>): (r: seq<Document>)
    ensures |r| == |xs|
  {
    seq(|xs|, i requires 0 <= i < |xs| => xs[i].doc)
  }

  /** What re-ranking returns: the chunks of the sorted list's `top_k`
      prefix. */
  function Rerank(llm: Llm, indent: string, query: string, chunks: seq<Document>, topK: int): seq<Document>
  {
    Docs(Take(SortDesc(ScoreAll(llm, indent, query, chunks)), topK))
  }

  /** The LLM ranking keeps `min(top_k, n)` chunks, each one of the input's. */
  lemma RerankFromInput(llm: Llm, indent: string, query: string, chunks: seq<Document>, topK: int)
    ensures var r := Rerank(llm, indent, query, chunks, topK);
      && (topK >= 0 ==> |r| == Min(topK, |chunks|))
      && (forall i :: 0 <= i < |r| ==> r[i] in chunks)
  {
    var all := ScoreAll(llm, indent, query, chunks);
    RerankSpec(all, chunks, topK);
    var kept := Take(SortDesc(all), topK);
    var r := Docs(kept);
    forall i | 0 <= i < |r| ensures r[i] in chunks {
      var p := kept[i].pos;
      assert 0 <= p < |chunks| && chunks[p] == kept[i].doc;
      assert r[i] == chunks[p];
    }
  }

  /** The re-ranked list, whatever the scores: `min(top_k, n)` chunks for
      `top_k >= 0`, each taken from a distinct input position, ordered by score with ties in
      input order, and no dropped chunk scoring above a kept one. */
  lemma RerankSpec(all: seq<Scored>, chunks: seq<Document>, topK: int)
    requires Tagged(all, chunks)
    ensures var sorted := SortDesc(all);
      var kept := Take(sorted, topK);
      && (topK >= 0 ==> |Docs(kept)| == Min(topK, |chunks|))
      && multiset(sorted) == multiset(all)
      && Ranked(kept)
      && (forall i :: 0 <= i < |kept| ==> kept[i].pos < |chunks| && chunks[kept[i].pos] == kept[i].doc)
      && (forall i, j :: 0 <= i < j < |kept| ==> kept[i].pos != kept[j].pos)
      && (forall i, j :: 0 <= i < |kept| <= j < |sorted| ==> kept[i].score >= sorted[j].score)
  {
    var sorted := SortDesc(all);
    var kept := Take(sorted, topK);
    assert InOrder(all);
    SortDescRanked(all);
    forall i | 0 <= i < |sorted| ensures sorted[i].pos < |chunks| && sorted[i] == all[sorted[i].pos] {
      assert sorted[i] in multiset(all);
      var k :| 0 <= k < |all| && all[k] == sorted[i];
      assert all[k].pos == k;
    }
    forall i, j | 0 <= i < j < |kept| ensures kept[i].pos != kept[j].pos {
      assert kept[i] == sorted[i] && kept[j] == sorted[j];
      assert Before(sorted[i], sorted[j]);
      assert sorted[i] != sorted[j];
    }
    forall i, j | 0 <= i < |kept| <= j < |sorted| ensures kept[i].score >= sorted[j].score {
      assert kept[i] == sorted[i];
      assert Before(sorted[i], sorted[j]);
    }
    forall i | 0 <= i < |kept| ensures kept[i].pos < |chunks| && chunks[kept[i].pos] == kept[i].doc {
      assert kept[i] == sorted[i];
    }
  }
}
