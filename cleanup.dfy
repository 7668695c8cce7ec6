/** `clean_chunk_text`: the three regular-expression substitutions applied
    to chunk text before it goes into an answer prompt. */
module Cleanup {
  import opened Base
  import opened Text

  /** The alternatives of the header pattern, in the order the regular
      expression tries them. */
  const NoiseTokens: seq<string> :=
    ["Tokenizer", "Parser", "SAMPLE TEXT", "Name Finder", "POS Tagger", "PRE PROCESSOR"]

  /** `re.sub(r"\n+", " ", s)`: each maximal run of newlines becomes one
      space; everything else is kept. */
  function NewlinesToSpace(s: string): (r: string)
    ensures '\n' !in r
  {
    if s == [] then []
    else if s[0] == '\n' then
      if |s| > 1 && s[1] == '\n' then NewlinesToSpace(s[1..]) else " " + NewlinesToSpace(s[1..])
    else [s[0]] + NewlinesToSpace(s[1..])
  }

  /** `\w` matches at index `j` of `s` (never outside the string). */
  predicate WordAt(s: string, j: int)
  {
    0 <= j < |s| && IsWordChar(s[j])
  }

  /** `\b` matches at position `j` of `s`. */
  predicate Boundary(s: string, j: int)
  {
    WordAt(s, j - 1) != WordAt(s, j)
  }

  /** `\b<t>\b` matches `s` at position `i`. */
  predicate MatchesAt(s: string, i: nat, t: string)
  {
    i + |t| <= |s| && Boundary(s, i) && s[i..i + |t|] == t && Boundary(s, i + |t|)
  }

  function MatchFrom(s: string, i: nat, k: nat): (r: Option<nat>)
    requires k <= |NoiseTokens|
    ensures r.Some? ==> 0 < r.value && i + r.value <= |s|
    decreases |NoiseTokens| - k
  {
    if k == |NoiseTokens| then None
    else if MatchesAt(s, i, NoiseTokens[k]) then Some(|NoiseTokens[k]|)
    else MatchFrom(s, i, k + 1)
  }

  /** The length of the header the pattern matches at position `i`, if any. */
  function NoiseAt(s: string, i: nat): (r: Option<nat>)
    ensures r.Some? ==> 0 < r.value && i + r.value <= |s|
  {
    MatchFrom(s, i, FirstToken)
  }

  /** Where the alternation starts: its first alternative. */
  const FirstToken: nat := 0

  lemma {:induction false} MatchFromSpec(s: string, i: nat, k: nat)
    requires k <= |NoiseTokens|
    ensures var r := MatchFrom(s, i, k);
      && (r.Some? ==> exists j :: k <= j < |NoiseTokens| && r.value == |NoiseTokens[j]| && MatchesAt(s, i, NoiseTokens[j]))
      && (r.None? ==> forall j :: k <= j < |NoiseTokens| ==> !MatchesAt(s, i, NoiseTokens[j]))
    decreases |NoiseTokens| - k
  {
    if k < |NoiseTokens| && !MatchesAt(s, i, NoiseTokens[k]) {
      MatchFromSpec(s, i, k + 1);
    }
  }

  /** A header is removed only where the pattern matches it as a whole word:
      `\b` holds before and after it, judged on the surrounding text. */
  lemma NoiseAtSpec(s: string, i: nat)
    ensures var r := NoiseAt(s, i);
      && (r.Some? ==> s[i..i + r.value] in NoiseTokens && MatchesAt(s, i, s[i..i + r.value]))
      && (r.None? <==> forall t :: t in NoiseTokens ==> !MatchesAt(s, i, t))
  {
    MatchFromSpec(s, i, FirstToken);
    var r := NoiseAt(s, i);
    if r.Some? {
      var j :| 0 <= j < |NoiseTokens| && r.value == |NoiseTokens[j]| && MatchesAt(s, i, NoiseTokens[j]);
      assert s[i..i + r.value] == NoiseTokens[j];
    } else {
      forall t | t in NoiseTokens ensures !MatchesAt(s, i, t) {
        var j :| 0 <= j < |NoiseTokens| && NoiseTokens[j] == t;
      }
    }
  }

  /** Reports the length of the match that starts at a position of a
      string, if one does: never empty and never past the end. */
  type Matcher = m: (string, nat) -> Option<nat>
    | forall s: string, i: nat :: m(s, i).Some? ==> 0 < m(s, i).value && i + m(s, i).value <= |s|
    witness (s: string, i: nat) => None

  /** The scan `re.sub` makes with an empty replacement from position `i`
      of the original string: a match is dropped and the scan resumes
      after it; otherwise the character is kept. The matcher looks at the
      original text, as the regular expression's `\b` does. */
  function Scrub(m: Matcher, s: string, i: nat): (r: string)
    requires i <= |s|
    ensures |r| <= |s| - i
    decreases |s| - i
  {
    if i == |s| then []
    else match m(s, i)
      case Some(n) => Scrub(m, s, i + n)
      case None => [s[i]] + Scrub(m, s, i + 1)
  }

  /** `re.sub(r"\b(Tokenizer|Parser|...)\b", "", s)` */
  function RemoveNoise(s: string): string
  {
    Scrub(NoiseAt, s, 0)
  }

  /** `re.sub(r"\s+", " ", s)`: each maximal run of whitespace becomes one
      space. */
  function CollapseSpaces(s: string): (r: string)
    ensures r != [] <==> s != []
    ensures r != [] ==> (IsSpace(r[0]) <==> IsSpace(s[0]))
  {
    if s == [] then []
    else if IsSpace(s[0]) then
      if |s| > 1 && IsSpace(s[1]) then CollapseSpaces(s[1..]) else " " + CollapseSpaces(s[1..])
    else [s[0]] + CollapseSpaces(s[1..])
  }

  /** Every whitespace character is a plain space and no two whitespace
      characters are adjacent. */
  predicate SpacesCollapsed(r: string)
  {
    && (forall i :: 0 <= i < |r| && IsSpace(r[i]) ==> r[i] == ' ')
    && (forall i :: 0 <= i < |r| - 1 && IsSpace(r[i]) ==> !IsSpace(r[i + 1]))
  }

  /** Collapsing leaves no whitespace but single plain spaces. */
  lemma {:induction false} CollapseSpacesSpec(s: string)
    ensures SpacesCollapsed(CollapseSpaces(s))
  {
    if s != [] {
      CollapseSpacesSpec(s[1..]);
      var t := CollapseSpaces(s[1..]);
      if IsSpace(s[0]) && |s| > 1 && IsSpace(s[1]) {
      } else {
        var r := CollapseSpaces(s);
        assert r[1..] == t;
        forall i | 0 <= i < |r| && IsSpace(r[i]) ensures r[i] == ' ' {
          if i > 0 { assert r[i] == t[i - 1]; }
        }
        forall i | 0 <= i < |r| - 1 && IsSpace(r[i]) ensures !IsSpace(r[i + 1]) {
          if i > 0 { assert r[i] == t[i - 1] && r[i + 1] == t[i]; }
        }
      }
    }
  }

  /** `clean_chunk_text`: newline runs to spaces, headers removed,
      whitespace runs collapsed, ends stripped. */
  function CleanChunkText(s: string): string
  {
    Strip(CollapseSpaces(RemoveNoise(NewlinesToSpace(s))))
  }

  /** Cleaned text holds no newline, no two adjacent whitespace characters
      and no whitespace at either end. */
  lemma CleanChunkTextSpec(s: string)
    ensures Normalized(CleanChunkText(s))
    ensures '\n' !in CleanChunkText(s)
  {
    var c := CollapseSpaces(RemoveNoise(NewlinesToSpace(s)));
    CollapseSpacesSpec(RemoveNoise(NewlinesToSpace(s)));
    StripOfCollapsed(c);
  }

  /** A slice of collapsed text is collapsed. */
  lemma SliceCollapsed(c: string, a: nat, n: nat)
    requires SpacesCollapsed(c) && a + n <= |c|
    ensures SpacesCollapsed(c[a..a + n])
  {
    var r := c[a..a + n];
    forall i | 0 <= i < |r| && IsSpace(r[i]) ensures r[i] == ' ' {
      assert r[i] == c[a + i];
    }
    forall i | 0 <= i < |r| - 1 && IsSpace(r[i]) ensures !IsSpace(r[i + 1]) {
      assert r[i] == c[a + i] && r[i + 1] == c[a + i + 1];
    }
  }

  /** Collapsed text holds no newline. */
  lemma CollapsedNoNewline(r: string)
    requires SpacesCollapsed(r)
    ensures '\n' !in r
  {
    forall i | 0 <= i < |r| ensures r[i] != '\n' {
      if r[i] == '\n' { assert IsSpace(r[i]); }
    }
  }

  lemma StripOfCollapsed(c: string)
    requires SpacesCollapsed(c)
    ensures Normalized(Strip(c)) && '\n' !in Strip(c)
  {
    var r := Strip(c);
    SliceCollapsed(c, |c| - |StripStart(c)|, |r|);
    CollapsedNoNewline(r);
  }

  /** No header match starts anywhere in the text. */
  predicate NoNoise(s: string)
  {
    forall i :: 0 <= i < |s| ==> NoiseAt(s, i).None?
  }

  lemma {:induction false} NewlinesToSpaceKeeps(s: string)
    requires '\n' !in s
    ensures NewlinesToSpace(s) == s
  {
    if s != [] {
      assert s[0] != '\n';
      NewlinesToSpaceKeeps(s[1..]);
    }
  }

  /** No header match starts at a position in `[i, j)`. */
  predicate NoNoiseBetween(s: string, i: nat, j: nat)
  {
    forall k :: i <= k < j ==> NoiseAt(s, k).None?
  }

  /** The scan copies a stretch where the matcher finds nothing unchanged. */
  lemma {:induction false} ScrubKeepsRange(m: Matcher, s: string, i: nat, j: nat)
    requires i <= j <= |s|
    requires forall k :: i <= k < j ==> m(s, k).None?
    ensures Scrub(m, s, i) == s[i..j] + Scrub(m, s, j)
    decreases j - i
  {
    if i < j {
      ScrubKeepsRange(m, s, i + 1, j);
      assert s[i..j] == [s[i]] + s[i + 1..j];
      AppendAssoc([s[i]], s[i + 1..j], Scrub(m, s, j));
    }
  }

  /** The scan copies everything from `i` on when the matcher finds
      nothing there. */
  lemma ScrubKeeps(m: Matcher, s: string, i: nat)
    requires i <= |s|
    requires forall k :: i <= k < |s| ==> m(s, k).None?
    ensures Scrub(m, s, i) == s[i..]
  {
    ScrubKeepsRange(m, s, i, |s|);
    assert Scrub(m, s, |s|) == [];
    assert s[i..|s|] + [] == s[i..];
  }

  /** The scan drops a match and resumes after it. */
  lemma ScrubSkips(m: Matcher, s: string, j: nat, n: nat)
    requires j <= |s| && m(s, j) == Some(n)
    ensures 0 < n && j + n <= |s|
    ensures Scrub(m, s, j) == Scrub(m, s, j + n)
  {
    assert j < |s|;
  }

  /** Text that is one header from end to end is removed completely. */
  lemma WholeHeaderRemoved(s: string)
    requires NoiseAt(s, 0) == Some(|s|)
    ensures RemoveNoise(s) == []
  {
    ScrubSkips(NoiseAt, s, 0, |s|);
    assert Scrub(NoiseAt, s, |s|) == [];
  }

  /** Removing the one match that starts at `j` and runs for `n`
      characters leaves what is before and after it. */
  lemma ScrubAround(m: Matcher, s: string, j: nat, n: nat)
    requires j <= |s|
    requires forall k :: 0 <= k < j ==> m(s, k).None?
    requires m(s, j) == Some(n)
    requires forall k :: j + n <= k < |s| ==> m(s, k).None?
    ensures j + n <= |s|
    ensures Scrub(m, s, 0) == s[..j] + s[j + n..]
  {
    ScrubSkips(m, s, j, n);
    ScrubKeeps(m, s, j + n);
    ScrubKeepsRange(m, s, 0, j);
    assert s[0..j] == s[..j];
  }

  lemma {:induction false} CollapseSpacesKeeps(s: string)
    requires SpacesCollapsed(s)
    ensures CollapseSpaces(s) == s
  {
    if s != [] {
      CollapseSpacesKeeps(s[1..]);
    }
  }

  /** Text that is already normalized and holds no header is left as it is:
      cleaning fixes exactly what the three substitutions target. */
  lemma CleanKeepsCleanText(s: string)
    requires Normalized(s) && NoNoise(s)
    ensures CleanChunkText(s) == s
  {
    assert SpacesCollapsed(s);
    CollapsedNoNewline(s);
    NewlinesToSpaceKeeps(s);
    ScrubKeeps(NoiseAt, s, 0);
    assert s[0..] == s;
    CollapseSpacesKeeps(s);
  }
}
