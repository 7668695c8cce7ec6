/** Worked cases of `clean_chunk_text`, with the step lemmas they use: how
    a header split across lines, a header inside a longer word and a header
    that leaves a gap behave. */
module CleanupExamples {
  import opened Base
  import opened Text
  import opened Cleanup

  lemma InsideWordNoMatch(s: string, i: nat)
    requires 0 < i < |s| && IsWordChar(s[i - 1]) && IsWordChar(s[i])
    ensures NoiseAt(s, i).None?
  {
    NoiseAtSpec(s, i);
    assert !Boundary(s, i);
  }

  lemma Differs(s: string, i: nat, t: string, j: nat)
    requires j < |t| && i + j < |s| && s[i + j] != t[j]
    ensures !MatchesAt(s, i, t)
  {
    if i + |t| <= |s| { assert s[i..i + |t|][j] == s[i + j]; }
  }

  lemma NoHeaderStartsWith(s: string, i: nat)
    requires i < |s| && s[i] !in "TPSN"
    ensures NoiseAt(s, i).None?
  {
    NoiseAtSpec(s, i);
    forall t | t in NoiseTokens ensures !MatchesAt(s, i, t) {
      assert t[0] in "TPSN";
      if i + |t| <= |s| { assert s[i..i + |t|][0] == s[i]; }
    }
  }

  lemma {:induction false} NewlineBetween(a: string, b: string)
    requires '\n' !in a && '\n' !in b
    ensures NewlinesToSpace(a + "\n" + b) == a + " " + b
  {
    if a == [] {
      assert a + "\n" + b == "\n" + b;
      NewlinesToSpaceKeeps(b);
      assert ("\n" + b)[1..] == b;
    } else {
      assert (a + "\n" + b)[1..] == a[1..] + "\n" + b;
      NewlineBetween(a[1..], b);
      assert a + " " + b == [a[0]] + (a[1..] + " " + b);
    }
  }

  lemma {:induction false} CollapseSpacesAfterWord(a: string, b: string)
    requires forall i :: 0 <= i < |a| ==> !IsSpace(a[i])
    ensures CollapseSpaces(a + b) == a + CollapseSpaces(b)
  {
    if a != [] {
      assert (a + b)[1..] == a[1..] + b;
      CollapseSpacesAfterWord(a[1..], b);
      assert a + CollapseSpaces(b) == [a[0]] + (a[1..] + CollapseSpaces(b));
    } else {
      assert a + b == b;
    }
  }

  /** A header broken over two lines is still removed: newlines become
      spaces before the header pattern runs. */
  lemma NewlineJoinsHeader()
    ensures CleanChunkText("SAMPLE\nTEXT") == ""
  {
    NewlineBetween("SAMPLE", "TEXT");
    var s := "SAMPLE TEXT";
    assert "SAMPLE" + "\n" + "TEXT" == "SAMPLE\nTEXT";
    assert "SAMPLE" + " " + "TEXT" == s;
    assert NewlinesToSpace("SAMPLE\nTEXT") == s;
    SampleTextMatch(s);
    WholeHeaderRemoved(s);
    assert CollapseSpaces([]) == [];
  }

  lemma SampleTextMatch(s: string)
    requires s == "SAMPLE TEXT"
    ensures NoiseAt(s, 0) == Some(|s|)
  {
    Differs(s, 0, NoiseTokens[0], 0);
    Differs(s, 0, NoiseTokens[1], 0);
    assert MatchesAt(s, 0, NoiseTokens[2]);
  }

  lemma NameAtStart(s: string)
    requires s == "Name Parser Finder"
    ensures NoiseAt(s, 0).None?
  {
    forall j | 0 <= j < |NoiseTokens| ensures !MatchesAt(s, 0, NoiseTokens[j]) {
      if j == 3 { Differs(s, 0, NoiseTokens[j], 5); } else { Differs(s, 0, NoiseTokens[j], 0); }
    }
    MatchFromSpec(s, 0, FirstToken);
  }

  lemma NameParserFinderHead(s: string)
    requires s == "Name Parser Finder"
    ensures NoNoiseBetween(s, 0, 5)
  {
    NameAtStart(s);
    InsideWordNoMatch(s, 1);
    InsideWordNoMatch(s, 2);
    InsideWordNoMatch(s, 3);
    NoHeaderStartsWith(s, 4);
    forall k | 0 <= k < 5 ensures NoiseAt(s, k).None? {
      assert k == 0 || k == 1 || k == 2 || k == 3 || k == 4;
    }
  }

  lemma NameParserFinderTail(s: string)
    requires s == "Name Parser Finder"
    ensures NoNoiseBetween(s, 11, 18)
  {
    forall k | 11 <= k < 18 ensures NoiseAt(s, k).None? {
      if k < 13 {
        NoHeaderStartsWith(s, k);
      } else {
        InsideWordNoMatch(s, k);
      }
    }
  }

  lemma NameParserFinderMatch(s: string)
    requires s == "Name Parser Finder"
    ensures NoiseAt(s, 5) == Some(6)
  {
    Differs(s, 5, NoiseTokens[0], 0);
    assert s[5..11] == "Parser";
    assert MatchesAt(s, 5, NoiseTokens[1]);
  }

  lemma NameParserFinderScrub(s: string)
    requires s == "Name Parser Finder"
    ensures RemoveNoise(s) == "Name " + " Finder"
  {
    NameParserFinderHead(s);
    NameParserFinderMatch(s);
    NameParserFinderTail(s);
    ScrubAround(NoiseAt, s, 5, 6);
    assert s[..5] == "Name " && s[11..] == " Finder";
  }

  lemma CollapseToken(b: string)
    requires forall i :: 0 <= i < |b| ==> !IsSpace(b[i])
    ensures CollapseSpaces(b) == b
  {
    CollapseSpacesKeeps(b);
  }

  lemma CollapseSpaceRun(b: string)
    requires forall i :: 0 <= i < |b| ==> !IsSpace(b[i])
    ensures CollapseSpaces("  " + b) == " " + b
  {
    var t := "  " + b;
    assert t[0] == ' ' && t[1] == ' ' && t[1..] == " " + b;
    var u := " " + b;
    assert u[0] == ' ' && u[1..] == b;
    CollapseToken(b);
    assert CollapseSpaces(u) == " " + b;
  }

  lemma CollapseTwoSpaces(a: string, b: string)
    requires forall i :: 0 <= i < |a| ==> !IsSpace(a[i])
    requires forall i :: 0 <= i < |b| ==> !IsSpace(b[i])
    ensures CollapseSpaces(a + "  " + b) == a + " " + b
  {
    var t := "  " + b;
    assert a + "  " + b == a + t;
    CollapseSpacesAfterWord(a, t);
    CollapseSpaceRun(b);
    assert a + (" " + b) == a + " " + b;
  }

  lemma StripKeeps(s: string)
    requires s != [] && !IsSpace(s[0]) && !IsSpace(s[|s| - 1])
    ensures Strip(s) == s
  {
    assert StripStart(s) == s;
  }

  lemma NameFinderGapCollapse()
    ensures CollapseSpaces("Name " + " Finder") == "Name Finder"
  {
    var a, b := "Name", "Finder";
    assert "Name " + " Finder" == a + "  " + b;
    CollapseTwoSpaces(a, b);
    assert a + " " + b == "Name Finder";
  }

  lemma NameParserFinderCollapse(s: string)
    requires s == "Name Parser Finder"
    ensures CollapseSpaces(RemoveNoise(NewlinesToSpace(s))) == "Name Finder"
  {
    NewlinesToSpaceKeeps(s);
    NameParserFinderScrub(s);
    NameFinderGapCollapse();
  }

  /** Removing a header from between two words leaves the two spaces around
      it, which collapsing then merges into one; the words it leaves form a
      new header that the single pass does not see. */
  lemma NameParserFinder(s: string)
    requires s == "Name Parser Finder"
    ensures CleanChunkText(s) == "Name Finder"
  {
    NameParserFinderCollapse(s);
    StripKeeps("Name Finder");
  }

  lemma NameFinderMatch(s: string)
    requires s == "Name Finder"
    ensures NoiseAt(s, 0) == Some(|s|)
  {
    Differs(s, 0, NoiseTokens[0], 0);
    Differs(s, 0, NoiseTokens[1], 0);
    Differs(s, 0, NoiseTokens[2], 0);
    assert MatchesAt(s, 0, NoiseTokens[3]);
  }

  /** A two-word header is removed as a whole. */
  lemma NameFinder()
    ensures CleanChunkText("Name Finder") == ""
  {
    var s := "Name Finder";
    NewlinesToSpaceKeeps(s);
    NameFinderMatch(s);
    WholeHeaderRemoved(s);
    assert CollapseSpaces([]) == [];
  }

  lemma ParsersNoNoise(s: string)
    requires s == "Parsers"
    ensures NoNoise(s)
  {
    forall i | 0 <= i < |s| ensures NoiseAt(s, i).None? {
      if i == 0 {
        NoiseAtSpec(s, 0);
        forall t | t in NoiseTokens ensures !MatchesAt(s, 0, t) {
          if t == "Parser" {
            assert !Boundary(s, 6);
          } else if t == "POS Tagger" || t == "PRE PROCESSOR" {
            Differs(s, 0, t, 1);
          } else {
            Differs(s, 0, t, 0);
          }
        }
      } else {
        InsideWordNoMatch(s, i);
      }
    }
  }

  /** A header word inside a longer word is kept: the match needs `\b`. */
  lemma HeaderInsideWordSurvives(s: string)
    requires s == "Parsers"
    ensures CleanChunkText(s) == s
  {
    ParsersNoNoise(s);
    assert Normalized(s);
    CleanKeepsCleanText(s);
  }
}
