/** What text normalisation leaves of a text: its words, without brackets and marks around them. */
module NormalizedText {
  import opened Prelude
  import opened Schema
  import opened Normalizer
  import NT = NormalizerTheorems

  // ---- words ----------------------------------------------------------------------------------

  /** The maximal stretches without whitespace, in order. */
  function Words(s: string): seq<string> {
    if s == "" then []
    else
      var rest := Words(s[1..]);
      if IsSpace(s[0]) then rest
      else if |s| == 1 || IsSpace(s[1]) || rest == [] then [[s[0]]] + rest
      else [[s[0]] + rest[0]] + rest[1..]
  }

  function JoinBlank(words: seq<string>): string {
    if words == [] then "" else if |words| == 1 then words[0] else words[0] + " " + JoinBlank(words[1..])
  }

  ghost predicate AreWords(words: seq<string>) {
    forall w <- words :: w != "" && forall c <- w :: !IsSpace(c)
  }

  lemma {:induction false} WordsAreWords(s: string)
    ensures AreWords(Words(s))
    ensures s != "" && !IsSpace(s[0]) ==> Words(s) != []
    decreases |s|
  {
    hide IsSpace;
    if s != "" {
      WordsAreWords(s[1..]);
      var rest := Words(s[1..]);
      if !IsSpace(s[0]) && |s| > 1 && !IsSpace(s[1]) {
        assert s[1..][0] == s[1];
        assert forall w <- rest[1..] :: w in rest;
        assert rest[0] in rest;
      }
    }
  }

  /** Joined words begin and end with letters of words. */
  lemma {:induction false} JoinedEdges(words: seq<string>)
    requires AreWords(words) && words != []
    ensures var s := JoinBlank(words); s != "" && !IsSpace(s[0]) && !IsSpace(s[|s| - 1])
    decreases |words|
  {
    hide IsSpace;
    assert words[0] in words && words[0][0] in words[0] && words[0][|words[0]| - 1] in words[0];
    if |words| > 1 {
      assert forall w <- words[1..] :: w in words;
      JoinedEdges(words[1..]);
    }
  }

  lemma {:induction false} WordsSkipGap(s: string)
    ensures Words(TrimLeft(s, Spaces)) == Words(s)
    decreases |s|
  {
    hide IsSpace;
    if s != "" && IsSpace(s[0]) {
      WordsSkipGap(s[1..]);
    }
  }

  function Blank(present: bool): string {
    if present then " " else ""
  }

  /** The words with one blank between them, and one at either end for whitespace there. */
  function Spread(s: string): string {
    Framed(s != "" && IsSpace(s[0]), JoinBlank(Words(s)), EndsOpen(s))
  }

  function Framed(before: bool, text: string, after: bool): string {
    Blank(before) + text + Blank(after)
  }

  predicate EndsOpen(s: string) {
    s != "" && IsSpace(s[|s| - 1]) && Words(s) != []
  }

  lemma {:induction false} CollapsedWords(s: string)
    ensures Collapse(s) == Spread(s)
    decreases |s|
  {
    if s != "" {
      NT.CollapseStep(s);
      hide IsSpace, Collapse, Spread;
      if IsSpace(s[0]) {
        var rest := TrimLeft(s[1..], Spaces);
        CollapsedWords(rest);
        AfterGap(s, rest);
      } else {
        CollapsedWords(s[1..]);
        AfterLetter(s);
      }
    }
  }

  lemma AfterGap(s: string, rest: string)
    requires s != "" && IsSpace(s[0]) && rest == TrimLeft(s[1..], Spaces)
    ensures Spread(s) == " " + Spread(rest)
  {
    SameWordsAfterGap(s, rest);
    hide IsSpace, Words, JoinBlank, EndsOpen, TrimLeft, Framed;
    GapInFront(JoinBlank(Words(s)), EndsOpen(s));
  }

  lemma GapInFront(text: string, after: bool)
    ensures Framed(true, text, after) == " " + Framed(false, text, after)
  {
  }

  lemma SameWordsAfterGap(s: string, rest: string)
    requires s != "" && IsSpace(s[0]) && rest == TrimLeft(s[1..], Spaces)
    ensures Words(s) == Words(rest) && (EndsOpen(s) <==> EndsOpen(rest)) && (rest == "" || !IsSpace(rest[0]))
  {
    WordsSkipGap(s[1..]);
    TrimLeftCuts(s[1..], Spaces);
    assert Words(s) == Words(s[1..]);
    hide IsSpace, TrimLeft;
    if rest != "" {
      hide Words;
      assert rest[|rest| - 1] == s[1..][|s| - 1 - 1] == s[|s| - 1];
    }
  }

  lemma AfterLetter(s: string)
    requires s != "" && !IsSpace(s[0])
    ensures Spread(s) == [s[0]] + Spread(s[1..])
  {
    hide IsSpace, Framed;
    LetterAlone(s);
    LetterBefore(s);
    LetterWithin(s);
    hide Words, JoinBlank, EndsOpen;
    var rest := Words(s[1..]);
    if |s| == 1 {
      assert s[1..] == "";
      LetterInFront(s[0], "", "", false, false);
    } else if IsSpace(s[1]) && rest == [] {
      LetterAndGap(s[0]);
    } else if IsSpace(s[1]) {
      LetterInFront(s[0], JoinBlank(rest), " ", true, EndsOpen(s));
    } else {
      LetterInFront(s[0], JoinBlank(rest), "", false, EndsOpen(s));
    }
  }

  lemma LetterInFront(c: char, text: string, blank: string, gap: bool, after: bool)
    requires blank == Blank(gap)
    ensures Framed(false, [c] + blank + text, after) == [c] + Framed(gap, text, after)
  {
  }

  lemma LetterAndGap(c: char)
    ensures Framed(false, [c], true) == [c] + Framed(true, "", false)
  {
  }

  lemma LetterAlone(s: string)
    requires s != "" && !IsSpace(s[0])
    ensures |s| == 1 ==> JoinBlank(Words(s)) == [s[0]] + "" + "" && !EndsOpen(s) && JoinBlank(Words(s[1..])) == "" && !EndsOpen(s[1..])
  {
    hide IsSpace;
    if |s| == 1 {
      assert s[1..] == "";
      assert Words(s) == [[s[0]]];
    }
  }

  /** A letter that is a word of its own. */
  lemma LetterBefore(s: string)
    requires s != "" && !IsSpace(s[0])
    ensures |s| > 1 && IsSpace(s[1]) ==>
              var rest := Words(s[1..]);
              && (rest == [] ==> JoinBlank(Words(s)) == [s[0]] && EndsOpen(s) && !EndsOpen(s[1..]) && JoinBlank(rest) == "")
              && (rest != [] ==> JoinBlank(Words(s)) == [s[0]] + " " + JoinBlank(rest) && (EndsOpen(s) <==> EndsOpen(s[1..])))
  {
    hide IsSpace;
    if |s| > 1 && IsSpace(s[1]) {
      var rest := Words(s[1..]);
      assert Words(s) == [[s[0]]] + rest;
      hide Words;
      assert s[1..][|s| - 2] == s[|s| - 1];
      if rest == [] {
        NoWordsAllSpace(s[1..]);
      } else {
        BeforeWords([s[0]], rest);
      }
    }
  }

  /** A letter that begins a longer word. */
  lemma LetterWithin(s: string)
    requires s != "" && !IsSpace(s[0])
    ensures |s| > 1 && !IsSpace(s[1]) ==>
              JoinBlank(Words(s)) == [s[0]] + "" + JoinBlank(Words(s[1..])) && (EndsOpen(s) <==> EndsOpen(s[1..]))
  {
    hide IsSpace;
    if |s| > 1 && !IsSpace(s[1]) {
      WordsAreWords(s[1..]);
      var rest := Words(s[1..]);
      assert Words(s) == [[s[0]] + rest[0]] + rest[1..];
      hide Words;
      LongerWord(s[0], rest);
      assert s[1..][|s| - 2] == s[|s| - 1];
    }
  }

  lemma BeforeWords(word: string, words: seq<string>)
    requires words != []
    ensures JoinBlank([word] + words) == word + " " + JoinBlank(words)
  {
    assert ([word] + words)[1..] == words;
  }

  lemma LongerWord(c: char, words: seq<string>)
    requires words != []
    ensures JoinBlank([[c] + words[0]] + words[1..]) == [c] + JoinBlank(words)
  {
    var longer := [[c] + words[0]] + words[1..];
    assert longer[1..] == words[1..];
    if |words| > 1 {
      assert [c] + (words[0] + " " + JoinBlank(words[1..])) == ([c] + words[0]) + " " + JoinBlank(words[1..]);
    }
  }

  lemma {:induction false} NoWordsAllSpace(s: string)
    requires Words(s) == []
    ensures forall c <- s :: IsSpace(c)
    decreases |s|
  {
    hide IsSpace;
    if s != "" && IsSpace(s[0]) {
      NoWordsAllSpace(s[1..]);
    }
  }

  /** Squeezing a text leaves its words, with one blank between them. */
  lemma SqueezeJoinsWords(s: string)
    ensures Squeeze(s) == JoinBlank(Words(s)) && AreWords(Words(s))
  {
    CollapsedWords(s);
    WordsAreWords(s);
    hide IsSpace, Collapse, Words;
    if Words(s) != [] {
      JoinedEdges(Words(s));
      TrimmedBlanks(s != "" && IsSpace(s[0]), JoinBlank(Words(s)), s != "" && IsSpace(s[|s| - 1]));
    } else {
      BlankIsTrimmed();
    }
  }

  lemma TrimmedBlanks(before: bool, text: string, after: bool)
    requires text != "" && !IsSpace(text[0]) && !IsSpace(text[|text| - 1])
    ensures Trim(Framed(before, text, after), Spaces) == text
  {
    hide IsSpace, TrimLeft, TrimRight;
    var led := Blank(before) + text;
    assert led[|led| - 1] == text[|text| - 1];
    TrailingBlank(led, after);
    LeadingBlank(before, text);
  }

  lemma TrailingBlank(text: string, after: bool)
    requires text != "" && !IsSpace(text[|text| - 1])
    ensures TrimRight(text + Blank(after), Spaces) == text
  {
    hide IsSpace, TrimRight;
    NT.TrimRightAppend(text, Blank(after));
    BlankIsTrimmed();
    assert text + "" == text;
  }

  lemma LeadingBlank(before: bool, text: string)
    requires text != "" && !IsSpace(text[0])
    ensures TrimLeft(Blank(before) + text, Spaces) == text
  {
    assert IsSpace(' ');
    hide IsSpace;
    assert TrimLeft(text, Spaces) == text;
    if before {
      assert (" " + text)[1..] == text;
    } else {
      assert "" + text == text;
    }
  }

  lemma BlankIsTrimmed()
    ensures TrimRight(" ", Spaces) == "" && TrimRight("", Spaces) == "" && TrimLeft("", Spaces) == ""
  {
    assert IsSpace(' ');
    assert " "[..0] == "";
  }

  // ---- the edges ------------------------------------------------------------------------------

  /** The text without the marks, brackets and blanks at its edges. */
  ghost predicate IsCore(text: string, left: string, core: string, right: string) {
    && text == left + core + right
    && (forall c <- left :: IsEdge(c)) && (forall c <- right :: IsEdge(c))
    && (core != "" ==> !IsEdge(core[0]) && !IsEdge(core[|core| - 1]))
  }

  lemma {:induction false} TrimRightCuts(s: string, margin: Margin)
    ensures var t := TrimRight(s, margin);
      && t == s[..|t|] && (forall i :: |t| <= i < |s| ==> margin.Has(s[i])) && (t != "" ==> !margin.Has(t[|t| - 1]))
    decreases |s|
  {
    hide IsSpace, IsEdge;
    if s != "" && margin.Has(s[|s| - 1]) {
      TrimRightCuts(s[..|s| - 1], margin);
    }
  }

  lemma {:induction false} TrimLeftCuts(s: string, margin: Margin)
    ensures var t := TrimLeft(s, margin);
      && t == s[|s| - |t|..] && (forall i :: 0 <= i < |s| - |t| ==> margin.Has(s[i])) && (t != "" ==> !margin.Has(t[0]))
    decreases |s|
  {
    hide IsSpace, IsEdge;
    if s != "" && margin.Has(s[0]) {
      TrimLeftCuts(s[1..], margin);
      var t := TrimLeft(s, margin);
      forall i | 0 <= i < |s| - |t| ensures margin.Has(s[i]) {
        if i > 0 {
          assert s[i] == s[1..][i - 1];
        }
      }
    }
  }

  lemma TrimFindsCore(text: string) returns (left: string, right: string)
    ensures IsCore(text, left, Trim(text, Edges), right)
  {
    var t := TrimRight(text, Edges);
    TrimRightCuts(text, Edges);
    TrimLeftCuts(t, Edges);
    hide IsEdge, TrimLeft, TrimRight;
    var core := Trim(text, Edges);
    left, right := text[..|t| - |core|], text[|t|..];
    forall c <- left ensures IsEdge(c) {
      var i :| 0 <= i < |left| && left[i] == c;
      assert Edges.Has(t[i]);
    }
    forall c <- right ensures IsEdge(c) {
      var i :| 0 <= i < |right| && right[i] == c;
      assert Edges.Has(text[|t| + i]);
    }
    assert text == left + core + right;
  }

  /** Case folding goes letter by letter. */
  lemma {:induction false} FoldsByLetter(p: Platform, a: string, b: string)
    ensures CaseFold(p, a + b) == CaseFold(p, a) + CaseFold(p, b)
    ensures forall c :: CaseFold(p, [c]) == p.fold(c)
    decreases |a|
  {
    forall c ensures CaseFold(p, [c]) == p.fold(c) {
      assert [c][1..] == "";
    }
    if a == "" {
      assert a + b == b;
    } else {
      FoldsByLetter(p, a[1..], b);
      assert (a + b)[1..] == a[1..] + b;
    }
  }

  /**
   * A normalised text: the words of the NFKC form with one blank between them, for a title without
   * its leading tags, cut down to what lies between the marks at its edges, and case-folded.
   */
  lemma NormalizedMeaning(p: Platform, value: Option<string>, isTitle: bool) returns (left: string, core: string, right: string)
    ensures var text := JoinBlank(Words(p.nfkc(if value.Some? then value.value else "")));
      && IsCore(if isTitle then StripTags(text) else text, left, core, right)
      && Normalized(p, value, isTitle) == CaseFold(p, core)
  {
    var s := p.nfkc(value.GetOr(""));
    SqueezeJoinsWords(s);
    hide Squeeze, IsCore, StripTags, Words, JoinBlank, Trim;
    var text := if isTitle then StripTags(Squeeze(s)) else Squeeze(s);
    left, right := TrimFindsCore(text);
    core := Trim(text, Edges);
  }
}
