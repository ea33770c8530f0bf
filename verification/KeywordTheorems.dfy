/** What the keyword verdict depends on, and what it does not. */
module KeywordTheorems {
  import opened Prelude
  import opened Schema
  import opened KeywordMatcher
  import Normalizer
  import NormalizedText

  ghost predicate DistinctIds(keywords: seq<Keyword>) {
    forall i, j :: 0 <= i < j < |keywords| && keywords[i].id.Some? ==> keywords[i].id != keywords[j].id
  }

  ghost predicate SameElements<T(!new)>(a: seq<T>, b: seq<T>) {
    forall x :: x in a <==> x in b
  }

  /** Falling scores, and rising keyword ids among equal ones. */
  ghost predicate Precedes(a: Evidence, b: Evidence) {
    a.score >= b.score && (a.score == b.score ==> a.keywordId < b.keywordId)
  }

  ghost predicate InOrder(s: seq<Evidence>) {
    forall i, j :: 0 <= i < j < |s| ==> Precedes(s[i], s[j])
  }

  ghost predicate DistinctKeywords(s: seq<Evidence>) {
    forall i, j :: 0 <= i < j < |s| ==> s[i].keywordId != s[j].keywordId
  }

  // ---- sorting --------------------------------------------------------------------------------

  lemma {:induction false} InsertMembers(e: Evidence, s: seq<Evidence>)
    ensures forall x :: x in Insert(e, s) <==> x == e || x in s
    decreases |s|
  {
    if s != [] {
      InsertMembers(e, s[1..]);
      assert s == [s[0]] + s[1..];
    }
  }

  lemma {:induction false} InsertKeepsOrder(e: Evidence, s: seq<Evidence>)
    requires InOrder(s)
    requires forall x <- s :: x.keywordId != e.keywordId
    ensures InOrder(Insert(e, s))
    decreases |s|
  {
    if s != [] && !Before(e, s[0]) {
      InsertKeepsOrder(e, s[1..]);
      InsertMembers(e, s[1..]);
      var rest := Insert(e, s[1..]);
      forall j | 0 <= j < |rest| ensures Precedes(s[0], rest[j]) {
        assert rest[j] in rest;
        assert s[0] in s;
      }
    }
  }

  lemma {:induction false} SortedMembers(s: seq<Evidence>)
    ensures forall x :: x in Sorted(s) <==> x in s
    decreases |s|
  {
    if s != [] {
      SortedMembers(s[..|s| - 1]);
      InsertMembers(s[|s| - 1], Sorted(s[..|s| - 1]));
      assert s == s[..|s| - 1] + [s[|s| - 1]];
    }
  }

  lemma {:induction false} SortedIsInOrder(s: seq<Evidence>)
    requires DistinctKeywords(s)
    ensures InOrder(Sorted(s))
    decreases |s|
  {
    if s != [] {
      var init := s[..|s| - 1];
      SortedIsInOrder(init);
      SortedMembers(init);
      InsertKeepsOrder(s[|s| - 1], Sorted(init));
    }
  }

  lemma HeadIsFirst(s: seq<Evidence>, i: nat)
    requires InOrder(s) && i < |s|
    ensures i == 0 || Precedes(s[0], s[i])
  {
  }

  /** A strictly ordered list is determined by its members. */
  lemma {:induction false} OrderedListsAreEqual(a: seq<Evidence>, b: seq<Evidence>)
    requires InOrder(a) && InOrder(b) && SameElements(a, b)
    ensures a == b
    decreases |a|
  {
    if a == [] {
      HeadIsMember(b);
    } else {
      assert a[0] in a && a[0] in b && b != [];
      HeadIsMember(b);
      var i :| 0 <= i < |b| && b[i] == a[0];
      var j :| 0 <= j < |a| && a[j] == b[0];
      HeadIsFirst(b, i);
      HeadIsFirst(a, j);
      forall x ensures x in a[1..] <==> x in b[1..] {
        TailMembers(a, x);
        TailMembers(b, x);
      }
      OrderedListsAreEqual(a[1..], b[1..]);
      assert a == [a[0]] + a[1..] && b == [b[0]] + b[1..];
    }
  }

  lemma TailMembers(s: seq<Evidence>, x: Evidence)
    requires InOrder(s) && s != []
    ensures x in s[1..] <==> x in s && x != s[0]
  {
    assert s == [s[0]] + s[1..];
    if x in s[1..] {
      var i :| 0 <= i < |s| - 1 && s[1..][i] == x;
      assert Precedes(s[0], s[i + 1]);
    }
  }

  // ---- the collected evidence -----------------------------------------------------------------

  lemma {:induction false} EvidenceMembers(p: Platform, ks: seq<Keyword>, kind: KeywordKind, title: string, body: string)
    ensures forall x :: x in Evidences(p, ks, kind, title, body) <==>
              exists k <- ks :: Hit(p, k, kind, title, body) && EvidenceOf(p, k, title, body) == Some(x)
    decreases |ks|
  {
    hide EvidenceOf;
    if ks != [] {
      var init, last := ks[..|ks| - 1], ks[|ks| - 1];
      EvidenceMembers(p, init, kind, title, body);
      assert ks == init + [last];
      forall x
        ensures x in Evidences(p, ks, kind, title, body) <==>
                exists k <- ks :: Hit(p, k, kind, title, body) && EvidenceOf(p, k, title, body) == Some(x)
      {
        if exists k <- ks :: Hit(p, k, kind, title, body) && EvidenceOf(p, k, title, body) == Some(x) {
          var k :| k in ks && Hit(p, k, kind, title, body) && EvidenceOf(p, k, title, body) == Some(x);
          assert k in init || k == last;
        }
      }
    }
  }

  lemma EvidenceCarriesId(p: Platform, k: Keyword, title: string, body: string)
    requires EvidenceOf(p, k, title, body).Some? && k.id.Some?
    ensures EvidenceOf(p, k, title, body).value.keywordId == k.id.value
  {
    hide Snippet, Search, FirstField;
  }

  lemma {:induction false} EvidenceIsDistinct(p: Platform, ks: seq<Keyword>, kind: KeywordKind, title: string, body: string)
    requires DistinctIds(ks)
    ensures DistinctKeywords(Evidences(p, ks, kind, title, body))
    decreases |ks|
  {
    hide EvidenceOf;
    if ks != [] {
      var init, last := ks[..|ks| - 1], ks[|ks| - 1];
      EvidenceIsDistinct(p, init, kind, title, body);
      EvidenceMembers(p, init, kind, title, body);
      if Hit(p, last, kind, title, body) {
        EvidenceCarriesId(p, last, title, body);
        forall x | x in Evidences(p, init, kind, title, body)
          ensures x.keywordId != last.id.value
        {
          var i :| 0 <= i < |init| && Hit(p, init[i], kind, title, body) && EvidenceOf(p, init[i], title, body) == Some(x);
          EvidenceCarriesId(p, init[i], title, body);
          assert ks[i] == init[i];
        }
      }
    }
  }

  lemma SortedEvidenceIgnoresOrder(p: Platform, ks: seq<Keyword>, ls: seq<Keyword>, kind: KeywordKind, title: string, body: string)
    requires DistinctIds(ks) && DistinctIds(ls) && SameElements(ks, ls)
    ensures Sorted(Evidences(p, ks, kind, title, body)) == Sorted(Evidences(p, ls, kind, title, body))
  {
    hide EvidenceOf;
    var a, b := Evidences(p, ks, kind, title, body), Evidences(p, ls, kind, title, body);
    EvidenceMembers(p, ks, kind, title, body);
    EvidenceMembers(p, ls, kind, title, body);
    EvidenceIsDistinct(p, ks, kind, title, body);
    EvidenceIsDistinct(p, ls, kind, title, body);
    SortedMembers(a);
    SortedMembers(b);
    SortedIsInOrder(a);
    SortedIsInOrder(b);
    OrderedListsAreEqual(Sorted(a), Sorted(b));
  }

  // ---- main results ---------------------------------------------------------------------------

  /** The verdict and the stored evidence do not depend on the order keywords are read in. */
  lemma EvaluateIgnoresOrder(p: Platform, ks: seq<Keyword>, ls: seq<Keyword>, title: string, body: string)
    requires DistinctIds(ks) && DistinctIds(ls) && SameElements(ks, ls)
    ensures Evaluate(p, ks, title, body) == Evaluate(p, ls, title, body)
  {
    hide EvidenceOf, Sorted, Evidences, IsPrimaryIncludeTerm;
    SortedEvidenceIgnoresOrder(p, ks, ls, Include, title, body);
    SortedEvidenceIgnoresOrder(p, ks, ls, Exclude, title, body);
  }

  /**
   * A posting is of interest exactly when some active include keyword that is not context-only is
   * found and no active exclude keyword is; it is kept exactly then, or without active includes.
   */
  lemma VerdictMeaning(p: Platform, ks: seq<Keyword>, title: string, body: string)
    ensures Evaluate(p, ks, title, body).IsMatched() <==>
            && (exists k <- ks :: Hit(p, k, Include, title, body) && IsPrimaryIncludeTerm(p, k.term))
            && (forall k <- ks :: !Hit(p, k, Exclude, title, body))
    ensures Evaluate(p, ks, title, body).ShouldPersist() <==>
            Evaluate(p, ks, title, body).IsMatched() || forall k <- ks :: !(Live(k) && k.kind.Include?)
  {
    hide EvidenceOf, IsPrimaryIncludeTerm;
    NothingSortedMeansNoHit(p, ks, Exclude, title, body);
  }

  lemma NothingSortedMeansNoHit(p: Platform, ks: seq<Keyword>, kind: KeywordKind, title: string, body: string)
    ensures Sorted(Evidences(p, ks, kind, title, body)) == [] <==> forall k <- ks :: !Hit(p, k, kind, title, body)
  {
    hide EvidenceOf;
    var found := Evidences(p, ks, kind, title, body);
    EvidenceMembers(p, ks, kind, title, body);
    SortedMembers(found);
    HeadIsMember(Sorted(found));
    if k :| k in ks && Hit(p, k, kind, title, body) {
      assert EvidenceOf(p, k, title, body).value in Sorted(found);
    }
  }

  // ---- what a keyword is found in -------------------------------------------------------------

  /** The term stands somewhere in the text, in the sense of the keyword's mode; an empty term stands nowhere. */
  ghost predicate Occurs(p: Platform, keyword: Keyword, text: string) {
    && keyword.term != ""
    && if keyword.mode.Regex? then p.regexSearch(keyword.term, text).Some? else exists at: nat :: PlaceOf(p, keyword, text, at)
  }

  /** The term stands here, in word mode on its own. */
  ghost predicate PlaceOf(p: Platform, keyword: Keyword, text: string, at: nat) {
    StandsAt(p, text, keyword.term, at) && (keyword.mode.Word? ==> StandsAlone(p, text, at, at + |keyword.term|))
  }

  ghost predicate StandsAt(p: Platform, text: string, term: string, at: nat) {
    at + |term| <= |text| && forall j :: 0 <= j < |term| ==> p.sameLetter(text[at + j], term[j])
  }

  ghost predicate StandsAlone(p: Platform, text: string, start: nat, end: nat)
    requires start <= end <= |text|
  {
    && (start > 0 ==> !p.isWord(text[start - 1]))
    && (end < |text| ==> !p.isWord(text[end]))
  }

  /** A target field has its text from the posting's title or description; other names have none. */
  ghost predicate FieldHas(p: Platform, keyword: Keyword, name: string, title: string, body: string) {
    || (name == "title" && Occurs(p, keyword, title))
    || (name == "description" && Occurs(p, keyword, body))
  }

  ghost predicate Found(p: Platform, keyword: Keyword, title: string, body: string) {
    exists i :: 0 <= i < |keyword.targetFields| && FieldHas(p, keyword, keyword.targetFields[i], title, body)
  }

  lemma PlaceMatches(p: Platform, keyword: Keyword, text: string, at: nat)
    ensures MatchesAt(p, text, keyword.term, keyword.mode, at) <==> PlaceOf(p, keyword, text, at)
    ensures PlaceOf(p, keyword, text, at) ==> at + |keyword.term| <= |text|
  {
  }

  lemma SearchFinds(p: Platform, keyword: Keyword, text: string)
    ensures Search(p, keyword, text).Some? <==> Occurs(p, keyword, text)
  {
    hide MatchesAt, PlaceOf;
    if keyword.term != "" && !keyword.mode.Regex? {
      forall at: nat ensures MatchesAt(p, text, keyword.term, keyword.mode, at) <==> PlaceOf(p, keyword, text, at) {
        PlaceMatches(p, keyword, text, at);
      }
      var r := SearchFrom(p, text, keyword.term, keyword.mode, 0);
      assert r.Some? ==> PlaceOf(p, keyword, text, r.value);
    }
  }

  lemma FoundInHas(p: Platform, keyword: Keyword, title: string, body: string, name: string)
    ensures FoundIn(p, keyword, title, body, name) <==> FieldHas(p, keyword, name, title, body)
  {
    hide Search, Occurs;
    SearchFinds(p, keyword, title);
    SearchFinds(p, keyword, body);
  }

  /**
   * There is evidence exactly when the keyword is found in the title or the description, whichever
   * it targets; the evidence carries the keyword's id, kind and weight, and names the first target
   * field it is found in.
   */
  lemma EvidenceMeaning(p: Platform, keyword: Keyword, title: string, body: string)
    ensures EvidenceOf(p, keyword, title, body).Some? <==> Found(p, keyword, title, body)
    ensures EvidenceOf(p, keyword, title, body).Some? ==>
              var e := EvidenceOf(p, keyword, title, body).value;
              && (keyword.id.Some? ==> e.keywordId == keyword.id.value) && e.kind == keyword.kind && e.score == keyword.weight
              && exists i :: 0 <= i < |keyword.targetFields| && e.matchedField == keyword.targetFields[i]
                   && FieldHas(p, keyword, keyword.targetFields[i], title, body)
                   && forall k :: 0 <= k < i ==> !FieldHas(p, keyword, keyword.targetFields[k], title, body)
  {
    forall name ensures FoundIn(p, keyword, title, body, name) <==> FieldHas(p, keyword, name, title, body) {
      FoundInHas(p, keyword, title, body, name);
    }
    hide Search, Occurs, FieldHas, Snippet;
    var first := FirstField(p, keyword, title, body, 0);
    assert first.Some? ==> FoundIn(p, keyword, title, body, keyword.targetFields[first.value]);
    hide FirstField, FieldText;
  }

  /** A place in a text with thirty characters on either side where there are as many, and marks where it was cut. */
  ghost predicate IsCutOut(text: string, at: nat, end: nat, snippet: string)
    requires at <= end <= |text|
  {
    var left, right := if at > 30 then at - 30 else 0, if end + 30 < |text| then end + 30 else |text|;
    snippet == (if at > 30 then "…" else "") + NormalizedText.JoinBlank(NormalizedText.Words(text[left..right]))
               + (if end + 30 < |text| then "…" else "")
  }

  /** The first place of the term in the text. */
  ghost predicate IsFirstPlace(p: Platform, keyword: Keyword, text: string, at: nat) {
    && PlaceOf(p, keyword, text, at)
    && forall k: nat :: k < at ==> !PlaceOf(p, keyword, text, k)
  }

  /** The snippet shows the leftmost place of the term in the first field it is found in. */
  lemma SnippetMeaning(p: Platform, keyword: Keyword, title: string, body: string, e: Evidence, text: string) returns (at: nat)
    requires !keyword.mode.Regex? && EvidenceOf(p, keyword, title, body) == Some(e)
    requires text == if e.matchedField == "title" then title else body
    ensures IsFirstPlace(p, keyword, text, at) && at + |keyword.term| <= |text|
    ensures IsCutOut(text, at, at + |keyword.term|, e.matchedSnippet)
  {
    at := SnippetPlace(p, keyword, title, body, e);
    hide EvidenceOf, Snippet, IsCutOut, MatchesAt, PlaceOf;
    forall k: nat ensures MatchesAt(p, text, keyword.term, keyword.mode, k) <==> PlaceOf(p, keyword, text, k) {
      PlaceMatches(p, keyword, text, k);
    }
    PlaceMatches(p, keyword, text, at);
    CutOut(text, at, at + |keyword.term|);
  }

  lemma SnippetPlace(p: Platform, keyword: Keyword, title: string, body: string, e: Evidence) returns (at: nat)
    requires !keyword.mode.Regex? && EvidenceOf(p, keyword, title, body) == Some(e)
    ensures var text := if e.matchedField == "title" then title else body;
      && MatchesAt(p, text, keyword.term, keyword.mode, at)
      && (forall k: nat :: k < at ==> !MatchesAt(p, text, keyword.term, keyword.mode, k))
      && e.matchedSnippet == Snippet(text, Span(at, at + |keyword.term|))
  {
    var i := FirstField(p, keyword, title, body, 0).value;
    assert FoundIn(p, keyword, title, body, keyword.targetFields[i]);
    var text := FieldText(title, body, keyword.targetFields[i]).value;
    at := SearchFrom(p, text, keyword.term, keyword.mode, 0).value;
    hide FirstField, SearchFrom, Snippet, MatchesAt;
  }

  lemma CutOut(text: string, at: nat, end: nat)
    requires at <= end <= |text|
    ensures IsCutOut(text, at, end, Snippet(text, Span(at, end)))
  {
    var left, right := if at > 30 then at - 30 else 0, if end + 30 < |text| then end + 30 else |text|;
    NormalizedText.SqueezeJoinsWords(text[left..right]);
    hide Normalizer.Squeeze, NormalizedText.JoinBlank, NormalizedText.Words;
  }

  /** A keyword that names a job of its own, and not just the form of employment. */
  ghost predicate NamesInterest(p: Platform, keyword: Keyword) {
    var term := Normalizer.CaseFold(p, Normalizer.Trim(keyword.term, Normalizer.Spaces));
    term != "신입" && term != "인턴"
  }

  /** An active keyword of the kind, stored under an id, is found in the posting. */
  ghost predicate Speaks(p: Platform, keyword: Keyword, kind: KeywordKind, title: string, body: string) {
    keyword.isActive && keyword.id.Some? && keyword.kind == kind && Found(p, keyword, title, body)
  }

  /**
   * Which postings are kept: all of them without an active include keyword; otherwise those in
   * whose title or description an active include keyword other than the two context words is found
   * and no active exclude keyword is.
   */
  lemma KeptExactly(p: Platform, ks: seq<Keyword>, title: string, body: string)
    ensures Evaluate(p, ks, title, body).ShouldPersist() <==>
            || (forall k <- ks :: k.isActive && k.id.Some? ==> k.kind.Exclude?)
            || (&& (exists k <- ks :: Speaks(p, k, Include, title, body) && NamesInterest(p, k))
                && (forall k <- ks :: !Speaks(p, k, Exclude, title, body)))
  {
    VerdictMeaning(p, ks, title, body);
    hide EvidenceOf, Evaluate, Found, Speaks, NamesInterest, IsPrimaryIncludeTerm;
    forall k <- ks
      ensures Hit(p, k, Include, title, body) <==> Speaks(p, k, Include, title, body)
      ensures Hit(p, k, Exclude, title, body) <==> Speaks(p, k, Exclude, title, body)
      ensures IsPrimaryIncludeTerm(p, k.term) <==> NamesInterest(p, k)
    {
      HitSpeaks(p, k, Include, title, body);
      HitSpeaks(p, k, Exclude, title, body);
      PrimaryNamesInterest(p, k);
    }
  }

  lemma HitSpeaks(p: Platform, k: Keyword, kind: KeywordKind, title: string, body: string)
    ensures Hit(p, k, kind, title, body) <==> Speaks(p, k, kind, title, body)
  {
    EvidenceMeaning(p, k, title, body);
    hide EvidenceOf, Found;
  }

  lemma PrimaryNamesInterest(p: Platform, k: Keyword)
    ensures IsPrimaryIncludeTerm(p, k.term) <==> NamesInterest(p, k)
  {
    hide Normalizer.CaseFold, Normalizer.Trim;
  }

  /** Evidence as a reader checks it against the keyword and the posting. */
  ghost predicate IsEvidence(p: Platform, e: Evidence, k: Keyword, title: string, body: string) {
    && Speaks(p, k, e.kind, title, body) && e.keywordId == k.id.value && e.score == k.weight
    && exists i :: 0 <= i < |k.targetFields| && e.matchedField == k.targetFields[i]
         && FieldHas(p, k, k.targetFields[i], title, body)
         && forall j :: 0 <= j < i ==> !FieldHas(p, k, k.targetFields[j], title, body)
  }

  /**
   * The evidence of a posting: every entry stems from an active keyword that is found, and every
   * active keyword that is found has its entry; includes come before excludes.
   */
  lemma EvidenceIsComplete(p: Platform, ks: seq<Keyword>, title: string, body: string)
    ensures var r := Evaluate(p, ks, title, body);
      && (forall e <- r.AllMatches() :: exists k <- ks :: IsEvidence(p, e, k, title, body))
      && (forall k <- ks, kind :: Speaks(p, k, kind, title, body) ==> exists e <- r.AllMatches() :: e.kind == kind && IsEvidence(p, e, k, title, body))
      && (forall e <- r.includeMatches :: e.kind.Include?) && (forall e <- r.excludeMatches :: e.kind.Exclude?)
  {
    hide Evidences, EvidenceOf, Sorted, IsEvidence, Speaks, Found, IsPrimaryIncludeTerm, Hit;
    var r := Evaluate(p, ks, title, body);
    KindOfEvidence(p, ks, Include, title, body);
    KindOfEvidence(p, ks, Exclude, title, body);
    forall e ensures e in r.AllMatches() <==> e in r.includeMatches || e in r.excludeMatches {
    }
    forall k <- ks, kind | Speaks(p, k, kind, title, body)
      ensures exists e <- r.AllMatches() :: e.kind == kind && IsEvidence(p, e, k, title, body)
    {
      if kind.Include? {
        var e :| e in r.includeMatches && e.kind == kind && IsEvidence(p, e, k, title, body);
        assert e in r.AllMatches();
      } else {
        var e :| e in r.excludeMatches && e.kind == kind && IsEvidence(p, e, k, title, body);
        assert e in r.AllMatches();
      }
    }
  }

  lemma KindOfEvidence(p: Platform, ks: seq<Keyword>, kind: KeywordKind, title: string, body: string)
    ensures var found := Sorted(Evidences(p, ks, kind, title, body));
      && (forall e <- found :: e.kind == kind && exists k <- ks :: IsEvidence(p, e, k, title, body))
      && (forall k <- ks :: Speaks(p, k, kind, title, body) ==> exists e <- found :: e.kind == kind && IsEvidence(p, e, k, title, body))
  {
    EvidenceMembers(p, ks, kind, title, body);
    SortedMembers(Evidences(p, ks, kind, title, body));
    hide Evidences, EvidenceOf, Sorted, IsEvidence, Hit, Found, Speaks;
    var found := Sorted(Evidences(p, ks, kind, title, body));
    forall e <- found ensures e.kind == kind && exists k <- ks :: IsEvidence(p, e, k, title, body) {
      var k :| k in ks && Hit(p, k, kind, title, body) && EvidenceOf(p, k, title, body) == Some(e);
      HitIsEvidence(p, k, kind, title, body);
    }
    forall k <- ks | Speaks(p, k, kind, title, body)
      ensures exists e <- found :: e.kind == kind && IsEvidence(p, e, k, title, body)
    {
      HitSpeaks(p, k, kind, title, body);
      HitIsEvidence(p, k, kind, title, body);
      assert EvidenceOf(p, k, title, body).value in found;
    }
  }

  lemma HitIsEvidence(p: Platform, k: Keyword, kind: KeywordKind, title: string, body: string)
    requires Hit(p, k, kind, title, body)
    ensures var e := EvidenceOf(p, k, title, body); e.Some? && e.value.kind == kind && IsEvidence(p, e.value, k, title, body)
  {
    EvidenceMeaning(p, k, title, body);
    hide EvidenceOf, Found, FieldHas;
  }

  /** One more exclude keyword never turns a rejected posting into a kept one. */
  lemma ExcludeNeverCreatesMatch(p: Platform, ks: seq<Keyword>, exclude: Keyword, title: string, body: string)
    requires exclude.kind.Exclude?
    ensures Evaluate(p, ks + [exclude], title, body).IsMatched() ==> Evaluate(p, ks, title, body).IsMatched()
    ensures Evaluate(p, ks + [exclude], title, body).ShouldPersist() ==> Evaluate(p, ks, title, body).ShouldPersist()
  {
    hide EvidenceOf, IsPrimaryIncludeTerm, Sorted, Evidences, Evaluate;
    VerdictMeaning(p, ks, title, body);
    VerdictMeaning(p, ks + [exclude], title, body);
    assert forall k <- ks :: k in ks + [exclude];
  }

  /** Wherever word mode finds a term, substring mode finds it in the same or an earlier field. */
  lemma WordMatchIsSubstringMatch(p: Platform, keyword: Keyword, title: string, body: string)
    requires keyword.mode.Word?
    requires FirstField(p, keyword, title, body, 0).Some?
    ensures var substring := keyword.(mode := Substring);
            && FirstField(p, substring, title, body, 0).Some?
            && FirstField(p, substring, title, body, 0).value <= FirstField(p, keyword, title, body, 0).value
  {
    var substring := keyword.(mode := Substring);
    var i := FirstField(p, keyword, title, body, 0).value;
    var text := FieldText(title, body, keyword.targetFields[i]).value;
    var at := SearchFrom(p, text, keyword.term, Word, 0);
    assert MatchesAt(p, text, substring.term, Substring, at.value);
    assert FoundIn(p, substring, title, body, substring.targetFields[i]);
  }
}
