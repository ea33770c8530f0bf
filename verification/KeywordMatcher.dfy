/** app/services/keyword_matcher.py and app/core/interests.py: the keyword verdict on a posting. */
module KeywordMatcher {
  import opened Prelude
  import opened Schema
  import Normalizer

  const SNIPPET_RADIUS: int := 30
  const CONTEXT_ONLY_INCLUDE_TERMS: set<string> := {"신입", "인턴"}

  datatype KeywordMatchResult = KeywordMatchResult(
    includeMatches: seq<Evidence>,
    excludeMatches: seq<Evidence>,
    hasPrimaryInclude: bool,
    hasActiveInclude: bool)
  {
    predicate IsMatched() {
      hasPrimaryInclude && excludeMatches == []
    }

    function AllMatches(): seq<Evidence> {
      includeMatches + excludeMatches
    }

    predicate ShouldPersist() {
      !hasActiveInclude || IsMatched()
    }
  }

  // ---- searching one text ---------------------------------------------------------------------

  /** The escaped term stands at a position, letters compared without case. */
  predicate TermAt(p: Platform, text: string, term: string, at: nat) {
    at + |term| <= |text| && forall j :: 0 <= j < |term| ==> p.sameLetter(text[at + j], term[j])
  }

  /** Neither side of the stretch continues a word. */
  predicate OnWordEdges(p: Platform, text: string, start: nat, end: nat)
    requires start <= end <= |text|
  {
    && (start == 0 || !p.isWord(text[start - 1]))
    && (end == |text| || !p.isWord(text[end]))
  }

  predicate MatchesAt(p: Platform, text: string, term: string, mode: MatchMode, at: nat) {
    TermAt(p, text, term, at) && (mode.Word? ==> OnWordEdges(p, text, at, at + |term|))
  }

  /** The leftmost match at or after a position. */
  function SearchFrom(p: Platform, text: string, term: string, mode: MatchMode, from: nat): (r: Option<nat>)
    requires from <= |text|
    ensures r.Some? ==> from <= r.value && MatchesAt(p, text, term, mode, r.value)
    ensures forall k: nat :: from <= k && (r.Some? ==> k < r.value) ==> !MatchesAt(p, text, term, mode, k)
    decreases |text| - from
  {
    if MatchesAt(p, text, term, mode, from) then Some(from)
    else if from == |text| then None
    else SearchFrom(p, text, term, mode, from + 1)
  }

  /** An empty term never matches; a pattern that does not compile matches nowhere. */
  function Search(p: Platform, keyword: Keyword, text: string): Option<Span> {
    if keyword.term == "" then None
    else if keyword.mode.Regex? then p.regexSearch(keyword.term, text)
    else
      match SearchFrom(p, text, keyword.term, keyword.mode, 0)
      case Some(at) => Some(Span(at, at + |keyword.term|))
      case None => None
  }

  function FieldText(title: string, description: string, name: string): Option<string> {
    if name == "title" then Some(title)
    else if name == "description" then Some(description)
    else None
  }

  predicate FoundIn(p: Platform, keyword: Keyword, title: string, description: string, name: string) {
    var text := FieldText(title, description, name);
    text.Some? && Search(p, keyword, text.value).Some?
  }

  /** The position of the first target field the keyword is found in. */
  function FirstField(p: Platform, keyword: Keyword, title: string, description: string, from: nat): (r: Option<nat>)
    requires from <= |keyword.targetFields|
    ensures r.Some? ==> from <= r.value < |keyword.targetFields|
                        && FoundIn(p, keyword, title, description, keyword.targetFields[r.value])
    ensures forall k :: from <= k < |keyword.targetFields| && (r.Some? ==> k < r.value)
                        ==> !FoundIn(p, keyword, title, description, keyword.targetFields[k])
    decreases |keyword.targetFields| - from
  {
    if from == |keyword.targetFields| then None
    else if FoundIn(p, keyword, title, description, keyword.targetFields[from]) then Some(from)
    else FirstField(p, keyword, title, description, from + 1)
  }

  function Snippet(value: string, span: Span): string {
    var left := Max(0, Min(span.start - SNIPPET_RADIUS, |value|));
    var right := Max(left, Min(|value|, span.end + SNIPPET_RADIUS));
    (if left > 0 then "…" else "")
    + Normalizer.Squeeze(value[left..right])
    + (if right < |value| then "…" else "")
  }

  function EvidenceOf(p: Platform, keyword: Keyword, title: string, description: string): Option<Evidence> {
    match FirstField(p, keyword, title, description, 0)
    case None => None
    case Some(i) =>
      var name := keyword.targetFields[i];
      var text := FieldText(title, description, name).value;
      Some(Evidence(keyword.id.GetOr(0), keyword.kind, name,
                    Snippet(text, Search(p, keyword, text).value), keyword.weight))
  }

  // ---- the verdict ----------------------------------------------------------------------------

  predicate Live(keyword: Keyword) {
    keyword.isActive && keyword.id.Some?
  }

  predicate Hit(p: Platform, keyword: Keyword, kind: KeywordKind, title: string, description: string) {
    Live(keyword) && keyword.kind == kind && EvidenceOf(p, keyword, title, description).Some?
  }

  predicate IsPrimaryIncludeTerm(p: Platform, term: string) {
    Normalizer.CaseFold(p, Normalizer.Trim(term, Normalizer.Spaces)) !in CONTEXT_ONLY_INCLUDE_TERMS
  }

  /** Higher weight first, then lower keyword id. */
  predicate Before(a: Evidence, b: Evidence) {
    a.score > b.score || (a.score == b.score && a.keywordId < b.keywordId)
  }

  function Insert(e: Evidence, sorted: seq<Evidence>): seq<Evidence> {
    if sorted == [] || Before(e, sorted[0]) then [e] + sorted
    else [sorted[0]] + Insert(e, sorted[1..])
  }

  function Sorted(s: seq<Evidence>): seq<Evidence> {
    if s == [] then [] else Insert(s[|s| - 1], Sorted(s[..|s| - 1]))
  }

  function Evidences(p: Platform, keywords: seq<Keyword>, kind: KeywordKind, title: string, description: string): seq<Evidence> {
    if keywords == [] then []
    else
      var last := keywords[|keywords| - 1];
      Evidences(p, keywords[..|keywords| - 1], kind, title, description)
      + if Hit(p, last, kind, title, description) then [EvidenceOf(p, last, title, description).value] else []
  }

  function Evaluate(p: Platform, keywords: seq<Keyword>, title: string, description: string): KeywordMatchResult {
    KeywordMatchResult(
      Sorted(Evidences(p, keywords, Include, title, description)),
      Sorted(Evidences(p, keywords, Exclude, title, description)),
      exists k <- keywords :: Hit(p, k, Include, title, description) && IsPrimaryIncludeTerm(p, k.term),
      exists k <- keywords :: Live(k) && k.kind.Include?)
  }

  lemma OneMoreKeyword(p: Platform, keywords: seq<Keyword>, keyword: Keyword, title: string, description: string)
    ensures forall kind ::
              Evidences(p, keywords + [keyword], kind, title, description)
              == Evidences(p, keywords, kind, title, description)
                 + if Hit(p, keyword, kind, title, description) then [EvidenceOf(p, keyword, title, description).value] else []
  {
    assert (keywords + [keyword])[..|keywords|] == keywords;
    hide EvidenceOf;
  }

  method EvaluateKeywords(p: Platform, keywords: seq<Keyword>, title: string, description: Option<string>)
    returns (r: KeywordMatchResult)
    ensures r == Evaluate(p, keywords, title, description.GetOr(""))
  {
    var body := description.GetOr("");
    assert Evidences(p, [], Include, title, body) == [] && Evidences(p, [], Exclude, title, body) == [];
    hide Evidences, EvidenceOf, IsPrimaryIncludeTerm, Sorted;
    var includes: seq<Evidence>, excludes: seq<Evidence> := [], [];
    var hasPrimaryInclude, hasActiveInclude := false, false;
    for i := 0 to |keywords|
      invariant includes == Evidences(p, keywords[..i], Include, title, body)
      invariant excludes == Evidences(p, keywords[..i], Exclude, title, body)
      invariant hasPrimaryInclude <==>
        exists k <- keywords[..i] :: Hit(p, k, Include, title, body) && IsPrimaryIncludeTerm(p, k.term)
      invariant hasActiveInclude <==> exists k <- keywords[..i] :: Live(k) && k.kind.Include?
    {
      var keyword := keywords[i];
      assert keywords[..i + 1] == keywords[..i] + [keyword];
      OneMoreKeyword(p, keywords[..i], keyword, title, body);
      if !keyword.isActive || keyword.id.None? {
        continue;
      }
      if keyword.kind.Include? {
        hasActiveInclude := true;
      }
      var evidence := EvidenceOf(p, keyword, title, body);
      if evidence.None? {
        continue;
      }
      if keyword.kind.Include? {
        includes := includes + [evidence.value];
        hasPrimaryInclude := hasPrimaryInclude || IsPrimaryIncludeTerm(p, keyword.term);
      } else {
        excludes := excludes + [evidence.value];
      }
    }
    assert keywords[..|keywords|] == keywords;
    r := KeywordMatchResult(Sorted(includes), Sorted(excludes), hasPrimaryInclude, hasActiveInclude);
  }
}
