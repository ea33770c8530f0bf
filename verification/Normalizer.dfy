/** app/services/normalizer.py: stable text, digests and the posting DTO. */
module Normalizer {
  import opened Prelude
  import opened Schema

  const UNIT_SEPARATOR: char := '\U{1F}'
  const EDGE_SPECIAL_CHARS: string := "-–—_~|/\\:;,.!?·•'\"“”‘’[](){}<>"
  const CONTENT_HASH_DESCRIPTION_CHARS: nat := 2000

  datatype NormalizeError = EmptyTitle | InvalidUrl

  // ---- whitespace and edges -------------------------------------------------------------------

  /** The characters of `\s`, which are also those of `str.strip()`. */
  predicate IsSpace(c: char) {
    || '\t' <= c <= '\r'
    || '\U{1C}' <= c <= ' '
    || c == '\U{85}' || c == '\U{A0}' || c == '\U{1680}'
    || '\U{2000}' <= c <= '\U{200A}'
    || c == '\U{2028}' || c == '\U{2029}' || c == '\U{202F}' || c == '\U{205F}' || c == '\U{3000}'
  }

  predicate IsEdge(c: char) {
    c == ' ' || c in EDGE_SPECIAL_CHARS
  }

  /** What a strip removes: whitespace, or the special characters at a text's edge. */
  datatype Margin = Spaces | Edges {
    predicate Has(c: char) {
      match this
      case Spaces => IsSpace(c)
      case Edges => IsEdge(c)
    }
  }

  function TrimLeft(s: string, margin: Margin): (r: string)
    ensures |r| <= |s|
  {
    if s != "" && margin.Has(s[0]) then TrimLeft(s[1..], margin) else s
  }

  function TrimRight(s: string, margin: Margin): (r: string)
    ensures |r| <= |s|
  {
    if s != "" && margin.Has(s[|s| - 1]) then TrimRight(s[..|s| - 1], margin) else s
  }

  function Trim(s: string, margin: Margin): string {
    TrimLeft(TrimRight(s, margin), margin)
  }

  /** `\s+` replaced by one blank. */
  function Collapse(s: string): string
    decreases |s|
  {
    if s == "" then ""
    else if IsSpace(s[0]) then " " + Collapse(TrimLeft(s[1..], Spaces))
    else [s[0]] + Collapse(s[1..])
  }

  /** The text the tag loop starts from. */
  function Squeeze(s: string): string {
    Trim(Collapse(s), Spaces)
  }

  function CaseFold(p: Platform, s: string): string {
    if s == "" then "" else p.fold(s[0]) + CaseFold(p, s[1..])
  }

  // ---- leading tags ---------------------------------------------------------------------------

  function IndexOf(s: string, c: char, from: nat): (i: nat)
    requires from <= |s|
    ensures from <= i <= |s|
    ensures i < |s| ==> s[i] == c
    ensures forall j :: from <= j < i ==> s[j] != c
    decreases |s| - from
  {
    if from == |s| || s[from] == c then from else IndexOf(s, c, from + 1)
  }

  function ClosingBracket(open: char): Option<char> {
    match open
    case '[' => Some(']')
    case '(' => Some(')')
    case '【' => Some('】')
    case _ => None
  }

  /** Where a match of the leading-tag pattern ends; only round brackets may be empty. */
  function LeadingTagEnd(s: string): (end: Option<nat>)
    ensures end.Some? ==> 2 <= end.value <= |s|
  {
    if s == "" || ClosingBracket(s[0]).None? then None
    else
      var close := IndexOf(s, ClosingBracket(s[0]).value, 1);
      if close == |s| || (close == 1 && s[0] != '(') then None
      else Some(|s| - |TrimLeft(s[close + 1..], Spaces)|)
  }

  function StripTags(s: string): (r: string)
    ensures LeadingTagEnd(r).None?
    decreases |s|
  {
    match LeadingTagEnd(s)
    case Some(end) => StripTags(s[end..])
    case None => s
  }

  // ---- normalize_text -------------------------------------------------------------------------

  function Normalized(p: Platform, value: Option<string>, removeLeadingTags: bool): string {
    var squeezed := Squeeze(p.nfkc(value.GetOr("")));
    CaseFold(p, Trim(if removeLeadingTags then StripTags(squeezed) else squeezed, Edges))
  }

  method NormalizeText(p: Platform, value: Option<string>, removeLeadingTags: bool) returns (r: string)
    ensures r == Normalized(p, value, removeLeadingTags)
  {
    var normalized := Squeeze(p.nfkc(value.GetOr("")));
    if removeLeadingTags {
      var matched := LeadingTagEnd(normalized);
      while matched.Some?
        invariant matched == LeadingTagEnd(normalized)
        invariant StripTags(normalized) == StripTags(Squeeze(p.nfkc(value.GetOr(""))))
        decreases |normalized|
      {
        normalized := normalized[matched.value..];
        matched := LeadingTagEnd(normalized);
      }
    }
    r := CaseFold(p, Trim(normalized, Edges));
  }

  function DisplayText(p: Platform, value: Option<string>, removeLeadingTags: bool): Option<string> {
    var text := Normalized(p, value, removeLeadingTags);
    if text == "" then None else Some(text)
  }

  // ---- digests and the DTO --------------------------------------------------------------------

  function Utc(stamp: Option<Stamp>): Option<Instant> {
    match stamp
    case None => None
    case Some(Naive(wall)) => Some(wall)
    case Some(Aware(wall, offset)) => Some(wall - offset)
  }

  function Decimal(n: nat): string {
    (if n < 10 then "" else Decimal(n / 10)) + [('0' as int + n % 10) as char]
  }

  function Join(parts: seq<string>): string
    requires parts != []
  {
    if |parts| == 1 then parts[0] else parts[0] + [UNIT_SEPARATOR] + Join(parts[1..])
  }

  function Iso(p: Platform, t: Instant): string {
    p.isoformat(t)
  }

  function FingerprintParts(sourceId: nat, title: string, company: Option<string>, path: string): seq<string> {
    [Decimal(sourceId), title, company.GetOr(""), path]
  }

  function ContentParts(p: Platform, title: string, deadline: Option<Instant>, description: Option<string>): seq<string> {
    [title, if deadline.Some? then Iso(p, deadline.value) else "", Head(description.GetOr(""))]
  }

  /** The part of a description the content hash looks at. */
  function Head(s: string): string {
    if |s| <= CONTENT_HASH_DESCRIPTION_CHARS then s else s[..CONTENT_HASH_DESCRIPTION_CHARS]
  }

  function ContentHash(p: Platform, title: string, deadline: Option<Instant>, description: Option<string>): string {
    p.sha256(Join(ContentParts(p, title, deadline, description)))
  }

  function NormalizedIdentity(p: Platform, sourceId: nat, raw: RawJob, title: string): Result<Identity, NormalizeError> {
    match DisplayText(p, raw.externalId, false)
    case Some(id) => Ok(ExternalId(id))
    case None =>
      match p.urlPath(Trim(raw.url, Spaces))
      case None => Err(InvalidUrl)
      case Some(path) =>
        var company := DisplayText(p, raw.company, false);
        Ok(Fingerprint(p.sha256(Join(FingerprintParts(sourceId, title, company, path)))))
  }

  function Normalize(p: Platform, sourceId: nat, raw: RawJob): Result<JobPostingDTO, NormalizeError> {
    match DisplayText(p, Some(raw.title), true)
    case None => Err(EmptyTitle)
    case Some(title) =>
      match NormalizedIdentity(p, sourceId, raw, title)
      case Err(error) => Err(error)
      case Ok(identity) =>
        var description := DisplayText(p, raw.description, false);
        Ok(JobPostingDTO(
             sourceId, identity,
             ContentHash(p, title, Utc(raw.deadlineAt), description),
             Trim(raw.url, Spaces), title,
             DisplayText(p, raw.company, false),
             DisplayText(p, raw.location, false),
             DisplayText(p, raw.employmentType, false),
             description,
             Utc(raw.postedAt), Utc(raw.deadlineAt), raw.raw))
  }
}
