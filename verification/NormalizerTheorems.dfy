/** What normalisation promises: invisible leading tags and unambiguous digest inputs. */
module NormalizerTheorems {
  import opened Prelude
  import opened Schema
  import opened Normalizer

  // ---- whitespace lemmas ----------------------------------------------------------------------

  ghost predicate AllSpace(s: string) {
    forall c <- s :: IsSpace(c)
  }

  lemma {:induction false} TrimLeftIsSuffix(s: string, margin: Margin)
    ensures TrimLeft(s, margin) == s[|s| - |TrimLeft(s, margin)|..]
    decreases |s|
  {
    hide IsSpace, IsEdge;
    if s != "" && margin.Has(s[0]) {
      TrimLeftIsSuffix(s[1..], margin);
    }
  }

  lemma {:induction false} TrimRightIsPrefix(s: string, margin: Margin)
    ensures TrimRight(s, margin) <= s
    decreases |s|
  {
    hide IsSpace, IsEdge;
    if s != "" && margin.Has(s[|s| - 1]) {
      TrimRightIsPrefix(s[..|s| - 1], margin);
    }
  }

  lemma TrimMembers(s: string, margin: Margin)
    ensures forall c <- Trim(s, margin) :: c in s
  {
    hide IsSpace, IsEdge;
    TrimRightIsPrefix(s, margin);
    TrimLeftIsSuffix(TrimRight(s, margin), margin);
  }

  lemma {:induction false} StripTagsMembers(s: string)
    ensures forall c <- StripTags(s) :: c in s
    decreases |s|
  {
    hide IsSpace, IsEdge;
    match LeadingTagEnd(s)
    case Some(end) => StripTagsMembers(s[end..]);
    case None =>
  }

  /** Collapsing works piecewise unless the cut falls inside a run of whitespace. */
  lemma {:induction false} CollapseAppend(a: string, b: string)
    requires a == "" || b == "" || !IsSpace(a[|a| - 1]) || !IsSpace(b[0])
    ensures Collapse(a + b) == Collapse(a) + Collapse(b)
    decreases |a|
  {
    hide IsSpace, IsEdge, TrimLeft, Collapse;
    CollapseStep(a);
    CollapseStep(b);
    CollapseStep(a + b);
    if a == "" {
      assert a + b == b;
    } else if b == "" {
      assert a + b == a;
    } else {
      assert (a + b)[1..] == a[1..] + b && (a + b)[0] == a[0];
      if IsSpace(a[0]) {
        var rest := TrimLeft(a[1..], Spaces);
        TrimLeftIsSuffix(a[1..], Spaces);
        TrimLeftAppend(a[1..], b);
        CollapseAppend(rest, b);
        assert " " + (Collapse(rest) + Collapse(b)) == (" " + Collapse(rest)) + Collapse(b);
      } else {
        CollapseAppend(a[1..], b);
        assert [a[0]] + (Collapse(a[1..]) + Collapse(b)) == ([a[0]] + Collapse(a[1..])) + Collapse(b);
      }
    }
  }

  lemma CollapseStep(s: string)
    ensures Collapse(s) == if s == "" then ""
                           else if IsSpace(s[0]) then " " + Collapse(TrimLeft(s[1..], Spaces))
                           else [s[0]] + Collapse(s[1..])
  {
    hide IsSpace, TrimLeft;
  }

  lemma {:induction false} TrimLeftAppend(a: string, b: string)
    requires a != "" ==> !IsSpace(a[|a| - 1]) || b == "" || !IsSpace(b[0])
    requires a == "" ==> b == "" || !IsSpace(b[0])
    ensures TrimLeft(a + b, Spaces) == TrimLeft(a, Spaces) + b
    decreases |a|
  {
    hide IsSpace, IsEdge;
    if a == "" {
      assert a + b == b;
    } else if IsSpace(a[0]) {
      assert (a + b)[1..] == a[1..] + b;
      TrimLeftAppend(a[1..], b);
    }
  }

  lemma {:induction false} TrimRightAppend(a: string, b: string)
    requires a != "" && !IsSpace(a[|a| - 1])
    ensures TrimRight(a + b, Spaces) == a + TrimRight(b, Spaces)
    decreases |b|
  {
    hide IsSpace, IsEdge;
    if b == "" {
      assert a + b == a;
    } else if IsSpace(b[|b| - 1]) {
      assert (a + b)[..|a + b| - 1] == a + b[..|b| - 1];
      TrimRightAppend(a, b[..|b| - 1]);
    }
  }

  lemma {:induction false} TrimRightBlank(s: string)
    ensures TrimRight(" " + s, Spaces) == if TrimRight(s, Spaces) == "" then "" else " " + TrimRight(s, Spaces)
    decreases |s|
  {
    assert IsSpace(' ');
    hide IsSpace, IsEdge;
    if s != "" && IsSpace(s[|s| - 1]) {
      assert (" " + s)[..|s|] == " " + s[..|s| - 1];
      TrimRightBlank(s[..|s| - 1]);
    } else if s == "" {
      assert (" " + s)[..0] == "";
    }
  }

  /** Whitespace in front of a text is invisible after squeezing. */
  lemma SqueezeIgnoresGap(gap: string, s: string)
    requires AllSpace(gap)
    ensures Squeeze(gap + s) == Squeeze(s)
  {
    assert IsSpace(' ');
    hide IsSpace, IsEdge;
    if gap == "" {
      assert gap + s == s;
    } else {
      var w := Collapse(TrimLeft(s, Spaces));
      assert Collapse(gap + s) == " " + w by {
        assert (gap + s)[1..] == gap[1..] + s;
        TrimLeftSkips(gap[1..], s);
      }
      TrimRightBlank(w);
      if s == "" || !IsSpace(s[0]) {
        assert Collapse(s) == w;
      } else {
        assert Collapse(s) == " " + w;
      }
    }
  }

  lemma {:induction false} TrimLeftSkips(gap: string, s: string)
    requires AllSpace(gap)
    ensures TrimLeft(gap + s, Spaces) == TrimLeft(s, Spaces)
    decreases |gap|
  {
    hide IsSpace, IsEdge;
    if gap == "" {
      assert gap + s == s;
    } else {
      assert gap[0] in gap;
      assert (gap + s)[1..] == gap[1..] + s;
      TrimLeftSkips(gap[1..], s);
    }
  }

  /** Collapsed text holds no whitespace but blanks, and no character its source does not hold. */
  lemma {:induction false} CollapseMembers(s: string, c: char)
    requires c in Collapse(s)
    ensures c == ' ' || (c in s && !IsSpace(c))
    decreases |s|
  {
    hide IsSpace, IsEdge;
    if IsSpace(s[0]) {
      var rest := TrimLeft(s[1..], Spaces);
      TrimLeftIsSuffix(s[1..], Spaces);
      if c != ' ' {
        CollapseMembers(rest, c);
        assert c in s[1..];
      }
    } else if c != s[0] {
      CollapseMembers(s[1..], c);
    }
  }

  // ---- leading tags ---------------------------------------------------------------------------

  /** A display tag as sites write it, with the whitespace in front of it. */
  datatype Tag = Tag(gap: string, open: char, body: string)

  function Close(open: char): char {
    if open == '[' then ']' else if open == '(' then ')' else '】'
  }

  ghost predicate WellFormed(tag: Tag) {
    && AllSpace(tag.gap)
    && (tag.open == '[' || tag.open == '(' || tag.open == '【')
    && Close(tag.open) !in tag.body
    && (tag.open == '(' || tag.body != "")
  }

  ghost function TagText(tag: Tag): string
    requires WellFormed(tag)
  {
    [tag.open] + tag.body + [Close(tag.open)]
  }

  ghost function TagsText(tags: seq<Tag>): string
    requires forall i :: 0 <= i < |tags| ==> WellFormed(tags[i])
  {
    if tags == [] then "" else tags[0].gap + TagText(tags[0]) + TagsText(tags[1..])
  }

  lemma CollapsedTag(tag: Tag)
    requires WellFormed(tag)
    ensures Collapse(TagText(tag)) == [tag.open] + Collapse(tag.body) + [Close(tag.open)]
    ensures Close(tag.open) !in Collapse(tag.body)
    ensures tag.body != "" ==> Collapse(tag.body) != ""
  {
    var close := Close(tag.open);
    CollapseAppend([tag.open] + tag.body, [close]);
    assert ([tag.open] + tag.body)[1..] == tag.body;
    assert [close][1..] == "";
    assert Collapse([close]) == [close];
    if close in Collapse(tag.body) {
      CollapseMembers(tag.body, close);
    }
  }

  lemma OneTagIsStripped(tag: Tag, s: string)
    requires WellFormed(tag)
    ensures StripTags(Squeeze(TagText(tag) + s)) == StripTags(Squeeze(s))
  {
    assert !IsSpace(tag.open) && !IsSpace(Close(tag.open));
    var text, v := TagText(tag), TrimRight(Collapse(s), Spaces);
    CollapsedTag(tag);
    hide IsSpace, IsEdge, Collapse;
    CollapseAppend(text, s);
    var t := Collapse(text);
    TrimRightAppend(t, Collapse(s));
    assert Squeeze(text + s) == t + v;
    TagEnd(tag, Collapse(tag.body), v);
  }

  lemma TagEnd(tag: Tag, body: string, v: string)
    requires WellFormed(tag) && Close(tag.open) !in body && (tag.body != "" ==> body != "")
    ensures StripTags([tag.open] + body + [Close(tag.open)] + v) == StripTags(TrimLeft(v, Spaces))
  {
    hide IsSpace, IsEdge, TrimLeft, LeadingTagEnd;
    var s := [tag.open] + body + [Close(tag.open)] + v;
    var close := |body| + 1;
    TagLetters(tag.open, body, Close(tag.open), v);
    TagMatch(s, close);
    TrimLeftIsSuffix(v, Spaces);
    SuffixOfSuffix(s, close + 1, |v| - |TrimLeft(v, Spaces)|);
  }

  lemma TagLetters(open: char, body: string, close: char, v: string)
    requires close !in body
    ensures var s := [open] + body + [close] + v;
      && s[0] == open && s[|body| + 1] == close && s[|body| + 2..] == v
      && forall j :: 1 <= j <= |body| ==> s[j] != close
  {
    var s := [open] + body + [close] + v;
    forall j | 1 <= j <= |body| ensures s[j] != close {
      assert s[j] == body[j - 1];
    }
  }

  lemma SuffixOfSuffix(s: string, i: nat, j: nat)
    requires i + j <= |s|
    ensures s[i..][j..] == s[i + j..]
  {
  }

  lemma TagMatch(s: string, close: nat)
    requires 1 <= close < |s| && ClosingBracket(s[0]) == Some(s[close])
    requires close > 1 || s[0] == '('
    requires forall j :: 1 <= j < close ==> s[j] != s[close]
    ensures LeadingTagEnd(s) == Some(|s| - |TrimLeft(s[close + 1..], Spaces)|)
  {
    hide TrimLeft;
    assert IndexOf(s, s[close], 1) == close;
  }

  /** Any sequence of well-formed leading tags disappears from the title. */
  lemma {:induction false} LeadingTagsAreStripped(tags: seq<Tag>, s: string)
    requires forall i :: 0 <= i < |tags| ==> WellFormed(tags[i])
    ensures StripTags(Squeeze(TagsText(tags) + s)) == StripTags(Squeeze(s))
    decreases |tags|
  {
    if tags == [] {
      assert TagsText(tags) + s == s;
    } else {
      var rest := TagsText(tags[1..]) + s;
      assert TagsText(tags) + s == tags[0].gap + (TagText(tags[0]) + rest);
      SqueezeIgnoresGap(tags[0].gap, TagText(tags[0]) + rest);
      OneTagIsStripped(tags[0], rest);
      LeadingTagsAreStripped(tags[1..], s);
    }
  }

  ghost predicate AllWellFormed(tags: seq<Tag>) {
    forall i :: 0 <= i < |tags| ==> WellFormed(tags[i])
  }

  /** And nothing else disappears: what is stripped is a sequence of well-formed tags. */
  lemma {:induction false} OnlyTagsAreStripped(s: string) returns (tags: seq<Tag>, gap: string)
    ensures AllWellFormed(tags) && AllSpace(gap) && s == TagsText(tags) + gap + StripTags(s)
    decreases |s|
  {
    StripStep(s);
    hide StripTags, LeadingTagEnd, IsSpace, TagText;
    match LeadingTagEnd(s) {
      case None =>
        tags, gap := [], "";
        assert TagsText([]) == "" && s == "" + "" + s;
      case Some(end) =>
        var tag, more := FirstTag(s);
        var restTags, restGap := OnlyTagsAreStripped(s[end..]);
        hide AllWellFormed, AllSpace, TagsText;
        tags, gap := PrependTag(tag, more, restTags, restGap);
        Regroup(TagText(tag) + more, TagsText(restTags) + restGap, StripTags(s));
    }
  }

  lemma SameText(a: Tag, b: Tag)
    requires WellFormed(a) && WellFormed(b) && a.open == b.open && a.body == b.body
    ensures TagText(a) == TagText(b)
  {
  }

  lemma Regroup(a: string, b: string, c: string)
    ensures (a + b) + c == a + (b + c)
  {
  }

  lemma StripStep(s: string)
    ensures StripTags(s) == if LeadingTagEnd(s).Some? then StripTags(s[LeadingTagEnd(s).value..]) else s
  {
    hide LeadingTagEnd;
  }

  /** The tag that a match of the pattern takes off, and the whitespace after it. */
  lemma FirstTag(s: string) returns (tag: Tag, more: string)
    requires LeadingTagEnd(s).Some?
    ensures WellFormed(tag) && tag.gap == "" && AllSpace(more)
    ensures s == TagText(tag) + more + s[LeadingTagEnd(s).value..]
  {
    var close := IndexOf(s, ClosingBracket(s[0]).value, 1);
    var end := LeadingTagEnd(s).value;
    tag, more := Tag("", s[0], s[1..close]), s[close + 1..end];
    TrimLeftCuts(s[close + 1..]);
    assert s[close + 1..][..end - close - 1] == more;
    assert TagText(tag) == s[..close + 1];
  }

  /** What a strip on the left takes off is whitespace. */
  lemma {:induction false} TrimLeftCuts(s: string)
    ensures AllSpace(s[..|s| - |TrimLeft(s, Spaces)|])
    decreases |s|
  {
    hide IsSpace;
    if s != "" && IsSpace(s[0]) {
      TrimLeftCuts(s[1..]);
      var cut := |s| - |TrimLeft(s, Spaces)|;
      assert s[..cut] == [s[0]] + s[1..][..cut - 1];
    }
  }

  lemma PrependTag(tag: Tag, more: string, restTags: seq<Tag>, restGap: string) returns (tags: seq<Tag>, gap: string)
    requires WellFormed(tag) && tag.gap == "" && AllSpace(more) && AllWellFormed(restTags) && AllSpace(restGap)
    ensures AllWellFormed(tags) && AllSpace(gap)
    ensures TagsText(tags) + gap == TagText(tag) + more + (TagsText(restTags) + restGap)
  {
    hide IsSpace, TagText;
    if restTags == [] {
      tags, gap := [tag], more + restGap;
      assert tags[1..] == [];
    } else {
      var next := restTags[0].(gap := more + restTags[0].gap);
      tags, gap := [tag, next] + restTags[1..], restGap;
      assert AllWellFormed(tags) by {
        assert forall i :: 2 <= i < |tags| ==> tags[i] == restTags[i - 1];
      }
      assert tags[1..] == [next] + restTags[1..] && tags[1..][1..] == restTags[1..];
      SameText(restTags[0], next);
      hide AllWellFormed;
      assert TagsText(tags[1..]) == next.gap + TagText(next) + TagsText(restTags[1..]);
    }
  }

  /**
   * A prefix that NFKC turns into well-formed tags, full-width brackets included, in front of a
   * title; and that does not compose with the title's first letter.
   */
  ghost predicate IsTagged(p: Platform, raw: RawJob, prefix: string, tags: seq<Tag>, tagged: RawJob) {
    && (forall i :: 0 <= i < |tags| ==> WellFormed(tags[i]))
    && tagged == raw.(title := prefix + raw.title)
    && p.nfkc(prefix + raw.title) == TagsText(tags) + p.nfkc(raw.title)
  }

  /** Such a prefix changes nothing that is stored: not the title, not the identity, not the content hash. */
  lemma TaggedTitleNormalizesAlike(p: Platform, sourceId: nat, raw: RawJob, prefix: string, tags: seq<Tag>, tagged: RawJob)
    requires IsTagged(p, raw, prefix, tags, tagged)
    ensures Normalize(p, sourceId, tagged) == Normalize(p, sourceId, raw)
  {
    hide IsSpace, IsEdge, Squeeze, StripTags;
    LeadingTagsAreStripped(tags, p.nfkc(raw.title));
    NormalizeReadsTitleOnce(p, sourceId, raw, prefix + raw.title);
  }

  lemma NormalizeReadsTitleOnce(p: Platform, sourceId: nat, raw: RawJob, title: string)
    requires DisplayText(p, Some(title), true) == DisplayText(p, Some(raw.title), true)
    ensures Normalize(p, sourceId, raw.(title := title)) == Normalize(p, sourceId, raw)
  {
    hide DisplayText, ContentHash, Trim, Join;
  }

  // ---- digest inputs --------------------------------------------------------------------------

  /** What the digest results need of case folding and of ISO formatting. */
  ghost predicate Sane(p: Platform) {
    && (forall c: char :: UNIT_SEPARATOR in p.fold(c) ==> c == UNIT_SEPARATOR)
    && (forall t :: Iso(p, t) != "" && UNIT_SEPARATOR !in Iso(p, t))
    && (forall t, u :: Iso(p, t) == Iso(p, u) ==> t == u)
  }

  lemma {:induction false} FoldKeepsClean(p: Platform, s: string)
    requires Sane(p)
    requires UNIT_SEPARATOR !in s
    ensures UNIT_SEPARATOR !in CaseFold(p, s)
    decreases |s|
  {
    if s != "" {
      assert s[0] in s;
      FoldKeepsClean(p, s[1..]);
    }
  }

  /** No normalised text holds the separator of the digest input. */
  lemma NormalizedIsClean(p: Platform, value: Option<string>, removeLeadingTags: bool)
    requires Sane(p)
    ensures UNIT_SEPARATOR !in Normalized(p, value, removeLeadingTags)
  {
    var collapsed := Collapse(p.nfkc(value.GetOr("")));
    if UNIT_SEPARATOR in collapsed {
      CollapseMembers(p.nfkc(value.GetOr("")), UNIT_SEPARATOR);
    }
    hide IsSpace, IsEdge;
    var squeezed := Squeeze(p.nfkc(value.GetOr("")));
    TrimMembers(collapsed, Spaces);
    StripTagsMembers(squeezed);
    var stripped := if removeLeadingTags then StripTags(squeezed) else squeezed;
    TrimMembers(stripped, Edges);
    FoldKeepsClean(p, Trim(stripped, Edges));
  }

  /** The first separator of a joined text stands right after its first part. */
  lemma JoinHead(a: seq<string>)
    requires |a| > 1 && UNIT_SEPARATOR !in a[0]
    ensures |a[0]| < |Join(a)| && Join(a)[|a[0]|] == UNIT_SEPARATOR
    ensures forall i :: 0 <= i < |a[0]| ==> Join(a)[i] != UNIT_SEPARATOR
  {
    assert forall i :: 0 <= i < |a[0]| ==> Join(a)[i] == a[0][i] && a[0][i] in a[0];
  }

  /** Joined parts can be told apart as long as only the last one may hold the separator. */
  lemma {:induction false} JoinIsUnambiguous(a: seq<string>, b: seq<string>)
    requires |a| == |b| > 0
    requires forall i :: 0 <= i < |a| - 1 ==> UNIT_SEPARATOR !in a[i] && UNIT_SEPARATOR !in b[i]
    requires Join(a) == Join(b)
    ensures a == b
    decreases |a|
  {
    if |a| > 1 {
      JoinHead(a);
      JoinHead(b);
      assert a[0] == Join(a)[..|a[0]|] == Join(b)[..|b[0]|] == b[0];
      assert Join(a[1..]) == Join(a)[|a[0]| + 1..] == Join(b)[|b[0]| + 1..] == Join(b[1..]);
      JoinIsUnambiguous(a[1..], b[1..]);
      assert a == [a[0]] + a[1..] && b == [b[0]] + b[1..];
    }
  }

  function ParseDecimal(s: string): int {
    if s == "" then 0 else 10 * ParseDecimal(s[..|s| - 1]) + (s[|s| - 1] as int - '0' as int)
  }

  lemma {:induction false} DecimalRoundTrip(n: nat)
    ensures ParseDecimal(Decimal(n)) == n
    ensures UNIT_SEPARATOR !in Decimal(n)
  {
    var digit := [('0' as int + n % 10) as char];
    if n < 10 {
      assert Decimal(n) == digit;
      assert digit[..0] == "";
    } else {
      DecimalRoundTrip(n / 10);
      assert Decimal(n)[..|Decimal(n)| - 1] == Decimal(n / 10);
    }
  }

  /** The string whose SHA-256 is the fingerprint of a job that has no external id. */
  ghost function FingerprintInput(p: Platform, job: JobPostingDTO): string
    requires p.urlPath(job.url).Some?
  {
    Join(FingerprintParts(job.sourceId, job.title, job.company, p.urlPath(job.url).value))
  }

  /** The string whose SHA-256 is the content hash. */
  ghost function ContentInput(p: Platform, job: JobPostingDTO): string {
    Join(ContentParts(p, job.title, job.deadlineAt, job.description))
  }

  /** What every normalised job satisfies. */
  ghost predicate Canonical(p: Platform, job: JobPostingDTO) {
    && job.title != "" && UNIT_SEPARATOR !in job.title
    && job.company != Some("") && UNIT_SEPARATOR !in job.company.GetOr("")
    && job.description != Some("")
    && job.contentHash == p.sha256(ContentInput(p, job))
    && (job.identity.Fingerprint? ==>
          p.urlPath(job.url).Some? && job.identity.value == p.sha256(FingerprintInput(p, job)))
    && (job.identity.ExternalId? ==> job.identity.value != "")
  }

  lemma NormalizeIsCanonical(p: Platform, sourceId: nat, raw: RawJob, job: JobPostingDTO)
    requires Sane(p) && Normalize(p, sourceId, raw) == Ok(job)
    ensures Canonical(p, job) && job.sourceId == sourceId
  {
    NormalizedIsClean(p, Some(raw.title), true);
    NormalizedIsClean(p, raw.company, false);
    hide Normalized, Trim, Join, FingerprintParts, ContentParts, Utc, Sane;
  }

  /**
   * Two jobs without an external id have the same fingerprint input exactly when source, title,
   * company and URL path agree; a missing company differs from every stored one.
   */
  lemma FingerprintIsUnambiguous(p: Platform, a: JobPostingDTO, b: JobPostingDTO)
    requires Canonical(p, a) && a.identity.Fingerprint?
    requires Canonical(p, b) && b.identity.Fingerprint?
    ensures FingerprintInput(p, a) == FingerprintInput(p, b) <==>
            && a.sourceId == b.sourceId && a.title == b.title && a.company == b.company
            && p.urlPath(a.url) == p.urlPath(b.url)
  {
    DecimalRoundTrip(a.sourceId);
    DecimalRoundTrip(b.sourceId);
    hide Join, Decimal;
    if FingerprintInput(p, a) == FingerprintInput(p, b) {
      var x := FingerprintParts(a.sourceId, a.title, a.company, p.urlPath(a.url).value);
      var y := FingerprintParts(b.sourceId, b.title, b.company, p.urlPath(b.url).value);
      JoinIsUnambiguous(x, y);
      assert x[0] == y[0] && x[1] == y[1] && x[2] == y[2] && x[3] == y[3];
    }
  }

  /**
   * Two jobs have the same content-hash input exactly when title, deadline and the first 2000
   * characters of the description agree; a missing value differs from every stored one.
   */
  lemma ContentHashIsUnambiguous(p: Platform, a: JobPostingDTO, b: JobPostingDTO)
    requires Sane(p)
    requires Canonical(p, a) && Canonical(p, b)
    ensures ContentInput(p, a) == ContentInput(p, b) <==>
            && a.title == b.title && a.deadlineAt == b.deadlineAt
            && a.description.Some? == b.description.Some?
            && Head(a.description.GetOr("")) == Head(b.description.GetOr(""))
  {
    hide Join;
    if ContentInput(p, a) == ContentInput(p, b) {
      var x := ContentParts(p, a.title, a.deadlineAt, a.description);
      var y := ContentParts(p, b.title, b.deadlineAt, b.description);
      JoinIsUnambiguous(x, y);
      assert x[0] == y[0] && x[1] == y[1] && x[2] == y[2];
      assert a.description.GetOr("") == "" <==> Head(a.description.GetOr("")) == "";
      assert b.description.GetOr("") == "" <==> Head(b.description.GetOr("")) == "";
    }
  }

  // ---- where the fields come from -------------------------------------------------------------

  /** A stored text is the normalised text of a raw field, and absent exactly when nothing is left of it. */
  ghost predicate TextOf(p: Platform, stored: Option<string>, raw: Option<string>) {
    var text := Normalized(p, raw, false);
    (stored.None? <==> text == "") && (stored.Some? ==> stored.value == text)
  }

  /** A stored time is the site's instant; times without a zone are taken as UTC. */
  ghost predicate InstantOf(stored: Option<Instant>, raw: Option<Stamp>) {
    match raw
    case None => stored == None
    case Some(Naive(wall)) => stored == Some(wall)
    case Some(Aware(wall, offset)) => stored == Some(wall - offset)
  }

  /** What the content hash covers, as one string with separators. */
  ghost function HashedText(p: Platform, job: JobPostingDTO): string {
    var body := if job.description.Some? then job.description.value else "";
    job.title + [UNIT_SEPARATOR] + (if job.deadlineAt.Some? then Iso(p, job.deadlineAt.value) else "") + [UNIT_SEPARATOR]
    + (if |body| > 2000 then body[..2000] else body)
  }

  /** What a fingerprint covers. */
  ghost function FingerprintText(job: JobPostingDTO, path: string): string {
    Decimal(job.sourceId) + [UNIT_SEPARATOR] + job.title + [UNIT_SEPARATOR]
    + (if job.company.Some? then job.company.value else "") + [UNIT_SEPARATOR] + path
  }

  /**
   * Every field of a normalised job stems from the raw field of the same name. It is identified by
   * its external id whenever that leaves any text, and otherwise by its fingerprint.
   */
  lemma NormalizeReadsFields(p: Platform, sourceId: nat, raw: RawJob, job: JobPostingDTO)
    requires Normalize(p, sourceId, raw) == Ok(job)
    ensures job.sourceId == sourceId && job.title == Normalized(p, Some(raw.title), true) && job.title != ""
    ensures TextOf(p, job.company, raw.company) && TextOf(p, job.location, raw.location)
    ensures TextOf(p, job.employmentType, raw.employmentType) && TextOf(p, job.description, raw.description)
    ensures InstantOf(job.postedAt, raw.postedAt) && InstantOf(job.deadlineAt, raw.deadlineAt)
    ensures job.url == Trim(raw.url, Spaces) && job.raw == raw.raw
    ensures job.contentHash == p.sha256(HashedText(p, job))
    ensures var id := Normalized(p, raw.externalId, false);
      if id != "" then job.identity == ExternalId(id)
      else p.urlPath(job.url).Some? && job.identity == Fingerprint(p.sha256(FingerprintText(job, p.urlPath(job.url).value)))
  {
    hide Normalized, Trim, Decimal;
    ContentSpelled(p, job);
    if p.urlPath(job.url).Some? {
      FingerprintSpelled(p, job, p.urlPath(job.url).value);
    }
    hide Join;
  }

  lemma ContentSpelled(p: Platform, job: JobPostingDTO)
    ensures Join(ContentParts(p, job.title, job.deadlineAt, job.description)) == HashedText(p, job)
  {
    var x := ContentParts(p, job.title, job.deadlineAt, job.description);
    JoinedThree(x);
  }

  lemma FingerprintSpelled(p: Platform, job: JobPostingDTO, path: string)
    ensures Join(FingerprintParts(job.sourceId, job.title, job.company, path)) == FingerprintText(job, path)
  {
    hide Decimal;
    var x := FingerprintParts(job.sourceId, job.title, job.company, path);
    assert x[1..] == [x[1], x[2], x[3]];
    JoinedThree(x[1..]);
    hide Join;
    assert Join(x) == x[0] + [UNIT_SEPARATOR] + Join(x[1..]) by { JoinStep(x); }
  }

  lemma JoinStep(x: seq<string>)
    requires |x| > 1
    ensures Join(x) == x[0] + [UNIT_SEPARATOR] + Join(x[1..])
  {
  }

  lemma JoinedThree(x: seq<string>)
    requires |x| == 3
    ensures Join(x) == x[0] + [UNIT_SEPARATOR] + x[1] + [UNIT_SEPARATOR] + x[2]
  {
    JoinStep(x);
    JoinStep(x[1..]);
    assert x[1..][1..] == [x[2]];
    assert Join([x[2]]) == x[2];
    hide Join;
  }

  /** Normalising fails exactly when no title is left, or there is neither an external id nor a readable URL. */
  lemma NormalizeFailsExactly(p: Platform, sourceId: nat, raw: RawJob)
    ensures Normalize(p, sourceId, raw).Err? <==>
            || Normalized(p, Some(raw.title), true) == ""
            || (Normalized(p, raw.externalId, false) == "" && p.urlPath(Trim(raw.url, Spaces)).None?)
  {
    hide Normalized, Trim, Join, Decimal;
  }

  /**
   * The content input sees the raw description: two raw jobs that agree in title and deadline have
   * the same input exactly when the heads of their normalised descriptions agree.
   */
  lemma DescriptionIsHashed(p: Platform, sourceId: nat, a: RawJob, b: RawJob, x: JobPostingDTO, y: JobPostingDTO)
    requires Sane(p) && Normalize(p, sourceId, a) == Ok(x) && Normalize(p, sourceId, b) == Ok(y)
    requires a.title == b.title && a.deadlineAt == b.deadlineAt
    ensures ContentInput(p, x) == ContentInput(p, y) <==>
            Head(Normalized(p, a.description, false)) == Head(Normalized(p, b.description, false))
  {
    hide Normalized, Join, Sane, Canonical, Normalize;
    NormalizeIsCanonical(p, sourceId, a, x);
    NormalizeIsCanonical(p, sourceId, b, y);
    NormalizeReadsFields(p, sourceId, a, x);
    NormalizeReadsFields(p, sourceId, b, y);
    ContentHashIsUnambiguous(p, x, y);
    assert Head(Normalized(p, a.description, false)) == "" <==> Normalized(p, a.description, false) == "";
    assert Head(Normalized(p, b.description, false)) == "" <==> Normalized(p, b.description, false) == "";
  }
}
