/** Rows, transfer objects and the platform the services run on. */
module Schema {
  import opened Prelude

  /** Microseconds since the epoch, in UTC. */
  type Instant = int

  const MINUTE: int := 60_000_000
  const HOUR: int := 3_600_000_000
  const DAY: int := 86_400_000_000

  /** Library behaviour the services call: its results are unknown here. */
  datatype Platform = Platform(
    nfkc: string -> string,
    fold: char -> string,
    sha256: string -> string,
    urlPath: string -> Option<string>,
    isoformat: Instant -> string,
    isWord: char -> bool,
    sameLetter: (char, char) -> bool,
    regexSearch: (string, string) -> Option<Span>)

  datatype Span = Span(start: nat, end: nat)

  /** A site's timestamp, before it is brought to UTC. */
  datatype Stamp = Naive(wall: int) | Aware(wall: int, utcOffset: int)

  type Raw = map<string, string>

  datatype RawJob = RawJob(
    url: string,
    title: string,
    externalId: Option<string>,
    company: Option<string>,
    location: Option<string>,
    employmentType: Option<string>,
    description: Option<string>,
    postedAt: Option<Stamp>,
    deadlineAt: Option<Stamp>,
    raw: Raw)

  /** What the unique constraints on (source, external id) and (source, fingerprint) range over. */
  datatype Identity = ExternalId(value: string) | Fingerprint(value: string)

  datatype PostingKey = PostingKey(sourceId: nat, identity: Identity)

  datatype JobPostingDTO = JobPostingDTO(
    sourceId: nat,
    identity: Identity,
    contentHash: string,
    url: string,
    title: string,
    company: Option<string>,
    location: Option<string>,
    employmentType: Option<string>,
    description: Option<string>,
    postedAt: Option<Instant>,
    deadlineAt: Option<Instant>,
    raw: Raw)
  {
    function Key(): PostingKey {
      PostingKey(sourceId, identity)
    }
  }

  datatype KeywordKind = Include | Exclude

  datatype MatchMode = Substring | Word | Regex

  datatype Keyword = Keyword(
    id: Option<nat>,
    term: string,
    kind: KeywordKind,
    mode: MatchMode,
    targetFields: seq<string>,
    weight: int,
    isActive: bool)

  datatype Evidence = Evidence(
    keywordId: nat,
    kind: KeywordKind,
    matchedField: string,
    matchedSnippet: string,
    score: int)

  datatype FieldValue = Text(text: Option<string>) | Time(time: Option<Instant>)

  datatype Change = Change(before: FieldValue, after: FieldValue)

  datatype Revision = Revision(
    changedFields: map<string, Change>,
    oldContentHash: string,
    newContentHash: string,
    detectedAt: Instant)

  /** A posting with the rows that are deleted with it: its revisions and keyword matches. */
  datatype JobPosting = JobPosting(
    id: nat,
    contentHash: string,
    url: string,
    title: string,
    company: Option<string>,
    location: Option<string>,
    employmentType: Option<string>,
    description: Option<string>,
    postedAt: Option<Instant>,
    deadlineAt: Option<Instant>,
    raw: Raw,
    isOpen: bool,
    consecutiveMissingRuns: nat,
    firstSeenAt: Instant,
    lastSeenAt: Instant,
    closedAt: Option<Instant>,
    revisions: seq<Revision>,
    keywordMatches: seq<Evidence>)

  datatype Channel = Kakao | WebPush

  datatype NotificationStatus = Pending | Sending | Sent | Failed

  /** The unique constraint on notifications. */
  datatype NotificationKey = NotificationKey(postingId: nat, channel: Channel)

  datatype Notification = Notification(
    status: NotificationStatus,
    attemptCount: nat,
    deliveryError: Option<string>,
    scheduledAt: Option<Instant>,
    sentAt: Option<Instant>)

  datatype CrawlStatus = Running | Success | Partial | FailedRun | Skipped

  datatype CrawlTrigger = Scheduled | Manual

  datatype CrawlRun = CrawlRun(
    sourceId: nat,
    trigger: CrawlTrigger,
    status: CrawlStatus,
    startedAt: Instant,
    itemsFetched: nat,
    itemsNew: nat,
    itemsUpdated: nat)

  datatype Source = Source(isActive: bool, consecutiveFailures: nat, lastSuccessAt: Option<Instant>)

  /** The tables a posting's life runs through. */
  datatype JobTables = JobTables(
    keywords: seq<Keyword>,
    postings: map<PostingKey, JobPosting>,
    nextPostingId: nat,
    notifications: map<NotificationKey, Notification>)

  datatype Subscription = Subscription(isActive: bool, failureCount: nat)

  datatype Database = Database(
    sources: map<nat, Source>,
    runs: map<nat, CrawlRun>,
    nextRunId: nat,
    subscriptions: map<string, Subscription>,
    jobs: JobTables)

  /**
   * One ORM session; `db` is what its connection sees inside the transaction, and `doomed` the
   * posting that is marked for deletion until the next flush.
   */
  class Session {
    var db: Database
    var doomed: Option<PostingKey>

    constructor (db: Database)
      ensures this.db == db && doomed == None
    {
      this.db, this.doomed := db, None;
    }
  }
}
