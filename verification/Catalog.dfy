/** The entities shared by the indexer, the store and GitHub discovery. */
module Catalog {

  datatype Option<+T> = None | Some(value: T)

  /** A file of a skill. `utf8` is the library's verdict on the raw bytes. */
  datatype File = File(path: string, contents: string, utf8: bool)

  datatype Candidate = Candidate(
    id: string, source: string, slug: string, name: string, description: string, contents: string,
    stars: int, official: bool, knownFresh: bool, files: seq<File>)

  /** A decoded answer of the auditor. */
  datatype Assessment = Assessment(
    score: int, quality: int, status: string, summary: string, riskLevel: string, categories: seq<string>)

  /** One row of the skills table, without its primary key. */
  datatype Row = Row(
    source: string, slug: string, name: string, description: string, stars: int, installs: int,
    installURL: string, publicURL: string, official: bool, security: int, quality: int, llmChecked: bool,
    hash: string, files: seq<File>, status: string, summary: string, riskLevel: string,
    categories: seq<string>, auditedAt: int, updatedAt: int)

  type Rows = map<string, Row>

  /** Settings of one indexer; `hash` stands for the content hash of a file list. */
  datatype Env = Env(auditing: bool, interval: nat, baseURL: string, hash: seq<File> -> string)

  const MINIMUM_SCORE := 5
  const MAXIMUM_SCORE := 10
  const MINIMUM_STARS := 11

  predicate Passing(a: Assessment) {
    a.status == "pass" && a.score >= MINIMUM_SCORE && a.quality >= MINIMUM_SCORE
  }

  /** The CHECK constraints of the skills table. */
  predicate RowAccepted(row: Row) {
    && row.stars >= MINIMUM_STARS
    && row.installs >= 0
    && MINIMUM_SCORE <= row.security <= MAXIMUM_SCORE
    && MINIMUM_SCORE <= row.quality <= MAXIMUM_SCORE
  }

  /** Files that can be marshalled: valid text without NUL. */
  predicate Storable(files: seq<File>) {
    forall f | f in files :: f.utf8 && '\0' !in f.contents
  }

  predicate CanonicalName(path: string) {
    path == "SKILL.md" || path == "SKILLS.md"
  }

  /** The canonical file of a candidate is among its files with the audited contents. */
  predicate CanonicalPresent(contents: string, files: seq<File>) {
    exists f | f in files :: CanonicalName(f.path) && f.contents == contents
  }

  /** The assessment used when no auditor is configured. */
  const UNCHECKED := Assessment(5, 5, "pass", "", "", [])

  function RowFor(env: Env, c: Candidate, a: Assessment, checked: bool, now: int): Row {
    Row(c.source, c.slug, c.name, c.description, c.stars, c.stars,
        "https://github.com/" + c.source, env.baseURL + "/" + c.id, c.official, a.score, a.quality, checked,
        env.hash(c.files), c.files, a.status, a.summary, a.riskLevel, a.categories, now, now)
  }

  /** The columns of a stored row over the candidate and its assessment, the dates aside. */
  predicate Describes(row: Row, env: Env, c: Candidate, a: Assessment, checked: bool) {
    && row.source == c.source && row.slug == c.slug && row.name == c.name && row.description == c.description
    && row.stars == c.stars && row.installs == c.stars && row.official == c.official
    && row.installURL == "https://github.com/" + c.source && row.publicURL == env.baseURL + "/" + c.id
    && row.security == a.score && row.quality == a.quality && row.llmChecked == checked
    && row.hash == env.hash(c.files) && row.files == c.files
    && row.status == a.status && row.summary == a.summary && row.riskLevel == a.riskLevel
    && row.categories == a.categories
  }

  /** What outlives a batch: the table, the audit gate's pacing, and the history of audits. */
  datatype Shared = Shared(
    rows: Rows, nextStart: int, clock: int, starts: seq<int>, ends: seq<int>, passed: set<string>)

  /** The k-th audit ends after it starts, and starts no earlier than the end of the one before it
      plus the interval. */
  predicate AuditAt(interval: nat, starts: seq<int>, ends: seq<int>, k: nat)
    requires |ends| <= |starts| <= |ends| + 1 && k < |starts|
  {
    (k < |ends| ==> starts[k] <= ends[k]) && (k > 0 ==> ends[k - 1] + interval <= starts[k])
  }

  predicate Paced(interval: nat, starts: seq<int>, ends: seq<int>) {
    |ends| <= |starts| <= |ends| + 1 && forall k | 0 <= k < |starts| :: AuditAt(interval, starts, ends, k)
  }

  lemma PacedBegins(interval: nat, starts: seq<int>, ends: seq<int>, now: int)
    requires Paced(interval, starts, ends) && |starts| == |ends|
    requires ends != [] ==> ends[|ends| - 1] + interval <= now
    ensures Paced(interval, starts + [now], ends)
  {
    forall k | 0 <= k < |starts| + 1
      ensures AuditAt(interval, starts + [now], ends, k)
    {
      assert k < |starts| ==> AuditAt(interval, starts, ends, k);
    }
  }

  lemma PacedEnds(interval: nat, starts: seq<int>, ends: seq<int>, now: int)
    requires Paced(interval, starts, ends) && |starts| == |ends| + 1 && starts[|starts| - 1] <= now
    ensures Paced(interval, starts, ends + [now])
  {
    forall k | 0 <= k < |starts|
      ensures AuditAt(interval, starts, ends + [now], k)
    {
      assert AuditAt(interval, starts, ends, k);
    }
  }

  /** Between audits: nothing in flight and the gate remembers the last cooldown. */
  predicate GateIdle(interval: nat, sh: Shared) {
    && Paced(interval, sh.starts, sh.ends)
    && |sh.starts| == |sh.ends|
    && (sh.ends != [] ==> sh.ends[|sh.ends| - 1] <= sh.clock && sh.ends[|sh.ends| - 1] + interval <= sh.nextStart)
  }

  /** The publication gate: what must be true of every row marked as checked. */
  predicate Published(row: Row, passed: set<string>) {
    row.llmChecked ==>
      && row.status == "pass"
      && MINIMUM_SCORE <= row.security <= MAXIMUM_SCORE
      && MINIMUM_SCORE <= row.quality <= MAXIMUM_SCORE
      && exists f | f in row.files :: CanonicalName(f.path) && f.contents in passed
  }

  predicate GateHolds(rows: Rows, passed: set<string>) {
    forall id | id in rows :: Published(rows[id], passed)
  }

  /** Nothing has happened to the row of this identity. */
  predicate Unchanged(before: Rows, after: Rows, id: string) {
    (id in after <==> id in before) && (id in before ==> after[id] == before[id])
  }

  /** A row with its two timestamps erased. */
  function Timeless(row: Row): Row {
    row.(auditedAt := 0, updatedAt := 0)
  }

  function TimelessRows(rows: Rows): Rows {
    map id | id in rows :: Timeless(rows[id])
  }
}
