/** Draining the unassessed rows: the loop of batches does what one pass over the sorted list does. */
module Reconcile {
  import opened Catalog
  import opened Orders
  import opened Store

  /** What the environment decides while one row is handled: scheduling lag, whether the wait for the
      gate is interrupted, how long the audit takes and what it answers, whether the context is done
      when an error is examined, whether the store carries the statement out, and the clock reading. */
  datatype Turn = Turn(lag: nat, interrupted: bool, duration: nat, answer: Option<Assessment>,
                       cancelled: bool, up: bool, stamp: int)

  datatype Reply = Answer(a: Assessment) | AuditError | GateCancelled

  datatype Outcome =
    | Complete
    | CountFailed
    | LoadFailed
    | EmptyBatch
    | Interrupted
    | AssessmentDeferred
    | RemoveFailed
    | StoreFailed

  const BATCH_SIZE: nat := 10

  /** The fate of one unassessed row: the new table, or why the drain stops there. */
  function Handle(rows: Rows, id: string, reply: Reply, turn: Turn): (Rows, Option<Outcome>)
    requires id in rows
  {
    if PendingContents(rows[id].files) == "" then
      if turn.up then (rows - {id}, None) else (rows, Some(RemoveFailed))
    else match reply
      case GateCancelled => (rows, Some(Interrupted))
      case AuditError => (rows, Some(if turn.cancelled then Interrupted else AssessmentDeferred))
      case Answer(a) =>
        if !Passing(a) then
          if turn.up then (rows - {id}, None) else (rows, Some(RemoveFailed))
        else if turn.up && RowAccepted(Assessed(rows[id], a, turn.stamp)) then
          (rows[id := Assessed(rows[id], a, turn.stamp)], None)
        else (rows, Some(StoreFailed))
  }

  /** One pass over a list of ids, each handled in turn; no table if some row stops the pass. */
  function Drain(rows: Rows, ids: seq<string>, replies: seq<Reply>, turns: nat -> Turn): Option<Rows>
    requires |replies| == |ids|
    decreases |ids|
  {
    if ids == [] then Some(rows)
    else
      var n := |ids| - 1;
      match Drain(rows, ids[..n], replies[..n], turns)
      case None => None
      case Some(before) =>
        if ids[n] in before && Handle(before, ids[n], replies[n], turns(n)).1.None?
        then Some(Handle(before, ids[n], replies[n], turns(n)).0) else None
  }

  lemma DrainOneMore(rows: Rows, ids: seq<string>, replies: seq<Reply>, turns: nat -> Turn, id: string, reply: Reply)
    requires |replies| == |ids| && Drain(rows, ids, replies, turns).Some?
    requires id in Drain(rows, ids, replies, turns).value
    requires Handle(Drain(rows, ids, replies, turns).value, id, reply, turns(|ids|)).1.None?
    ensures Drain(rows, ids + [id], replies + [reply], turns)
         == Some(Handle(Drain(rows, ids, replies, turns).value, id, reply, turns(|ids|)).0)
  {
    assert (ids + [id])[..|ids|] == ids && (replies + [reply])[..|ids|] == replies;
  }

  ghost predicate Distinct(ids: seq<string>) {
    forall i, j | 0 <= i < j < |ids| :: ids[i] != ids[j]
  }

  /** A handled row stays exactly if it has contents to audit and the answer passes; then the answer's
      columns and the two dates are new, and every other column is what it was. */
  ghost predicate Decided(before: Rows, after: Rows, id: string, reply: Reply, turn: Turn) {
    && id in before
    && (PendingContents(before[id].files) != "" ==> reply.Answer?)
    && (id in after <==>
          && PendingContents(before[id].files) != ""
          && reply.Answer? && reply.a.status == "pass" && reply.a.score >= 5 && reply.a.quality >= 5)
    && (id in after ==> Marked(before[id], after[id], reply.a, turn.stamp))
  }

  /** The columns of a row marked as checked at a moment. */
  ghost predicate Marked(was: Row, row: Row, a: Assessment, at: int) {
    && row.llmChecked && row.security == a.score <= 10 && row.quality == a.quality <= 10
    && row.status == a.status && row.summary == a.summary && row.riskLevel == a.riskLevel
    && row.categories == a.categories && row.auditedAt == at && row.updatedAt == at
    && row.source == was.source && row.slug == was.slug && row.name == was.name
    && row.description == was.description && row.stars == was.stars && row.installs == was.installs
    && row.installURL == was.installURL && row.publicURL == was.publicURL && row.official == was.official
    && row.hash == was.hash && row.files == was.files
  }

  /** What the environment did in the turn of a row that stopped the drain, by the reason it gave. */
  ghost predicate StopReason(row: Row, turn: Turn, outcome: Outcome) {
    var contents, answer := PendingContents(row.files), turn.answer;
    match outcome
    case Interrupted => contents != "" && (turn.interrupted || (answer.None? && turn.cancelled))
    case AssessmentDeferred => contents != "" && answer.None? && !turn.cancelled
    case RemoveFailed =>
      !turn.up && (contents == "" ||
        (answer.Some? && (answer.value.status != "pass" || answer.value.score < 5 || answer.value.quality < 5)))
    case StoreFailed =>
      && contents != "" && answer.Some?
      && answer.value.status == "pass" && answer.value.score >= 5 && answer.value.quality >= 5
      && (!turn.up || answer.value.score > 10 || answer.value.quality > 10)
    case _ => false
  }

  /** What was heard about a row in its turn; a row without contents is not audited. */
  predicate Heard(contents: string, reply: Reply, turn: Turn) {
    contents != "" ==> match reply
      case Answer(a) => turn.answer == Some(a)
      case AuditError => turn.answer.None?
      case GateCancelled => turn.interrupted
  }

  /** The same in terms of what the auditor answered in the row's turn. */
  ghost predicate DecidedIn(before: Rows, after: Rows, id: string, turn: Turn) {
    && id in before
    && (id in after <==>
          && PendingContents(before[id].files) != "" && turn.answer.Some?
          && turn.answer.value.status == "pass" && turn.answer.value.score >= 5 && turn.answer.value.quality >= 5)
    && (id in after ==> Marked(before[id], after[id], turn.answer.value, turn.stamp))
  }

  /** The first `k` unassessed rows are decided in their turns; all other rows are as they were. */
  ghost predicate Drained(rows: Rows, turns: nat -> Turn, now: Rows, k: nat) {
    var todo := Ascending(Unassessed(rows));
    && k <= |todo|
    && (forall i | 0 <= i < k :: DecidedIn(rows, now, todo[i], turns(i)))
    && (forall i | k <= i < |todo| :: Unchanged(rows, now, todo[i]))
    && (forall id | id !in Unassessed(rows) :: Unchanged(rows, now, id))
  }

  /** The row at a position of the list is the one that stopped the drain. */
  ghost predicate StoppedAt(rows: Rows, turns: nat -> Turn, k: nat, outcome: Outcome) {
    var todo := Ascending(Unassessed(rows));
    k < |todo| && todo[k] in rows && StopReason(rows[todo[k]], turns(k), outcome)
  }

  /** The replies are what was heard in the turns of the rows they belong to. */
  ghost predicate Told(rows: Rows, todo: seq<string>, replies: seq<Reply>, turns: nat -> Turn) {
    |replies| <= |todo| && forall i | 0 <= i < |replies| ::
      todo[i] in rows && Heard(PendingContents(rows[todo[i]].files), replies[i], turns(i))
  }

  lemma ToldMore(rows: Rows, todo: seq<string>, replies: seq<Reply>, turns: nat -> Turn, reply: Reply)
    requires Told(rows, todo, replies, turns) && |replies| < |todo| && todo[|replies|] in rows
    requires Heard(PendingContents(rows[todo[|replies|]].files), reply, turns(|replies|))
    ensures Told(rows, todo, replies + [reply], turns)
  {
  }

  /** One row handled: it is decided, or there is a reason to stop and nothing has changed; no other row
      changes. */
  lemma HandledMeans(rows: Rows, id: string, reply: Reply, turn: Turn)
    requires id in rows && RowAccepted(rows[id]) && Heard(PendingContents(rows[id].files), reply, turn)
    ensures var (after, stop) := Handle(rows, id, reply, turn);
      && (stop.None? ==> Decided(rows, after, id, reply, turn))
      && (stop.Some? ==> StopReason(rows[id], turn, stop.value) && after == rows)
      && forall other | other != id :: Unchanged(rows, after, other)
  {
  }

  /** A successful pass leaves every row that is not on the list alone. */
  lemma {:induction false} DrainFrame(rows: Rows, ids: seq<string>, replies: seq<Reply>, turns: nat -> Turn, id: string)
    requires |replies| == |ids| && Drain(rows, ids, replies, turns).Some? && id !in ids
    ensures Unchanged(rows, Drain(rows, ids, replies, turns).value, id)
    decreases |ids|
  {
    if ids != [] {
      var n := |ids| - 1;
      assert id !in ids[..n] && id != ids[n];
      DrainFrame(rows, ids[..n], replies[..n], turns, id);
    }
  }

  /** A successful pass decides every row on the list by that row's own reply. */
  lemma {:induction false} DrainDecides(rows: Rows, ids: seq<string>, replies: seq<Reply>, turns: nat -> Turn, i: nat)
    requires |replies| == |ids| && Drain(rows, ids, replies, turns).Some? && Distinct(ids) && i < |ids|
    ensures Decided(rows, Drain(rows, ids, replies, turns).value, ids[i], replies[i], turns(i))
    decreases |ids|
  {
    var n := |ids| - 1;
    var front := ids[..n];
    assert forall k | 0 <= k < n :: front[k] == ids[k];
    if i < n {
      DrainDecides(rows, front, replies[..n], turns, i);
    } else {
      assert ids[n] !in front;
      DrainFrame(rows, front, replies[..n], turns, ids[n]);
    }
  }

  /** Handling the first unassessed row takes exactly it off the list. */
  lemma HandledLeavesTail(rows: Rows, id: string, reply: Reply, turn: Turn)
    requires Unassessed(rows) != {} && id == Ascending(Unassessed(rows))[0] && id in rows
    requires Handle(rows, id, reply, turn).1.None?
    ensures Ascending(Unassessed(Handle(rows, id, reply, turn).0)) == Ascending(Unassessed(rows))[1..]
  {
    AscendingTail(Unassessed(rows));
    assert Unassessed(Handle(rows, id, reply, turn).0) == Unassessed(rows) - {id};
  }

  /** An audit that starts after the cooldown and closes the gate for another interval keeps the pace. */
  lemma AuditKeepsPace(interval: nat, sh: Shared, start: int, end: int, passed: set<string>)
    requires GateIdle(interval, sh) && sh.clock <= start <= end && sh.nextStart <= start
    ensures GateIdle(interval, Shared(sh.rows, end + interval, end, sh.starts + [start], sh.ends + [end], passed))
  {
    PacedBegins(interval, sh.starts, sh.ends, start);
    PacedEnds(interval, sh.starts + [start], sh.ends, end);
  }

  /** The first `k` unassessed rows have been handled, and exactly they. */
  ghost predicate Progress(rows: Rows, todo: seq<string>, replies: seq<Reply>, turns: nat -> Turn, now: Rows, k: nat) {
    && k <= |todo| && |replies| == k
    && Drain(rows, todo[..k], replies, turns) == Some(now)
    && Ascending(Unassessed(now)) == todo[k..]
  }

  lemma ProgressStart(rows: Rows, turns: nat -> Turn)
    ensures Progress(rows, Ascending(Unassessed(rows)), [], turns, rows, 0)
  {
    var todo := Ascending(Unassessed(rows));
    assert todo[..0] == [] && todo[0..] == todo;
  }

  lemma ProgressStep(rows: Rows, todo: seq<string>, replies: seq<Reply>, turns: nat -> Turn, now: Rows, k: nat,
                     reply: Reply)
    requires Progress(rows, todo, replies, turns, now, k) && k < |todo| && todo[k] in now
    requires Handle(now, todo[k], reply, turns(k)).1.None?
    ensures Progress(rows, todo, replies + [reply], turns, Handle(now, todo[k], reply, turns(k)).0, k + 1)
  {
    assert Ascending(Unassessed(now))[0] == todo[k];
    HandledLeavesTail(now, todo[k], reply, turns(k));
    DrainOneMore(rows, todo[..k], replies, turns, todo[k], reply);
    assert todo[..k + 1] == todo[..k] + [todo[k]];
    assert todo[k..][1..] == todo[k + 1..];
  }

  /** The next row on the list is unassessed, and still what it was at the start. */
  lemma NextIsOpen(rows: Rows, replies: seq<Reply>, turns: nat -> Turn, now: Rows, k: nat)
    requires var todo := Ascending(Unassessed(rows));
      Progress(rows, todo, replies, turns, now, k) && k < |todo|
    ensures var todo := Ascending(Unassessed(rows));
      todo[k] in rows && todo[k] in Unassessed(now) && now[todo[k]] == rows[todo[k]]
  {
    var todo := Ascending(Unassessed(rows));
    UntouchedSoFar(rows, todo, replies, turns, k, k);
    AscendingLists(Unassessed(now));
    assert todo[k..][0] in Ascending(Unassessed(now));
  }

  /** Passing answers were given to the contents of the rows they were given for. */
  ghost predicate Vouched(rows: Rows, todo: seq<string>, replies: seq<Reply>, passed: set<string>) {
    |replies| <= |todo| &&
    forall i | 0 <= i < |replies| && replies[i].Answer? && Passing(replies[i].a) ::
      todo[i] in rows && PendingContents(rows[todo[i]].files) in passed
  }

  lemma VouchedGrows(rows: Rows, todo: seq<string>, replies: seq<Reply>, passed: set<string>, more: set<string>)
    requires Vouched(rows, todo, replies, passed) && passed <= more
    ensures Vouched(rows, todo, replies, more)
  {
  }

  lemma VouchedStep(rows: Rows, todo: seq<string>, replies: seq<Reply>, passed: set<string>, more: set<string>,
                    reply: Reply)
    requires Vouched(rows, todo, replies, passed) && passed <= more && |replies| < |todo|
    requires reply.Answer? && Passing(reply.a) ==>
      todo[|replies|] in rows && PendingContents(rows[todo[|replies|]].files) in more
    ensures Vouched(rows, todo, replies + [reply], more)
  {
  }

  /** The drain of `rows` after `k` rows. */
  ghost predicate Standing(rows: Rows, replies: seq<Reply>, turns: nat -> Turn, now: Rows, k: nat,
                           passed: set<string>) {
    && Progress(rows, Ascending(Unassessed(rows)), replies, turns, now, k)
    && Vouched(rows, Ascending(Unassessed(rows)), replies, passed)
    && Told(rows, Ascending(Unassessed(rows)), replies, turns)
  }

  /** The row a batch has reached is the next one on the list, as it was at the start. */
  lemma RowReached(rows: Rows, replies: seq<Reply>, turns: nat -> Turn, now: Rows, k: nat, passed: set<string>,
                   start: nat, skills: seq<Pending>)
    requires Standing(rows, replies, turns, now, k, passed)
    requires Loaded(rows, Ascending(Unassessed(rows)), start, skills) && start <= k < start + |skills|
    ensures skills[k - start].id in Unassessed(now)
    ensures skills[k - start].contents == PendingContents(now[skills[k - start].id].files)
    ensures var id := Ascending(Unassessed(rows))[k];
      skills[k - start].id == id && id in rows && now[id] == rows[id]
  {
    NextIsOpen(rows, replies, turns, now, k);
    assert skills[k - start].id == Ascending(Unassessed(rows))[start + (k - start)];
  }

  /** One more row handled by its own reply. */
  lemma RowDone(rows: Rows, replies: seq<Reply>, turns: nat -> Turn, now: Rows, k: nat, reply: Reply,
                earlier: set<string>, passed: set<string>, start: nat, skills: seq<Pending>, after: Rows)
    requires Standing(rows, replies, turns, now, k, earlier)
    requires Loaded(rows, Ascending(Unassessed(rows)), start, skills) && start <= k < start + |skills|
    requires skills[k - start].id in now && Handle(now, skills[k - start].id, reply, turns(k)) == (after, None)
    requires passed == earlier + (if reply.Answer? && Passing(reply.a) then {skills[k - start].contents} else {})
    requires Heard(skills[k - start].contents, reply, turns(k))
    ensures Standing(rows, replies + [reply], turns, after, k + 1, passed)
  {
    var todo := Ascending(Unassessed(rows));
    assert skills[k - start] ==
      Pending(todo[start + (k - start)], PendingContents(rows[todo[start + (k - start)]].files));
    VouchedStep(rows, todo, replies, earlier, passed, reply);
    ToldMore(rows, todo, replies, turns, reply);
    ProgressStep(rows, todo, replies, turns, now, k, reply);
  }

  lemma RowRefused(rows: Rows, replies: seq<Reply>, turns: nat -> Turn, now: Rows, k: nat, earlier: set<string>,
                   passed: set<string>)
    requires Standing(rows, replies, turns, now, k, earlier) && earlier <= passed
    ensures Standing(rows, replies, turns, now, k, passed)
  {
    VouchedGrows(rows, Ascending(Unassessed(rows)), replies, earlier, passed);
  }

  /** The rows of a batch are the next ones on the list. */
  ghost predicate Loaded(rows: Rows, todo: seq<string>, start: nat, skills: seq<Pending>) {
    && start + |skills| <= |todo|
    && forall m | 0 <= m < |skills| ::
         todo[start + m] in rows
         && skills[m] == Pending(todo[start + m], PendingContents(rows[todo[start + m]].files))
  }

  /** `skills` is a prefix of the unassessed rows of `now`. */
  ghost predicate Prefix(now: Rows, skills: seq<Pending>) {
    var ids := Ascending(Unassessed(now));
    |skills| <= |ids| && forall m | 0 <= m < |skills| ::
      ids[m] in now && skills[m] == Pending(ids[m], PendingContents(now[ids[m]].files))
  }

  lemma RowIsNext(rows: Rows, replies: seq<Reply>, turns: nat -> Turn, now: Rows, k: nat, skills: seq<Pending>, m: nat)
    requires Progress(rows, Ascending(Unassessed(rows)), replies, turns, now, k) && Prefix(now, skills) && m < |skills|
    ensures var todo := Ascending(Unassessed(rows));
      && k + m < |todo| && todo[k + m] in rows
      && skills[m] == Pending(todo[k + m], PendingContents(rows[todo[k + m]].files))
  {
    var todo := Ascending(Unassessed(rows));
    assert Ascending(Unassessed(now))[m] == todo[k + m];
    UntouchedSoFar(rows, todo, replies, turns, k, k + m);
  }

  lemma BatchIsNext(rows: Rows, replies: seq<Reply>, turns: nat -> Turn, now: Rows, k: nat, skills: seq<Pending>)
    requires Progress(rows, Ascending(Unassessed(rows)), replies, turns, now, k) && Prefix(now, skills)
    ensures Loaded(rows, Ascending(Unassessed(rows)), k, skills)
  {
    assert |Ascending(Unassessed(now))| == |Ascending(Unassessed(rows))| - k;
    forall m | 0 <= m < |skills|
      ensures var todo := Ascending(Unassessed(rows));
        todo[k + m] in rows && skills[m] == Pending(todo[k + m], PendingContents(rows[todo[k + m]].files))
    {
      RowIsNext(rows, replies, turns, now, k, skills, m);
    }
  }

  class Assessor {
    const auditing: bool
    const interval: nat
    const store: SQLite
    var nextStart: int
    var clock: int
    var starts: seq<int>
    var ends: seq<int>
    var passed: set<string>

    constructor (auditing: bool, interval: nat, store: SQLite)
      ensures this.auditing == auditing && this.interval == interval && this.store == store
      ensures View() == Shared(store.tables.skills, 0, 0, [], [], {})
    {
      this.auditing, this.interval, this.store := auditing, interval, store;
      nextStart, clock, starts, ends, passed := 0, 0, [], [], {};
    }

    ghost function View(): Shared
      reads this, store
    {
      Shared(store.tables.skills, nextStart, clock, starts, ends, passed)
    }

    ghost predicate Valid()
      reads this, store
    {
      GateIdle(interval, View()) && Sound(store.tables)
    }

    /** One audit through the gate: never before the cooldown is over, and it leaves the gate closed for
        another interval; an interrupted wait changes nothing but the clock. */
    method AuditWithCooldown(contents: string, turn: Turn) returns (reply: Reply, began: int)
      requires Valid()
      modifies this
      ensures Valid()
      ensures reply.GateCancelled? <==> old(clock) + turn.lag < old(nextStart) && turn.interrupted
      ensures !reply.GateCancelled? ==>
        reply == if turn.answer.Some? then Answer(turn.answer.value) else AuditError
      ensures reply.GateCancelled? ==> starts == old(starts) && ends == old(ends) && nextStart == old(nextStart)
      ensures !reply.GateCancelled? ==>
        && starts == old(starts) + [began] && ends == old(ends) + [clock]
        && old(nextStart) <= began <= clock && nextStart == clock + interval
      ensures passed == old(passed) +
        (if reply.Answer? && reply.a.status == "pass" && reply.a.score >= 5 && reply.a.quality >= 5 then {contents}
         else {})
      ensures clock >= old(clock)
    {
      var now := clock + turn.lag;
      if now < nextStart {
        if turn.interrupted {
          clock := now;
          return GateCancelled, now;
        }
        now := nextStart;
      }
      ghost var more := passed + (if turn.answer.Some? && Passing(turn.answer.value) then {contents} else {});
      AuditKeepsPace(interval, View(), now, now + turn.duration, more);
      starts := starts + [now];
      clock := now + turn.duration;
      ends := ends + [clock];
      nextStart := clock + interval;
      if turn.answer.Some? {
        if Passing(turn.answer.value) {
          passed := passed + {contents};
        }
        return Answer(turn.answer.value), now;
      }
      return AuditError, now;
    }

    /** The body of the inner loop, as `Handle` has it. */
    method HandleRow(skill: Pending, turn: Turn) returns (stop: Option<Outcome>, ghost reply: Reply)
      requires Valid() && skill.id in Unassessed(store.tables.skills)
      requires skill.contents == PendingContents(store.tables.skills[skill.id].files)
      modifies this, store
      ensures Valid()
      ensures Handle(old(store.tables.skills), skill.id, reply, turn) == (store.tables.skills, stop)
      ensures passed == old(passed) + (if reply.Answer? && Passing(reply.a) then {skill.contents} else {})
      ensures Heard(skill.contents, reply, turn)
    {
      if skill.contents == "" {
        var fault := store.DeleteSkill(skill.id, turn.up);
        reply := AuditError;
        stop := if fault.Some? then Some(RemoveFailed) else None;
        return;
      }
      var answer, _ := AuditWithCooldown(skill.contents, turn);
      reply := answer;
      if answer.GateCancelled? {
        return Some(Interrupted), reply;
      }
      if answer.AuditError? {
        return Some(if turn.cancelled then Interrupted else AssessmentDeferred), reply;
      }
      if !Passing(answer.a) {
        var fault := store.DeleteSkill(skill.id, turn.up);
        return if fault.Some? then Some(RemoveFailed) else None, reply;
      }
      var fault := store.UpdateSkillAssessment(skill.id, answer.a, turn.stamp, turn.up);
      return if fault.Some? then Some(StoreFailed) else None, reply;
    }

    /** The body of the inner loop: the row is decided in its turn, or stops the drain for a reason. */
    method HandleOne(skill: Pending, turn: Turn) returns (stop: Option<Outcome>, ghost reply: Reply)
      requires Valid() && skill.id in Unassessed(store.tables.skills)
      requires skill.contents == PendingContents(store.tables.skills[skill.id].files)
      modifies this, store
      ensures Valid()
      ensures Handle(old(store.tables.skills), skill.id, reply, turn) == (store.tables.skills, stop)
      ensures passed == old(passed) + (if reply.Answer? && Passing(reply.a) then {skill.contents} else {})
      ensures Heard(skill.contents, reply, turn)
      ensures stop.None? ==> DecidedIn(old(store.tables.skills), store.tables.skills, skill.id, turn)
      ensures stop.Some? ==>
        && StopReason(old(store.tables.skills)[skill.id], turn, stop.value)
        && store.tables.skills == old(store.tables.skills)
      ensures forall id | id != skill.id :: Unchanged(old(store.tables.skills), store.tables.skills, id)
    {
      ghost var before := store.tables.skills;
      stop, reply := HandleRow(skill, turn);
      HandledMeans(before, skill.id, reply, turn);
    }

    /** One turn of the inner loop, in terms of the whole drain. */
    method HandleNext(skill: Pending, turn: Turn, ghost rows0: Rows, ghost done: seq<Reply>, ghost turns: nat -> Turn,
                      ghost k: nat, ghost start: nat, ghost skills: seq<Pending>)
      returns (stop: Option<Outcome>, ghost replies: seq<Reply>)
      requires Valid() && Standing(rows0, done, turns, store.tables.skills, k, passed)
      requires Loaded(rows0, Ascending(Unassessed(rows0)), start, skills) && start <= k < start + |skills|
      requires skill == skills[k - start] && turn == turns(k)
      modifies this, store
      ensures Valid() && old(passed) <= passed
      ensures Standing(rows0, replies, turns, store.tables.skills, if stop.None? then k + 1 else k, passed)
      ensures stop.Some? ==> StoppedAt(rows0, turns, k, stop.value)
    {
      RowReached(rows0, done, turns, store.tables.skills, k, passed, start, skills);
      ghost var before, earlier := store.tables.skills, passed;
      var failure, reply := HandleOne(skill, turn);
      if failure.Some? {
        RowRefused(rows0, done, turns, before, k, earlier, passed);
        return failure, done;
      }
      RowDone(rows0, done, turns, before, k, reply, earlier, passed, start, skills, store.tables.skills);
      return None, done + [reply];
    }

    /** The inner loop: the rows of one batch, until one of them stops the drain. */
    method HandleBatch(skills: seq<Pending>, position: nat, turns: nat -> Turn, ghost rows0: Rows,
                       ghost done: seq<Reply>)
      returns (stop: Option<Outcome>, processed: nat, ghost replies: seq<Reply>)
      requires Valid() && Standing(rows0, done, turns, store.tables.skills, position, passed)
      requires Loaded(rows0, Ascending(Unassessed(rows0)), position, skills)
      modifies this, store
      ensures Valid() && old(passed) <= passed
      ensures Standing(rows0, replies, turns, store.tables.skills, processed, passed)
      ensures stop.None? ==> processed == position + |skills|
      ensures stop.Some? ==> processed < position + |skills| && StoppedAt(rows0, turns, processed, stop.value)
    {
      processed, replies := position, done;
      for k := 0 to |skills|
        invariant processed == position + k && Valid() && old(passed) <= passed
        invariant Standing(rows0, replies, turns, store.tables.skills, processed, passed)
      {
        stop, replies := HandleNext(skills[k], turns(processed), rows0, replies, turns, processed, position, skills);
        if stop.Some? {
          return;
        }
        processed := processed + 1;
      }
      return None, processed, replies;
    }

    /** Batches of ten until all `total` rows are done. `turns` is indexed by position, `loads` by batch. */
    method DrainBatches(total: nat, loads: nat -> bool, turns: nat -> Turn)
      returns (outcome: Outcome, processed: nat, ghost replies: seq<Reply>)
      requires Valid() && total == |Ascending(Unassessed(store.tables.skills))|
      modifies this, store
      ensures Valid() && old(passed) <= passed
      ensures Standing(old(store.tables.skills), replies, turns, store.tables.skills, processed, passed)
      ensures outcome.Complete? ==> processed == total
      ensures outcome.Complete? || outcome.LoadFailed? ||
        StoppedAt(old(store.tables.skills), turns, processed, outcome)
    {
      processed, replies := 0, [];
      ghost var rows0 := store.tables.skills;
      ProgressStart(rows0, turns);
      var batchNumber := 0;
      while processed < total
        invariant Valid() && old(passed) <= passed && processed <= total == |Ascending(Unassessed(rows0))|
        invariant Standing(rows0, replies, turns, store.tables.skills, processed, passed)
        decreases total - processed
      {
        if !loads(batchNumber) {
          return LoadFailed, processed, replies;
        }
        var skills := store.UnassessedSkills(BATCH_SIZE);
        if skills == [] {
          return EmptyBatch, processed, replies;
        }
        BatchIsNext(rows0, replies, turns, store.tables.skills, processed, skills);
        batchNumber := batchNumber + 1;
        var stop;
        stop, processed, replies := HandleBatch(skills, processed, turns, rows0, replies);
        if stop.Some? {
          return stop.value, processed, replies;
        }
      }
      return Complete, processed, replies;
    }

    /** The drain. On any return the first rows on the list are decided by what the auditor answered in
        their turns, and all others are untouched; it is complete, or there is a reason for its end. */
    method Reconcile(counted: bool, loads: nat -> bool, turns: nat -> Turn)
      returns (outcome: Outcome, processed: nat, ghost replies: seq<Reply>)
      requires Valid()
      modifies this, store
      ensures Valid() && old(passed) <= passed
      ensures !auditing ==> outcome.Complete? && store.tables == old(store.tables)
      ensures Standing(old(store.tables.skills), replies, turns, store.tables.skills, processed, passed)
      ensures Drained(old(store.tables.skills), turns, store.tables.skills, processed)
      ensures auditing && outcome.Complete? ==>
        forall id | id in store.tables.skills :: store.tables.skills[id].llmChecked
      ensures outcome.Complete? || outcome.CountFailed? || outcome.LoadFailed? ||
        StoppedAt(old(store.tables.skills), turns, processed, outcome)
    {
      processed, replies := 0, [];
      ghost var rows0 := store.tables.skills;
      ProgressStart(rows0, turns);
      AscendingLists(Unassessed(rows0));
      outcome := Complete;
      if auditing {
        if counted {
          var total := store.UnassessedSkillCount();
          outcome, processed, replies := DrainBatches(total, loads, turns);
        } else {
          outcome := CountFailed;
        }
      }
      StandingIsDrained(rows0, replies, turns, store.tables.skills, processed, passed);
      if auditing && outcome.Complete? {
        NothingLeft(rows0, replies, turns, store.tables.skills, processed);
      }
    }
  }

  /** A drain that has come to the end of the list leaves nothing unassessed. */
  lemma NothingLeft(rows: Rows, replies: seq<Reply>, turns: nat -> Turn, now: Rows, k: nat)
    requires Progress(rows, Ascending(Unassessed(rows)), replies, turns, now, k)
    requires k == |Ascending(Unassessed(rows))|
    ensures forall id | id in now :: now[id].llmChecked
  {
    AscendingLists(Unassessed(now));
    assert Ascending(Unassessed(now)) == [];
    assert forall id | id in now && !now[id].llmChecked :: id in Unassessed(now);
  }

  /** What the drain has done, in terms of the auditor's answers alone. */
  lemma StandingIsDrained(rows: Rows, replies: seq<Reply>, turns: nat -> Turn, now: Rows, k: nat, passed: set<string>)
    requires Standing(rows, replies, turns, now, k, passed)
    ensures Drained(rows, turns, now, k)
  {
    var todo := Ascending(Unassessed(rows));
    DrainIsExact(rows, replies, turns, now, k);
    forall i | 0 <= i < k
      ensures DecidedIn(rows, now, todo[i], turns(i))
    {
      assert Decided(rows, now, todo[i], replies[i], turns(i));
      assert Heard(PendingContents(rows[todo[i]].files), replies[i], turns(i));
    }
  }

  /** A row that has not been reached is as it was at the start. */
  lemma UntouchedSoFar(rows: Rows, todo: seq<string>, replies: seq<Reply>, turns: nat -> Turn, k: nat, i: nat)
    requires k <= i < |todo| && |replies| == k && Drain(rows, todo[..k], replies, turns).Some?
    requires todo == Ascending(Unassessed(rows))
    ensures todo[i] in rows && Unchanged(rows, Drain(rows, todo[..k], replies, turns).value, todo[i])
  {
    AscendingLists(Unassessed(rows));
    AscendingDistinct(Unassessed(rows));
    assert todo[i] in todo;
    assert todo[i] !in todo[..k];
    DrainFrame(rows, todo[..k], replies, turns, todo[i]);
  }

  /** Wherever the drain stops, every row before that point is decided by its own reply, and every
      other row, the failing one included, is as it was. */
  lemma DrainIsExact(rows: Rows, replies: seq<Reply>, turns: nat -> Turn, now: Rows, k: nat)
    requires Progress(rows, Ascending(Unassessed(rows)), replies, turns, now, k)
    ensures var todo := Ascending(Unassessed(rows));
      && (forall i | 0 <= i < k :: Decided(rows, now, todo[i], replies[i], turns(i)))
      && (forall i | k <= i < |todo| :: Unchanged(rows, now, todo[i]))
      && (forall id | id !in Unassessed(rows) :: Unchanged(rows, now, id))
  {
    var todo := Ascending(Unassessed(rows));
    AscendingDistinct(Unassessed(rows));
    AscendingLists(Unassessed(rows));
    assert Distinct(todo[..k]);
    forall i | 0 <= i < k
      ensures Decided(rows, now, todo[i], replies[i], turns(i))
    {
      DrainDecides(rows, todo[..k], replies, turns, i);
    }
    forall i | k <= i < |todo|
      ensures Unchanged(rows, now, todo[i])
    {
      UntouchedSoFar(rows, todo, replies, turns, k, i);
    }
    forall id | id !in Unassessed(rows)
      ensures Unchanged(rows, now, id)
    {
      assert id !in todo && id !in todo[..k];
      DrainFrame(rows, todo[..k], replies, turns, id);
    }
  }

  /** The drain never publishes a row without a passing audit of that row's own canonical file. */
  lemma DrainKeepsGate(rows: Rows, replies: seq<Reply>, turns: nat -> Turn, now: Rows, k: nat, earlier: set<string>,
                       passed: set<string>)
    requires Progress(rows, Ascending(Unassessed(rows)), replies, turns, now, k)
    requires GateHolds(rows, earlier) && earlier <= passed
    requires Vouched(rows, Ascending(Unassessed(rows)), replies, passed)
    ensures GateHolds(now, passed)
  {
    var todo := Ascending(Unassessed(rows));
    DrainIsExact(rows, replies, turns, now, k);
    AscendingLists(Unassessed(rows));
    forall id | id in now
      ensures Published(now[id], passed)
    {
      if i :| 0 <= i < k && todo[i] == id {
        assert Decided(rows, now, id, replies[i], turns(i));
        PendingIsCanonical(rows[id].files);
      } else {
        if id in Unassessed(rows) {
          assert id in todo;
          var i :| 0 <= i < |todo| && todo[i] == id;
          assert Unchanged(rows, now, todo[i]);
        }
        assert Unchanged(rows, now, id);
        assert Published(rows[id], earlier);
      }
    }
  }
}
