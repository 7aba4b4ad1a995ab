/** The publication gate over the whole life of a database: drains, batches cut short at any point,
    restarts with or without an auditor. */
module Publication {
  import opened Catalog
  import opened Orders
  import opened Store
  import opened IndexPool
  import opened IndexPoolGate
  import Reconcile

  /** One stretch of the service's life. A drain may stop after any row and a batch after any step, so
      errors, cancellations and crashes need no phase of their own. */
  datatype Phase =
    | Drained(replies: seq<Reconcile.Reply>, turns: nat -> Reconcile.Turn, handled: nat, rows: Rows)
    | Indexed(b: Batch, actions: seq<Action>)
    | Restarted

  /** Migration removes the rows without a canonical file. */
  function Migrated(rows: Rows): Rows {
    map id | id in rows && (exists f | f in rows[id].files :: CanonicalName(f.path)) :: rows[id]
  }

  ghost predicate Happens(sh: Shared, phase: Phase) {
    match phase
    case Drained(replies, turns, handled, rows) =>
      Reconcile.Progress(sh.rows, Ascending(Unassessed(sh.rows)), replies, turns, rows, handled)
    case Indexed(b, actions) => Canonical(b) && Follows(b, Init(b, sh), actions)
    case Restarted => true
  }

  /** The contents that received a passing answer during a drain. */
  ghost function PassedIn(rows: Rows, replies: seq<Reconcile.Reply>): set<string> {
    var todo := Ascending(Unassessed(rows));
    set i | 0 <= i < |replies| && i < |todo| && replies[i].Answer? && Passing(replies[i].a) && todo[i] in rows ::
      PendingContents(rows[todo[i]].files)
  }

  lemma PassedAreVouched(rows: Rows, replies: seq<Reconcile.Reply>, turns: nat -> Reconcile.Turn, now: Rows, k: nat,
                         earlier: set<string>)
    requires Reconcile.Progress(rows, Ascending(Unassessed(rows)), replies, turns, now, k)
    ensures Reconcile.Vouched(rows, Ascending(Unassessed(rows)), replies, earlier + PassedIn(rows, replies))
  {
    AscendingLists(Unassessed(rows));
    var todo := Ascending(Unassessed(rows));
    forall i | 0 <= i < |replies| && replies[i].Answer? && Passing(replies[i].a)
      ensures todo[i] in rows && PendingContents(rows[todo[i]].files) in earlier + PassedIn(rows, replies)
    {
      assert todo[i] in todo;
    }
  }

  ghost function After(sh: Shared, phase: Phase): Shared
    requires Happens(sh, phase)
  {
    match phase
    case Drained(replies, _, _, rows) => sh.(rows := rows, passed := sh.passed + PassedIn(sh.rows, replies))
    case Indexed(b, actions) => Final(b, Init(b, sh), actions).shared
    case Restarted => Shared(Migrated(sh.rows), 0, sh.clock, [], [], sh.passed)
  }

  ghost predicate Life(sh: Shared, phases: seq<Phase>)
    decreases |phases|
  {
    phases == [] || (Happens(sh, phases[0]) && Life(After(sh, phases[0]), phases[1..]))
  }

  ghost function Now(sh: Shared, phases: seq<Phase>): Shared
    requires Life(sh, phases)
    decreases |phases|
  {
    if phases == [] then sh else Now(After(sh, phases[0]), phases[1..])
  }

  lemma PhaseKeepsGate(sh: Shared, phase: Phase)
    requires Happens(sh, phase) && GateHolds(sh.rows, sh.passed)
    ensures GateHolds(After(sh, phase).rows, After(sh, phase).passed)
  {
    match phase
    case Drained(replies, turns, handled, rows) =>
      PassedAreVouched(sh.rows, replies, turns, rows, handled, sh.passed);
      Reconcile.DrainKeepsGate(sh.rows, replies, turns, rows, handled, sh.passed,
                               sh.passed + PassedIn(sh.rows, replies));
    case Indexed(b, actions) => GateKeptByPool(b, Init(b, sh), actions);
    case Restarted =>
      forall id | id in Migrated(sh.rows)
        ensures Published(Migrated(sh.rows)[id], sh.passed)
      {
        assert Published(sh.rows[id], sh.passed);
      }
  }

  lemma {:induction false} GateAlways(sh: Shared, phases: seq<Phase>)
    requires GateHolds(sh.rows, sh.passed) && Life(sh, phases)
    ensures GateHolds(Now(sh, phases).rows, Now(sh, phases).passed)
    decreases |phases|
  {
    if phases != [] {
      PhaseKeepsGate(sh, phases[0]);
      GateAlways(After(sh, phases[0]), phases[1..]);
    }
  }

  /** A restart removes rows without a canonical file, never one that is marked as checked, and changes none. */
  lemma RestartKeepsChecked(sh: Shared, id: string)
    requires GateHolds(sh.rows, sh.passed)
    ensures var rows := After(sh, Restarted).rows;
      && (id in rows <==>
            id in sh.rows && exists f :: f in sh.rows[id].files && (f.path == "SKILL.md" || f.path == "SKILLS.md"))
      && (id in rows ==> rows[id] == sh.rows[id])
      && (id in sh.rows && sh.rows[id].llmChecked ==> id in rows)
  {
    if id in sh.rows && sh.rows[id].llmChecked {
      assert Published(sh.rows[id], sh.passed);
    }
  }

  const NEW_DATABASE := Shared(map[], 0, 0, [], [], {})

  /** Whatever has happened since the database was created, a read restricted to checked rows returns
      only rows with status pass, both scores in 5..10, and a passing audit on record of the contents
      of one of the row's canonical files. */
  lemma ReadsReturnPublished(phases: seq<Phase>, id: string)
    requires Life(NEW_DATABASE, phases)
    requires id in Visible(Now(NEW_DATABASE, phases).rows, true)
    ensures var now := Now(NEW_DATABASE, phases); var row := now.rows[id];
      && row.status == "pass" && 5 <= row.security <= 10 && 5 <= row.quality <= 10
      && exists f :: f in row.files && (f.path == "SKILL.md" || f.path == "SKILLS.md") && f.contents in now.passed
  {
    GateAlways(NEW_DATABASE, phases);
    var now := Now(NEW_DATABASE, phases);
    assert Published(now.rows[id], now.passed);
  }
}
