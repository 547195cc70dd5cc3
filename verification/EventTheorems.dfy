/**
  What holds in every run of event processing, whatever the interleaving of workers, lease
  takeovers, redeliveries, rule changes and crashes.
*/
module EventTheorems {
  import opened Identity
  import opened Leases
  import opened EventProtocol
  import opened EventSafety

  // ---------------------------------------------------------------- one execution per event

  /** Only a commit changes the tables and the log; every other step, a crash included, leaves them alone. */
  lemma OnlyCommitsWrite(s: State, a: Action, t: State)
    requires Step(s, a, t) && !a.CommitTransaction?
    ensures t.db == s.db && t.log == s.log
  {
    hide TaskStep, Crashed, Unlocked, Acquired, Renewed, Released;
  }

  lemma StepGrows(s: State, a: Action, t: State)
    requires Step(s, a, t)
    ensures s.log <= t.log && s.stored <= t.stored
  {
    hide TaskStep, Crashed, Unlocked, Acquired, Renewed, Released, Merged, CommitRecord;
  }

  lemma {:induction false} LogGrows(run: seq<State>, m: nat, n: nat)
    requires Run(run) && m <= n < |run|
    ensures run[m].log <= run[n].log
    decreases n
  {
    hide Step, Init;
    if m < n {
      LogGrows(run, m, n - 1);
      assert Next(run[n - 1], run[n - 1 + 1]);
      var a :| Step(run[n - 1], a, run[n]);
      StepGrows(run[n - 1], a, run[n]);
    }
  }

  /** Two commits for one event, at whatever points of a run they are seen, are the same commit. */
  lemma AtMostOneExecution(run: seq<State>, m: nat, i: nat, n: nat, j: nat)
    requires Run(run) && m < |run| && n < |run| && i < |run[m].log| && j < |run[n].log|
    requires KeyIn(run[m].log[i]) == KeyIn(run[n].log[j])
    ensures i == j && run[m].log[i] == run[n].log[j]
  {
    hide Run, KeyIn, RowsOk, InputsOk, Fenced, DbOk, LeasesOk, TaskOk, Apart, SettledOk;
    if m <= n {
      LogGrows(run, m, n);
      RunInv(run, n);
    } else {
      LogGrows(run, n, m);
      RunInv(run, m);
    }
  }

  /**
    The inbox is exactly the record of what committed: one committed row per event, naming its
    execution, which exists.
  */
  lemma InboxRecordsCommits(run: seq<State>, n: nat, k: Key, x: string)
    requires Run(run) && n < |run|
    ensures Committed(run[n].log, k, x) <==> k in run[n].db.inbox && run[n].db.inbox[k] == InboxRow(true, x)
    ensures Committed(run[n].log, k, x) ==>
              x in run[n].db.executions && ExecutionText(run[n].db.executions[x]) == x &&
              run[n].db.executions[x].tenant == k.tenant && run[n].db.executions[x].event == k.event
  {
    hide Run, ExecutionText, RowsOk, InputsOk, Fenced, LeasesOk, TaskOk, Apart, SettledOk, AllRows;
    RunInv(run, n);
    if Committed(run[n].log, k, x) {
      var i :| CommittedAt(run[n].log, k, x, i);
      assert x in run[n].db.executions;
      ExecutionTextInjective(run[n].db.executions[x], ExecutionIn(run[n].log[i]));
    }
  }

  // ---------------------------------------------------------------- all of a decision's effects, or nothing

  /** No row of the plan competes for its identity with another row of the plan or with a stored row. */
  ghost predicate IdsFree(plan: seq<Effect>, taken: set<string>) {
    (forall i | 0 <= i < |plan| :: EffectId(plan[i]) !in taken) &&
    (forall i, j | 0 <= i < j < |plan| :: EffectId(plan[i]) != EffectId(plan[j]))
  }

  ghost predicate Stores(outbox: map<string, Effect>, e: Effect) {
    EffectId(e) in outbox && outbox[EffectId(e)] == e
  }

  /** The rows of one plan are pairwise different and all belong to its execution. */
  lemma PlanRows(e: Envelope, revision: int, d: seq<Decided>, subs: seq<string>, i: nat, j: nat)
    requires DistinctSources(d) && Distinct(subs) && i < j < |d| + |subs|
    ensures Plan(e, revision, d, subs)[i] != Plan(e, revision, d, subs)[j]
  {
    hide ExecutionText;
  }

  lemma PlanExecution(e: Envelope, revision: int, d: seq<Decided>, subs: seq<string>, i: nat)
    requires i < |d| + |subs|
    ensures Plan(e, revision, d, subs)[i].execution == ExecutionText(ExecutionOf(e, revision))
  {
    hide ExecutionText;
  }

  /** A stored row comes from the plan of one of the commits. */
  lemma {:induction false} RowOrigin(log: seq<Commit>, x: string) returns (i: nat, r: nat)
    requires RowsOk(log) && x in AllRows(log)
    ensures i < |log| && r < |PlanOf(log[i])| && PlanOf(log[i])[r] == AllRows(log)[x] && EffectId(AllRows(log)[x]) == x
  {
    hide EffectId, PlanOf, Fill;
    var n := |log| - 1;
    assert RowsAt(log, n);
    if x in log[n].rows {
      FillKeys(PlanOf(log[n]), |PlanOf(log[n])|, AllRows(log[..n]).Keys, x);
      i := n;
      r :| 0 <= r < |PlanOf(log[n])| && PlanOf(log[n])[r] == log[n].rows[x];
    } else {
      forall j | 0 <= j < n
        ensures RowsAt(log[..n], j)
      {
        assert RowsAt(log, j);
        assert log[..n][..j] == log[..j];
      }
      i, r := RowOrigin(log[..n], x);
    }
  }

  /** Before its commit no row of an event's plan is stored: stored rows belong to other executions. */
  lemma NotStoredBefore(log: seq<Commit>, c: Commit, r: nat)
    requires RowsOk(log) && r < |PlanOf(c)|
    requires forall i | 0 <= i < |log| :: KeyIn(log[i]) != KeyIn(c)
    ensures !Stores(AllRows(log), PlanOf(c)[r])
  {
    hide EffectId, PlanOf, Fill, AllRows, RowsOk, ExecutionText;
    var x := EffectId(PlanOf(c)[r]);
    if x in AllRows(log) {
      var i, q := RowOrigin(log, x);
      RowExecution(log[i], q);
      RowExecution(c, r);
      KeyOfExecution(log[i]);
      KeyOfExecution(c);
      if TextIn(log[i]) == TextIn(c) {
        ExecutionTextInjective(ExecutionIn(log[i]), ExecutionIn(c));
      }
    }
  }

  lemma RowExecution(c: Commit, r: nat)
    requires r < |PlanOf(c)|
    ensures PlanOf(c)[r].execution == TextIn(c)
  {
    hide ExecutionText;
    PlanExecution(c.env, c.revision, c.decision, c.subscribers, r);
  }

  /** Exactly when inserting a plan stores every row of it. */
  lemma FillCompleteIff(log: seq<Commit>, c: Commit)
    requires RowsOk(log) && DistinctSources(c.decision) && Distinct(c.subscribers)
    requires forall i | 0 <= i < |log| :: KeyIn(log[i]) != KeyIn(c)
    ensures
      var plan := PlanOf(c);
      var taken := AllRows(log);
      (forall r | 0 <= r < |plan| :: Stores(taken + Fill(plan, |plan|, taken.Keys), plan[r])) <==>
      IdsFree(plan, taken.Keys)
  {
    hide EffectId, PlanOf, Fill, AllRows, RowsOk, KeyIn, DistinctSources, Distinct;
    var plan, taken := PlanOf(c), AllRows(log);
    var after := taken + Fill(plan, |plan|, taken.Keys);
    if IdsFree(plan, taken.Keys) {
      forall r | 0 <= r < |plan|
        ensures Stores(after, plan[r])
      {
        FillStores(plan, |plan|, taken.Keys, r);
      }
    } else if r :| 0 <= r < |plan| && EffectId(plan[r]) in taken.Keys {
      NotStoredBefore(log, c, r);
      FillKeys(plan, |plan|, taken.Keys, EffectId(plan[r]));
      assert !Stores(after, plan[r]);
    } else {
      var i, j :| 0 <= i < j < |plan| && EffectId(plan[i]) == EffectId(plan[j]);
      RowsDiffer(c, i, j);
      assert !(Stores(after, plan[i]) && Stores(after, plan[j]));
    }
  }

  lemma RowsDiffer(c: Commit, i: nat, j: nat)
    requires DistinctSources(c.decision) && Distinct(c.subscribers) && i < j < |PlanOf(c)|
    ensures PlanOf(c)[i] != PlanOf(c)[j]
  {
    PlanRows(c.env, c.revision, c.decision, c.subscribers, i, j);
  }

  lemma KeyIsNew(s: State, id: int)
    requires Inv(s) && id in s.tasks && s.tasks[id].phase.Marked? && s.tasks[id].message.Parsed?
    ensures
      var c := CommitRecord(s.tasks[id]);
      (forall i | 0 <= i < |s.log| :: KeyIn(s.log[i]) != KeyIn(c)) && RowsOk(s.log) && s.db.outbox == AllRows(s.log) &&
      DistinctSources(c.decision) && Distinct(c.subscribers) && KeyIn(c) !in s.db.inbox && TextIn(c) !in s.db.executions
  {
    hide KeyIn, TextIn, ExecutionText, RowsOk, AllRows, Fill, PlanOf, Committed, CommitRecord, TaskOk, DistinctSources,
         Distinct, Fenced;
    var c := CommitRecord(s.tasks[id]);
    RecordFacts(s, s.tasks[id]);
    KeyOfExecution(c);
    TextOfExecution(c);
    NoExecutionYet(s.db, s.log, ExecutionIn(c));
  }

  /** A commit in terms of its plan: the outbox gains the plan's free identities and keeps all old rows. */
  lemma CommitFillsPlan(run: seq<State>, n: nat, id: int, reported: bool, t: State)
    requires Run(run) && n < |run| && Committing(run[n], id, reported, t)
    ensures
      var s := run[n];
      var c := CommitRecord(s.tasks[id]);
      t.log == s.log + [c] &&
      KeyIn(c) !in s.db.inbox && t.db.inbox == s.db.inbox[KeyIn(c) := InboxRow(true, TextIn(c))] &&
      TextIn(c) !in s.db.executions && t.db.executions == s.db.executions[TextIn(c) := ExecutionIn(c)]
    ensures
      var s := run[n];
      var plan := PlanOf(CommitRecord(s.tasks[id]));
      (forall x | x in s.db.outbox :: x in t.db.outbox && t.db.outbox[x] == s.db.outbox[x]) &&
      (forall x :: x in t.db.outbox <==> x in s.db.outbox || exists r | 0 <= r < |plan| :: EffectId(plan[r]) == x) &&
      ((forall r | 0 <= r < |plan| :: Stores(t.db.outbox, plan[r])) <==> IdsFree(plan, s.db.outbox.Keys))
  {
    hide Run, Inv, KeyIn, TextIn, ExecutionIn, PlanOf, Fill, EffectId, AllRows, RowsOk, CommitRecord, Stores, IdsFree,
      DistinctSources, Distinct, TaskOk, ExecutionText;
    var s := run[n];
    var c := CommitRecord(s.tasks[id]);
    var plan := PlanOf(c);
    RunInv(run, n);
    TaskIsOk(s, id);
    RecordFacts(s, s.tasks[id]);
    KeyIsNew(s, id);
    FillCompleteIff(s.log, c);
    forall x
      ensures x in c.rows <==> x !in s.db.outbox && exists r | 0 <= r < |plan| :: EffectId(plan[r]) == x
    {
      FillKeys(plan, |plan|, s.db.outbox.Keys, x);
    }
  }

  // The same, row by row and field by field.

  /** The identity a commit claims for its `r`-th effect: those of the decision first, then the subscribers'. */
  function ClaimedId(e: Envelope, revision: int, d: seq<Decided>, subs: seq<string>, r: nat): string
    requires r < |d| + |subs|
  {
    if r < |d| then EffectText(EffectKey(e.tenant, e.id, e.kind, revision, d[r].rule, d[r].index))
    else EffectText(EffectKey(e.tenant, e.id, "service-subscription", 1, subs[r - |d|], 0))
  }

  /** The identities of a decision and its subscribers are pairwise different and not taken. */
  ghost predicate IdentitiesFree(e: Envelope, revision: int, d: seq<Decided>, subs: seq<string>, taken: set<string>) {
    (forall r | 0 <= r < |d| + |subs| :: ClaimedId(e, revision, d, subs, r) !in taken) &&
    (forall r, q | 0 <= r < q < |d| + |subs| ::
       ClaimedId(e, revision, d, subs, r) != ClaimedId(e, revision, d, subs, q))
  }

  /** An outbox row is there, with this key, execution and destination, for a subscription or not. */
  ghost predicate HasRow(outbox: map<string, Effect>, k: EffectKey, execution: string, destination: string, sub: bool) {
    EffectText(k) in outbox && outbox[EffectText(k)].key == k && outbox[EffectText(k)].execution == execution &&
    outbox[EffectText(k)].destination == destination && outbox[EffectText(k)].subscription == sub
  }

  /**
    Every effect of the decision is stored for its own destination, and every subscriber has a
    subscription row for itself, all under the event's execution.
  */
  ghost predicate AllStored(outbox: map<string, Effect>, e: Envelope, revision: int, d: seq<Decided>,
                            subs: seq<string>)
  {
    var x := ExecutionText(ExecutionKey(e.tenant, e.id, e.kind, revision));
    (forall i | 0 <= i < |d| ::
       HasRow(outbox, EffectKey(e.tenant, e.id, e.kind, revision, d[i].rule, d[i].index), x,
              d[i].destination, false)) &&
    (forall j | 0 <= j < |subs| ::
       HasRow(outbox, EffectKey(e.tenant, e.id, "service-subscription", 1, subs[j], 0), x, subs[j], true))
  }

  lemma PlanFields(e: Envelope, revision: int, d: seq<Decided>, subs: seq<string>, r: nat)
    requires r < |d| + |subs|
    ensures
      var row := Plan(e, revision, d, subs)[r];
      EffectId(row) == ClaimedId(e, revision, d, subs, r) &&
      row.execution == ExecutionText(ExecutionKey(e.tenant, e.id, e.kind, revision)) &&
      if r < |d| then
        row.key == EffectKey(e.tenant, e.id, e.kind, revision, d[r].rule, d[r].index) &&
        row.destination == d[r].destination && !row.subscription
      else
        row.key == EffectKey(e.tenant, e.id, "service-subscription", 1, subs[r - |d|], 0) &&
        row.destination == subs[r - |d|] && row.subscription
  {
    hide ExecutionText, EffectText;
  }

  lemma PlanInFields(outbox: map<string, Effect>, taken: set<string>, e: Envelope, revision: int, d: seq<Decided>,
                     subs: seq<string>)
    ensures
      var plan := Plan(e, revision, d, subs);
      ((forall r | 0 <= r < |plan| :: Stores(outbox, plan[r])) <==> AllStored(outbox, e, revision, d, subs)) &&
      (IdsFree(plan, taken) <==> IdentitiesFree(e, revision, d, subs, taken))
  {
    hide ExecutionText, EffectText, Plan, ClaimedId;
    var plan := Plan(e, revision, d, subs);
    forall r | 0 <= r < |plan|
      ensures EffectId(plan[r]) == ClaimedId(e, revision, d, subs, r)
    {
      PlanFields(e, revision, d, subs, r);
    }
    var x := ExecutionText(ExecutionKey(e.tenant, e.id, e.kind, revision));
    if forall r | 0 <= r < |plan| :: Stores(outbox, plan[r]) {
      forall i | 0 <= i < |d|
        ensures HasRow(outbox, EffectKey(e.tenant, e.id, e.kind, revision, d[i].rule, d[i].index), x,
                       d[i].destination, false)
      {
        PlanFields(e, revision, d, subs, i);
        assert Stores(outbox, plan[i]);
      }
      forall j | 0 <= j < |subs|
        ensures HasRow(outbox, EffectKey(e.tenant, e.id, "service-subscription", 1, subs[j], 0), x, subs[j], true)
      {
        PlanFields(e, revision, d, subs, |d| + j);
        assert Stores(outbox, plan[|d| + j]);
      }
    }
    if AllStored(outbox, e, revision, d, subs) {
      forall r | 0 <= r < |plan|
        ensures Stores(outbox, plan[r])
      {
        PlanFields(e, revision, d, subs, r);
        if r >= |d| {
          var sub := subs[r - |d|];
          assert HasRow(outbox, EffectKey(e.tenant, e.id, "service-subscription", 1, sub, 0), x, sub, true);
        }
      }
    }
  }

  /**
    A commit writes, in one step, the event's inbox row, its execution row and its outbox rows. The
    outbox keeps all old rows and gains precisely the identities of the decision's effects and of the
    subscribers. Every effect is stored for its own destination and every subscriber gets its row if and
    only if the identities are pairwise different and were not taken.
  */
  lemma CommitStoresPlan(run: seq<State>, n: nat, id: int, reported: bool, t: State)
    requires Run(run) && n < |run| && Committing(run[n], id, reported, t)
    ensures
      var s := run[n];
      var e, revision := s.tasks[id].message.env, s.tasks[id].phase.revision;
      var x := ExecutionKey(e.tenant, e.id, e.kind, revision);
      Key(e.tenant, e.id) !in s.db.inbox &&
      t.db.inbox == s.db.inbox[Key(e.tenant, e.id) := InboxRow(true, ExecutionText(x))] &&
      ExecutionText(x) !in s.db.executions && t.db.executions == s.db.executions[ExecutionText(x) := x]
    ensures
      var s := run[n];
      var e, revision := s.tasks[id].message.env, s.tasks[id].phase.revision;
      var d, subs := s.tasks[id].phase.decision, s.tasks[id].phase.subscribers;
      (forall x | x in s.db.outbox :: x in t.db.outbox && t.db.outbox[x] == s.db.outbox[x]) &&
      (forall x :: x in t.db.outbox <==>
         x in s.db.outbox || exists r | 0 <= r < |d| + |subs| :: ClaimedId(e, revision, d, subs, r) == x) &&
      (AllStored(t.db.outbox, e, revision, d, subs) <==> IdentitiesFree(e, revision, d, subs, s.db.outbox.Keys))
  {
    hide Run, IdsFree, Stores, AllStored, IdentitiesFree, EffectText, ExecutionText, EffectId, Plan, ClaimedId;
    var s := run[n];
    var c := CommitRecord(s.tasks[id]);
    CommitFillsPlan(run, n, id, reported, t);
    PlanInFields(t.db.outbox, s.db.outbox.Keys, c.env, c.revision, c.decision, c.subscribers);
    forall r | 0 <= r < |c.decision| + |c.subscribers|
      ensures EffectId(PlanOf(c)[r]) == ClaimedId(c.env, c.revision, c.decision, c.subscribers, r)
    {
      PlanFields(c.env, c.revision, c.decision, c.subscribers, r);
    }
  }

  lemma TaskIsOk(s: State, id: int)
    requires Inv(s) && id in s.tasks
    ensures TaskOk(s, s.tasks[id])
  {
  }

  /** The names in an event cannot run into each other in an effect identity. */
  predicate PlainEvent(e: Envelope) {
    BarFree(e.tenant) && BarFree(e.id) && BarFree(e.kind) && e.kind != SUBSCRIPTION
  }

  lemma PlanKey(e: Envelope, revision: int, d: seq<Decided>, subs: seq<string>, r: nat)
    requires r < |d| + |subs|
    ensures
      var k := Plan(e, revision, d, subs)[r].key;
      k.tenant == e.tenant && k.event == e.id &&
      if r < |d| then k.ruleSet == e.kind && k.revision == revision && k.rule == d[r].rule && k.index == d[r].index
      else k.ruleSet == SUBSCRIPTION && k.revision == 1 && k.rule == subs[r - |d|] && k.index == 0
  {
    hide ExecutionText;
  }

  lemma PlainRow(c: Commit, r: nat)
    requires PlainEvent(c.env) && r < |PlanOf(c)|
    ensures PlainNames(PlanOf(c)[r].key) && PlanOf(c)[r].key.tenant == c.env.tenant &&
            PlanOf(c)[r].key.event == c.env.id
  {
    hide Plan;
    PlanKey(c.env, c.revision, c.decision, c.subscribers, r);
    assert BarFree(SUBSCRIPTION);
  }

  lemma PlainKeysDiffer(c: Commit, i: nat, j: nat)
    requires PlainEvent(c.env) && DistinctSources(c.decision) && Distinct(c.subscribers) && i < j < |PlanOf(c)|
    ensures PlanOf(c)[i].key != PlanOf(c)[j].key
  {
    hide Plan, BarFree;
    PlanKey(c.env, c.revision, c.decision, c.subscribers, i);
    PlanKey(c.env, c.revision, c.decision, c.subscribers, j);
  }

  /**
    No effect is ever lost to an identity clash when the names of every event are plain: no '|' in
    tenant, event id or type, and no event type that is the reserved subscription name.
  */
  lemma PlainEventsLoseNothing(run: seq<State>, n: nat, id: int, reported: bool, t: State)
    requires Run(run) && n < |run| && Committing(run[n], id, reported, t)
    requires PlainEvent(run[n].tasks[id].message.env) &&
             forall i | 0 <= i < |run[n].log| :: PlainEvent(run[n].log[i].env)
    ensures
      var task := run[n].tasks[id];
      AllStored(t.db.outbox, task.message.env, task.phase.revision, task.phase.decision, task.phase.subscribers)
  {
    hide Run, Inv, EffectId, AllRows, RowsOk, Fill, PlainEvent, DistinctSources, Distinct, KeyIn, TextIn, IdsFree,
         ExecutionIn, Stores, Merged, AllStored, IdentitiesFree, Plan;
    var s := run[n];
    var c := CommitRecord(s.tasks[id]);
    RunInv(run, n);
    KeyIsNew(s, id);
    PlainPlanIsFree(s.log, c);
    PlanInFields(t.db.outbox, s.db.outbox.Keys, c.env, c.revision, c.decision, c.subscribers);
    CommitStoresPlan(run, n, id, reported, t);
  }

  lemma PlainPlanIsFree(log: seq<Commit>, c: Commit)
    requires RowsOk(log) && PlainEvent(c.env) && DistinctSources(c.decision) && Distinct(c.subscribers)
    requires forall i | 0 <= i < |log| :: KeyIn(log[i]) != KeyIn(c) && PlainEvent(log[i].env)
    ensures IdsFree(PlanOf(c), AllRows(log).Keys)
  {
    hide PlanOf, PlainEvent, DistinctSources, Distinct, RowsOk, AllRows, EffectText;
    var plan := PlanOf(c);
    forall r | 0 <= r < |plan|
      ensures EffectId(plan[r]) !in AllRows(log).Keys
    {
      if EffectId(plan[r]) in AllRows(log) {
        var i, q := RowOrigin(log, EffectId(plan[r]));
        PlainRow(c, r);
        PlainRow(log[i], q);
        EffectTextInjective(plan[r].key, PlanOf(log[i])[q].key);
      }
    }
    forall i, j | 0 <= i < j < |plan|
      ensures EffectId(plan[i]) != EffectId(plan[j])
    {
      PlainRow(c, i);
      PlainRow(c, j);
      PlainKeysDiffer(c, i, j);
      if EffectId(plan[i]) == EffectId(plan[j]) {
        EffectTextInjective(plan[i].key, plan[j].key);
      }
    }
  }

  /**
    An event type that is the reserved name can lose a subscriber's row to a rule's effect: the first
    action of any rule under revision 1 and a subscriber of the same name claim one identity.
  */
  lemma SubscriptionNameCollides(tenant: string, event: string, partition: string, name: string, destination: string)
    ensures
      var env := Envelope(event, SUBSCRIPTION, tenant, partition, true);
      !IdsFree(Plan(env, 1, [Decided(name, 0, destination)], [name]), {})
  {
    hide ExecutionText, EffectText;
    var plan := Plan(Envelope(event, SUBSCRIPTION, tenant, partition, true), 1, [Decided(name, 0, destination)],
                     [name]);
    assert plan[0].key == plan[1].key;
    assert EffectId(plan[0]) == EffectId(plan[1]);
  }

  /** Names with a '|' can make two different events of two tenants claim one identity. */
  lemma BarredNamesCollide(kind: string, revision: int, d: Decided)
    ensures
      var first := Commit(0, 1, "w", Envelope("b|c", kind, "a", "p", true), revision, [d], [], map[]);
      var second := Commit(0, 1, "w", Envelope("c", kind, "a|b", "p", true), revision, [d], [], map[]);
      KeyIn(first) != KeyIn(second) && EffectId(PlanOf(first)[0]) == EffectId(PlanOf(second)[0])
  {
    hide ExecutionText, EffectText;
    EffectTextCollision(kind, revision, d.rule, d.index);
  }

  // ---------------------------------------------------------------- fencing

  lemma LeaseStepEvolves(s: State, a: Action, t: State)
    requires (a.LeaseAcquire? || a.LeaseRenew? || a.LeaseRelease?) && LeaseStep(s, a, t)
    ensures Evolves(s.leases, t.leases)
  {
    hide Unlocked, Acquired, Renewed, Released, Evolves, Touches;
    match a {
      case LeaseAcquire(shard, owner, at, ttl) => AcquireEvolves(s.leases, shard, owner, at, ttl);
      case LeaseRenew(shard, owner, token, at, ttl) => RenewEvolves(s.leases, shard, owner, token, at, ttl);
      case LeaseRelease(shard, owner, at) => ReleaseEvolves(s.leases, shard, owner, at);
    }
  }

  /** Only lease statements change lease rows. */
  lemma OthersKeepLeases(s: State, a: Action, t: State)
    requires Step(s, a, t) && !a.LeaseAcquire? && !a.LeaseRenew? && !a.LeaseRelease?
    ensures t.leases == s.leases
  {
    hide TaskStep, Crashed, Merged, CommitRecord, EntryFor, Settling, Fails, ExecutionText, LeaseStep;
  }

  lemma StepEvolves(s: State, a: Action, t: State)
    requires Step(s, a, t)
    ensures Evolves(s.leases, t.leases)
  {
    hide Local, Committing, Quarantining, LeaseStep, Crashed, Evolves;
    if a.LeaseAcquire? || a.LeaseRenew? || a.LeaseRelease? {
      LeaseStepEvolves(s, a, t);
    } else {
      OthersKeepLeases(s, a, t);
      Unevolved(s.leases);
    }
  }

  lemma Unevolved(rows: Rows)
    ensures Evolves(rows, rows)
  {
  }

  lemma {:induction false} LeasesOnlyEvolve(run: seq<State>, m: nat, n: nat)
    requires Run(run) && m <= n < |run|
    ensures Evolves(run[m].leases, run[n].leases)
    decreases n
  {
    hide Step, Init;
    if m < n {
      LeasesOnlyEvolve(run, m, n - 1);
      assert Next(run[n - 1], run[n - 1 + 1]);
      var a :| Step(run[n - 1], a, run[n]);
      StepEvolves(run[n - 1], a, run[n]);
      EvolvesTransitive(run[m].leases, run[n - 1].leases, run[n].leases);
    }
  }

  /**
    Once a token has been issued for a shard, no transaction with an older token commits there, and
    one with the same token is its owner's; AssertHeld may have read any clock value.
  */
  lemma StaleHolderNeverCommits(run: seq<State>, m: nat, n: nat, id: int, reported: bool, t: State)
    requires Run(run) && m <= n < |run| && Committing(run[n], id, reported, t)
    requires run[n].tasks[id].shard in run[m].leases
    ensures
      var task := run[n].tasks[id];
      var issued := run[m].leases[task.shard];
      issued.token <= task.token && (issued.token == task.token ==> issued.owner == task.worker)
  {
    hide Run, Merged, CommitRecord, LogOk, DbOk, LeasesOk, WritesOk, FreshOk, EvidenceOk, Apart, SettledOk;
    RunInv(run, n);
    assert TaskOk(run[n], run[n].tasks[id]);
    LeasesOnlyEvolve(run, m, n);
  }

  /** Commits on a shard happen in token order, and commits under one token are one worker's. */
  lemma CommitsInTokenOrder(run: seq<State>, n: nat, i: nat, j: nat)
    requires Run(run) && n < |run| && i <= j < |run[n].log| && run[n].log[i].shard == run[n].log[j].shard
    ensures run[n].log[i].token <= run[n].log[j].token
    ensures run[n].log[i].token == run[n].log[j].token ==> run[n].log[i].worker == run[n].log[j].worker
  {
    hide Run, OncePerEvent, RowsOk, InputsOk, DbOk, LeasesOk, TaskOk, Apart, SettledOk;
    RunInv(run, n);
  }

  /** While a transaction is past its assertion, no step of anybody changes its lease row. */
  lemma AssertedLeaseIsFrozen(run: seq<State>, n: nat, id: int)
    requires Run(run) && n + 1 < |run| && id in run[n].tasks && Locking(run[n].tasks[id].phase)
    ensures
      var shard := run[n].tasks[id].shard;
      shard in run[n].leases && shard in run[n + 1].leases && run[n + 1].leases[shard] == run[n].leases[shard]
  {
    hide Init, Inv, Step;
    RunInv(run, n);
    TaskIsOk(run[n], id);
    assert Next(run[n], run[n + 1]);
    var a :| Step(run[n], a, run[n + 1]);
    FrozenRow(run[n], a, run[n + 1], id);
  }

  lemma FrozenRow(s: State, a: Action, t: State, id: int)
    requires Step(s, a, t) && id in s.tasks && TaskOk(s, s.tasks[id]) && Locking(s.tasks[id].phase)
    ensures
      var shard := s.tasks[id].shard;
      shard in s.leases && shard in t.leases && t.leases[shard] == s.leases[shard]
  {
    hide TaskStep, Crashed, Acquired, Renewed, Released, Merged, CommitRecord, WritesOk, FreshOk, EvidenceOk;
    match a {
      case LeaseAcquire(shard, owner, at, ttl) => AcquireEvolves(s.leases, shard, owner, at, ttl);
      case LeaseRenew(shard, owner, token, at, ttl) => RenewEvolves(s.leases, shard, owner, token, at, ttl);
      case LeaseRelease(shard, owner, at) => ReleaseEvolves(s.leases, shard, owner, at);
      case _ =>
    }
  }

  // ---------------------------------------------------------------- settlement

  /** When a delivery is acked, its event already has a committed execution or a saved quarantine entry. */
  lemma AckHasEvidence(run: seq<State>, n: nat, id: int)
    requires Run(run) && n + 1 < |run| && id in run[n].tasks && id in run[n + 1].tasks
    requires !run[n].tasks[id].phase.Settled? && run[n + 1].tasks[id].phase == Settled(Ack)
    ensures Justified(run[n].log, run[n].stored, run[n].tasks[id].message)
  {
    hide Inv, Step, Init, Justified;
    RunInv(run, n);
    TaskIsOk(run[n], id);
    assert Next(run[n], run[n + 1]);
    var a :| Step(run[n], a, run[n + 1]);
    AckStep(run[n], a, run[n + 1], id);
  }

  /** A delivery's own step acks it only with an execution in hand or after the quarantine save. */
  lemma AckTaskStep(s: State, a: Action, id: int, t: Task, u: Task)
    requires TaskAction(a) && TaskStep(s, a, id, t, u) && u.phase == Settled(Ack)
    ensures t.phase.Entered? || (t.phase.Returned? && t.phase.outcome.Ok?)
  {
    hide ExecutionText, Plan, InsertedEffect, InboxFree, ExecutionFree, EffectFree, Finished, Assertion;
  }

  lemma AckJustified(s: State, t: Task)
    requires TaskOk(s, t) && (t.phase.Entered? || (t.phase.Returned? && t.phase.outcome.Ok?))
    ensures Justified(s.log, s.stored, t.message)
  {
    hide ExecutionText, Committed, Quarantined, Fill;
  }

  /** No step but a delivery's own acks it. */
  lemma AckIsLocal(s: State, a: Action, t: State, id: int)
    requires Step(s, a, t) && id in s.tasks && id in t.tasks
    requires !s.tasks[id].phase.Settled? && t.tasks[id].phase == Settled(Ack)
    ensures TaskAction(a) && a.id == id && TaskStep(s, a, id, s.tasks[id], t.tasks[id])
  {
    hide TaskStep, Unlocked, Acquired, Renewed, Released, Merged, CommitRecord, ExecutionText;
  }

  lemma AckStep(s: State, a: Action, t: State, id: int)
    requires Step(s, a, t) && id in s.tasks && id in t.tasks && TaskOk(s, s.tasks[id])
    requires !s.tasks[id].phase.Settled? && t.tasks[id].phase == Settled(Ack)
    ensures Justified(s.log, s.stored, s.tasks[id].message)
  {
    hide Step, TaskStep, TaskOk, Justified;
    AckIsLocal(s, a, t, id);
    AckTaskStep(s, a, id, s.tasks[id], t.tasks[id]);
    AckJustified(s, s.tasks[id]);
  }

  /**
    A transaction gets past the assertion only with the shard's current owner and positive token, and
    only if the lease had not run out when the transaction began.
  */
  lemma AssertedWasHeld(s: State, id: int, at: int, t: State)
    requires Step(s, AssertLease(id, at), t) && t.tasks[id].phase.Asserted?
    ensures id in s.tasks && s.tasks[id].shard in s.leases
    ensures
      var task, row := s.tasks[id], s.leases[s.tasks[id].shard];
      row.owner == task.worker && row.token == task.token && task.token > 0 && row.expires > at &&
      task.begun <= at <= s.now
  {
  }

  /**
    Whatever step follows a failed transaction, unless the worker crashes: an invalid envelope, a missing
    revision and a failed evaluation lead to the quarantine entry that names the event, or to a retry if
    it cannot be saved; every other error leads to a retry.
  */
  lemma FailureLeadsTo(s: State, a: Action, t: State, id: int, e: Error)
    requires Step(s, a, t) && id in s.tasks && s.tasks[id].phase == Returned(Failed(e)) && s.tasks[id].message.Parsed?
    requires a != Crash(s.tasks[id].worker)
    ensures id in t.tasks
    ensures t.tasks[id] == s.tasks[id] || t.tasks[id].phase == Settled(Retry) || t.tasks[id].phase == Entered
    ensures t.tasks[id].phase == Entered ==>
              (e.InvalidEnvelope? || e.RuleNotFound? || e.EvaluationFailed?) &&
              var env := s.tasks[id].message.env;
              Entry(env.tenant, env.id, env.id, if e.InvalidEnvelope? then Validation
                                                else if e.RuleNotFound? then Rule else Evaluation) in t.stored
    ensures t.tasks[id].phase == Settled(Retry) ==>
              a == SaveQuarantine(id, false) || !(e.InvalidEnvelope? || e.RuleNotFound? || e.EvaluationFailed?)
  {
    hide Local, ExecutionText, Unlocked, Acquired, Renewed, Released, Merged, CommitRecord, Settling;
    PermanentErrors(e);
    if TaskAction(a) {
      LocalOnFailed(s, a, t, id, e);
    }
  }

  lemma LocalOnFailed(s: State, a: Action, t: State, id: int, e: Error)
    requires TaskAction(a) && Local(s, a, a.id, t) && id in s.tasks && s.tasks[id].phase == Returned(Failed(e))
    ensures id in t.tasks
    ensures t.tasks[id] == s.tasks[id] || (t.tasks[id].phase == Settled(Retry) && !IsPermanent(e))
  {
    hide ExecutionText, Plan, InsertedEffect, InboxFree, ExecutionFree, EffectFree, Finished, Assertion, Settling;
  }

  /** Every delivery is settled at most once. */
  lemma SettledOnce(run: seq<State>, n: nat, i: nat, j: nat)
    requires Run(run) && n < |run| && i < |run[n].settled| && j < |run[n].settled|
    requires run[n].settled[i] == run[n].settled[j]
    ensures i == j
  {
    hide Run, LogOk, DbOk, LeasesOk, TaskOk, Apart;
    RunInv(run, n);
  }

  /** A delivery answered with an execution got the one its event committed, however often the event is redelivered. */
  lemma RedeliveryGetsTheExecution(run: seq<State>, n: nat, id: int)
    requires Run(run) && n < |run| && id in run[n].tasks
    requires run[n].tasks[id].phase.Returned? && run[n].tasks[id].phase.outcome.Ok?
    ensures
      var task := run[n].tasks[id];
      task.message.Parsed? && KeyOf(task.message.env) in run[n].db.inbox &&
      run[n].db.inbox[KeyOf(task.message.env)] == InboxRow(true, task.phase.outcome.execution)
  {
    hide Run, Inv, Committed;
    RunInv(run, n);
    TaskIsOk(run[n], id);
    InboxRecordsCommits(run, n, KeyOf(run[n].tasks[id].message.env), run[n].tasks[id].phase.outcome.execution);
  }
}
