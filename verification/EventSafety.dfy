/**
  The invariant of event processing and its preservation by every step.
*/
module EventSafety {
  import opened Identity
  import opened Leases
  import opened EventProtocol

  // ---------------------------------------------------------------- outbox rows of a transaction

  /** The rows that inserting the first `n` of a plan leaves, when `taken` are the identities already stored. */
  function Fill(plan: seq<Effect>, n: nat, taken: set<string>): map<string, Effect>
    requires n <= |plan|
  {
    if n == 0 then map[] else InsertedEffect(taken, Fill(plan, n - 1, taken), plan[n - 1])
  }

  /** Inserting adds exactly the identities of the plan that were free, each with a row of the plan. */
  lemma {:induction false} FillKeys(plan: seq<Effect>, n: nat, taken: set<string>, x: string)
    requires n <= |plan|
    ensures x in Fill(plan, n, taken) <==> x !in taken && exists i | 0 <= i < n :: EffectId(plan[i]) == x
    ensures x in Fill(plan, n, taken) ==> exists i | 0 <= i < n :: plan[i] == Fill(plan, n, taken)[x]
    ensures x in Fill(plan, n, taken) ==> EffectId(Fill(plan, n, taken)[x]) == x
  {
    hide EffectId;
    if n > 0 {
      FillKeys(plan, n - 1, taken, x);
      var e := plan[n - 1];
      if EffectId(e) == x && x !in taken && x !in Fill(plan, n - 1, taken) {
        assert Fill(plan, n, taken)[x] == plan[n - 1];
      }
    }
  }

  /** A row whose identity nobody earlier in the plan shares is stored as planned. */
  lemma {:induction false} FillStores(plan: seq<Effect>, n: nat, taken: set<string>, i: nat)
    requires i < n <= |plan|
    requires EffectId(plan[i]) !in taken && forall j | 0 <= j < i :: EffectId(plan[j]) != EffectId(plan[i])
    ensures EffectId(plan[i]) in Fill(plan, n, taken) && Fill(plan, n, taken)[EffectId(plan[i])] == plan[i]
    decreases n
  {
    hide EffectId;
    if i < n - 1 {
      FillStores(plan, n - 1, taken, i);
    } else {
      FillKeys(plan, n - 1, taken, EffectId(plan[i]));
    }
  }

  /** Identities stored by others do not matter while the plan avoids them. */
  lemma {:induction false} FillStable(plan: seq<Effect>, n: nat, taken: set<string>, more: set<string>)
    requires n <= |plan|
    requires forall x | x in Fill(plan, n, taken) :: x !in more
    requires taken !! more
    ensures Fill(plan, n, taken + more) == Fill(plan, n, taken)
  {
    hide EffectId;
    if n > 0 {
      assert forall y | y in Fill(plan, n - 1, taken) :: y in Fill(plan, n, taken);
      FillStable(plan, n - 1, taken, more);
    }
  }

  // ---------------------------------------------------------------- the log against the tables

  function PlanOf(c: Commit): seq<Effect> {
    Plan(c.env, c.revision, c.decision, c.subscribers)
  }

  function KeyIn(c: Commit): Key {
    KeyOf(c.env)
  }

  function ExecutionIn(c: Commit): ExecutionKey {
    ExecutionOf(c.env, c.revision)
  }

  function TextIn(c: Commit): string {
    ExecutionText(ExecutionIn(c))
  }

  /** Transaction `k` of the log committed the given execution for the given event. */
  predicate CommittedAt(log: seq<Commit>, k: Key, x: string, i: int) {
    0 <= i < |log| && KeyIn(log[i]) == k && TextIn(log[i]) == x
  }

  ghost predicate Committed(log: seq<Commit>, k: Key, x: string) {
    exists i :: CommittedAt(log, k, x, i)
  }

  /** No two transactions committed the same event. */
  ghost predicate OncePerEvent(log: seq<Commit>) {
    forall i, j | 0 <= i < j < |log| :: KeyIn(log[i]) != KeyIn(log[j])
  }

  ghost predicate InboxOk(inbox: map<Key, InboxRow>, log: seq<Commit>) {
    (forall k | k in inbox :: inbox[k].committed && Committed(log, k, inbox[k].execution)) &&
    (forall i | 0 <= i < |log| :: KeyIn(log[i]) in inbox && inbox[KeyIn(log[i])] == InboxRow(true, TextIn(log[i])))
  }

  ghost predicate ExecutionsOk(executions: map<string, ExecutionKey>, log: seq<Commit>) {
    (forall i | 0 <= i < |log| :: TextIn(log[i]) in executions) &&
    (forall x | x in executions :: ExecutionText(executions[x]) == x &&
      Committed(log, Key(executions[x].tenant, executions[x].event), x))
  }

  /** The rows of all transactions of a log. */
  function AllRows(log: seq<Commit>): map<string, Effect> {
    if log == [] then map[] else AllRows(log[..|log| - 1]) + log[|log| - 1].rows
  }

  /** Each transaction stored its whole plan, less the identities that were taken. */
  ghost predicate RowsOk(log: seq<Commit>) {
    forall i | 0 <= i < |log| :: RowsAt(log, i)
  }

  ghost predicate RowsAt(log: seq<Commit>, i: int)
    requires 0 <= i < |log|
  {
    log[i].rows == Fill(PlanOf(log[i]), |PlanOf(log[i])|, AllRows(log[..i]).Keys)
  }

  ghost predicate InputsOk(log: seq<Commit>) {
    forall i | 0 <= i < |log| ::
      ValidEnvelope(log[i].env) && DistinctSources(log[i].decision) && Distinct(log[i].subscribers) &&
      |log[i].subscribers| <= FANOUT_LIMIT
  }

  /** Commits of a shard come in token order, and a token has one owner. */
  ghost predicate Fenced(log: seq<Commit>) {
    forall i, j | 0 <= i < j < |log| && log[i].shard == log[j].shard ::
      log[i].token <= log[j].token && (log[i].token == log[j].token ==> log[i].worker == log[j].worker)
  }

  /** No lease row is behind a commit of its shard. */
  ghost predicate LeasesOk(leases: Rows, log: seq<Commit>) {
    forall i | 0 <= i < |log| ::
      log[i].shard in leases && log[i].token <= leases[log[i].shard].token &&
      (log[i].token == leases[log[i].shard].token ==> log[i].worker == leases[log[i].shard].owner)
  }

  // ---------------------------------------------------------------- one delivery

  ghost predicate ShapeOk(t: Task) {
    (t.phase.Queued? || Open(t.phase) || (t.phase.Returned? && t.phase.outcome.Ok?) ==> t.message.Parsed?) &&
    (Open(t.phase) && t.message.Parsed? ==> ValidEnvelope(t.message.env)) &&
    (t.phase.Evaluated? || t.phase.Saved? || t.phase.Filling? || t.phase.Marked? ==>
       DistinctSources(t.phase.decision)) &&
    (t.phase.Filling? || t.phase.Marked? ==> Distinct(t.phase.subscribers) && |t.phase.subscribers| <= FANOUT_LIMIT) &&
    (t.phase.Filling? ==> t.phase.next <= |t.phase.decision| + |t.phase.subscribers|)
  }

  ghost predicate LockOk(leases: Rows, t: Task) {
    Locking(t.phase) ==> t.shard in leases && leases[t.shard].owner == t.worker && leases[t.shard].token == t.token
  }

  function InboxWrites(t: Task): map<Key, InboxRow>
    requires t.message.Parsed?
  {
    if t.phase.Marked? then
      map[KeyOf(t.message.env) := InboxRow(true, ExecutionText(ExecutionOf(t.message.env, t.phase.revision)))]
    else if t.phase.Inserted? || t.phase.Activated? || t.phase.Loaded? || t.phase.Evaluated? || t.phase.Saved? ||
            t.phase.Filling?
    then map[KeyOf(t.message.env) := InboxRow(false, "")]
    else map[]
  }

  function ExecutionWrites(t: Task): map<string, ExecutionKey>
    requires t.message.Parsed?
  {
    if t.phase.Saved? || t.phase.Filling? || t.phase.Marked? then
      map[ExecutionText(ExecutionOf(t.message.env, t.phase.revision)) := ExecutionOf(t.message.env, t.phase.revision)]
    else map[]
  }

  function TaskPlan(t: Task): seq<Effect>
    requires t.message.Parsed? && (t.phase.Filling? || t.phase.Marked?)
  {
    Plan(t.message.env, t.phase.revision, t.phase.decision, t.phase.subscribers)
  }

  function OutboxWrites(t: Task, taken: set<string>): map<string, Effect>
    requires t.message.Parsed? && ShapeOk(t)
  {
    if t.phase.Filling? then Fill(TaskPlan(t), t.phase.next, taken)
    else if t.phase.Marked? then Fill(TaskPlan(t), |TaskPlan(t)|, taken)
    else map[]
  }

  /** A transaction's uncommitted writes are those its phase says. */
  ghost predicate WritesOk(taken: set<string>, t: Task) {
    ShapeOk(t) &&
    if t.message.Parsed? then
      t.writes == Tables(InboxWrites(t), ExecutionWrites(t), OutboxWrites(t, taken))
    else t.writes == NOTHING
  }

  ghost predicate FreshOk(inbox: map<Key, InboxRow>, t: Task) {
    forall k | k in t.writes.inbox :: k !in inbox
  }

  /** Why the delivery may have been answered the way it was. */
  ghost predicate EvidenceOk(log: seq<Commit>, stored: set<Entry>, t: Task) {
    (t.phase.Returned? && t.phase.outcome.Ok? && t.message.Parsed? ==>
       Committed(log, KeyOf(t.message.env), t.phase.outcome.execution)) &&
    (t.phase.Entered? ==> Quarantined(stored, t.message)) &&
    (t.phase.Settled? && t.phase.how.Ack? ==> Justified(log, stored, t.message))
  }

  /** The message has a committed execution or a saved quarantine entry. */
  ghost predicate Justified(log: seq<Commit>, stored: set<Entry>, m: Message) {
    Quarantined(stored, m) || (m.Parsed? && exists x :: Committed(log, KeyOf(m.env), x))
  }

  /** Two transactions' uncommitted rows do not meet. */
  ghost predicate ApartPair(t: Task, u: Task) {
    (forall k | k in t.writes.inbox :: k !in u.writes.inbox) &&
    (forall x | x in t.writes.outbox :: x !in u.writes.outbox)
  }

  ghost predicate TaskOk(s: State, t: Task) {
    LockOk(s.leases, t) && WritesOk(s.db.outbox.Keys, t) && FreshOk(s.db.inbox, t) && EvidenceOk(s.log, s.stored, t)
  }

  ghost predicate Apart(tasks: map<int, Task>) {
    forall i, j | i in tasks && j in tasks && i != j :: ApartPair(tasks[i], tasks[j])
  }

  ghost predicate SettledOk(settled: seq<int>, tasks: map<int, Task>) {
    (forall i, j | 0 <= i < j < |settled| :: settled[i] != settled[j]) &&
    (forall i | 0 <= i < |settled| :: settled[i] in tasks && tasks[settled[i]].phase.Settled?)
  }

  ghost predicate LogOk(log: seq<Commit>) {
    OncePerEvent(log) && RowsOk(log) && InputsOk(log) && Fenced(log)
  }

  ghost predicate DbOk(db: Tables, log: seq<Commit>) {
    InboxOk(db.inbox, log) && ExecutionsOk(db.executions, log) && db.outbox == AllRows(log)
  }

  ghost predicate Inv(s: State) {
    LogOk(s.log) && DbOk(s.db, s.log) && LeasesOk(s.leases, s.log) &&
    (forall id | id in s.tasks :: TaskOk(s, s.tasks[id])) && Apart(s.tasks) && SettledOk(s.settled, s.tasks)
  }

  // ---------------------------------------------------------------- a delivery's own step

  /** An event that has no inbox row has no execution row either, under any revision. */
  lemma NoExecutionYet(db: Tables, log: seq<Commit>, x: ExecutionKey)
    requires InboxOk(db.inbox, log) && ExecutionsOk(db.executions, log)
    requires Key(x.tenant, x.event) !in db.inbox
    ensures ExecutionText(x) !in db.executions
  {
    hide ExecutionText;
    if ExecutionText(x) in db.executions {
      ExecutionTextInjective(db.executions[ExecutionText(x)], x);
    }
  }

  lemma StepLock(s: State, a: Action, id: int, t: Task, u: Task)
    requires TaskAction(a) && TaskStep(s, a, id, t, u) && LockOk(s.leases, t)
    ensures LockOk(s.leases, u)
  {
    hide ExecutionText, Plan, InsertedEffect, InboxFree, ExecutionFree, EffectFree;
  }

  lemma FillingWrites(s: State, a: Action, id: int, t: Task, u: Task)
    requires TaskAction(a) && TaskStep(s, a, id, t, u) && WritesOk(s.db.outbox.Keys, t)
    requires a.InsertEffect? || a.MarkCommitted? || a.ListSubscribers?
    ensures WritesOk(s.db.outbox.Keys, u)
  {
    hide ExecutionText, InsertedEffect, InboxFree, ExecutionFree, EffectFree;
  }

  lemma SaveWrites(s: State, a: Action, id: int, t: Task, u: Task)
    requires TaskAction(a) && TaskStep(s, a, id, t, u)
    requires WritesOk(s.db.outbox.Keys, t) && FreshOk(s.db.inbox, t)
    requires InboxOk(s.db.inbox, s.log) && ExecutionsOk(s.db.executions, s.log)
    requires a.SaveExecution?
    ensures WritesOk(s.db.outbox.Keys, u)
  {
    hide ExecutionText, Fill, InboxFree, ExecutionFree, EffectFree, InboxOk, ExecutionsOk;
    NoExecutionYet(s.db, s.log, ExecutionOf(t.message.env, t.phase.revision));
  }

  lemma RuleWrites(s: State, a: Action, id: int, t: Task, u: Task)
    requires TaskAction(a) && TaskStep(s, a, id, t, u) && WritesOk(s.db.outbox.Keys, t)
    requires a.InsertInbox? || a.ReadAgain? || a.LoadActivation? || a.LoadRevision? || a.Evaluate?
    ensures WritesOk(s.db.outbox.Keys, u)
  {
    hide ExecutionText, Fill, Plan, TaskPlan, InsertedEffect, InboxFree, ExecutionFree, EffectFree;
  }

  lemma OuterWrites(s: State, a: Action, id: int, t: Task, u: Task)
    requires TaskAction(a) && TaskStep(s, a, id, t, u) && WritesOk(s.db.outbox.Keys, t)
    requires a.Submit? || a.Reject? || a.Begin? || a.AssertLease? || a.ReadInbox? || a.StatementFails? || a.Settle?
    ensures WritesOk(s.db.outbox.Keys, u)
  {
    hide ExecutionText, Fill, Plan, TaskPlan, InsertedEffect, InboxFree, ExecutionFree, EffectFree;
  }

  lemma StepWrites(s: State, a: Action, id: int, t: Task, u: Task)
    requires TaskAction(a) && TaskStep(s, a, id, t, u)
    requires WritesOk(s.db.outbox.Keys, t) && FreshOk(s.db.inbox, t)
    requires InboxOk(s.db.inbox, s.log) && ExecutionsOk(s.db.executions, s.log)
    ensures WritesOk(s.db.outbox.Keys, u)
  {
    hide TaskStep, WritesOk, FreshOk, InboxOk, ExecutionsOk;
    if a.InsertEffect? || a.MarkCommitted? || a.ListSubscribers? {
      FillingWrites(s, a, id, t, u);
    } else if a.SaveExecution? {
      SaveWrites(s, a, id, t, u);
    } else if a.InsertInbox? || a.ReadAgain? || a.LoadActivation? || a.LoadRevision? || a.Evaluate? {
      RuleWrites(s, a, id, t, u);
    } else {
      OuterWrites(s, a, id, t, u);
    }
  }

  lemma StepFresh(s: State, a: Action, id: int, t: Task, u: Task)
    requires TaskAction(a) && TaskStep(s, a, id, t, u) && FreshOk(s.db.inbox, t)
    ensures FreshOk(s.db.inbox, u)
  {
    hide ExecutionText, Plan, InsertedEffect, InboxFree, ExecutionFree, EffectFree;
  }

  lemma StepEvidence(s: State, a: Action, id: int, t: Task, u: Task)
    requires TaskAction(a) && TaskStep(s, a, id, t, u) && EvidenceOk(s.log, s.stored, t) && ShapeOk(t)
    requires InboxOk(s.db.inbox, s.log)
    ensures EvidenceOk(s.log, s.stored, u)
  {
    hide ExecutionText, Plan, InsertedEffect, InboxFree, ExecutionFree, EffectFree, Committed, Quarantined;
  }

  lemma StepApart(s: State, a: Action, id: int, t: Task, u: Task, o: int)
    requires TaskAction(a) && TaskStep(s, a, id, t, u)
    requires o in s.tasks && o != id && ApartPair(t, s.tasks[o]) && ApartPair(s.tasks[o], t)
    ensures ApartPair(u, s.tasks[o]) && ApartPair(s.tasks[o], u)
  {
    hide ExecutionText, Plan, EffectId;
  }

  // ---------------------------------------------------------------- a commit and the log

  lemma CommittedGrows(log: seq<Commit>, c: Commit, k: Key, x: string)
    requires Committed(log, k, x)
    ensures Committed(log + [c], k, x)
  {
    hide KeyIn, TextIn;
    var i :| CommittedAt(log, k, x, i);
    assert CommittedAt(log + [c], k, x, i);
  }

  lemma AppendOnce(inbox: map<Key, InboxRow>, log: seq<Commit>, c: Commit)
    requires OncePerEvent(log) && InboxOk(inbox, log) && KeyIn(c) !in inbox
    ensures OncePerEvent(log + [c])
  {
    hide KeyIn, TextIn, Committed;
  }

  lemma AppendInbox(inbox: map<Key, InboxRow>, log: seq<Commit>, c: Commit)
    requires InboxOk(inbox, log) && KeyIn(c) !in inbox
    ensures InboxOk(inbox + map[KeyIn(c) := InboxRow(true, TextIn(c))], log + [c])
  {
    hide KeyIn, TextIn, Committed;
    var after := inbox + map[KeyIn(c) := InboxRow(true, TextIn(c))];
    forall k | k in after
      ensures after[k].committed && Committed(log + [c], k, after[k].execution)
    {
      if k == KeyIn(c) {
        NewCommit(log, c);
      } else {
        CommittedGrows(log, c, k, inbox[k].execution);
      }
    }
  }

  lemma NewCommit(log: seq<Commit>, c: Commit)
    ensures Committed(log + [c], KeyIn(c), TextIn(c))
  {
    assert CommittedAt(log + [c], KeyIn(c), TextIn(c), |log|);
  }

  lemma AppendExecutions(executions: map<string, ExecutionKey>, log: seq<Commit>, c: Commit)
    requires ExecutionsOk(executions, log)
    ensures ExecutionsOk(executions + map[TextIn(c) := ExecutionIn(c)], log + [c])
  {
    hide KeyIn, Committed, ExecutionText, ExecutionIn, TextIn;
    TextOfExecution(c);
    var after := executions + map[TextIn(c) := ExecutionIn(c)];
    forall x | x in after
      ensures ExecutionText(after[x]) == x && Committed(log + [c], Key(after[x].tenant, after[x].event), x)
    {
      if x == TextIn(c) {
        NewCommit(log, c);
        KeyOfExecution(c);
      } else {
        CommittedGrows(log, c, Key(after[x].tenant, after[x].event), x);
      }
    }
  }

  lemma TextOfExecution(c: Commit)
    ensures ExecutionText(ExecutionIn(c)) == TextIn(c)
  {
  }

  lemma KeyOfExecution(c: Commit)
    ensures Key(ExecutionIn(c).tenant, ExecutionIn(c).event) == KeyIn(c)
  {
  }

  lemma AppendRows(log: seq<Commit>, c: Commit)
    requires RowsOk(log) && c.rows == Fill(PlanOf(c), |PlanOf(c)|, AllRows(log).Keys)
    ensures RowsOk(log + [c]) && AllRows(log + [c]) == AllRows(log) + c.rows
  {
    hide Fill, PlanOf;
    var after := log + [c];
    assert after[..|log|] == log;
    forall i | 0 <= i < |after|
      ensures RowsAt(after, i)
    {
      if i < |log| {
        assert RowsAt(log, i);
        assert after[..i] == log[..i];
      }
    }
  }

  lemma AppendFenced(leases: Rows, log: seq<Commit>, c: Commit)
    requires Fenced(log) && LeasesOk(leases, log)
    requires c.shard in leases && leases[c.shard].token == c.token && leases[c.shard].owner == c.worker
    ensures Fenced(log + [c]) && LeasesOk(leases, log + [c])
  {
  }

  /** What the committing transaction's invariant says about its record. */
  lemma RecordFacts(s: State, t: Task)
    requires t.phase.Marked? && t.message.Parsed? && TaskOk(s, t)
    ensures
      var c := CommitRecord(t);
      KeyIn(c) !in s.db.inbox && t.writes.inbox == map[KeyIn(c) := InboxRow(true, TextIn(c))] &&
      t.writes.executions == map[TextIn(c) := ExecutionIn(c)] &&
      t.writes.outbox == c.rows == Fill(PlanOf(c), |PlanOf(c)|, s.db.outbox.Keys) &&
      c.shard in s.leases && s.leases[c.shard].token == c.token && s.leases[c.shard].owner == c.worker &&
      ValidEnvelope(c.env) && DistinctSources(c.decision) && Distinct(c.subscribers) && |c.subscribers| <= FANOUT_LIMIT
  {
    hide ExecutionText, Fill, Plan, DistinctSources, Distinct, EvidenceOk;
    assert KeyOf(t.message.env) in t.writes.inbox;
  }

  lemma CommitKeepsLog(s: State, t: Task)
    requires LogOk(s.log) && DbOk(s.db, s.log) && LeasesOk(s.leases, s.log)
    requires t.phase.Marked? && t.message.Parsed? && TaskOk(s, t)
    ensures
      var log := s.log + [CommitRecord(t)];
      LogOk(log) && DbOk(Merged(s.db, t.writes), log) && LeasesOk(s.leases, log)
  {
    hide TaskOk, CommitRecord, OncePerEvent, RowsOk, Fenced, LeasesOk, InboxOk, ExecutionsOk, AllRows, Fill, PlanOf,
         DistinctSources, Distinct, ValidEnvelope;
    var c := CommitRecord(t);
    RecordFacts(s, t);
    AppendOnce(s.db.inbox, s.log, c);
    AppendInbox(s.db.inbox, s.log, c);
    AppendExecutions(s.db.executions, s.log, c);
    AppendRows(s.log, c);
    AppendFenced(s.leases, s.log, c);
  }

  // ---------------------------------------------------------------- the other deliveries

  lemma EvidenceGrows(log: seq<Commit>, c: Commit, stored: set<Entry>, t: Task)
    requires EvidenceOk(log, stored, t)
    ensures EvidenceOk(log + [c], stored, t)
  {
    hide Committed, Quarantined;
    if t.message.Parsed? {
      forall x | Committed(log, KeyOf(t.message.env), x)
        ensures Committed(log + [c], KeyOf(t.message.env), x)
      {
        CommittedGrows(log, c, KeyOf(t.message.env), x);
      }
    }
  }

  lemma StoredGrows(log: seq<Commit>, stored: set<Entry>, more: set<Entry>, t: Task)
    requires EvidenceOk(log, stored, t)
    ensures EvidenceOk(log, stored + more, t)
  {
    hide Committed;
    assert Quarantined(stored, t.message) ==> Quarantined(stored + more, t.message);
  }

  /** Rows committed by another transaction do not disturb this one's writes. */
  lemma WritesUndisturbed(taken: set<string>, more: set<string>, t: Task)
    requires WritesOk(taken, t) && taken !! more
    requires forall x | x in t.writes.outbox :: x !in more
    ensures WritesOk(taken + more, t)
  {
    hide ExecutionText, Fill, Plan;
    if t.message.Parsed? && t.phase.Filling? {
      FillStable(TaskPlan(t), t.phase.next, taken, more);
    } else if t.message.Parsed? && t.phase.Marked? {
      FillStable(TaskPlan(t), |TaskPlan(t)|, taken, more);
    }
  }

  lemma FillAvoids(plan: seq<Effect>, n: nat, taken: set<string>)
    requires n <= |plan|
    ensures taken !! Fill(plan, n, taken).Keys
  {
    hide Fill, EffectId;
    forall x | x in Fill(plan, n, taken)
      ensures x !in taken
    {
      FillKeys(plan, n, taken, x);
    }
  }

  lemma OtherAfterCommit(s: State, t: Task, o: Task)
    requires t.phase.Marked? && t.message.Parsed? && TaskOk(s, t) && TaskOk(s, o)
    requires ApartPair(o, t)
    ensures
      var db := Merged(s.db, t.writes);
      LockOk(s.leases, o) && WritesOk(db.outbox.Keys, o) && FreshOk(db.inbox, o) &&
      EvidenceOk(s.log + [CommitRecord(t)], s.stored, o)
  {
    hide Fill, WritesOk, EvidenceOk, CommitRecord, PlanOf, LockOk;
    var c := CommitRecord(t);
    RecordFacts(s, t);
    FillAvoids(PlanOf(c), |PlanOf(c)|, s.db.outbox.Keys);
    WritesUndisturbed(s.db.outbox.Keys, t.writes.outbox.Keys, o);
    assert Merged(s.db, t.writes).outbox.Keys == s.db.outbox.Keys + t.writes.outbox.Keys;
    EvidenceGrows(s.log, c, s.stored, o);
  }

  // ---------------------------------------------------------------- every step

  lemma NotFromSettled(s: State, a: Action, id: int, t: Task, u: Task)
    requires TaskAction(a) && TaskStep(s, a, id, t, u)
    ensures !t.phase.Settled?
  {
    hide ExecutionText, Plan, InsertedEffect, InboxFree, ExecutionFree, EffectFree, Assertion, Finished;
  }

  lemma SettledMoves(settled: seq<int>, tasks: map<int, Task>, id: int, u: Task)
    requires SettledOk(settled, tasks) && id in tasks && !tasks[id].phase.Settled?
    ensures SettledOk(Settling(settled, id, tasks[id], u), tasks[id := u])
  {
  }

  lemma ApartMoves(tasks: map<int, Task>, id: int, u: Task)
    requires Apart(tasks) && id in tasks
    requires forall o | o in tasks && o != id :: ApartPair(u, tasks[o]) && ApartPair(tasks[o], u)
    ensures Apart(tasks[id := u])
  {
    hide ApartPair;
  }

  lemma ApartIdle(tasks: map<int, Task>, id: int, u: Task)
    requires Apart(tasks) && u.writes == NOTHING
    ensures Apart(tasks[id := u])
  {
  }

  lemma LocalKeeps(s: State, a: Action, id: int, t: State)
    requires Inv(s) && TaskAction(a) && Local(s, a, id, t)
    ensures Inv(t)
  {
    hide LogOk, InboxOk, ExecutionsOk, AllRows, LeasesOk, LockOk, WritesOk, FreshOk, EvidenceOk, Apart, ApartPair,
         SettledOk, TaskStep, Settling;
    var was, now := s.tasks[id], t.tasks[id];
    ShapeFrom(s, was);
    StepLock(s, a, id, was, now);
    StepWrites(s, a, id, was, now);
    StepFresh(s, a, id, was, now);
    StepEvidence(s, a, id, was, now);
    NotFromSettled(s, a, id, was, now);
    SettledMoves(s.settled, s.tasks, id, now);
    forall o | o in s.tasks && o != id
      ensures ApartPair(now, s.tasks[o]) && ApartPair(s.tasks[o], now)
    {
      ApartAt(s.tasks, id, o);
      StepApart(s, a, id, was, now, o);
    }
    ApartMoves(s.tasks, id, now);
  }

  lemma ShapeFrom(s: State, t: Task)
    requires TaskOk(s, t)
    ensures ShapeOk(t)
  {
  }

  lemma ApartAt(tasks: map<int, Task>, i: int, j: int)
    requires Apart(tasks) && i in tasks && j in tasks && i != j
    ensures ApartPair(tasks[i], tasks[j]) && ApartPair(tasks[j], tasks[i])
  {
  }

  /** A delivery without an open transaction, nothing claimed for it. */
  lemma IdleOk(s: State, t: Task)
    requires ShapeOk(t) && !Open(t.phase) && t.writes == NOTHING && EvidenceOk(s.log, s.stored, t)
    ensures TaskOk(s, t)
  {
    hide EvidenceOk, ExecutionText, Plan, Fill;
  }

  lemma CommitKeeps(s: State, id: int, reported: bool, t: State)
    requires Inv(s) && Committing(s, id, reported, t)
    ensures Inv(t)
  {
    hide LogOk, DbOk, LeasesOk, LockOk, WritesOk, FreshOk, EvidenceOk, Apart, ApartPair, SettledOk, Merged,
         CommitRecord, TaskOk;
    var task := s.tasks[id];
    CommitKeepsLog(s, task);
    CommittedTaskOk(s, id, reported, t);
    forall o | o in s.tasks && o != id
      ensures TaskOk(t, s.tasks[o])
    {
      ApartAt(s.tasks, o, id);
      OtherAfterCommit(s, task, s.tasks[o]);
      TaskFrom(t, s.tasks[o]);
    }
    ApartIdle(s.tasks, id, t.tasks[id]);
    SettledMoves(s.settled, s.tasks, id, t.tasks[id]);
  }

  lemma TaskFrom(s: State, t: Task)
    requires LockOk(s.leases, t) && WritesOk(s.db.outbox.Keys, t) && FreshOk(s.db.inbox, t) &&
             EvidenceOk(s.log, s.stored, t)
    ensures TaskOk(s, t)
  {
  }

  lemma CommittedTaskOk(s: State, id: int, reported: bool, t: State)
    requires Inv(s) && Committing(s, id, reported, t)
    ensures TaskOk(t, t.tasks[id]) && t.tasks[id].writes == NOTHING && !t.tasks[id].phase.Settled?
  {
    hide LogOk, DbOk, LeasesOk, LockOk, WritesOk, FreshOk, Apart, SettledOk, Merged, Committed, TaskOk, ExecutionText;
    NewCommit(s.log, CommitRecord(s.tasks[id]));
    IdleOk(t, t.tasks[id]);
  }

  lemma QuarantineKeeps(s: State, id: int, ok: bool, t: State)
    requires Inv(s) && Quarantining(s, id, ok, t)
    ensures Inv(t)
  {
    hide LogOk, DbOk, LeasesOk, LockOk, WritesOk, FreshOk, EvidenceOk, Apart, ApartPair, SettledOk;
    QuarantinedTaskOk(s, id, ok, t);
    if ok {
      forall o | o in s.tasks && o != id
        ensures TaskOk(t, s.tasks[o])
      {
        StoredGrows(s.log, s.stored, t.stored - s.stored, s.tasks[o]);
        assert s.stored + (t.stored - s.stored) == t.stored;
      }
    }
    ApartIdle(s.tasks, id, t.tasks[id]);
    SettledMoves(s.settled, s.tasks, id, t.tasks[id]);
  }

  lemma QuarantinedTaskOk(s: State, id: int, ok: bool, t: State)
    requires Inv(s) && Quarantining(s, id, ok, t)
    ensures TaskOk(t, t.tasks[id]) && t.tasks[id].writes == NOTHING && !s.tasks[id].phase.Settled?
    ensures t.settled == Settling(s.settled, id, s.tasks[id], t.tasks[id])
  {
    hide LogOk, DbOk, LeasesOk, LockOk, FreshOk, Apart, SettledOk, Committed, ExecutionText, Fill;
    assert TaskOk(s, s.tasks[id]);
    IdleOk(t, t.tasks[id]);
  }

  lemma LeaseKeeps(s: State, a: Action, t: State)
    requires Inv(s) && (a.LeaseAcquire? || a.LeaseRenew? || a.LeaseRelease?) && LeaseStep(s, a, t)
    ensures Inv(t) && Evolves(s.leases, t.leases)
  {
    hide LogOk, DbOk, LeasesOk, LockOk, WritesOk, FreshOk, EvidenceOk, Apart, SettledOk, Evolves, Touches, Unlocked,
         Acquired, Renewed, Released;
    match a {
      case LeaseAcquire(shard, owner, at, ttl) => AcquireEvolves(s.leases, shard, owner, at, ttl);
      case LeaseRenew(shard, owner, token, at, ttl) => RenewEvolves(s.leases, shard, owner, token, at, ttl);
      case LeaseRelease(shard, owner, at) => ReleaseEvolves(s.leases, shard, owner, at);
    }
    LeasesEvolve(s.leases, t.leases, s.log);
    forall id | id in s.tasks
      ensures TaskOk(t, s.tasks[id])
    {
      assert TaskOk(s, s.tasks[id]);
      LockUntouched(s.leases, t.leases, s.tasks, a.shard, id);
    }
  }

  lemma LeasesEvolve(leases: Rows, later: Rows, log: seq<Commit>)
    requires LeasesOk(leases, log) && Evolves(leases, later)
    ensures LeasesOk(later, log)
  {
    forall i | 0 <= i < |log|
      ensures log[i].shard in later && log[i].token <= later[log[i].shard].token
      ensures log[i].token == later[log[i].shard].token ==> log[i].worker == later[log[i].shard].owner
    {
      assert log[i].shard in leases;
    }
  }

  lemma LockUntouched(leases: Rows, later: Rows, tasks: map<int, Task>, shard: int, id: int)
    requires Touches(leases, later, shard) && Unlocked(tasks, shard) && id in tasks && LockOk(leases, tasks[id])
    ensures LockOk(later, tasks[id])
  {
  }

  lemma DeliverKeeps(s: State, id: int, worker: string, message: Message, t: State)
    requires Inv(s) && Step(s, Deliver(id, worker, message), t)
    ensures Inv(t)
  {
    hide LogOk, DbOk, LeasesOk, LockOk, WritesOk, FreshOk, Apart, SettledOk;
    IdleOk(t, t.tasks[id]);
    ApartIdle(s.tasks, id, t.tasks[id]);
    SettledDelivered(s.settled, s.tasks, id, t.tasks[id]);
  }

  lemma SettledDelivered(settled: seq<int>, tasks: map<int, Task>, id: int, u: Task)
    requires SettledOk(settled, tasks) && id !in tasks
    ensures SettledOk(settled, tasks[id := u])
  {
  }

  lemma CrashKeeps(s: State, worker: string, t: State)
    requires Inv(s) && Step(s, Crash(worker), t)
    ensures Inv(t)
  {
    hide LogOk, DbOk, LeasesOk, LockOk, WritesOk, FreshOk, EvidenceOk;
    forall id | id in t.tasks
      ensures TaskOk(t, t.tasks[id])
    {
      assert TaskOk(s, s.tasks[id]);
      CrashedOk(s, s.tasks[id], worker);
    }
    CrashedApart(s.tasks, t.tasks, worker);
    CrashedSettled(s.settled, s.tasks, t.tasks, worker);
  }

  lemma CrashedOk(s: State, t: Task, worker: string)
    requires TaskOk(s, t)
    ensures TaskOk(s, Crashed(t, worker))
  {
    hide Committed, ExecutionText, Fill;
    if t.worker == worker && !t.phase.Settled? {
      IdleOk(s, Crashed(t, worker));
    }
  }

  lemma CrashedApart(tasks: map<int, Task>, later: map<int, Task>, worker: string)
    requires Apart(tasks) && later == map id | id in tasks :: Crashed(tasks[id], worker)
    ensures Apart(later)
  {
    forall i, j | i in later && j in later && i != j
      ensures ApartPair(later[i], later[j])
    {
      assert ApartPair(tasks[i], tasks[j]);
    }
  }

  lemma CrashedSettled(settled: seq<int>, tasks: map<int, Task>, later: map<int, Task>, worker: string)
    requires SettledOk(settled, tasks) && later == map id | id in tasks :: Crashed(tasks[id], worker)
    ensures SettledOk(settled, later)
  {
  }

  lemma StepKeepsInv(s: State, a: Action, t: State)
    requires Inv(s) && Step(s, a, t)
    ensures Inv(t)
  {
    hide Inv, Local, Committing, Quarantining, LeaseStep, Crashed;
    match a {
      case Tick(_) => ClockKeeps(s, t);
      case ChangeRules(_) => ClockKeeps(s, t);
      case OperatorDeletes(_) => ClockKeeps(s, t);
      case LeaseAcquire(_, _, _, _) => LeaseKeeps(s, a, t);
      case LeaseRenew(_, _, _, _, _) => LeaseKeeps(s, a, t);
      case LeaseRelease(_, _, _) => LeaseKeeps(s, a, t);
      case Deliver(id, worker, message) => DeliverKeeps(s, id, worker, message, t);
      case Crash(worker) => CrashKeeps(s, worker, t);
      case CommitTransaction(id, reported) => CommitKeeps(s, id, reported, t);
      case SaveQuarantine(id, ok) => QuarantineKeeps(s, id, ok, t);
      case _ => LocalKeeps(s, a, a.id, t);
    }
  }

  /** The clock, the rule catalog and the operator's view of the quarantine are not part of the invariant. */
  lemma ClockKeeps(s: State, t: State)
    requires Inv(s) && t == s.(now := t.now, rules := t.rules, quarantine := t.quarantine)
    ensures Inv(t)
  {
    hide LogOk, DbOk, LeasesOk, LockOk, WritesOk, FreshOk, EvidenceOk, Apart, SettledOk;
    forall id | id in t.tasks
      ensures TaskOk(t, t.tasks[id])
    {
      assert TaskOk(s, s.tasks[id]);
    }
  }

  lemma InitInv(s: State)
    requires Init(s)
    ensures Inv(s)
  {
  }

  lemma {:induction false} RunInv(run: seq<State>, n: nat)
    requires Run(run) && n < |run|
    ensures Inv(run[n])
  {
    hide Inv, Step, Init;
    if n == 0 {
      InitInv(run[0]);
    } else {
      RunInv(run, n - 1);
      assert Next(run[n - 1], run[n - 1 + 1]);
      var a :| Step(run[n - 1], a, run[n]);
      StepKeepsInv(run[n - 1], a, run[n]);
    }
  }
}
