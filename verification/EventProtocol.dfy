/**
  Event processing as a transition system: lease statements, deliveries, the statements of the
  storage transaction that processes an event, and the settlement of the delivery.

  Any number of workers run any number of deliveries, and every SQL statement is one step. A
  worker's fencing token and shard are arbitrary: nothing below relies on a worker's own view of
  its leases. A lease row that some open transaction has asserted cannot be updated (FOR SHARE),
  and an insert that meets an uncommitted row with the same key is not enabled until that
  transaction ends (ON CONFLICT DO NOTHING waits).
*/
module EventProtocol {
  import opened Identity
  import opened Leases

  // ---------------------------------------------------------------- stored rows

  datatype Key = Key(tenant: string, event: string)

  datatype InboxRow = InboxRow(committed: bool, execution: string)

  /** An outbox row; its identity is the digest of its effect key. */
  datatype Effect = Effect(key: EffectKey, execution: string, destination: string, subscription: bool)

  /** The three tables a transaction writes; also the shape of its uncommitted writes. */
  datatype Tables = Tables(inbox: map<Key, InboxRow>, executions: map<string, ExecutionKey>,
                           outbox: map<string, Effect>)

  const NOTHING := Tables(map[], map[], map[])

  function EffectId(e: Effect): string {
    EffectText(e.key)
  }

  // ---------------------------------------------------------------- messages and decisions

  datatype Envelope = Envelope(id: string, kind: string, tenant: string, partition: string, dated: bool)

  datatype Message = Parsed(env: Envelope) | Malformed(raw: string)

  function KeyOf(e: Envelope): Key {
    Key(e.tenant, e.id)
  }

  /** EventEnvelope.Validate. */
  predicate ValidEnvelope(e: Envelope) {
    e.id != "" && e.kind != "" && e.tenant != "" && e.partition != "" && e.dated
  }

  /** One effect of a decision: the rule and action it comes from. */
  datatype Decided = Decided(rule: string, index: nat, destination: string)

  predicate DistinctSources(d: seq<Decided>) {
    forall i, j | 0 <= i < j < |d| :: d[i].rule != d[j].rule || d[i].index != d[j].index
  }

  predicate Distinct(s: seq<string>) {
    forall i, j | 0 <= i < j < |s| :: s[i] != s[j]
  }

  function ExecutionOf(e: Envelope, revision: int): ExecutionKey {
    ExecutionKey(e.tenant, e.id, e.kind, revision)
  }

  function DecisionRow(e: Envelope, revision: int, d: Decided): Effect {
    Effect(EffectKey(e.tenant, e.id, e.kind, revision, d.rule, d.index), ExecutionText(ExecutionOf(e, revision)),
           d.destination, false)
  }

  const SUBSCRIPTION := "service-subscription"

  function SubscriberRow(e: Envelope, revision: int, subscriber: string): Effect {
    Effect(EffectKey(e.tenant, e.id, SUBSCRIPTION, 1, subscriber, 0), ExecutionText(ExecutionOf(e, revision)),
           subscriber, true)
  }

  /** What persistExecutionAndOutbox wants in the outbox: the decision's effects, then one row per subscriber. */
  function Plan(e: Envelope, revision: int, d: seq<Decided>, subscribers: seq<string>): (rows: seq<Effect>)
    ensures |rows| == |d| + |subscribers|
  {
    seq(|d|, i requires 0 <= i < |d| => DecisionRow(e, revision, d[i])) +
    seq(|subscribers|, i requires 0 <= i < |subscribers| => SubscriberRow(e, revision, subscribers[i]))
  }

  const FANOUT_LIMIT := 100

  // ---------------------------------------------------------------- errors

  datatype Error =
    | InvalidEnvelope | TokenMismatchError | LeaseExpiredError | NoLeaseRow
    | DuplicateInbox | RuleNotReady | RuleNotFound | EvaluationFailed | FanOutExceeded | StorageFailed

  datatype Class = Validation | Rule | Evaluation | Broker | Database | Internal

  /** ClassifyError on the errors event processing can return. */
  function ClassOf(e: Error): Class {
    match e
    case InvalidEnvelope => Validation
    case RuleNotFound => Rule
    case EvaluationFailed => Evaluation
    case RuleNotReady => Broker
    case TokenMismatchError => Database
    case LeaseExpiredError => Database
    case DuplicateInbox => Database
    case NoLeaseRow => Internal
    case FanOutExceeded => Internal
    case StorageFailed => Internal
  }

  /** Validation, rule and evaluation errors are not retried. */
  predicate IsPermanent(e: Error) {
    ClassOf(e).Validation? || ClassOf(e).Rule? || ClassOf(e).Evaluation?
  }

  /** Exactly three errors are permanent. */
  lemma PermanentErrors(e: Error)
    ensures IsPermanent(e) <==> e.InvalidEnvelope? || e.RuleNotFound? || e.EvaluationFailed?
    ensures e.InvalidEnvelope? ==> ClassOf(e) == Validation
    ensures e.RuleNotFound? ==> ClassOf(e) == Rule
    ensures e.EvaluationFailed? ==> ClassOf(e) == Evaluation
  {
  }

  function AssertError(o: AssertOutcome): Error
    requires !o.Held?
  {
    match o
    case NoRow => NoLeaseRow
    case TokenMismatch => TokenMismatchError
    case LeaseExpired => LeaseExpiredError
  }

  datatype Outcome = Ok(execution: string) | Failed(error: Error)

  // ---------------------------------------------------------------- deliveries

  datatype Settlement = Ack | Nak | Retry

  /**
    Where a delivery stands. Asserted to Marked are the phases of an open transaction that holds the
    lease row's share lock.
  */
  datatype Phase =
    | Fetched
    | Queued
    | Begun
    | Asserted
    | Missed
    | Conflicted
    | Inserted
    | Activated
    | Loaded(revision: int)
    | Evaluated(revision: int, decision: seq<Decided>)
    | Saved(revision: int, decision: seq<Decided>)
    | Filling(revision: int, decision: seq<Decided>, subscribers: seq<string>, next: nat)
    | Marked(revision: int, decision: seq<Decided>, subscribers: seq<string>)
    | Returned(outcome: Outcome)
    | Entered
    | Settled(how: Settlement)
    | Lost

  datatype Task = Task(worker: string, message: Message, shard: int, token: int, begun: int, phase: Phase,
                       writes: Tables)

  /** The phases between Begin and the end of the transaction. */
  predicate Open(p: Phase) {
    p.Begun? || Locking(p)
  }

  /** The phases in which the transaction holds the share lock on its lease row. */
  predicate Locking(p: Phase) {
    p.Asserted? || p.Missed? || p.Conflicted? || p.Inserted? || p.Activated? || p.Loaded? || p.Evaluated? || p.Saved? ||
    p.Filling? || p.Marked?
  }

  datatype Entry = Entry(tenant: string, source: string, event: string, kind: Class)

  /** What the worker stores before it acknowledges a message it will not process. */
  function EntryFor(m: Message, c: Class): Entry {
    match m
    case Parsed(e) => Entry(e.tenant, e.id, e.id, c)
    case Malformed(raw) => Entry("", raw, "", c)
  }

  /** Some quarantine entry that names the event, or the unreadable message, was saved. */
  ghost predicate Quarantined(stored: set<Entry>, m: Message) {
    match m
    case Parsed(e) =>
      exists x :: x in stored && x.tenant == e.tenant && x.source == e.id && x.event == e.id
    case Malformed(raw) =>
      exists x :: x in stored && x.tenant == "" && x.source == raw && x.event == ""
  }

  /** The record of one committed transaction. */
  datatype Commit = Commit(shard: int, token: int, worker: string, env: Envelope, revision: int,
                           decision: seq<Decided>, subscribers: seq<string>, rows: map<string, Effect>)

  datatype Catalog = Catalog(active: map<Key, int>, revisions: set<(Key, int)>)

  datatype State = State(
    now: int,
    leases: Rows,
    rules: Catalog,
    tasks: map<int, Task>,
    db: Tables,
    quarantine: set<Entry>,    // rows an operator may delete
    stored: set<Entry>,        // every row ever saved
    settled: seq<int>,         // deliveries in settlement order
    log: seq<Commit>)          // committed transactions in commit order

  datatype Action =
    | Tick(to: int)
    | LeaseAcquire(shard: int, owner: string, at: int, ttl: int)
    | LeaseRenew(shard: int, owner: string, token: int, at: int, ttl: int)
    | LeaseRelease(shard: int, owner: string, at: int)
    | ChangeRules(rules: Catalog)
    | OperatorDeletes(entry: Entry)
    | Deliver(id: int, worker: string, message: Message)
    | Crash(worker: string)
    | Submit(id: int, shard: int, token: int)
    | Begin(id: int)
    | AssertLease(id: int, at: int)
    | ReadInbox(id: int)
    | InsertInbox(id: int)
    | ReadAgain(id: int)
    | LoadActivation(id: int)
    | LoadRevision(id: int)
    | Evaluate(id: int, result: Option<seq<Decided>>)
    | SaveExecution(id: int)
    | ListSubscribers(id: int, subscribers: seq<string>)
    | InsertEffect(id: int)
    | MarkCommitted(id: int)
    | StatementFails(id: int)
    | CommitTransaction(id: int, reported: bool)
    | SaveQuarantine(id: int, ok: bool)
    | Settle(id: int)
    | Reject(id: int)

  predicate TaskAction(a: Action) {
    a.Submit? || a.Begin? || a.AssertLease? || a.ReadInbox? || a.InsertInbox? || a.ReadAgain? || a.LoadActivation? ||
    a.LoadRevision? || a.Evaluate? || a.SaveExecution? || a.ListSubscribers? || a.InsertEffect? || a.MarkCommitted? ||
    a.StatementFails? || a.Settle? || a.Reject?
  }

  // ---------------------------------------------------------------- steps of one delivery

  function Fails(t: Task, e: Error): Task {
    t.(phase := Returned(Failed(e)), writes := NOTHING)
  }

  /** Inbox.Get followed by Executions.Get: the finished execution of a key, if there is one. */
  function Finished(db: Tables, k: Key): Option<string> {
    if k in db.inbox && db.inbox[k].execution in db.executions then Some(db.inbox[k].execution) else None
  }

  /** Other open transactions that hold an uncommitted row with this key make an insert wait. */
  predicate InboxFree(tasks: map<int, Task>, id: int, k: Key) {
    forall o | o in tasks && o != id :: k !in tasks[o].writes.inbox
  }

  predicate ExecutionFree(tasks: map<int, Task>, id: int, x: string) {
    forall o | o in tasks && o != id :: x !in tasks[o].writes.executions
  }

  predicate EffectFree(tasks: map<int, Task>, id: int, x: string) {
    forall o | o in tasks && o != id :: x !in tasks[o].writes.outbox
  }

  /** INSERT ... ON CONFLICT (effect_id) DO NOTHING into the transaction's own writes. */
  function InsertedEffect(taken: set<string>, written: map<string, Effect>, e: Effect): map<string, Effect> {
    if EffectId(e) in taken || EffectId(e) in written then written else written[EffectId(e) := e]
  }

  /** What a delivery's own step does to it; statements read the committed tables of `s`. */
  ghost predicate TaskStep(s: State, a: Action, id: int, t: Task, u: Task)
    requires TaskAction(a)
  {
    match a
    case Submit(_, shard, token) =>
      t.phase.Fetched? && t.message.Parsed? && u == t.(shard := shard, token := token, phase := Queued)
    case Reject(_) =>
      t.phase.Fetched? && t.message.Parsed? && u == t.(phase := Settled(Nak))
    case Begin(_) =>
      t.phase.Queued? && t.message.Parsed? &&
      u == if !ValidEnvelope(t.message.env) then Fails(t, InvalidEnvelope)
           else if t.token <= 0 then Fails(t, TokenMismatchError)
           else t.(phase := Begun, begun := s.now)
    case AssertLease(_, at) =>
      t.phase.Begun? && t.begun <= at <= s.now &&
      var o := Assertion(s.leases, t.shard, t.worker, t.token, at);
      u == if o.Held? then t.(phase := Asserted) else Fails(t, AssertError(o))
    case ReadInbox(_) =>
      t.phase.Asserted? && t.message.Parsed? &&
      u == (match Finished(s.db, KeyOf(t.message.env))
            case Some(x) => t.(phase := Returned(Ok(x)), writes := NOTHING)
            case None => t.(phase := Missed))
    case InsertInbox(_) =>
      t.phase.Missed? && t.message.Parsed? && InboxFree(s.tasks, id, KeyOf(t.message.env)) &&
      u == if KeyOf(t.message.env) in s.db.inbox then t.(phase := Conflicted)
           else t.(phase := Inserted,
                   writes := t.writes.(inbox := t.writes.inbox[KeyOf(t.message.env) := InboxRow(false, "")]))
    case ReadAgain(_) =>
      t.phase.Conflicted? && t.message.Parsed? &&
      u == (match Finished(s.db, KeyOf(t.message.env))
            case Some(x) => t.(phase := Returned(Ok(x)), writes := NOTHING)
            case None => Fails(t, DuplicateInbox))
    case LoadActivation(_) =>
      t.phase.Inserted? && t.message.Parsed? &&
      u == if Key(t.message.env.tenant, t.message.env.kind) in s.rules.active then t.(phase := Activated)
           else Fails(t, RuleNotReady)
    case LoadRevision(_) =>
      t.phase.Activated? && t.message.Parsed? &&
      var k := Key(t.message.env.tenant, t.message.env.kind);
      u == if k in s.rules.active && (k, s.rules.active[k]) in s.rules.revisions then
          t.(phase := Loaded(s.rules.active[k]))
           else Fails(t, RuleNotFound)
    case Evaluate(_, result) =>
      t.phase.Loaded? &&
      (match result
       case None => u == Fails(t, EvaluationFailed)
       case Some(d) => DistinctSources(d) && u == t.(phase := Evaluated(t.phase.revision, d)))
    case SaveExecution(_) =>
      t.phase.Evaluated? && t.message.Parsed? &&
      var x := ExecutionOf(t.message.env, t.phase.revision);
      ExecutionFree(s.tasks, id, ExecutionText(x)) &&
      u == t.(phase := Saved(t.phase.revision, t.phase.decision),
              writes := if ExecutionText(x) in s.db.executions then t.writes
                        else t.writes.(executions := t.writes.executions[ExecutionText(x) := x]))
    case ListSubscribers(_, subscribers) =>
      t.phase.Saved? && Distinct(subscribers) &&
      u == if |subscribers| > FANOUT_LIMIT then Fails(t, FanOutExceeded)
           else t.(phase := Filling(t.phase.revision, t.phase.decision, subscribers, 0))
    case InsertEffect(_) =>
      t.phase.Filling? && t.message.Parsed? &&
      var plan := Plan(t.message.env, t.phase.revision, t.phase.decision, t.phase.subscribers);
      t.phase.next < |plan| && EffectFree(s.tasks, id, EffectId(plan[t.phase.next])) &&
      u == t.(phase := t.phase.(next := t.phase.next + 1),
              writes := t.writes.(outbox := InsertedEffect(s.db.outbox.Keys, t.writes.outbox, plan[t.phase.next])))
    case MarkCommitted(_) =>
      t.phase.Filling? && t.message.Parsed? && t.phase.next == |t.phase.decision| + |t.phase.subscribers| &&
      KeyOf(t.message.env) in t.writes.inbox &&
      u == t.(phase := Marked(t.phase.revision, t.phase.decision, t.phase.subscribers),
              writes := t.writes.(inbox := t.writes.inbox[KeyOf(t.message.env) :=
                          InboxRow(true, ExecutionText(ExecutionOf(t.message.env, t.phase.revision)))]))
    case StatementFails(_) =>
      Open(t.phase) && u == Fails(t, StorageFailed)
    case Settle(_) =>
      (t.phase.Entered? && u == t.(phase := Settled(Ack))) ||
      (t.phase.Returned? && t.phase.outcome.Ok? && u == t.(phase := Settled(Ack))) ||
      (t.phase.Returned? && t.phase.outcome.Failed? && !IsPermanent(t.phase.outcome.error) &&
       u == t.(phase := Settled(Retry)))
  }

  function Merged(db: Tables, w: Tables): Tables {
    Tables(db.inbox + w.inbox, db.executions + w.executions, db.outbox + w.outbox)
  }

  function CommitRecord(t: Task): Commit
    requires t.phase.Marked? && t.message.Parsed?
  {
    Commit(t.shard, t.token, t.worker, t.message.env, t.phase.revision, t.phase.decision, t.phase.subscribers,
           t.writes.outbox)
  }

  /** A crashed worker's open transactions roll back and its deliveries are never settled by it. */
  function Crashed(t: Task, worker: string): Task {
    if t.worker == worker && !t.phase.Settled? then t.(phase := Lost, writes := NOTHING) else t
  }

  /** Lease rows under a share lock cannot be updated. */
  ghost predicate Unlocked(tasks: map<int, Task>, shard: int) {
    forall id | id in tasks && Locking(tasks[id].phase) :: tasks[id].shard != shard
  }

  // ---------------------------------------------------------------- steps of the system

  /** A statement that had to wait for a lock compares with the clock reading of its start. */
  ghost predicate LeaseStep(s: State, a: Action, t: State)
    requires a.LeaseAcquire? || a.LeaseRenew? || a.LeaseRelease?
  {
    Unlocked(s.tasks, a.shard) && a.at <= s.now &&
    t == s.(leases := match a
              case LeaseAcquire(shard, owner, at, ttl) => Acquired(s.leases, shard, owner, at, ttl)
              case LeaseRenew(shard, owner, token, at, ttl) => Renewed(s.leases, shard, owner, token, at, ttl)
              case LeaseRelease(shard, owner, at) => Released(s.leases, shard, owner, at))
  }

  function Settling(settled: seq<int>, id: int, t: Task, u: Task): seq<int> {
    if u.phase.Settled? && !t.phase.Settled? then settled + [id] else settled
  }

  /** A step of delivery `id` that changes only it. */
  ghost predicate Local(s: State, a: Action, id: int, t: State)
    requires TaskAction(a)
  {
    id in s.tasks && id in t.tasks && TaskStep(s, a, id, s.tasks[id], t.tasks[id]) &&
    t == s.(tasks := s.tasks[id := t.tasks[id]], settled := Settling(s.settled, id, s.tasks[id], t.tasks[id]))
  }

  /** The commit; `reported` is false when the reply is lost and the worker sees an error. */
  ghost predicate Committing(s: State, id: int, reported: bool, t: State) {
    id in s.tasks && s.tasks[id].phase.Marked? && s.tasks[id].message.Parsed? &&
    var task := s.tasks[id];
    var x := ExecutionText(ExecutionOf(task.message.env, task.phase.revision));
    t == s.(db := Merged(s.db, task.writes),
            log := s.log + [CommitRecord(task)],
            tasks := s.tasks[id := if reported then task.(phase := Returned(Ok(x)), writes := NOTHING)
                                   else Fails(task, StorageFailed)])
  }

  /** QuarantineEvent for a permanent failure or an unreadable message; a failed save leads to a retry. */
  ghost predicate Quarantining(s: State, id: int, ok: bool, t: State) {
    id in s.tasks &&
    var task := s.tasks[id];
    ((task.phase.Returned? && task.phase.outcome.Failed? && IsPermanent(task.phase.outcome.error)) ||
     (task.phase.Fetched? && task.message.Malformed?)) &&
    var entry := EntryFor(task.message, if task.phase.Returned? then ClassOf(task.phase.outcome.error) else Validation);
    if ok then
      t == s.(quarantine := s.quarantine + {entry},
              stored := s.stored + {entry},
              tasks := s.tasks[id := task.(phase := Entered)])
    else
      t == s.(tasks := s.tasks[id := task.(phase := Settled(Retry))], settled := s.settled + [id])
  }

  ghost predicate Step(s: State, a: Action, t: State) {
    match a
    case Tick(to) => s.now <= to && t == s.(now := to)
    case LeaseAcquire(_, _, _, _) => LeaseStep(s, a, t)
    case LeaseRenew(_, _, _, _, _) => LeaseStep(s, a, t)
    case LeaseRelease(_, _, _) => LeaseStep(s, a, t)
    case ChangeRules(rules) => t == s.(rules := rules)
    case OperatorDeletes(entry) => t == s.(quarantine := s.quarantine - {entry})
    case Deliver(id, worker, message) =>
      id !in s.tasks && t == s.(tasks := s.tasks[id := Task(worker, message, 0, 0, s.now, Fetched, NOTHING)])
    case Crash(worker) => t == s.(tasks := map id | id in s.tasks :: Crashed(s.tasks[id], worker))
    case CommitTransaction(id, reported) => Committing(s, id, reported, t)
    case SaveQuarantine(id, ok) => Quarantining(s, id, ok, t)
    case _ => Local(s, a, a.id, t)
  }

  ghost predicate Next(s: State, t: State) {
    exists a :: Step(s, a, t)
  }

  predicate Init(s: State) {
    s.leases == map[] && s.tasks == map[] && s.db == NOTHING && s.stored == {} && s.settled == [] && s.log == []
  }

  ghost predicate Run(run: seq<State>) {
    run != [] && Init(run[0]) && forall i | 0 <= i < |run| - 1 :: Next(run[i], run[i + 1])
  }

  /** The state is where the run has got to. */
  ghost predicate Traced(run: seq<State>, s: State) {
    Run(run) && run[|run| - 1] == s
  }

  lemma TraceExtends(run: seq<State>, s: State, a: Action, t: State)
    requires Traced(run, s) && Step(s, a, t)
    ensures Traced(run + [t], t)
  {
    hide Step, Init;
    var longer := run + [t];
    forall i | 0 <= i < |longer| - 1
      ensures Next(longer[i], longer[i + 1])
    {
      if i < |run| - 1 {
        assert Next(run[i], run[i + 1]);
      }
    }
  }
}
