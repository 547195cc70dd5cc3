/**
  The worker's code path for one delivery: route, submit, process in a transaction, settle.

  Every statement is a method that is proved to be a step of the transition system. The composite
  methods follow the source's routines, with `Yield` wherever other workers may run. The ghost `trace`
  is the run of the transition system so far: every method and every `Yield` extends it, and its last
  state is the object's, so what the theorems say of runs holds of the object. A nondeterministic
  choice stands for a statement that fails, for how long one waits before it times out, and for a
  lost connection.
*/
module EventService {
  import opened Identity
  import opened Leases
  import opened EventProtocol
  import opened EventSafety
  import opened EventTheorems
  import KeyQueueSteps
  import KeyQueueOrigins
  import KeyQueueObject

  function Moved(s: State, id: int, u: Task): State
    requires id in s.tasks
  {
    s.(tasks := s.tasks[id := u], settled := Settling(s.settled, id, s.tasks[id], u))
  }

  lemma MovedStep(s: State, a: Action, id: int, u: Task)
    requires Inv(s) && id in s.tasks && TaskAction(a) && a.id == id && TaskStep(s, a, id, s.tasks[id], u)
    ensures Step(s, a, Moved(s, id, u)) && Inv(Moved(s, id, u))
  {
    hide Inv, TaskStep, Settling;
    LocalKeeps(s, a, id, Moved(s, id, u));
  }

  lemma OthersLeaveTask(s: State, a: Action, t: State, id: int)
    requires Step(s, a, t) && id in s.tasks && !OwnAction(a, id, s.tasks[id].worker)
    ensures id in t.tasks && t.tasks[id] == s.tasks[id] && s.now <= t.now
  {
    hide TaskStep, Unlocked, Acquired, Renewed, Released, Merged, CommitRecord, ExecutionText, Settling, Fails,
         EntryFor;
  }

  /**
    What everybody else may do between two statements of a delivery: any step of the system that is
    not the delivery's own and not the crash of its worker.
  */
  lemma OthersInterfere(run: seq<State>, s: State, a: Action, t: State, id: int)
    requires Inv(s) && Traced(run, s) && Step(s, a, t) && id in s.tasks && !OwnAction(a, id, s.tasks[id].worker)
    ensures Inv(t) && Traced(run + [t], t) && id in t.tasks && t.tasks[id] == s.tasks[id]
    ensures s.log <= t.log && s.stored <= t.stored && s.now <= t.now
  {
    hide Inv, Traced, Step, OwnAction;
    StepKeepsInv(s, a, t);
    TraceExtends(run, s, a, t);
    StepGrows(s, a, t);
    OthersLeaveTask(s, a, t, id);
  }

  lemma MovedRun(run: seq<State>, s: State, a: Action, id: int, u: Task)
    requires Inv(s) && Traced(run, s) && id in s.tasks && TaskAction(a) && a.id == id &&
             TaskStep(s, a, id, s.tasks[id], u)
    ensures Step(s, a, Moved(s, id, u)) && Inv(Moved(s, id, u)) && Traced(run + [Moved(s, id, u)], Moved(s, id, u))
  {
    hide Inv, TaskStep, Traced, Step, Moved;
    MovedStep(s, a, id, u);
    TraceExtends(run, s, a, Moved(s, id, u));
  }

  /** Commits and saved quarantine entries stay. */
  ghost predicate Extends(s: State, t: State) {
    s.log <= t.log && s.stored <= t.stored
  }

  /** Continue with the next statement, or leave the transaction with an outcome. */
  datatype Flow = Go | Stop(outcome: Outcome)

  /** The append loops of persistExecutionAndOutbox. */
  method BuildOutboxRows(env: Envelope, revision: int, decision: seq<Decided>, subscribers: seq<string>)
    returns (rows: seq<Effect>)
    ensures rows == Plan(env, revision, decision, subscribers) && |rows| == |decision| + |subscribers|
    ensures forall r | 0 <= r < |rows| ::
              rows[r].execution == ExecutionText(ExecutionKey(env.tenant, env.id, env.kind, revision))
    ensures forall i | 0 <= i < |decision| ::
              rows[i].key == EffectKey(env.tenant, env.id, env.kind, revision, decision[i].rule, decision[i].index) &&
              rows[i].destination == decision[i].destination && !rows[i].subscription
    ensures forall r | |decision| <= r < |rows| ::
              rows[r].key == EffectKey(env.tenant, env.id, "service-subscription", 1, subscribers[r - |decision|], 0) &&
              rows[r].destination == subscribers[r - |decision|] && rows[r].subscription
  {
    hide ExecutionText;
    rows := [];
    for i := 0 to |decision|
      invariant |rows| == i && forall r | 0 <= r < i :: rows[r] == DecisionRow(env, revision, decision[r])
    {
      rows := rows + [DecisionRow(env, revision, decision[i])];
    }
    for i := 0 to |subscribers|
      invariant |rows| == |decision| + i
      invariant forall r | 0 <= r < |decision| :: rows[r] == DecisionRow(env, revision, decision[r])
      invariant forall r | 0 <= r < i :: rows[|decision| + r] == SubscriberRow(env, revision, subscribers[r])
    {
      rows := rows + [SubscriberRow(env, revision, subscribers[i])];
    }
  }

  lemma InboxRowHeld(s: State, id: int)
    requires Inv(s) && id in s.tasks && s.tasks[id].phase.Filling? && s.tasks[id].message.Parsed?
    ensures KeyOf(s.tasks[id].message.env) in s.tasks[id].writes.inbox
  {
    hide LogOk, DbOk, LeasesOk, Apart, SettledOk, LockOk, FreshOk, EvidenceOk, ExecutionText, Fill;
    assert TaskOk(s, s.tasks[id]);
  }

  lemma OkIsCommitted(s: State, id: int)
    requires Inv(s) && id in s.tasks && s.tasks[id].message.Parsed?
    requires s.tasks[id].phase.Returned? && s.tasks[id].phase.outcome.Ok?
    ensures Committed(s.log, KeyOf(s.tasks[id].message.env), s.tasks[id].phase.outcome.execution)
  {
    hide LogOk, DbOk, LeasesOk, Apart, SettledOk, LockOk, FreshOk, WritesOk, Committed;
    assert TaskOk(s, s.tasks[id]);
  }

  lemma AckIsJustified(s: State, id: int)
    requires Inv(s) && id in s.tasks && s.tasks[id].phase == Settled(Ack)
    ensures Justified(s.log, s.stored, s.tasks[id].message)
  {
    hide LogOk, DbOk, LeasesOk, Apart, SettledOk, LockOk, FreshOk, WritesOk, Committed;
    assert TaskOk(s, s.tasks[id]);
  }

  /** What a statement has to wait for: the end of every other transaction that holds the key it inserts. */
  datatype Need = Nothing | InboxKey(k: Key) | ExecutionId(x: string) | OutboxId(x: string)

  predicate Free(tasks: map<int, Task>, id: int, need: Need) {
    match need
    case Nothing => true
    case InboxKey(k) => InboxFree(tasks, id, k)
    case ExecutionId(x) => ExecutionFree(tasks, id, x)
    case OutboxId(x) => EffectFree(tasks, id, x)
  }

  /** The entry that quarantines a permanently failed event names its tenant, its id and the class of the failure. */
  ghost predicate EntrySaved(stored: set<Entry>, env: Envelope, error: Error) {
    exists x :: x in stored && x.tenant == env.tenant && x.source == env.id && x.event == env.id &&
      (error.InvalidEnvelope? ==> x.kind == Validation) && (error.RuleNotFound? ==> x.kind == Rule) &&
      (error.EvaluationFailed? ==> x.kind == Evaluation)
  }

  predicate OwnAction(a: Action, id: int, worker: string) {
    ((TaskAction(a) || a.CommitTransaction? || a.SaveQuarantine?) && a.id == id) || a == Crash(worker)
  }

  lemma SavedIsNamed(stored: set<Entry>, env: Envelope, error: Error)
    requires EntryFor(Parsed(env), ClassOf(error)) in stored
    ensures EntrySaved(stored, env, error)
  {
    PermanentErrors(error);
    var x := EntryFor(Parsed(env), ClassOf(error));
    assert x in stored;
  }

  lemma SavedStays(stored: set<Entry>, later: set<Entry>, env: Envelope, error: Error)
    requires stored <= later
    ensures EntrySaved(stored, env, error) ==> EntrySaved(later, env, error)
  {
  }

  class EventService {
    var state: State
    ghost var trace: seq<State>

    ghost predicate Valid()
      reads this
    {
      Inv(state) && Traced(trace, state)
    }

    constructor (now: int, rules: Catalog)
      ensures Init(state) && Valid()
    {
      state := State(now, map[], rules, map[], NOTHING, {}, {}, [], []);
      trace := [];
      new;
      trace := [state];
      InitInv(state);
    }

    ghost predicate At(id: int, p: Phase)
      reads this
    {
      id in state.tasks && state.tasks[id].phase == p
    }

    /** The delivery is in the given phase and is otherwise the given delivery. */
    ghost predicate Same(id: int, worker: string, env: Envelope)
      reads this
    {
      id in state.tasks && state.tasks[id].worker == worker && state.tasks[id].message == Parsed(env)
    }

    /** Either the delivery went on to phase `p`, or its transaction is over with the outcome. */
    ghost predicate Answers(id: int, flow: Flow, p: Phase)
      reads this
    {
      At(id, if flow.Stop? then Returned(flow.outcome) else p)
    }

    ghost predicate Grown(before: State, run: seq<State>)
      reads this
    {
      Extends(before, state) && run <= trace
    }

    /** Others run, as OthersInterfere allows. */
    method Yield(ghost id: int)
      requires Valid() && id in state.tasks
      modifies this
      ensures Valid() && id in state.tasks && state.tasks[id] == old(state).tasks[id] &&
              Grown(old(state), old(trace)) && old(state).now <= state.now
    {
    }

    /** Any statement of an open transaction can fail; the transaction rolls back. */
    method FailStatement(id: int) returns (flow: Flow)
      requires Valid() && id in state.tasks && Open(state.tasks[id].phase)
      modifies this
      ensures Valid() && Grown(old(state), old(trace)) && flow == Stop(Failed(StorageFailed))
      ensures id in state.tasks && state.tasks[id] == Fails(old(state).tasks[id], StorageFailed)
      ensures Step(old(state), StatementFails(id), state)
    {
      hide Inv, Traced;
      flow := Stop(Failed(StorageFailed));
      MovedRun(trace, state, StatementFails(id), id, Fails(state.tasks[id], StorageFailed));
      state, trace := Moved(state, id, Fails(state.tasks[id], StorageFailed)),
                      trace + [Moved(state, id, Fails(state.tasks[id], StorageFailed))];
    }

    /** Process's checks and the Begin of processInTransaction. */
    method BeginTransaction(id: int) returns (flow: Flow)
      requires Valid() && At(id, Queued) && state.tasks[id].message.Parsed?
      modifies this
      ensures Valid() && Grown(old(state), old(trace)) &&
              Same(id, old(state).tasks[id].worker, old(state).tasks[id].message.env)
      ensures flow == if !ValidEnvelope(old(state).tasks[id].message.env) then Stop(Failed(InvalidEnvelope))
                      else if old(state).tasks[id].token <= 0 then Stop(Failed(TokenMismatchError)) else Go
      ensures Answers(id, flow, Begun) && (flow.Go? ==> state.tasks[id].begun == state.now)
      ensures Step(old(state), Begin(id), state)
    {
      hide Inv, Traced;
      var t := state.tasks[id];
      var u := t;
      if !ValidEnvelope(t.message.env) {
        flow := Stop(Failed(InvalidEnvelope));
        u := Fails(t, InvalidEnvelope);
      } else if t.token <= 0 {
        flow := Stop(Failed(TokenMismatchError));
        u := Fails(t, TokenMismatchError);
      } else {
        flow := Go;
        u := t.(phase := Begun, begun := state.now);
      }
      MovedRun(trace, state, Begin(id), id, u);
      state, trace := Moved(state, id, u), trace + [Moved(state, id, u)];
    }

    /** AssertHeld with the lease row locked; NOW() is the transaction's start. */
    method AssertHeld(id: int) returns (flow: Flow)
      requires Valid() && At(id, Begun) && state.tasks[id].message.Parsed? && state.tasks[id].begun <= state.now
      modifies this
      ensures Valid() && Grown(old(state), old(trace)) &&
              Same(id, old(state).tasks[id].worker, old(state).tasks[id].message.env)
      ensures Answers(id, flow, Asserted)
      ensures
        var t, rows := old(state).tasks[id], old(state).leases;
        flow == if t.shard !in rows || rows[t.shard].owner != t.worker then Stop(Failed(NoLeaseRow))
                else if t.token <= 0 then Stop(Failed(TokenMismatchError))
                else if rows[t.shard].expires <= t.begun then Stop(Failed(LeaseExpiredError))
                else if rows[t.shard].token != t.token then Stop(Failed(TokenMismatchError)) else Go
      ensures Step(old(state), AssertLease(id, old(state).tasks[id].begun), state)
    {
      hide Inv, Traced;
      var t := state.tasks[id];
      var o := Assertion(state.leases, t.shard, t.worker, t.token, t.begun);
      var u;
      if o.Held? {
        flow, u := Go, t.(phase := Asserted);
      } else {
        flow, u := Stop(Failed(AssertError(o))), Fails(t, AssertError(o));
      }
      MovedRun(trace, state, AssertLease(id, t.begun), id, u);
      state, trace := Moved(state, id, u), trace + [Moved(state, id, u)];
    }

    /** Inbox.Get and Executions.Get: a finished event ends the transaction with its execution. */
    method ReadInboxEntry(id: int) returns (flow: Flow)
      requires Valid() && At(id, Asserted) && state.tasks[id].message.Parsed?
      modifies this
      ensures Valid() && Grown(old(state), old(trace)) &&
              Same(id, old(state).tasks[id].worker, old(state).tasks[id].message.env)
      ensures Answers(id, flow, Missed)
      ensures
        var e, db := old(state).tasks[id].message.env, old(state).db;
        var k := Key(e.tenant, e.id);
        flow == if k in db.inbox && db.inbox[k].execution in db.executions then Stop(Ok(db.inbox[k].execution)) else Go
      ensures Step(old(state), ReadInbox(id), state)
    {
      hide Inv, Traced;
      var t := state.tasks[id];
      var u;
      match Finished(state.db, KeyOf(t.message.env)) {
        case Some(x) => flow, u := Stop(Ok(x)), t.(phase := Returned(Ok(x)), writes := NOTHING);
        case None => flow, u := Go, t.(phase := Missed);
      }
      MovedRun(trace, state, ReadInbox(id), id, u);
      state, trace := Moved(state, id, u), trace + [Moved(state, id, u)];
    }

    /** Inbox.Insert, once no other transaction holds the key. */
    method InsertInboxEntry(id: int) returns (inserted: bool)
      requires Valid() && At(id, Missed) && state.tasks[id].message.Parsed?
      requires Free(state.tasks, id, InboxKey(KeyOf(state.tasks[id].message.env)))
      modifies this
      ensures Valid() && Grown(old(state), old(trace))
      ensures Same(id, old(state).tasks[id].worker, old(state).tasks[id].message.env)
      ensures At(id, if inserted then Inserted else Conflicted)
      ensures
        var e := old(state).tasks[id].message.env;
        inserted <==> Key(e.tenant, e.id) !in old(state).db.inbox
      ensures Step(old(state), InsertInbox(id), state)
    {
      hide Inv, Traced;
      var t := state.tasks[id];
      var k := KeyOf(t.message.env);
      inserted := k !in state.db.inbox;
      var u := if inserted
               then t.(phase := Inserted, writes := t.writes.(inbox := t.writes.inbox[k := InboxRow(false, "")]))
               else t.(phase := Conflicted);
      MovedRun(trace, state, InsertInbox(id), id, u);
      state, trace := Moved(state, id, u), trace + [Moved(state, id, u)];
    }

    /** The second look after an insert that met an existing row. */
    method ReadConflictingEntry(id: int) returns (outcome: Outcome)
      requires Valid() && At(id, Conflicted) && state.tasks[id].message.Parsed?
      modifies this
      ensures Valid() && Grown(old(state), old(trace)) &&
              Same(id, old(state).tasks[id].worker, old(state).tasks[id].message.env)
      ensures At(id, Returned(outcome))
      ensures
        var e, db := old(state).tasks[id].message.env, old(state).db;
        var k := Key(e.tenant, e.id);
        outcome == if k in db.inbox && db.inbox[k].execution in db.executions then Ok(db.inbox[k].execution)
                   else Failed(DuplicateInbox)
      ensures Step(old(state), ReadAgain(id), state)
    {
      hide Inv, Traced;
      var t := state.tasks[id];
      var u;
      match Finished(state.db, KeyOf(t.message.env)) {
        case Some(x) => outcome, u := Ok(x), t.(phase := Returned(Ok(x)), writes := NOTHING);
        case None => outcome, u := Failed(DuplicateInbox), Fails(t, DuplicateInbox);
      }
      MovedRun(trace, state, ReadAgain(id), id, u);
      state, trace := Moved(state, id, u), trace + [Moved(state, id, u)];
    }

    method GetActivation(id: int) returns (flow: Flow)
      requires Valid() && At(id, Inserted) && state.tasks[id].message.Parsed?
      modifies this
      ensures Valid() && Grown(old(state), old(trace)) &&
              Same(id, old(state).tasks[id].worker, old(state).tasks[id].message.env)
      ensures Answers(id, flow, Activated)
      ensures
        var e := old(state).tasks[id].message.env;
        flow == if Key(e.tenant, e.kind) in old(state).rules.active then Go else Stop(Failed(RuleNotReady))
      ensures Step(old(state), LoadActivation(id), state)
    {
      hide Inv, Traced;
      var t := state.tasks[id];
      var u;
      if Key(t.message.env.tenant, t.message.env.kind) in state.rules.active {
        flow, u := Go, t.(phase := Activated);
      } else {
        flow, u := Stop(Failed(RuleNotReady)), Fails(t, RuleNotReady);
      }
      MovedRun(trace, state, LoadActivation(id), id, u);
      state, trace := Moved(state, id, u), trace + [Moved(state, id, u)];
    }

    /** RuleRepo.GetActive: the activation may have changed since the previous statement. */
    method GetActiveRevision(id: int) returns (flow: Flow, revision: int)
      requires Valid() && At(id, Activated) && state.tasks[id].message.Parsed?
      modifies this
      ensures Valid() && Grown(old(state), old(trace)) &&
              Same(id, old(state).tasks[id].worker, old(state).tasks[id].message.env)
      ensures Answers(id, flow, Loaded(revision))
      ensures
        var e, rules := old(state).tasks[id].message.env, old(state).rules;
        var k := Key(e.tenant, e.kind);
        if k in rules.active && (k, rules.active[k]) in rules.revisions then flow == Go && revision == rules.active[k]
        else flow == Stop(Failed(RuleNotFound))
      ensures Step(old(state), LoadRevision(id), state)
    {
      hide Inv, Traced;
      var t := state.tasks[id];
      var k := Key(t.message.env.tenant, t.message.env.kind);
      var u;
      revision := 0;
      if k in state.rules.active && (k, state.rules.active[k]) in state.rules.revisions {
        revision := state.rules.active[k];
        flow, u := Go, t.(phase := Loaded(revision));
      } else {
        flow, u := Stop(Failed(RuleNotFound)), Fails(t, RuleNotFound);
      }
      MovedRun(trace, state, LoadRevision(id), id, u);
      state, trace := Moved(state, id, u), trace + [Moved(state, id, u)];
    }

    method EvaluateRules(id: int, revision: int, result: Option<seq<Decided>>) returns (flow: Flow)
      requires Valid() && At(id, Loaded(revision)) && state.tasks[id].message.Parsed?
      requires result.Some? ==> DistinctSources(result.value)
      modifies this
      ensures Valid() && Grown(old(state), old(trace)) &&
              Same(id, old(state).tasks[id].worker, old(state).tasks[id].message.env)
      ensures flow == if result.Some? then Go else Stop(Failed(EvaluationFailed))
      ensures result.Some? ==> At(id, Evaluated(revision, result.value))
      ensures result.None? ==> At(id, Returned(Failed(EvaluationFailed)))
      ensures Step(old(state), Evaluate(id, result), state)
    {
      hide Inv, Traced, DistinctSources;
      var t := state.tasks[id];
      var u;
      match result {
        case Some(d) => flow, u := Go, t.(phase := Evaluated(revision, d));
        case None => flow, u := Stop(Failed(EvaluationFailed)), Fails(t, EvaluationFailed);
      }
      MovedRun(trace, state, Evaluate(id, result), id, u);
      state, trace := Moved(state, id, u), trace + [Moved(state, id, u)];
    }

    /** Executions.Save, once no other transaction holds the identity. */
    method SaveExecutionRow(id: int, revision: int, decision: seq<Decided>)
      requires Valid() && At(id, Evaluated(revision, decision)) && state.tasks[id].message.Parsed?
      requires Free(state.tasks, id, ExecutionId(ExecutionText(ExecutionOf(state.tasks[id].message.env, revision))))
      modifies this
      ensures Valid() && Grown(old(state), old(trace))
      ensures Same(id, old(state).tasks[id].worker, old(state).tasks[id].message.env)
      ensures At(id, Saved(revision, decision))
      ensures Step(old(state), SaveExecution(id), state)
    {
      hide Inv, Traced, ExecutionText;
      var t := state.tasks[id];
      var x := ExecutionOf(t.message.env, revision);
      var writes := if ExecutionText(x) in state.db.executions then t.writes
                    else t.writes.(executions := t.writes.executions[ExecutionText(x) := x]);
      var u := t.(phase := Saved(revision, decision), writes := writes);
      MovedRun(trace, state, SaveExecution(id), id, u);
      state, trace := Moved(state, id, u), trace + [Moved(state, id, u)];
    }

    /** ListSubscribersForEvent and the fan-out limit. */
    method TakeSubscribers(id: int, revision: int, decision: seq<Decided>, subscribers: seq<string>)
      returns (flow: Flow)
      requires Valid() && At(id, Saved(revision, decision)) && state.tasks[id].message.Parsed? && Distinct(subscribers)
      modifies this
      ensures Valid() && Grown(old(state), old(trace)) &&
              Same(id, old(state).tasks[id].worker, old(state).tasks[id].message.env)
      ensures flow == if |subscribers| > FANOUT_LIMIT then Stop(Failed(FanOutExceeded)) else Go
      ensures Answers(id, flow, Filling(revision, decision, subscribers, 0))
      ensures Step(old(state), ListSubscribers(id, subscribers), state)
    {
      hide Inv, Traced, Distinct;
      var t := state.tasks[id];
      var u;
      if |subscribers| > FANOUT_LIMIT {
        flow, u := Stop(Failed(FanOutExceeded)), Fails(t, FanOutExceeded);
      } else {
        flow, u := Go, t.(phase := Filling(revision, decision, subscribers, 0));
      }
      MovedRun(trace, state, ListSubscribers(id, subscribers), id, u);
      state, trace := Moved(state, id, u), trace + [Moved(state, id, u)];
    }

    /** One INSERT ... ON CONFLICT DO NOTHING of Outbox.Insert, once no other transaction holds the identity. */
    method InsertOutboxRow(id: int, revision: int, decision: seq<Decided>, subscribers: seq<string>, next: nat,
                           row: Effect)
      requires Valid() && At(id, Filling(revision, decision, subscribers, next)) && state.tasks[id].message.Parsed?
      requires next < |decision| + |subscribers| && Free(state.tasks, id, OutboxId(EffectId(row)))
      requires row == Plan(state.tasks[id].message.env, revision, decision, subscribers)[next]
      modifies this
      ensures Valid() && Grown(old(state), old(trace))
      ensures Same(id, old(state).tasks[id].worker, old(state).tasks[id].message.env)
      ensures At(id, Filling(revision, decision, subscribers, next + 1))
      ensures Step(old(state), InsertEffect(id), state)
    {
      hide Inv, Traced, Plan, EffectId;
      var t := state.tasks[id];
      var u := t.(phase := Filling(revision, decision, subscribers, next + 1),
                  writes := t.writes.(outbox := InsertedEffect(state.db.outbox.Keys, t.writes.outbox, row)));
      MovedRun(trace, state, InsertEffect(id), id, u);
      state, trace := Moved(state, id, u), trace + [Moved(state, id, u)];
    }

    method MarkInboxCommitted(id: int, revision: int, decision: seq<Decided>, subscribers: seq<string>)
      requires Valid() && At(id, Filling(revision, decision, subscribers, |decision| + |subscribers|))
      requires state.tasks[id].message.Parsed?
      modifies this
      ensures Valid() && Grown(old(state), old(trace)) &&
              Same(id, old(state).tasks[id].worker, old(state).tasks[id].message.env)
      ensures At(id, Marked(revision, decision, subscribers))
      ensures Step(old(state), MarkCommitted(id), state)
    {
      hide Inv, Traced, ExecutionText;
      InboxRowHeld(state, id);
      var t := state.tasks[id];
      var row := InboxRow(true, ExecutionText(ExecutionOf(t.message.env, revision)));
      var u := t.(phase := Marked(revision, decision, subscribers),
                  writes := t.writes.(inbox := t.writes.inbox[KeyOf(t.message.env) := row]));
      MovedRun(trace, state, MarkCommitted(id), id, u);
      state, trace := Moved(state, id, u), trace + [Moved(state, id, u)];
    }

    /** tx.Commit; when the reply is lost the caller sees an error although the commit happened. */
    method Commit(id: int, revision: int, decision: seq<Decided>, subscribers: seq<string>, replyLost: bool)
      returns (outcome: Outcome)
      requires Valid() && At(id, Marked(revision, decision, subscribers)) && state.tasks[id].message.Parsed?
      modifies this
      ensures Valid() && Grown(old(state), old(trace)) &&
              Same(id, old(state).tasks[id].worker, old(state).tasks[id].message.env)
      ensures At(id, Returned(outcome)) && (outcome.Failed? <==> replyLost) &&
              (outcome.Failed? ==> outcome.error == StorageFailed)
      ensures Step(old(state), CommitTransaction(id, !replyLost), state)
    {
      hide Inv, Traced, ExecutionText, Merged, CommitRecord;
      var t := state.tasks[id];
      var x := ExecutionText(ExecutionOf(t.message.env, revision));
      outcome := if replyLost then Failed(StorageFailed) else Ok(x);
      state := state.(db := Merged(state.db, t.writes),
                      log := state.log + [CommitRecord(t)],
                      tasks := state.tasks[id := t.(phase := Returned(outcome), writes := NOTHING)]);
      CommitKeeps(old(state), id, !replyLost, state);
      TraceExtends(trace, old(state), CommitTransaction(id, !replyLost), state);
      trace := trace + [state];
    }

    // -------------------------------------------------------------- the routines

    /**
      Between two statements others run. The next statement waits until what it needs is free, or it
      fails: its patience ends, or the connection breaks.
    */
    method Pause(id: int, need: Need) returns (flow: Flow)
      requires Valid() && id in state.tasks && Open(state.tasks[id].phase) && state.tasks[id].message.Parsed?
      modifies this
      ensures Valid() && old(trace) <= trace && Same(id, old(state).tasks[id].worker, old(state).tasks[id].message.env)
      ensures flow.Go? ==> state.tasks[id] == old(state).tasks[id] && Free(state.tasks, id, need)
      ensures flow.Stop? ==> flow.outcome == Failed(StorageFailed) && At(id, Returned(flow.outcome))
    {
      hide Inv, Traced, Step, Extends, Free;
      Yield(id);
      var patience: nat := *;
      while !Free(state.tasks, id, need) && patience > 0
        invariant Valid() && old(trace) <= trace && id in state.tasks && state.tasks[id] == old(state).tasks[id]
        decreases patience
      {
        Yield(id);
        patience := patience - 1;
      }
      flow := Go;
      var broken: bool := *;
      if broken || !Free(state.tasks, id, need) {
        flow := FailStatement(id);
      }
    }

    /** deduplicateEvent. */
    method DeduplicateEvent(id: int) returns (flow: Flow)
      requires Valid() && At(id, Asserted) && state.tasks[id].message.Parsed?
      modifies this
      ensures Valid() && old(trace) <= trace && Same(id, old(state).tasks[id].worker, old(state).tasks[id].message.env)
      ensures Answers(id, flow, Inserted)
      ensures flow.Stop? && flow.outcome.Failed? ==>
                flow.outcome.error == DuplicateInbox || flow.outcome.error == StorageFailed
    {
      hide Inv, Traced, Step, Extends;
      flow := ReadInboxEntry(id);
      if flow.Stop? {
        return;
      }
      flow := Pause(id, InboxKey(KeyOf(state.tasks[id].message.env)));
      if flow.Stop? {
        return;
      }
      var inserted := InsertInboxEntry(id);
      if inserted {
        return;
      }
      flow := Pause(id, Nothing);
      if flow.Stop? {
        return;
      }
      var outcome := ReadConflictingEntry(id);
      flow := Stop(outcome);
    }

    /** loadActiveRevision. */
    method LoadActiveRevision(id: int) returns (flow: Flow, revision: int)
      requires Valid() && At(id, Inserted) && state.tasks[id].message.Parsed?
      modifies this
      ensures Valid() && old(trace) <= trace && Same(id, old(state).tasks[id].worker, old(state).tasks[id].message.env)
      ensures Answers(id, flow, Loaded(revision))
      ensures flow.Stop? ==>
                flow.outcome.Failed? &&
                (flow.outcome.error == RuleNotReady || flow.outcome.error == RuleNotFound ||
                 flow.outcome.error == StorageFailed)
    {
      hide Inv, Traced, Step, Extends;
      revision := 0;
      flow := GetActivation(id);
      if flow.Stop? {
        return;
      }
      flow := Pause(id, Nothing);
      if flow.Stop? {
        return;
      }
      flow, revision := GetActiveRevision(id);
    }

    /** Outbox.Insert: one statement per row, each waiting for or yielding to other transactions. */
    method InsertOutbox(id: int, revision: int, decision: seq<Decided>, subscribers: seq<string>) returns (flow: Flow)
      requires Valid() && At(id, Filling(revision, decision, subscribers, 0)) && state.tasks[id].message.Parsed?
      modifies this
      ensures Valid() && old(trace) <= trace && Same(id, old(state).tasks[id].worker, old(state).tasks[id].message.env)
      ensures Answers(id, flow, Filling(revision, decision, subscribers, |decision| + |subscribers|))
      ensures flow.Stop? ==> flow.outcome == Failed(StorageFailed)
    {
      hide Inv, Traced, Step, Extends, Plan, EffectId, Free;
      ghost var worker := state.tasks[id].worker;
      var env := state.tasks[id].message.env;
      var rows := BuildOutboxRows(env, revision, decision, subscribers);
      flow := Go;
      var next := 0;
      while next < |rows|
        invariant 0 <= next <= |rows| && flow == Go
        invariant Valid() && old(trace) <= trace && Same(id, worker, env)
        invariant At(id, Filling(revision, decision, subscribers, next))
      {
        flow := Pause(id, OutboxId(EffectId(rows[next])));
        if flow.Stop? {
          return;
        }
        InsertOutboxRow(id, revision, decision, subscribers, next, rows[next]);
        next := next + 1;
      }
    }

    /** persistExecutionAndOutbox up to the outbox: the execution row, then the subscribers. */
    method SaveAndListSubscribers(id: int, revision: int, decision: seq<Decided>, subscribers: seq<string>)
      returns (flow: Flow)
      requires Valid() && At(id, Evaluated(revision, decision)) && state.tasks[id].message.Parsed? &&
               Distinct(subscribers)
      modifies this
      ensures Valid() && old(trace) <= trace && Same(id, old(state).tasks[id].worker, old(state).tasks[id].message.env)
      ensures Answers(id, flow, Filling(revision, decision, subscribers, 0))
      ensures flow.Stop? ==> flow.outcome == Failed(StorageFailed) || flow.outcome == Failed(FanOutExceeded)
      ensures flow == Stop(Failed(FanOutExceeded)) ==> |subscribers| > 100
      ensures flow.Go? ==> |subscribers| <= 100
    {
      hide Inv, Traced, Step, Extends, Distinct, ExecutionText, Free;
      flow := Pause(id, ExecutionId(ExecutionText(ExecutionOf(state.tasks[id].message.env, revision))));
      if flow.Stop? {
        return;
      }
      SaveExecutionRow(id, revision, decision);
      flow := Pause(id, Nothing);
      if flow.Stop? {
        return;
      }
      flow := TakeSubscribers(id, revision, decision, subscribers);
    }

    /** persistExecutionAndOutbox. */
    method PersistExecutionAndOutbox(id: int, revision: int, decision: seq<Decided>, subscribers: seq<string>)
      returns (flow: Flow)
      requires Valid() && At(id, Evaluated(revision, decision)) && state.tasks[id].message.Parsed? &&
               Distinct(subscribers)
      modifies this
      ensures Valid() && old(trace) <= trace && Same(id, old(state).tasks[id].worker, old(state).tasks[id].message.env)
      ensures Answers(id, flow, Marked(revision, decision, subscribers))
      ensures flow.Stop? ==> flow.outcome == Failed(StorageFailed) || flow.outcome == Failed(FanOutExceeded)
      ensures flow == Stop(Failed(FanOutExceeded)) ==> |subscribers| > 100
      ensures flow.Go? ==> |subscribers| <= 100
    {
      hide Inv, Traced, Step, Extends, Distinct, Free;
      flow := SaveAndListSubscribers(id, revision, decision, subscribers);
      if flow.Stop? {
        return;
      }
      flow := InsertOutbox(id, revision, decision, subscribers);
      if flow.Stop? {
        return;
      }
      flow := Pause(id, Nothing);
      if flow.Stop? {
        return;
      }
      MarkInboxCommitted(id, revision, decision, subscribers);
    }

    /** The end of processInTransaction: persist, then commit. */
    method PersistAndCommit(id: int, revision: int, decision: seq<Decided>, subscribers: seq<string>)
      returns (outcome: Outcome)
      requires Valid() && At(id, Evaluated(revision, decision)) && state.tasks[id].message.Parsed? &&
               Distinct(subscribers)
      modifies this
      ensures Valid() && old(trace) <= trace && Same(id, old(state).tasks[id].worker, old(state).tasks[id].message.env)
      ensures At(id, Returned(outcome))
      ensures outcome.Failed? ==> outcome.error == FanOutExceeded || outcome.error == StorageFailed
      ensures outcome == Failed(FanOutExceeded) ==> |subscribers| > 100
      ensures |subscribers| > 100 ==> outcome.Failed?
    {
      hide Inv, Traced, Step, Extends, Distinct;
      var flow := PersistExecutionAndOutbox(id, revision, decision, subscribers);
      if flow.Stop? {
        return flow.outcome;
      }
      flow := Pause(id, Nothing);
      if flow.Stop? {
        return flow.outcome;
      }
      var replyLost: bool := *;
      outcome := Commit(id, revision, decision, subscribers, replyLost);
    }

    /** loadActiveRevision and the evaluation of what it finds. */
    method Decide(id: int, env: Envelope, evaluate: (Envelope, int) -> Option<seq<Decided>>)
      returns (flow: Flow, revision: int, decision: seq<Decided>)
      requires Valid() && At(id, Inserted) && state.tasks[id].message == Parsed(env)
      requires forall e, r :: evaluate(e, r).Some? ==> DistinctSources(evaluate(e, r).value)
      modifies this
      ensures Valid() && old(trace) <= trace && Same(id, old(state).tasks[id].worker, env)
      ensures Answers(id, flow, Evaluated(revision, decision))
      ensures flow.Go? ==> evaluate(env, revision) == Some(decision)
      ensures flow.Stop? ==>
                flow.outcome.Failed? &&
                (flow.outcome.error == RuleNotReady || flow.outcome.error == RuleNotFound ||
                 flow.outcome.error == EvaluationFailed || flow.outcome.error == StorageFailed)
      ensures flow == Stop(Failed(EvaluationFailed)) ==> evaluate(env, revision).None?
    {
      hide Inv, Traced, Step, Extends, DistinctSources, Free;
      revision, decision := 0, [];
      flow := Pause(id, Nothing);
      if flow.Stop? {
        return;
      }
      flow, revision := LoadActiveRevision(id);
      if flow.Stop? {
        return;
      }
      var result := evaluate(env, revision);
      flow := EvaluateRules(id, revision, result);
      if flow.Go? {
        decision := result.value;
      }
    }

    /** processInTransaction once the lease is asserted. */
    method ProcessAsserted(id: int, env: Envelope, evaluate: (Envelope, int) -> Option<seq<Decided>>,
                           subscribers: seq<string>) returns (outcome: Outcome)
      requires Valid() && At(id, Asserted) && state.tasks[id].message == Parsed(env) && Distinct(subscribers)
      requires forall e, r :: evaluate(e, r).Some? ==> DistinctSources(evaluate(e, r).value)
      modifies this
      ensures Valid() && old(trace) <= trace && Same(id, old(state).tasks[id].worker, env) && At(id, Returned(outcome))
      ensures outcome.Failed? ==>
                outcome.error == DuplicateInbox || outcome.error == RuleNotReady || outcome.error == RuleNotFound ||
                outcome.error == EvaluationFailed || outcome.error == FanOutExceeded || outcome.error == StorageFailed
      ensures outcome == Failed(FanOutExceeded) ==> |subscribers| > 100
      ensures outcome == Failed(EvaluationFailed) ==> exists revision :: evaluate(env, revision).None?
    {
      hide Inv, Traced, Step, Extends, DistinctSources, Distinct;
      var flow := DeduplicateEvent(id);
      if flow.Stop? {
        return flow.outcome;
      }
      var revision, decision;
      flow, revision, decision := Decide(id, env, evaluate);
      if flow.Stop? {
        return flow.outcome;
      }
      outcome := PersistAndCommit(id, revision, decision, subscribers);
    }

    /** Process's checks, the start of the transaction and the assertion of the lease. */
    method BeginAsserted(id: int, env: Envelope) returns (flow: Flow)
      requires Valid() && At(id, Queued) && state.tasks[id].message == Parsed(env)
      modifies this
      ensures Valid() && old(trace) <= trace && Same(id, old(state).tasks[id].worker, env) &&
              Answers(id, flow, Asserted)
      ensures flow.Stop? ==>
                flow.outcome.Failed? &&
                (flow.outcome.error == InvalidEnvelope || flow.outcome.error == TokenMismatchError ||
                 flow.outcome.error == LeaseExpiredError || flow.outcome.error == NoLeaseRow ||
                 flow.outcome.error == StorageFailed)
      ensures flow == Stop(Failed(InvalidEnvelope)) <==> !ValidEnvelope(env)
      ensures ValidEnvelope(env) && old(state).tasks[id].token <= 0 ==> flow == Stop(Failed(TokenMismatchError))
    {
      hide Inv, Traced, Step, Extends, ValidEnvelope;
      flow := BeginTransaction(id);
      if flow.Stop? {
        return;
      }
      Yield(id);
      flow := AssertHeld(id);
      if flow.Stop? {
        return;
      }
      flow := Pause(id, Nothing);
    }

    /**
      Process: the outcome is an execution only if that execution is the committed one of the event,
      and an error is permanent only for a bad envelope, a missing revision or a failed evaluation.
    */
    method Process(id: int, env: Envelope, evaluate: (Envelope, int) -> Option<seq<Decided>>, subscribers: seq<string>)
      returns (outcome: Outcome)
      requires Valid() && At(id, Queued) && state.tasks[id].message == Parsed(env) && Distinct(subscribers)
      requires forall e, r :: evaluate(e, r).Some? ==> DistinctSources(evaluate(e, r).value)
      modifies this
      ensures Valid() && old(trace) <= trace && Same(id, old(state).tasks[id].worker, env) && At(id, Returned(outcome))
      ensures outcome.Ok? ==> Committed(state.log, KeyOf(env), outcome.execution)
      ensures
        var invalid := env.id == "" || env.kind == "" || env.tenant == "" || env.partition == "" || !env.dated;
        (outcome == Failed(InvalidEnvelope) <==> invalid) &&
        (!invalid && old(state).tasks[id].token <= 0 ==> outcome == Failed(TokenMismatchError))
      ensures outcome == Failed(FanOutExceeded) ==> |subscribers| > 100
      ensures outcome == Failed(EvaluationFailed) ==> exists revision :: evaluate(env, revision).None?
    {
      hide Inv, Traced, Step, Extends, DistinctSources, Distinct, Committed;
      var flow := BeginAsserted(id, env);
      if flow.Stop? {
        return flow.outcome;
      }
      outcome := ProcessAsserted(id, env, evaluate, subscribers);
      if outcome.Ok? {
        OkIsCommitted(state, id);
      }
    }

    // -------------------------------------------------------------- settlement

    /** QuarantineEvent, tried once; when the save fails the delivery is handed back for a retry. */
    method QuarantineEvent(id: int, saves: bool)
      requires Valid() && id in state.tasks
      requires (At(id, Fetched) && state.tasks[id].message.Malformed?) ||
               (state.tasks[id].phase.Returned? && state.tasks[id].phase.outcome.Failed? &&
                IsPermanent(state.tasks[id].phase.outcome.error))
      modifies this
      ensures Valid() && Grown(old(state), old(trace)) && At(id, if saves then Entered else Settled(Retry))
      ensures state.tasks[id].message == old(state).tasks[id].message
      ensures !saves ==> id in state.settled
      ensures
        var t := old(state).tasks[id];
        saves ==> EntryFor(t.message, if t.phase.Returned? then ClassOf(t.phase.outcome.error) else Validation)
                    in state.stored
      ensures Step(old(state), SaveQuarantine(id, saves), state)
    {
      hide Inv, Traced;
      var t := state.tasks[id];
      var entry := EntryFor(t.message, if t.phase.Returned? then ClassOf(t.phase.outcome.error) else Validation);
      if saves {
        state := state.(quarantine := state.quarantine + {entry}, stored := state.stored + {entry},
                        tasks := state.tasks[id := t.(phase := Entered)]);
      } else {
        state := state.(tasks := state.tasks[id := t.(phase := Settled(Retry))], settled := state.settled + [id]);
      }
      QuarantineKeeps(old(state), id, saves, state);
      TraceExtends(trace, old(state), SaveQuarantine(id, saves), state);
      trace := trace + [state];
    }

    /** The ack of a finished or quarantined delivery, or the retry of a transient failure. */
    method SettleDelivery(id: int) returns (how: Settlement)
      requires Valid() && id in state.tasks
      requires At(id, Entered) || (state.tasks[id].phase.Returned? &&
                 (state.tasks[id].phase.outcome.Failed? ==> !IsPermanent(state.tasks[id].phase.outcome.error)))
      modifies this
      ensures Valid() && Grown(old(state), old(trace)) && At(id, Settled(how)) && id in state.settled
      ensures state.tasks[id].message == old(state).tasks[id].message
      ensures how == if old(state).tasks[id].phase.Returned? && old(state).tasks[id].phase.outcome.Failed? then Retry
                     else Ack
      ensures Step(old(state), Settle(id), state)
    {
      hide Inv, Traced;
      var t := state.tasks[id];
      how := if t.phase.Returned? && t.phase.outcome.Failed? then Retry else Ack;
      MovedRun(trace, state, Settle(id), id, t.(phase := Settled(how)));
      state, trace := Moved(state, id, t.(phase := Settled(how))),
                      trace + [Moved(state, id, t.(phase := Settled(how)))];
    }

    /** settleNak of a delivery that is not owned or that the key queue refused. */
    method Nak(id: int)
      requires Valid() && At(id, Fetched) && state.tasks[id].message.Parsed?
      modifies this
      ensures Valid() && Grown(old(state), old(trace)) && At(id, Settled(EventProtocol.Nak)) && id in state.settled
      ensures Same(id, old(state).tasks[id].worker, old(state).tasks[id].message.env)
      ensures Step(old(state), EventProtocol.Reject(id), state)
    {
      hide Inv, Traced;
      var t := state.tasks[id];
      MovedRun(trace, state, Reject(id), id, t.(phase := Settled(EventProtocol.Nak)));
      state, trace := Moved(state, id, t.(phase := Settled(EventProtocol.Nak))),
                      trace + [Moved(state, id, t.(phase := Settled(EventProtocol.Nak)))];
    }

    /** The delivery enters the key queue with whatever shard and token the worker believes in. */
    method Enqueue(id: int, shard: int, token: int)
      requires Valid() && At(id, Fetched) && state.tasks[id].message.Parsed?
      modifies this
      ensures Valid() && Grown(old(state), old(trace)) && At(id, Queued)
      ensures Same(id, old(state).tasks[id].worker, old(state).tasks[id].message.env)
      ensures Step(old(state), Submit(id, shard, token), state)
    {
      hide Inv, Traced;
      var u := state.tasks[id].(shard := shard, token := token, phase := Queued);
      MovedRun(trace, state, Submit(id, shard, token), id, u);
      state, trace := Moved(state, id, u), trace + [Moved(state, id, u)];
    }

    /** settleEventResult with its failure handling: exactly one settlement, an ack only with evidence. */
    method SettleEventResult(id: int, env: Envelope, outcome: Outcome, saves: bool) returns (how: Settlement)
      requires Valid() && At(id, Returned(outcome)) && state.tasks[id].message == Parsed(env)
      modifies this
      ensures Valid() && old(trace) <= trace && At(id, Settled(how)) && state.tasks[id].message == Parsed(env)
      ensures outcome.Ok? ==> how == Ack
      ensures outcome.Failed? ==>
                if outcome.error.InvalidEnvelope? || outcome.error.RuleNotFound? || outcome.error.EvaluationFailed? then
                  (if saves then how == Ack && EntrySaved(state.stored, env, outcome.error) else how == Retry)
                else how == Retry
      ensures how.Ack? ==> Justified(state.log, state.stored, Parsed(env))
    {
      hide Inv, Traced, Step, Justified, ClassOf, EntrySaved;
      Yield(id);
      if outcome.Failed? {
        PermanentErrors(outcome.error);
      }
      if outcome.Failed? && IsPermanent(outcome.error) {
        QuarantineEvent(id, saves);
        if !saves {
          return Retry;
        }
        SavedIsNamed(state.stored, env, outcome.error);
        ghost var stored := state.stored;
        Yield(id);
        SavedStays(stored, state.stored, env, outcome.error);
        stored := state.stored;
        how := SettleDelivery(id);
        SavedStays(stored, state.stored, env, outcome.error);
        AckIsJustified(state, id);
        return;
      }
      how := SettleDelivery(id);
      if how.Ack? {
        AckIsJustified(state, id);
      }
    }

    /** quarantineInvalidDelivery: store first, then acknowledge. */
    method QuarantineInvalidDelivery(id: int, saves: bool) returns (how: Settlement)
      requires Valid() && At(id, Fetched) && state.tasks[id].message.Malformed?
      modifies this
      ensures Valid() && old(trace) <= trace && At(id, Settled(how)) &&
              state.tasks[id].message == old(state).tasks[id].message
      ensures how == if saves then Ack else Retry
      ensures how.Ack? ==> Justified(state.log, state.stored, state.tasks[id].message)
    {
      hide Inv, Traced, Step, Extends, Justified;
      QuarantineEvent(id, saves);
      if !saves {
        return Retry;
      }
      Yield(id);
      how := SettleDelivery(id);
      if how.Ack? {
        AckIsJustified(state, id);
      }
    }

    /**
      submitOwnedDelivery: the delivery is refused if and only if the key queue did not take it. A
      delivery that is refused is in no channel and never will be (KeyQueueOrigins.RefusedStaysUnsent),
      so no worker processes what was handed back.
    */
    method SubmitOwnedDelivery(id: int, env: Envelope, queue: KeyQueueObject.KeyQueue, shard: int, token: int)
      returns (accepted: bool)
      requires Valid() && At(id, Fetched) && state.tasks[id].message == Parsed(env)
      requires queue.Valid() && id !in queue.state.begun && id !in queue.state.submissions
      modifies this, queue
      ensures Valid() && old(trace) <= trace && Same(id, old(state).tasks[id].worker, env)
      ensures queue.Valid() && old(queue.trace) <= queue.trace && id !in queue.state.submissions
      ensures accepted <==> KeyQueueOrigins.WasSent(queue.state.log.sent, id)
      ensures At(id, if accepted then Queued else Settled(EventProtocol.Nak))
    {
      hide Inv, Traced, Step, Extends, KeyQueueOrigins.WasSent,
        KeyQueueSteps.Inv, KeyQueueSteps.Traced, KeyQueueObject.PlacedAt;
      ghost var n;
      accepted, n := queue.Submit(id, KeyQueueSteps.Item(env.partition, id));
      Yield(id);
      if accepted {
        Enqueue(id, shard, token);
      } else {
        Nak(id);
      }
    }

    /**
      processSingleDelivery. It leaves a readable delivery queued if and only if its item is in the key
      queue, and refuses it otherwise; an unreadable one is settled at once, acknowledged only with a
      saved quarantine entry. A queued delivery is settled by the worker turn that takes its item, if one
      does (DeliveryFlow.SettledByOneTurn, DeliveryFlow.SettledIffTaken).
    */
    method ProcessSingleDelivery(id: int, owned: bool, queue: KeyQueueObject.KeyQueue, shard: int, token: int,
                                 saves: bool)
      returns (how: Option<Settlement>)
      requires Valid() && At(id, Fetched)
      requires queue.Valid() && id !in queue.state.begun && id !in queue.state.submissions
      modifies this, queue
      ensures Valid() && old(trace) <= trace && At(id, if how.Some? then Settled(how.value) else Queued)
      ensures state.tasks[id].message == old(state).tasks[id].message
      ensures queue.Valid() && old(queue.trace) <= queue.trace
      ensures old(state).tasks[id].message.Malformed? ==>
                how == Some(if saves then Ack else Retry) &&
                (saves ==> Justified(state.log, state.stored, old(state).tasks[id].message))
      ensures old(state).tasks[id].message.Parsed? ==>
                how == (if KeyQueueOrigins.WasSent(queue.state.log.sent, id) then None else Some(EventProtocol.Nak)) &&
                (!owned ==> how.Some?)
    {
      hide Inv, Traced, Step, Extends, Justified, KeyQueueOrigins.WasSent, KeyQueueSteps.Inv, KeyQueueSteps.Traced;
      match state.tasks[id].message {
        case Malformed(_) =>
          var settled := QuarantineInvalidDelivery(id, saves);
          how := Some(settled);
        case Parsed(env) =>
          if owned {
            var accepted := SubmitOwnedDelivery(id, env, queue, shard, token);
            how := if accepted then None else Some(EventProtocol.Nak);
          } else {
            KeyQueueObject.UnbegunIsUnsent(queue.trace, queue.state, id);
            Nak(id);
            how := Some(EventProtocol.Nak);
          }
      }
    }

    /**
      processDelivery, the processor of the key queue, for the item that KeyQueue.TakeNext returned. Its
      delivery is queued (DeliveryFlow.TakenIsQueued). It ends settled, never refused, and acknowledged
      only with a committed execution or a saved quarantine entry.
    */
    method ProcessDelivery(item: KeyQueueSteps.Item, env: Envelope, saves: bool,
                           evaluate: (Envelope, int) -> Option<seq<Decided>>, subscribers: seq<string>)
      returns (outcome: Outcome, how: Settlement)
      requires Valid() && At(item.submission, Queued) && state.tasks[item.submission].message == Parsed(env)
      requires env.partition == item.key && Distinct(subscribers)
      requires forall e, r :: evaluate(e, r).Some? ==> DistinctSources(evaluate(e, r).value)
      modifies this
      ensures Valid() && old(trace) <= trace && At(item.submission, Settled(how)) && !how.Nak?
      ensures state.tasks[item.submission].message == Parsed(env)
      ensures outcome.Ok? ==> how == Ack
      ensures outcome.Failed? ==>
                if outcome.error.InvalidEnvelope? || outcome.error.RuleNotFound? || outcome.error.EvaluationFailed? then
                  (if saves then how == Ack && EntrySaved(state.stored, env, outcome.error) else how == Retry)
                else how == Retry
      ensures how.Ack? ==> Justified(state.log, state.stored, Parsed(env))
    {
      hide Inv, Traced, Step, Extends, Justified, DistinctSources, Distinct, Committed, ValidEnvelope, EntrySaved;
      outcome := Process(item.submission, env, evaluate, subscribers);
      how := SettleEventResult(item.submission, env, outcome, saves);
    }
  }
}
