/**
  Progress of event processing: a delivery that nothing disturbs is committed by its own steps.
*/
module EventProgress {
  import opened Identity
  import opened Leases
  import opened EventProtocol
  import opened EventSafety
  import opened EventService

  /** `t` is reached from `s` in `n` steps. */
  ghost predicate Reaches(s: State, t: State, n: nat)
    decreases n
  {
    if n == 0 then s == t else exists u :: Reaches(s, u, n - 1) && Next(u, t)
  }

  /** No other delivery has uncommitted writes. */
  ghost predicate Alone(s: State, id: int) {
    forall o | o in s.tasks && o != id :: s.tasks[o].writes == NOTHING
  }

  predicate SameHolder(t: Task, u: Task) {
    t.worker == u.worker && t.shard == u.shard && t.token == u.token
  }

  /** The state in which delivery `id` is as given and nothing else has changed since `s`. */
  ghost predicate Only(s: State, id: int, u: Task, t: State) {
    id in s.tasks && !s.tasks[id].phase.Settled? && !u.phase.Settled? && SameHolder(s.tasks[id], u) &&
    t == s.(tasks := s.tasks[id := u])
  }

  /** One own step of the delivery, from a state that differs from `s` only in the delivery. */
  lemma Advance(s: State, id: int, t: State, n: nat, a: Action, u: Task) returns (t': State)
    requires Inv(t) && Reaches(s, t, n) && id in t.tasks && Only(s, id, t.tasks[id], t)
    requires TaskAction(a) && a.id == id && TaskStep(t, a, id, t.tasks[id], u) && !u.phase.Settled?
    requires SameHolder(t.tasks[id], u)
    ensures Inv(t') && Reaches(s, t', n + 1) && Only(s, id, u, t') && id in t'.tasks && t'.tasks[id] == u
  {
    hide Inv, TaskStep;
    t' := Moved(t, id, u);
    MovedStep(t, a, id, u);
    assert Next(t, t');
    assert t'.tasks == s.tasks[id := u];
  }

  lemma AloneStays(s: State, id: int, u: Task, t: State, k: Key, x: string)
    requires Alone(s, id) && Only(s, id, u, t)
    ensures InboxFree(t.tasks, id, k) && ExecutionFree(t.tasks, id, x) && EffectFree(t.tasks, id, x)
  {
  }

  /** Where a delivery stands after it has been asserted and has inserted its inbox row. */
  lemma ToInserted(s: State, id: int, env: Envelope) returns (t: State)
    requires Inv(s) && Alone(s, id) && id in s.tasks && s.tasks[id].phase == Queued &&
             s.tasks[id].message == Parsed(env)
    requires s.tasks[id].writes == NOTHING && ValidEnvelope(env) && s.tasks[id].token > 0 && KeyOf(env) !in s.db.inbox
    requires Renewable(s.leases, s.tasks[id].shard, s.tasks[id].worker, s.tasks[id].token, s.now)
    ensures Inv(t) && Reaches(s, t, 4) && id in t.tasks && Only(s, id, t.tasks[id], t)
    ensures t.tasks[id] == s.tasks[id].(phase := Inserted, begun := s.now,
                                        writes := NOTHING.(inbox := map[KeyOf(env) := InboxRow(false, "")]))
  {
    hide Inv, Only, Reaches, ValidEnvelope;
    StartsOnly(s, id);
    t := Advance(s, id, s, 0, Begin(id), s.tasks[id].(phase := Begun, begun := s.now));
    OnlyShares(s, id, t);
    t := Advance(s, id, t, 1, AssertLease(id, s.now), t.tasks[id].(phase := Asserted));
    OnlyShares(s, id, t);
    t := Advance(s, id, t, 2, ReadInbox(id), t.tasks[id].(phase := Missed));
    OnlyShares(s, id, t);
    AloneStays(s, id, t.tasks[id], t, KeyOf(env), "");
    t := Advance(s, id, t, 3, InsertInbox(id),
                 t.tasks[id].(phase := Inserted, writes := NOTHING.(inbox := map[KeyOf(env) := InboxRow(false, "")])));
  }

  lemma StartsOnly(s: State, id: int)
    requires id in s.tasks && !s.tasks[id].phase.Settled?
    ensures Only(s, id, s.tasks[id], s) && Reaches(s, s, 0)
  {
    assert s.tasks[id := s.tasks[id]] == s.tasks;
  }

  lemma OnlyShares(s: State, id: int, t: State)
    requires id in t.tasks && Only(s, id, t.tasks[id], t)
    ensures t.db == s.db && t.leases == s.leases && t.rules == s.rules && t.now == s.now && t.log == s.log
    ensures id in s.tasks && SameHolder(s.tasks[id], t.tasks[id])
  {
  }

  /** From the inbox row to the decision. */
  lemma ToEvaluated(s: State, id: int, env: Envelope, t0: State, revision: int, d: seq<Decided>) returns (t: State)
    requires Inv(t0) && Reaches(s, t0, 4) && id in t0.tasks && Only(s, id, t0.tasks[id], t0)
    requires t0.tasks[id].phase == Inserted && t0.tasks[id].message == Parsed(env) && DistinctSources(d)
    requires Active(s.rules, env, revision)
    ensures Inv(t) && Reaches(s, t, 7) && id in t.tasks && Only(s, id, t.tasks[id], t)
    ensures t.tasks[id].phase == Evaluated(revision, d) && t.tasks[id].message == Parsed(env)
  {
    hide Inv, Only, Reaches, DistinctSources;
    OnlyShares(s, id, t0);
    t := Advance(s, id, t0, 4, LoadActivation(id), t0.tasks[id].(phase := Activated));
    OnlyShares(s, id, t);
    t := Advance(s, id, t, 5, LoadRevision(id), t.tasks[id].(phase := Loaded(revision)));
    OnlyShares(s, id, t);
    t := Advance(s, id, t, 6, Evaluate(id, Some(d)), t.tasks[id].(phase := Evaluated(revision, d)));
  }

  /** From the decision to the execution row. */
  lemma ToSaved(s: State, id: int, env: Envelope, t0: State, revision: int, d: seq<Decided>) returns (t: State)
    requires Alone(s, id) && Inv(t0) && Reaches(s, t0, 7) && id in t0.tasks && Only(s, id, t0.tasks[id], t0)
    requires t0.tasks[id].phase == Evaluated(revision, d) && t0.tasks[id].message == Parsed(env)
    ensures Inv(t) && Reaches(s, t, 8) && id in t.tasks && Only(s, id, t.tasks[id], t)
    ensures t.tasks[id].phase == Saved(revision, d) && t.tasks[id].message == Parsed(env)
  {
    hide Inv, Only, Reaches, ExecutionText;
    OnlyShares(s, id, t0);
    var task := t0.tasks[id];
    var x := ExecutionOf(env, revision);
    AloneStays(s, id, task, t0, KeyOf(env), ExecutionText(x));
    var writes := if ExecutionText(x) in s.db.executions then task.writes
                  else task.writes.(executions := task.writes.executions[ExecutionText(x) := x]);
    t := Advance(s, id, t0, 7, SaveExecution(id), task.(phase := Saved(revision, d), writes := writes));
  }

  predicate Active(rules: Catalog, env: Envelope, revision: int) {
    var k := Key(env.tenant, env.kind);
    k in rules.active && rules.active[k] == revision && (k, revision) in rules.revisions
  }

  /** The insert loop runs to its end. */
  lemma {:induction false} FillUp(s: State, id: int, env: Envelope, t0: State, n: nat,
                                  revision: int, d: seq<Decided>, subs: seq<string>, next: nat)
    returns (t: State, m: nat)
    requires Alone(s, id) && Inv(t0) && Reaches(s, t0, n) && id in t0.tasks && Only(s, id, t0.tasks[id], t0)
    requires next <= |d| + |subs| && t0.tasks[id].phase == Filling(revision, d, subs, next) &&
             t0.tasks[id].message == Parsed(env)
    ensures Inv(t) && Reaches(s, t, m) && id in t.tasks && Only(s, id, t.tasks[id], t)
    ensures t.tasks[id].phase == Filling(revision, d, subs, |d| + |subs|) && t.tasks[id].message == Parsed(env)
    decreases |d| + |subs| - next
  {
    hide Inv, Only, Reaches, EffectId, Plan;
    if next == |d| + |subs| {
      t, m := t0, n;
    } else {
      OnlyShares(s, id, t0);
      var row := Plan(env, revision, d, subs)[next];
      AloneStays(s, id, t0.tasks[id], t0, KeyOf(env), EffectId(row));
      var u := t0.tasks[id].(phase := Filling(revision, d, subs, next + 1),
                 writes := t0.tasks[id].writes.(
                   outbox := InsertedEffect(t0.db.outbox.Keys, t0.tasks[id].writes.outbox, row)));
      t := Advance(s, id, t0, n, InsertEffect(id), u);
      t, m := FillUp(s, id, env, t, n + 1, revision, d, subs, next + 1);
    }
  }

  /** From the execution row to the marked inbox row. */
  lemma ToMarked(s: State, id: int, env: Envelope, t0: State, n: nat, revision: int, d: seq<Decided>, subs: seq<string>)
    returns (t: State, m: nat)
    requires Alone(s, id) && Inv(t0) && Reaches(s, t0, n) && id in t0.tasks && Only(s, id, t0.tasks[id], t0)
    requires t0.tasks[id].phase == Saved(revision, d) && t0.tasks[id].message == Parsed(env)
    requires Distinct(subs) && |subs| <= FANOUT_LIMIT
    ensures Inv(t) && Reaches(s, t, m) && id in t.tasks && Only(s, id, t.tasks[id], t)
    ensures t.tasks[id].phase == Marked(revision, d, subs) && t.tasks[id].message == Parsed(env)
  {
    hide Inv, Only, Reaches, Distinct, ExecutionText;
    t := Advance(s, id, t0, n, ListSubscribers(id, subs), t0.tasks[id].(phase := Filling(revision, d, subs, 0)));
    t, m := FillUp(s, id, env, t, n + 1, revision, d, subs, 0);
    InboxRowHeld(t, id);
    var row := InboxRow(true, ExecutionText(ExecutionOf(env, revision)));
    var u := t.tasks[id].(phase := Marked(revision, d, subs),
                          writes := t.tasks[id].writes.(inbox := t.tasks[id].writes.inbox[KeyOf(env) := row]));
    t := Advance(s, id, t, m, MarkCommitted(id), u);
    m := m + 1;
  }

  lemma ToCommitted(s: State, id: int, t0: State, n: nat) returns (t: State)
    requires Inv(t0) && Reaches(s, t0, n) && id in t0.tasks && t0.tasks[id].phase.Marked? &&
             t0.tasks[id].message.Parsed?
    ensures Inv(t) && Reaches(s, t, n + 1) && Committing(t0, id, true, t)
  {
    hide Inv, ExecutionText, Merged, CommitRecord;
    var task := t0.tasks[id];
    var x := ExecutionText(ExecutionOf(task.message.env, task.phase.revision));
    t := t0.(db := Merged(t0.db, task.writes), log := t0.log + [CommitRecord(task)],
             tasks := t0.tasks[id := task.(phase := Returned(Ok(x)), writes := NOTHING)]);
    CommitKeeps(t0, id, true, t);
    assert Step(t0, CommitTransaction(id, true), t);
    assert Next(t0, t);
  }

  /**
    A queued delivery of a new, valid event on a held lease with an active rule set reaches, by its own
    steps alone, a state in which its event has been committed with the decision and the subscribers
    it met, and the delivery is answered with that execution.
  */
  lemma UndisturbedDeliveryCommits(s: State, id: int, env: Envelope, revision: int, d: seq<Decided>, subs: seq<string>)
    returns (t: State, n: nat)
    requires Inv(s) && Alone(s, id) && id in s.tasks && s.tasks[id].phase == Queued &&
             s.tasks[id].message == Parsed(env)
    requires s.tasks[id].writes == NOTHING && ValidEnvelope(env) && s.tasks[id].token > 0 && KeyOf(env) !in s.db.inbox
    requires Renewable(s.leases, s.tasks[id].shard, s.tasks[id].worker, s.tasks[id].token, s.now)
    requires Active(s.rules, env, revision) && DistinctSources(d) && Distinct(subs) && |subs| <= FANOUT_LIMIT
    ensures Inv(t) && Reaches(s, t, n) && id in t.tasks
    ensures t.tasks[id].phase == Returned(Ok(ExecutionText(ExecutionOf(env, revision))))
    ensures |t.log| == |s.log| + 1 && s.log <= t.log
    ensures
      var c := t.log[|s.log|];
      c.env == env && c.revision == revision && c.decision == d && c.subscribers == subs &&
      c.worker == s.tasks[id].worker && c.shard == s.tasks[id].shard && c.token == s.tasks[id].token
  {
    hide Inv, Only, Reaches, Alone, ValidEnvelope, Renewable, Active, DistinctSources, Distinct, ExecutionText, Merged;
    var inserted := ToInserted(s, id, env);
    var decided := ToEvaluated(s, id, env, inserted, revision, d);
    var saved := ToSaved(s, id, env, decided, revision, d);
    var marked, m := ToMarked(s, id, env, saved, 8, revision, d, subs);
    t := ToCommitted(s, id, marked, m);
    n := m + 1;
    OnlyShares(s, id, marked);
  }
}
