/**
  A run in which the reply of a quarantine statement is lost: the effect is quarantined, and the
  publisher deletes the entry it had saved for it.
*/
module OutboxWitness {
  import opened OutboxProtocol

  /** The effect waits for its next attempt, `token` was not used yet, and there is no entry. */
  predicate Waiting(s: State, id: string, attempts: int, token: int) {
    id in s.rows && s.rows[id].status.Pending? && s.rows[id].attempts == attempts && s.rows[id].max == MAX_ATTEMPTS &&
    (forall x | x in s.batches :: x < token) && s.entries == map[] && s.log.made == {} && s.log.removed == {}
  }

  /** A batch has claimed the effect alone, and its send failed. */
  function SendHasFailed(s: State, id: string, token: int): State
    requires id in s.rows
  {
    var r := s.rows[id];
    s.(rows := s.rows[id := r.(status := Claimed(token, r.available, r.available + 1))],
       batches := s.batches[token := Batch(r.available, 1, [Snapshot(id, r.attempts, r.max)], SendFailed)],
       log := s.log.(claims := s.log.claims[id := Claims(s.log.claims, id) + [token]]))
  }

  lemma FailSend(run: seq<State>, s: State, id: string, token: int) returns (longer: seq<State>)
    requires Traced(run, s) && id in s.rows && s.rows[id].status.Pending? && token !in s.batches
    ensures Traced(longer, SendHasFailed(s, id, token))
  {
    hide Run, Moves;
    var r := s.rows[id];
    var snapshot := Snapshot(id, r.attempts, r.max);
    var begun := s.(batches := s.batches[token := Batch(r.available, 1, [], Claiming)]);
    TraceExtends(run, s, Begin(token, r.available, 1), begun);
    var claimed := SendHasFailed(s, id, token).(
      batches := s.batches[token := Batch(r.available, 1, [snapshot], Claiming)]);
    assert [] + [snapshot] == [snapshot];
    assert begun.batches[token := Batch(r.available, 1, [snapshot], Claiming)] == claimed.batches;
    TraceExtends(run + [begun], begun, ClaimOne(token, id), claimed);
    var ready := claimed.(batches := s.batches[token := Batch(r.available, 1, [snapshot], Ready)]);
    assert claimed.batches[token := Batch(r.available, 1, [snapshot], Ready)] == ready.batches;
    TraceExtends(run + [begun] + [claimed], claimed, Start(token), ready);
    var failed := SendHasFailed(s, id, token);
    assert ready.batches[token := Batch(r.available, 1, [snapshot], SendFailed)] == failed.batches;
    TraceExtends(run + [begun] + [claimed] + [ready], ready, Send(token, false), failed);
    longer := run + [begun] + [claimed] + [ready] + [failed];
  }

  lemma FailOnce(run: seq<State>, s: State, id: string, attempts: int, token: int)
    returns (longer: seq<State>, t: State)
    requires Traced(run, s) && Waiting(s, id, attempts, token) && attempts + 1 < MAX_ATTEMPTS
    ensures Traced(longer, t) && Waiting(t, id, attempts + 1, token + 1)
  {
    hide Run, Moves, Delay;
    longer := FailSend(run, s, id, token);
    var failed := SendHasFailed(s, id, token);
    var at := s.rows[id].available;
    t := failed.(batches := failed.batches[token := Next(failed.batches[token])],
                 rows := failed.rows[id := Retried(failed.rows[id], attempts + 1, at)],
                 log := failed.log.(retries := failed.log.retries[id := Attempts(failed.log.retries, id) + 1]));
    TraceExtends(longer, failed, ScheduleRetry(token, at, true), t);
    longer := longer + [t];
  }

  lemma {:induction false} FailUntilLast(run: seq<State>, s: State, id: string, attempts: int, token: int)
    returns (longer: seq<State>, t: State, last: int)
    requires Traced(run, s) && Waiting(s, id, attempts, token) && attempts < MAX_ATTEMPTS
    ensures Traced(longer, t) && Waiting(t, id, MAX_ATTEMPTS - 1, last)
    decreases MAX_ATTEMPTS - attempts
  {
    hide Waiting, Traced;
    longer, t, last := run, s, token;
    if attempts + 1 < MAX_ATTEMPTS {
      longer, t := FailOnce(run, s, id, attempts, token);
      longer, t, last := FailUntilLast(longer, t, id, attempts + 1, token + 1);
    }
  }

  /** The last attempt has failed: the entry is saved, and the quarantine statement takes effect without a reply. */
  lemma LoseReply(run: seq<State>, s: State, id: string, token: int, entry: string)
    returns (longer: seq<State>, t: State)
    requires Traced(run, s) && Waiting(s, id, MAX_ATTEMPTS - 1, token)
    ensures Traced(longer, t) && t.entries == map[entry := id] && entry !in t.log.removed
    ensures id in t.rows && t.rows[id].status.Quarantined? && id in t.log.via && t.log.via[id] == entry
    ensures id in t.log.lost
    ensures token in t.batches && t.batches[token].phase == Undo(entry) && t.batches[token].todo != []
  {
    hide Run, Moves, Claims, Delay, Attempts;
    longer := FailSend(run, s, id, token);
    var failed := SendHasFailed(s, id, token);
    var b := failed.batches[token];
    var saved := failed.(batches := failed.batches[token := b.(phase := Entered(entry))],
                         entries := map[entry := id], log := failed.log.(made := {entry}));
    TraceExtends(longer, failed, SaveEntry(token, entry, true, true), saved);
    t := saved.(batches := saved.batches[token := b.(phase := Undo(entry))],
                rows := saved.rows[id := saved.rows[id].(status := Quarantined)],
                log := saved.log.(via := saved.log.via[id := entry], lost := saved.log.lost + {id}));
    TraceExtends(longer + [saved], saved, Quarantine(token, b.at, true, false), t);
    longer := longer + [saved] + [t];
  }

  /** The publisher deletes the entry. */
  lemma DeleteIt(run: seq<State>, s: State, token: int, entry: string) returns (t: State)
    requires Traced(run, s) && entry in s.entries && token in s.batches
    requires s.batches[token].phase == Undo(entry) && s.batches[token].todo != []
    ensures Traced(run + [t], t) && entry !in t.entries && t.rows == s.rows && t.log == s.log
  {
    hide Run, Moves, Claims, Delay, Attempts;
    t := s.(batches := s.batches[token := Next(s.batches[token])], entries := s.entries - {entry});
    TraceExtends(run, s, DeleteEntry(token, true), t);
  }

  /**
    For every effect and every entry identity there is a run that ends with the effect quarantined and
    its entry gone, though no operator deleted it.
  */
  lemma LostReplyDeletesEntry(id: string, entry: string) returns (run: seq<State>)
    ensures Run(run)
    ensures
      var t := run[|run| - 1];
      id in t.rows && t.rows[id].status.Quarantined? && id in t.log.via && t.log.via[id] == entry &&
      entry !in t.entries && entry !in t.log.removed && id in t.log.lost
  {
    hide Moves, Step;
    var empty := State(map[], map[], map[], Log(map[], {}, map[], map[], {}, {}, {}));
    var inserted := empty.(rows := map[id := Row(Pending, 0, MAX_ATTEMPTS, 0, 0)]);
    InsertFirst(empty, id, inserted);
    var last, t, token := FailUntilLast([empty, inserted], inserted, id, 0, 0);
    last, t := LoseReply(last, t, id, token, entry);
    t := DeleteIt(last, t, token, entry);
    run := last + [t];
  }

  lemma InsertFirst(empty: State, id: string, inserted: State)
    requires Init(empty) && inserted == empty.(rows := map[id := Row(Pending, 0, MAX_ATTEMPTS, 0, 0)])
    ensures Traced([empty, inserted], inserted)
  {
    assert Step(empty, Insert(id, 0), inserted);
    TraceExtends([empty], empty, Insert(id, 0), inserted);
    assert [empty] + [inserted] == [empty, inserted];
  }
}
