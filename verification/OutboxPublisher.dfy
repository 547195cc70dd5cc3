/**
  The publisher as the object that runs batches. Each statement is proved to be a step of the
  transition system; PublishBatch is the source's loop, with `Yield` wherever other publishers may
  run, and with nondeterministic sends, clock readings and statement failures. The ghost `trace` is
  the run so far, extended by every method and every `Yield`; its last state is the object's.
*/
module OutboxPublisher {
  import opened OutboxProtocol
  import opened OutboxSafety
  import opened OutboxClaims

  /** Final rows stay and retry counts only grow. */
  ghost predicate Progress(s: State, t: State) {
    (forall id | id in s.rows && Final(s.rows[id]) :: id in t.rows && t.rows[id] == s.rows[id]) &&
    (forall id: string :: Attempts(s.log.retries, id) <= Attempts(t.log.retries, id))
  }

  lemma StepProgress(s: State, a: Action, t: State)
    requires Step(s, a, t)
    ensures Progress(s, t)
  {
    hide Step, Final;
    forall id | id in s.rows && Final(s.rows[id])
      ensures id in t.rows && t.rows[id] == s.rows[id]
    {
      StepAbsorbs(s, a, t, id);
    }
    forall id: string
      ensures Attempts(s.log.retries, id) <= Attempts(t.log.retries, id)
    {
      RetriesGrow(s, a, t, id);
    }
  }

  lemma RetriesGrow(s: State, a: Action, t: State, id: string)
    requires Step(s, a, t)
    ensures Attempts(s.log.retries, id) <= Attempts(t.log.retries, id)
  {
    hide Claims, Delay;
  }

  lemma ProgressChains(s: State, t: State, u: State)
    requires Progress(s, t) && Progress(t, u)
    ensures Progress(s, u)
  {
    hide Attempts, Final;
    forall id | id in s.rows && Final(s.rows[id])
      ensures id in u.rows && u.rows[id] == s.rows[id]
    {
      assert id in t.rows && t.rows[id] == s.rows[id];
    }
  }

  /** A step keeps the invariant, makes the run one state longer and undoes nothing. */
  lemma Recorded(run: seq<State>, s: State, a: Action, t: State)
    requires Inv(s) && Traced(run, s) && Step(s, a, t)
    ensures Inv(t) && Traced(run + [t], t) && Progress(s, t)
  {
    hide Inv, Traced, Step, Progress;
    StepKeepsInv(s, a, t);
    TraceExtends(run, s, a, t);
    StepProgress(s, a, t);
  }

  /** What other publishers, event commits and operators may do between two steps of a batch. */
  lemma OthersInterfere(run: seq<State>, s: State, a: Action, t: State, token: int)
    requires Inv(s) && Traced(run, s) && Step(s, a, t) && token in s.batches
    requires a.Insert? || a.OperatorDeletes? || a.token != token
    ensures Inv(t) && Traced(run + [t], t) && Progress(s, t)
    ensures token in t.batches && t.batches[token] == s.batches[token]
  {
    hide Inv, Traced, Step, Progress;
    Recorded(run, s, a, t);
    OthersLeaveBatch(s, a, t, token);
  }

  lemma OthersLeaveBatch(s: State, a: Action, t: State, token: int)
    requires Step(s, a, t) && token in s.batches
    requires a.Insert? || a.OperatorDeletes? || a.token != token
    ensures token in t.batches && t.batches[token] == s.batches[token]
  {
    hide Claims, Delay, Attempts;
  }

  /** The row is claimed under the token, and the claim runs out after the reading. */
  predicate HeldUntilAfter(rows: map<string, Row>, id: string, token: int, at: int) {
    id in rows && rows[id].status.Claimed? && rows[id].status.holder == token && at < rows[id].status.expires
  }

  /** The effect was delivered, quarantined, or scheduled for another try since `before`. */
  ghost predicate Handled(before: State, now: State, id: string) {
    (id in now.rows && Final(now.rows[id])) || Attempts(before.log.retries, id) < Attempts(now.log.retries, id)
  }

  lemma HandledStays(before: State, s: State, t: State, id: string)
    requires Handled(before, s, id) && Progress(s, t)
    ensures Handled(before, t, id)
  {
    hide Attempts;
  }

  class Publisher {
    var state: State
    ghost var trace: seq<State>

    ghost predicate Valid()
      reads this
    {
      Inv(state) && Traced(trace, state)
    }

    constructor ()
      ensures Init(state) && Valid()
    {
      state := State(map[], map[], map[], Log(map[], {}, map[], map[], {}, {}, {}));
      trace := [];
      new;
      trace := [state];
      InitInv(state);
    }

    ghost predicate At(token: int, b: Batch)
      reads this
    {
      token in state.batches && state.batches[token] == b
    }

    method Yield(ghost token: int)
      requires Valid() && token in state.batches
      modifies this
      ensures Valid() && At(token, old(state).batches[token]) && Progress(old(state), state) && old(trace) <= trace
    {
    }

    /**
      ClaimPending as a loop of single claims at one clock reading. Each effect was, in some state during
      the call, the first claimable one in order; and if fewer than `n` were claimed, none was left in
      some state during the call.
    */
    method ClaimPending(token: int, rank: Rank, at: int, ttl: int, n: nat) returns (claimed: seq<Snapshot>)
      requires Valid() && token !in state.batches && ttl > 0
      requires forall x: string, y: string | x != y :: rank(x) != rank(y)
      modifies this
      ensures Valid() && At(token, Batch(at, ttl, claimed, Ready)) && |claimed| <= n
      ensures Progress(old(state), state) && old(trace) <= trace
      ensures forall i | 0 <= i < |claimed| :: WasFirst(trace, |old(trace)|, rank, at, claimed[i].id)
      ensures |claimed| < n ==> RanOut(trace, |old(trace)|, at)
    {
      hide Inv, Traced, Progress, WasFirst, RanOut, Due, NoLater;
      claimed := [];
      ghost var before := state;
      state := state.(batches := state.batches[token := Batch(at, ttl, [], Claiming)]);
      Recorded(trace, before, Begin(token, at, ttl), state);
      trace := trace + [state];
      while |claimed| < n
        invariant |claimed| <= n && Valid() && At(token, Batch(at, ttl, claimed, Claiming))
        invariant Progress(before, state) && old(trace) < trace
        invariant forall i | 0 <= i < |claimed| :: WasFirst(trace, |old(trace)|, rank, at, claimed[i].id)
      {
        ghost var was, run := state, trace;
        LastOf(trace, state);
        var found, id := FindFirst(state.rows, rank, at);
        if !found {
          NowRanOut(trace, |old(trace)|, at);
          break;
        }
        NowFirst(trace, |old(trace)|, rank, at, id);
        claimed := ClaimFound(token, id, at, ttl, claimed);
        ProgressChains(before, was, state);
        was := state;
        Yield(token);
        ProgressChains(before, was, state);
        FirstsStay(run, trace, |old(trace)|, rank, at, claimed);
      }
      ghost var was, run := state, trace;
      state := state.(batches := state.batches[token := Batch(at, ttl, claimed, Ready)]);
      Recorded(trace, was, Start(token), state);
      trace := trace + [state];
      ProgressChains(before, was, state);
      FirstsStay(run, trace, |old(trace)|, rank, at, claimed);
      RanOutStays(run, trace, |old(trace)|, at);
    }

    /** The update of one find-and-update. */
    method ClaimFound(token: int, id: string, at: int, ttl: int, claimed: seq<Snapshot>) returns (more: seq<Snapshot>)
      requires Valid() && At(token, Batch(at, ttl, claimed, Claiming)) && id in state.rows &&
               Claimable(state.rows[id], at)
      modifies this
      ensures Valid() && Progress(old(state), state) && old(trace) <= trace && At(token, Batch(at, ttl, more, Claiming))
      ensures |more| == |claimed| + 1 && claimed <= more && more[|claimed|].id == id
      ensures Step(old(state), ClaimOne(token, id), state)
    {
      hide Inv, Traced, Progress;
      var r := state.rows[id];
      more := claimed + [Snapshot(id, r.attempts, r.max)];
      state := state.(rows := state.rows[id := r.(status := Claimed(token, at, at + ttl))],
                      batches := state.batches[token := Batch(at, ttl, more, Claiming)],
                      log := state.log.(claims := state.log.claims[id := Claims(state.log.claims, id) + [token]]));
      Recorded(trace, old(state), ClaimOne(token, id), state);
      trace := trace + [state];
    }

    /** effectSender.Send. */
    method SendEffect(token: int, b: Batch, ok: bool)
      requires Valid() && At(token, b) && b.phase.Ready? && b.todo != []
      modifies this
      ensures Valid() && Progress(old(state), state) && old(trace) <= trace &&
              At(token, b.(phase := if ok then Sent else SendFailed))
      ensures Step(old(state), Send(token, ok), state)
    {
      hide Inv, Traced, Progress;
      state := state.(batches := state.batches[token := b.(phase := if ok then Sent else SendFailed)],
                      log := if ok then state.log.(sent := state.log.sent + {b.todo[0].id}) else state.log);
      Recorded(trace, old(state), Send(token, ok), state);
      trace := trace + [state];
    }

    /**
      MarkDelivered for one effect; its reply can be lost after it took effect. No error means the row is
      delivered.
    */
    method MarkDelivered(token: int, b: Batch, at: int, executed: bool, replyLost: bool) returns (failed: bool)
      requires Valid() && At(token, b) && b.phase.Sent? && b.todo != [] && at >= b.at
      modifies this
      ensures Valid() && Progress(old(state), state) && old(trace) <= trace && At(token, Next(b))
      ensures failed <==> replyLost || !(executed && HeldUntilAfter(old(state).rows, b.todo[0].id, token, at))
      ensures
        var id := b.todo[0].id;
        if executed && HeldUntilAfter(old(state).rows, id, token, at) then
          state.rows == old(state).rows[id := old(state).rows[id].(status := Delivered)]
        else state.rows == old(state).rows
      ensures Step(old(state), OutboxProtocol.MarkDelivered(token, at, executed), state)
    {
      hide Inv, Traced, Progress;
      var id := b.todo[0].id;
      var took := Takes(state.rows, id, token, at, executed);
      failed := replyLost || !took;
      state := state.(batches := state.batches[token := Next(b)],
                      rows := if took then state.rows[id := state.rows[id].(status := Delivered)] else state.rows);
      Recorded(trace, old(state), OutboxProtocol.MarkDelivered(token, at, executed), state);
      trace := trace + [state];
    }

    /**
      ScheduleRetry; its reply can be lost after it took effect. No error means the attempt was counted
      and the row is pending again.
    */
    method ScheduleRetry(token: int, b: Batch, at: int, executed: bool, replyLost: bool) returns (failed: bool)
      requires Valid() && At(token, b) && b.phase.SendFailed? && b.todo != [] && at >= b.at
      requires b.todo[0].attempts + 1 < b.todo[0].max
      modifies this
      ensures Valid() && Progress(old(state), state) && old(trace) <= trace && At(token, Next(b))
      ensures failed <==> replyLost || !(executed && HeldUntilAfter(old(state).rows, b.todo[0].id, token, at))
      ensures
        var e := b.todo[0];
        if executed && HeldUntilAfter(old(state).rows, e.id, token, at) then
          state.rows == old(state).rows[e.id := Retried(old(state).rows[e.id], e.attempts + 1, at)] &&
          Handled(old(state), state, e.id)
        else state.rows == old(state).rows
      ensures Step(old(state), OutboxProtocol.ScheduleRetry(token, at, executed), state)
    {
      hide Inv, Traced, Progress, Delay;
      var e := b.todo[0];
      var took := Takes(state.rows, e.id, token, at, executed);
      failed := replyLost || !took;
      state := state.(batches := state.batches[token := Next(b)],
                      rows := if took then state.rows[e.id := Retried(state.rows[e.id], e.attempts + 1, at)]
                              else state.rows,
                      log := if took then state.log.(
                               retries := state.log.retries[e.id := Attempts(state.log.retries, e.id) + 1])
                             else state.log);
      Recorded(trace, old(state), OutboxProtocol.ScheduleRetry(token, at, executed), state);
      trace := trace + [state];
    }

    /** quarantine.Save under a fresh entry identity. */
    method SaveEntry(token: int, b: Batch, entry: string, executed: bool, reported: bool)
      requires Valid() && At(token, b) && b.phase.SendFailed? && b.todo != [] && b.todo[0].attempts + 1 >= b.todo[0].max
      requires entry !in state.log.made && (reported ==> executed)
      modifies this
      ensures Valid() && Progress(old(state), state) && old(trace) <= trace &&
              At(token, if reported then b.(phase := Entered(entry)) else Next(b))
      ensures Step(old(state), OutboxProtocol.SaveEntry(token, entry, executed, reported), state)
    {
      hide Inv, Traced, Progress;
      state := state.(batches := state.batches[token := if reported then b.(phase := Entered(entry)) else Next(b)],
                      entries := if executed then state.entries[entry := b.todo[0].id] else state.entries,
                      log := state.log.(made := state.log.made + {entry}));
      Recorded(trace, old(state), OutboxProtocol.SaveEntry(token, entry, executed, reported), state);
      trace := trace + [state];
    }

    /** outbox.Quarantine; its reply can be lost after it took effect. */
    method Quarantine(token: int, b: Batch, at: int, executed: bool, replyLost: bool) returns (failed: bool)
      requires Valid() && At(token, b) && b.phase.Entered? && b.todo != [] && at >= b.at
      modifies this
      ensures Valid() && Progress(old(state), state) && old(trace) <= trace &&
              At(token, if failed then b.(phase := Undo(b.phase.entry)) else Next(b))
      ensures failed <==> replyLost || !(executed && HeldUntilAfter(old(state).rows, b.todo[0].id, token, at))
      ensures
        var id := b.todo[0].id;
        if executed && HeldUntilAfter(old(state).rows, id, token, at) then
          state.rows == old(state).rows[id := old(state).rows[id].(status := Quarantined)]
        else state.rows == old(state).rows
      ensures !failed ==> b.todo[0].id in state.rows && state.rows[b.todo[0].id].status.Quarantined?
      ensures Step(old(state), OutboxProtocol.Quarantine(token, at, executed, !failed), state)
    {
      hide Inv, Traced, Progress;
      var id := b.todo[0].id;
      var took := Takes(state.rows, id, token, at, executed);
      failed := !took || replyLost;
      state := state.(batches := state.batches[token := if failed then b.(phase := Undo(b.phase.entry)) else Next(b)],
                      rows := if took then state.rows[id := state.rows[id].(status := Quarantined)] else state.rows,
                      log := if took then state.log.(via := state.log.via[id := b.phase.entry],
                                                     lost := if failed then state.log.lost + {id} else state.log.lost)
                             else state.log);
      Recorded(trace, old(state), OutboxProtocol.Quarantine(token, at, executed, !failed), state);
      trace := trace + [state];
    }

    method DeleteEntry(token: int, b: Batch, executed: bool)
      requires Valid() && At(token, b) && b.phase.Undo? && b.todo != []
      modifies this
      ensures Valid() && Progress(old(state), state) && old(trace) <= trace && At(token, Next(b))
      ensures Step(old(state), OutboxProtocol.DeleteEntry(token, executed), state)
    {
      hide Inv, Traced, Progress;
      state := state.(batches := state.batches[token := Next(b)],
                      entries := if executed then state.entries - {b.phase.entry} else state.entries);
      Recorded(trace, old(state), OutboxProtocol.DeleteEntry(token, executed), state);
      trace := trace + [state];
    }

    /** An effect whose attempts are used up: save an entry, mark the row, undo the entry if that failed. */
    method GiveUp(token: int, b: Batch, entry: string) returns (failed: bool)
      requires Valid() && At(token, b) && b.phase.SendFailed? && b.todo != [] && b.todo[0].attempts + 1 >= b.todo[0].max
      requires entry !in state.log.made
      modifies this
      ensures Valid() && Progress(old(state), state) && old(trace) <= trace && At(token, Next(b))
      ensures !failed ==> b.todo[0].id in state.rows && state.rows[b.todo[0].id].status.Quarantined?
    {
      hide Inv, Traced, Step, Progress, Handled;
      ghost var before := state;
      var saved: bool, reported: bool := *, *;
      SaveEntry(token, b, entry, saved || reported, reported);
      if !reported {
        return true;
      }
      ghost var was := state;
      Yield(token);
      ProgressChains(before, was, state);
      was := state;
      var at: int :| at >= b.at;
      var executed: bool, replyLost: bool := *, *;
      failed := Quarantine(token, b.(phase := Entered(entry)), at, executed, replyLost);
      ProgressChains(before, was, state);
      if failed {
        was := state;
        Yield(token);
        ProgressChains(before, was, state);
        was := state;
        var deleted: bool := *;
        DeleteEntry(token, b.(phase := Undo(entry)), deleted);
        ProgressChains(before, was, state);
      }
    }

    /** One turn of PublishBatch's loop. */
    method PublishOne(token: int, b: Batch) returns (failed: bool)
      requires Valid() && At(token, b) && b.phase.Ready? && b.todo != []
      modifies this
      ensures Valid() && Progress(old(state), state) && old(trace) <= trace && At(token, Next(b))
      ensures !failed ==> Handled(old(state), state, b.todo[0].id)
    {
      hide Inv, Traced, Step, Progress, Handled;
      ghost var before := state;
      var sent: bool := *;
      SendEffect(token, b, sent);
      ghost var was := state;
      Yield(token);
      ProgressChains(before, was, state);
      was := state;
      var at: int :| at >= b.at;
      var executed: bool, replyLost: bool := *, *;
      if sent {
        failed := MarkDelivered(token, b.(phase := Sent), at, executed, replyLost);
      } else if b.todo[0].attempts + 1 >= b.todo[0].max {
        var entry := FreshEntry();
        failed := GiveUp(token, b.(phase := SendFailed), entry);
      } else {
        failed := ScheduleRetry(token, b.(phase := SendFailed), at, executed, replyLost);
      }
      ProgressChains(before, was, state);
      if !failed {
        FinalIsHandled(was, state, b.todo[0].id);
        HandledSince(before, was, state, b.todo[0].id);
      }
    }

    /** domain.NewID: an identity never used before. */
    method FreshEntry() returns (entry: string)
      ensures entry !in state.log.made
    {
      LongerIsFresh(state.log.made);
      entry :| entry !in state.log.made;
    }

    /**
      PublishBatch: claims at most `n` effects, takes each of them exactly one turn in claim order,
      and leaves none behind. An effect it reports no failure for was delivered, quarantined or
      scheduled for another try.
    */
    method PublishBatch(token: int, rank: Rank, at: int, n: nat) returns (claimed: seq<Snapshot>, failures: seq<string>)
      requires Valid() && token !in state.batches
      requires forall x: string, y: string | x != y :: rank(x) != rank(y)
      modifies this
      ensures Valid() && Progress(old(state), state) && old(trace) <= trace && |claimed| <= n
      ensures At(token, Batch(at, 120_000_000_000, [], Ready))
      ensures forall i | 0 <= i < |claimed| :: claimed[i].id in failures || Handled(old(state), state, claimed[i].id)
    {
      hide Inv, Traced, Step, Progress, Handled;
      ghost var before := state;
      failures := [];
      claimed := ClaimPending(token, rank, at, CLAIM_TTL, n);
      var i := 0;
      assert claimed[0..] == claimed;
      while i < |claimed|
        invariant 0 <= i <= |claimed| && Valid() && Progress(before, state) && old(trace) <= trace
        invariant At(token, Batch(at, CLAIM_TTL, claimed[i..], Ready))
        invariant forall j | 0 <= j < i :: claimed[j].id in failures || Handled(before, state, claimed[j].id)
      {
        ghost var was := state;
        Yield(token);
        ProgressChains(before, was, state);
        ghost var mid := state;
        var failed := PublishOne(token, Batch(at, CLAIM_TTL, claimed[i..], Ready));
        ProgressChains(before, mid, state);
        ProgressChains(was, mid, state);
        StillHandled(before, was, state, claimed, failures, i);
        if failed {
          failures := failures + [claimed[i].id];
        } else {
          HandledSince(before, mid, state, claimed[i].id);
        }
        i := i + 1;
      }
    }
  }

  /** The effect is due, no due effect comes before it, and ties are broken by rank. */
  ghost predicate Leading(s: State, rank: Rank, at: int, id: string) {
    IsFirst(s.rows, rank, at, id) && id in s.rows && Due(s.rows[id], at) &&
    forall x | x in s.rows && Due(s.rows[x], at) :: NoLater(s.rows[id], s.rows[x])
  }

  /** In some state of the run, from index `from` on, the effect was the first one due in order. */
  ghost predicate WasFirst(run: seq<State>, from: nat, rank: Rank, at: int, id: string) {
    exists k | from <= k < |run| :: Leading(run[k], rank, at, id)
  }

  ghost predicate NoneClaimable(s: State, at: int) {
    forall x | x in s.rows :: !Due(s.rows[x], at)
  }

  /** In some state of the run, from index `from` on, nothing was claimable. */
  ghost predicate RanOut(run: seq<State>, from: nat, at: int) {
    exists k | from <= k < |run| :: NoneClaimable(run[k], at)
  }

  lemma LastOf(run: seq<State>, s: State)
    requires Traced(run, s)
    ensures run != [] && run[|run| - 1] == s
  {
  }

  lemma NowFirst(run: seq<State>, from: nat, rank: Rank, at: int, id: string)
    requires from < |run| && Leading(run[|run| - 1], rank, at, id)
    ensures WasFirst(run, from, rank, at, id)
  {
  }

  lemma NowRanOut(run: seq<State>, from: nat, at: int)
    requires from < |run| && NoneClaimable(run[|run| - 1], at)
    ensures RanOut(run, from, at)
  {
  }

  lemma FirstsStay(run: seq<State>, longer: seq<State>, from: nat, rank: Rank, at: int, claimed: seq<Snapshot>)
    requires run <= longer
    ensures forall i | 0 <= i < |claimed| && WasFirst(run, from, rank, at, claimed[i].id) ::
              WasFirst(longer, from, rank, at, claimed[i].id)
  {
    forall i | 0 <= i < |claimed| && WasFirst(run, from, rank, at, claimed[i].id)
      ensures WasFirst(longer, from, rank, at, claimed[i].id)
    {
      var k :| from <= k < |run| && Leading(run[k], rank, at, claimed[i].id);
      assert longer[k] == run[k];
    }
  }

  lemma RanOutStays(run: seq<State>, longer: seq<State>, from: nat, at: int)
    requires run <= longer
    ensures RanOut(run, from, at) ==> RanOut(longer, from, at)
  {
    if RanOut(run, from, at) {
      var k :| from <= k < |run| && NoneClaimable(run[k], at);
      assert longer[k] == run[k];
    }
  }

  const CLAIM_TTL := 120_000_000_000

  lemma FinalIsHandled(before: State, s: State, id: string)
    ensures id in s.rows && Final(s.rows[id]) ==> Handled(before, s, id)
  {
  }

  lemma HandledSince(before: State, s: State, t: State, id: string)
    requires Progress(before, s) && Handled(s, t, id)
    ensures Handled(before, t, id)
  {
    hide Attempts;
  }

  lemma StillHandled(before: State, s: State, t: State, claimed: seq<Snapshot>, failures: seq<string>, n: nat)
    requires Progress(s, t) && n <= |claimed|
    requires forall j | 0 <= j < n :: claimed[j].id in failures || Handled(before, s, claimed[j].id)
    ensures forall j | 0 <= j < n :: claimed[j].id in failures || Handled(before, t, claimed[j].id)
  {
    hide Progress, Handled;
    forall j | 0 <= j < n && claimed[j].id !in failures
      ensures Handled(before, t, claimed[j].id)
    {
      HandledStays(before, s, t, claimed[j].id);
    }
  }

  lemma {:induction false} LongerIsFresh(s: set<string>)
    ensures exists x :: x !in s
  {
    var n := 0;
    var rest := s;
    while rest != {}
      invariant n >= 0 && rest <= s && forall x | x in s && x !in rest :: |x| < n
      decreases |rest|
    {
      var x :| x in rest;
      n := if |x| < n then n else |x| + 1;
      rest := rest - {x};
    }
    var unused := seq(n, i => 'x');
    assert |unused| == n;
    assert unused !in s;
  }
}
