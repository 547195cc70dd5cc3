/**
  The invariant of effect publishing, its preservation by every step, and what it gives in every run.
*/
module OutboxSafety {
  import opened OutboxProtocol

  // ---------------------------------------------------------------- the invariant

  /** A row's attempt count is the number of retries it went through, and stays below its limit. */
  ghost predicate Counts(rows: map<string, Row>, retries: map<string, int>) {
    (forall id | id in rows :: rows[id].attempts == Attempts(retries, id) && 0 <= rows[id].attempts < rows[id].max) &&
    (forall id | id in retries :: id in rows)
  }

  /** A claimed row is held by the batch that claimed it last. */
  ghost predicate OwnedRow(id: string, r: Row, batches: map<int, Batch>, claims: map<string, seq<int>>) {
    r.status.Claimed? ==>
      r.status.holder in batches && r.status.since == batches[r.status.holder].at &&
      r.status.expires == r.status.since + batches[r.status.holder].ttl && batches[r.status.holder].ttl > 0 &&
      Claims(claims, id) != [] && Claims(claims, id)[|Claims(claims, id)| - 1] == r.status.holder
  }

  ghost predicate Owned(rows: map<string, Row>, batches: map<int, Batch>, claims: map<string, seq<int>>) {
    (forall id | id in rows :: OwnedRow(id, rows[id], batches, claims)) &&
    (forall k | k in batches :: batches[k].ttl > 0)
  }

  /** A delivered effect was sent. */
  ghost predicate SentOk(rows: map<string, Row>, batches: map<int, Batch>, sent: set<string>) {
    (forall id | id in rows && rows[id].status.Delivered? :: id in sent) &&
    (forall k | k in batches && batches[k].phase.Sent? && batches[k].todo != [] :: batches[k].todo[0].id in sent)
  }

  /** A snapshot agrees with its row for as long as its batch holds the row. */
  ghost predicate SnapOk(rows: map<string, Row>, token: int, e: Snapshot) {
    e.id in rows && e.max == rows[e.id].max &&
    (rows[e.id].status.Claimed? && rows[e.id].status.holder == token ==> rows[e.id].attempts == e.attempts)
  }

  /** Since a batch claimed at `at`, the row has moved past that reading. */
  ghost predicate Later(r: Row, at: int) {
    (r.status.Pending? ==> r.available > at) && (r.status.Claimed? ==> r.status.since >= at)
  }

  ghost predicate Snaps(rows: map<string, Row>, token: int, b: Batch) {
    (forall i | 0 <= i < |b.todo| :: SnapOk(rows, token, b.todo[i])) &&
    (forall i, j | 0 <= i < j < |b.todo| :: b.todo[i].id != b.todo[j].id) &&
    (b.phase.Claiming? ==> forall i | 0 <= i < |b.todo| :: b.todo[i].id in rows && Later(rows[b.todo[i].id], b.at))
  }

  ghost predicate AllSnaps(rows: map<string, Row>, batches: map<int, Batch>) {
    forall k | k in batches :: Snaps(rows, k, batches[k])
  }

  /** The batch is working with this quarantine entry. */
  ghost predicate Handles(b: Batch, q: string) {
    b.todo != [] && ((b.phase.Entered? && b.phase.entry == q) || (b.phase.Undo? && b.phase.entry == q))
  }

  /** No two batches handle the same entry. */
  ghost predicate EntriesApart(batches: map<int, Batch>, made: set<string>) {
    (forall k, q | k in batches && Handles(batches[k], q) :: q in made) &&
    (forall j, k, q | j in batches && k in batches && j != k && Handles(batches[j], q) :: !Handles(batches[k], q))
  }

  /** An entry that a batch saved is there until the batch gives up on it, unless an operator removed it. */
  ghost predicate EntrySaved(batches: map<int, Batch>, entries: map<string, string>, removed: set<string>) {
    forall k | k in batches && batches[k].phase.Entered? && batches[k].todo != [] ::
      batches[k].phase.entry in removed ||
      (batches[k].phase.entry in entries && entries[batches[k].phase.entry] == batches[k].todo[0].id)
  }

  /** A quarantined effect has its entry, unless an operator removed it or the quarantine reply was lost. */
  ghost predicate Backed(id: string, entries: map<string, string>, log: Log) {
    id in log.via && log.via[id] in log.made &&
    (id in log.lost || log.via[id] in log.removed || (log.via[id] in entries && entries[log.via[id]] == id))
  }

  ghost predicate QuarantineOk(rows: map<string, Row>, batches: map<int, Batch>, entries: map<string, string>,
                               log: Log)
  {
    (forall id | id in rows && rows[id].status.Quarantined? :: Backed(id, entries, log)) &&
    (forall id, k | id in rows && rows[id].status.Quarantined? && id in log.via && id !in log.lost && k in batches ::
       !Handles(batches[k], log.via[id]))
  }

  ghost predicate Inv(s: State) {
    Counts(s.rows, s.log.retries) && Owned(s.rows, s.batches, s.log.claims) && SentOk(s.rows, s.batches, s.log.sent) &&
    AllSnaps(s.rows, s.batches) && EntriesApart(s.batches, s.log.made) &&
    EntrySaved(s.batches, s.entries, s.log.removed) && QuarantineOk(s.rows, s.batches, s.entries, s.log)
  }

  /** At every reading a claim is either live for its holder or free for the taking, never both and never neither. */
  lemma ClaimIsLiveOrFree(r: Row, at: int)
    requires r.status.Claimed?
    ensures Holds(r, r.status.holder, at) <==> !Claimable(r, at)
  {
  }

  // ---------------------------------------------------------------- every step keeps it

  lemma RetryCounts(s: State, a: Action, t: State)
    requires Step(s, a, t) && a.ScheduleRetry? && Counts(s.rows, s.log.retries) && AllSnaps(s.rows, s.batches)
    ensures Counts(t.rows, t.log.retries)
  {
    hide Delay, Claims;
    assert Snaps(s.rows, a.token, s.batches[a.token]);
  }

  lemma OtherCounts(s: State, a: Action, t: State)
    requires Step(s, a, t) && !a.ScheduleRetry? && Counts(s.rows, s.log.retries)
    ensures Counts(t.rows, t.log.retries)
  {
    hide Delay, Claims;
  }

  lemma ClaimOwned(s: State, token: int, id: string, t: State)
    requires Step(s, ClaimOne(token, id), t) && Owned(s.rows, s.batches, s.log.claims)
    ensures Owned(t.rows, t.batches, t.log.claims)
  {
  }

  lemma SettleOwned(s: State, a: Action, t: State)
    requires Step(s, a, t) && (a.MarkDelivered? || a.ScheduleRetry? || a.Quarantine?) &&
             Owned(s.rows, s.batches, s.log.claims)
    ensures Owned(t.rows, t.batches, t.log.claims)
  {
    hide Claims, Delay, Attempts;
  }

  lemma OtherOwned(s: State, a: Action, t: State)
    requires Step(s, a, t) && !(a.ClaimOne? || a.MarkDelivered? || a.ScheduleRetry? || a.Quarantine?)
    requires Owned(s.rows, s.batches, s.log.claims)
    ensures Owned(t.rows, t.batches, t.log.claims)
  {
    hide Claims, Delay, Attempts;
  }

  lemma StepSent(s: State, a: Action, t: State)
    requires Step(s, a, t) && SentOk(s.rows, s.batches, s.log.sent)
    ensures SentOk(t.rows, t.batches, t.log.sent)
  {
    hide Claims, Delay, Attempts;
  }

  /** A settled row leaves every snapshot in order. */
  lemma SettleRow(rows: map<string, Row>, id: string, r: Row, k: int, b: Batch)
    requires Snaps(rows, k, b) && id in rows && rows[id].status.Claimed? && !r.status.Claimed? && r.max == rows[id].max
    requires r.status.Pending? ==> r.available > rows[id].status.since
    ensures Snaps(rows[id := r], k, b)
  {
  }

  /** So does a claim by another batch, which must come later than this one's. */
  lemma ClaimRow(rows: map<string, Row>, id: string, token: int, at: int, expires: int, k: int, b: Batch)
    requires Snaps(rows, k, b) && id in rows && k != token && Claimable(rows[id], at)
    requires rows[id].status.Claimed? ==> rows[id].status.expires > rows[id].status.since
    ensures Snaps(rows[id := rows[id].(status := Claimed(token, at, expires))], k, b)
  {
  }

  /** A batch never claims an effect twice. */
  lemma ClaimAppends(rows: map<string, Row>, id: string, token: int, b: Batch)
    requires Snaps(rows, token, b) && id in rows && b.phase.Claiming? && Claimable(rows[id], b.at)
    requires rows[id].status.Claimed? ==> rows[id].status.expires > rows[id].status.since
    ensures
      var r := rows[id];
      Snaps(rows[id := r.(status := Claimed(token, b.at, b.at + b.ttl))], token,
            b.(todo := b.todo + [Snapshot(id, r.attempts, r.max)]))
  {
  }

  lemma AdvanceSnaps(rows: map<string, Row>, k: int, b: Batch, p: Phase)
    requires Snaps(rows, k, b) && !p.Claiming?
    ensures Snaps(rows, k, b.(phase := p)) && Snaps(rows, k, b.(todo := []))
    ensures b.todo != [] ==> Snaps(rows, k, Next(b))
  {
    if b.todo != [] {
      var rest := Next(b).todo;
      assert forall i | 0 <= i < |rest| :: rest[i] == b.todo[i + 1];
    }
  }

  lemma InsertSnaps(rows: map<string, Row>, id: string, r: Row, k: int, b: Batch)
    requires Snaps(rows, k, b) && id !in rows
    ensures Snaps(rows[id := r], k, b)
  {
  }

  lemma ClaimSnaps(s: State, token: int, id: string, t: State)
    requires Step(s, ClaimOne(token, id), t) && AllSnaps(s.rows, s.batches) && Owned(s.rows, s.batches, s.log.claims)
    ensures AllSnaps(t.rows, t.batches)
  {
    hide Snaps, Claims;
    var b := s.batches[token];
    assert OwnedRow(id, s.rows[id], s.batches, s.log.claims);
    ClaimAppends(s.rows, id, token, b);
    forall k | k in s.batches && k != token
      ensures Snaps(t.rows, k, s.batches[k])
    {
      ClaimRow(s.rows, id, token, b.at, b.at + b.ttl, k, s.batches[k]);
    }
  }

  /** The settlements; the clock reading is no earlier than the claim's. */
  lemma SettleSnaps(s: State, a: Action, t: State)
    requires Step(s, a, t) && (a.MarkDelivered? || a.ScheduleRetry? || a.Quarantine?)
    requires AllSnaps(s.rows, s.batches) && Owned(s.rows, s.batches, s.log.claims)
    ensures AllSnaps(t.rows, t.batches)
  {
    hide Snaps, Claims, Attempts, Delay;
    var b := s.batches[a.token];
    var id := b.todo[0].id;
    AdvanceSnaps(s.rows, a.token, b, t.batches[a.token].phase);
    if Takes(s.rows, id, a.token, a.at, a.executed) {
      assert OwnedRow(id, s.rows[id], s.batches, s.log.claims);
      forall k | k in t.batches
        ensures Snaps(t.rows, k, t.batches[k])
      {
        SettleRow(s.rows, id, t.rows[id], k, t.batches[k]);
      }
    }
  }

  lemma OtherSnaps(s: State, a: Action, t: State)
    requires Step(s, a, t) && !(a.ClaimOne? || a.MarkDelivered? || a.ScheduleRetry? || a.Quarantine?)
    requires AllSnaps(s.rows, s.batches)
    ensures AllSnaps(t.rows, t.batches)
  {
    hide Snaps, Claims, Attempts;
    if a.Insert? {
      forall k | k in s.batches
        ensures Snaps(t.rows, k, s.batches[k])
      {
        InsertSnaps(s.rows, a.id, t.rows[a.id], k, s.batches[k]);
      }
    } else if a.Begin? {
      NewSnaps(s.rows, a.token, t.batches[a.token]);
    } else if !a.OperatorDeletes? {
      var p := t.batches[a.token].phase;
      AdvanceSnaps(s.rows, a.token, s.batches[a.token], if p.Claiming? then Ready else p);
    }
  }

  lemma NewSnaps(rows: map<string, Row>, k: int, b: Batch)
    requires b.todo == []
    ensures Snaps(rows, k, b)
  {
  }

  /** A batch comes to handle an entry only by saving it under a new identity. */
  lemma HandledBefore(s: State, a: Action, t: State, k: int, q: string)
    requires Step(s, a, t) && k in t.batches && Handles(t.batches[k], q)
    ensures (k in s.batches && Handles(s.batches[k], q)) ||
            (a.SaveEntry? && a.token == k && q == a.entry && q !in s.log.made)
  {
    hide Claims, Attempts, Delay, Takes, Claimable;
  }

  lemma MadeGrows(s: State, a: Action, t: State)
    requires Step(s, a, t)
    ensures s.log.made <= t.log.made && (a.SaveEntry? ==> a.entry in t.log.made)
  {
    hide Claims, Attempts, Delay, Takes, Claimable;
  }

  lemma StepApart(s: State, a: Action, t: State)
    requires Step(s, a, t) && EntriesApart(s.batches, s.log.made)
    ensures EntriesApart(t.batches, t.log.made)
  {
    hide Step, Handles;
    MadeGrows(s, a, t);
    forall k, q | k in t.batches && Handles(t.batches[k], q)
      ensures q in t.log.made
    {
      HandledBefore(s, a, t, k, q);
    }
    forall j, k, q | j in t.batches && k in t.batches && j != k && Handles(t.batches[j], q)
      ensures !Handles(t.batches[k], q)
    {
      HandledBefore(s, a, t, j, q);
      if Handles(t.batches[k], q) {
        HandledBefore(s, a, t, k, q);
      }
    }
  }

  lemma StepSaved(s: State, a: Action, t: State)
    requires Step(s, a, t) && EntrySaved(s.batches, s.entries, s.log.removed) && EntriesApart(s.batches, s.log.made)
    ensures EntrySaved(t.batches, t.entries, t.log.removed)
  {
    hide Claims, Attempts, Delay, Takes, Claimable;
    forall k | k in t.batches && t.batches[k].phase.Entered? && t.batches[k].todo != []
      ensures t.batches[k].phase.entry in t.log.removed ||
              (t.batches[k].phase.entry in t.entries && t.entries[t.batches[k].phase.entry] == t.batches[k].todo[0].id)
    {
      assert Handles(t.batches[k], t.batches[k].phase.entry);
      if a.DeleteEntry? {
        assert Handles(s.batches[a.token], s.batches[a.token].phase.entry);
      }
    }
  }

  lemma SettleQuarantine(s: State, a: Action, t: State)
    requires Step(s, a, t) && a.Quarantine? && QuarantineOk(s.rows, s.batches, s.entries, s.log)
    requires EntriesApart(s.batches, s.log.made) && EntrySaved(s.batches, s.entries, s.log.removed)
    ensures QuarantineOk(t.rows, t.batches, t.entries, t.log)
  {
    assert Handles(s.batches[a.token], s.batches[a.token].phase.entry);
  }

  lemma EntryQuarantine(s: State, a: Action, t: State)
    requires Step(s, a, t) && (a.SaveEntry? || a.DeleteEntry?) && QuarantineOk(s.rows, s.batches, s.entries, s.log)
    ensures QuarantineOk(t.rows, t.batches, t.entries, t.log)
  {
    if a.DeleteEntry? {
      assert Handles(s.batches[a.token], s.batches[a.token].phase.entry);
    }
  }

  lemma OtherQuarantine(s: State, a: Action, t: State)
    requires Step(s, a, t) && !(a.Quarantine? || a.SaveEntry? || a.DeleteEntry?)
    requires QuarantineOk(s.rows, s.batches, s.entries, s.log)
    ensures QuarantineOk(t.rows, t.batches, t.entries, t.log)
  {
    hide Claims, Attempts, Delay;
  }

  lemma StepKeepsInv(s: State, a: Action, t: State)
    requires Inv(s) && Step(s, a, t)
    ensures Inv(t)
  {
    hide Step, Counts, Owned, SentOk, AllSnaps, EntriesApart, EntrySaved, QuarantineOk;
    StepSent(s, a, t);
    StepApart(s, a, t);
    StepSaved(s, a, t);
    if a.ScheduleRetry? {
      RetryCounts(s, a, t);
    } else {
      OtherCounts(s, a, t);
    }
    if a.ClaimOne? {
      ClaimOwned(s, a.token, a.id, t);
      ClaimSnaps(s, a.token, a.id, t);
    } else if a.MarkDelivered? || a.ScheduleRetry? || a.Quarantine? {
      SettleOwned(s, a, t);
      SettleSnaps(s, a, t);
    } else {
      OtherOwned(s, a, t);
      OtherSnaps(s, a, t);
    }
    match a {
      case Quarantine(_, _, _, _) => SettleQuarantine(s, a, t);
      case SaveEntry(_, _, _, _) => EntryQuarantine(s, a, t);
      case DeleteEntry(_, _) => EntryQuarantine(s, a, t);
      case _ => OtherQuarantine(s, a, t);
    }
  }

  lemma InitInv(s: State)
    requires Init(s)
    ensures Inv(s)
  {
  }

  lemma {:induction false} RunInv(run: seq<State>, n: nat)
    requires Run(run) && n < |run|
    ensures Inv(run[n])
  {
    hide Inv, Step, Init;
    if n == 0 {
      InitInv(run[0]);
    } else {
      RunInv(run, n - 1);
      assert Moves(run[n - 1], run[n - 1 + 1]);
      var a :| Step(run[n - 1], a, run[n]);
      StepKeepsInv(run[n - 1], a, run[n]);
    }
  }

  // ---------------------------------------------------------------- in every run

  /** A row stops being claimed only by a settlement of the batch that claimed it last. */
  lemma OnlyLatestClaimSettles(run: seq<State>, n: nat, a: Action, t: State, id: string)
    requires Run(run) && n < |run| && Step(run[n], a, t)
    requires id in run[n].rows && run[n].rows[id].status.Claimed? && id in t.rows && !t.rows[id].status.Claimed?
    ensures a.MarkDelivered? || a.ScheduleRetry? || a.Quarantine?
    ensures
      var claims := Claims(run[n].log.claims, id);
      claims != [] && claims[|claims| - 1] == a.token && run[n].batches[a.token].todo[0].id == id
  {
    hide Run, Counts, SentOk, AllSnaps, EntriesApart, EntrySaved, QuarantineOk, Delay;
    RunInv(run, n);
    assert OwnedRow(id, run[n].rows[id], run[n].batches, run[n].log.claims);
  }

  /**
    A settlement under an older token matches no row, so it changes none and its caller is told that the
    claim is lost.
  */
  lemma StaleSettlementIsRefused(run: seq<State>, n: nat, a: Action, t: State)
    requires Run(run) && n < |run| && Step(run[n], a, t) && (a.MarkDelivered? || a.ScheduleRetry? || a.Quarantine?)
    requires
      var claims := Claims(run[n].log.claims, run[n].batches[a.token].todo[0].id);
      claims == [] || claims[|claims| - 1] != a.token
    ensures !Takes(run[n].rows, run[n].batches[a.token].todo[0].id, a.token, a.at, a.executed)
    ensures t.rows == run[n].rows && (a.Quarantine? ==> !a.reported)
  {
    hide Run, Counts, SentOk, AllSnaps, EntriesApart, EntrySaved, QuarantineOk, Delay, Claims;
    RunInv(run, n);
    var id := run[n].batches[a.token].todo[0].id;
    assert id in run[n].rows ==> OwnedRow(id, run[n].rows[id], run[n].batches, run[n].log.claims);
  }

  predicate Final(r: Row) {
    r.status.Delivered? || r.status.Quarantined?
  }

  lemma StepAbsorbs(s: State, a: Action, t: State, id: string)
    requires Step(s, a, t) && id in s.rows && Final(s.rows[id])
    ensures id in t.rows && t.rows[id] == s.rows[id]
  {
    hide Claims, Attempts, Delay;
  }

  /** Delivered and quarantined rows never change again. */
  lemma {:induction false} FinalRowsStay(run: seq<State>, m: nat, n: nat, id: string)
    requires Run(run) && m <= n < |run| && id in run[m].rows && Final(run[m].rows[id])
    ensures id in run[n].rows && run[n].rows[id] == run[m].rows[id]
    decreases n
  {
    hide Step, Init;
    if m < n {
      FinalRowsStay(run, m, n - 1, id);
      assert Moves(run[n - 1], run[n - 1 + 1]);
      var a :| Step(run[n - 1], a, run[n]);
      StepAbsorbs(run[n - 1], a, run[n], id);
    }
  }

  /** Per effect: delivered only after a successful send; attempts are the retries and stay below the limit. */
  lemma SettlementIsHonest(run: seq<State>, n: nat, id: string)
    requires Run(run) && n < |run| && id in run[n].rows
    ensures run[n].rows[id].status.Delivered? ==> id in run[n].log.sent
    ensures run[n].rows[id].attempts == Attempts(run[n].log.retries, id)
    ensures 0 <= run[n].rows[id].attempts < run[n].rows[id].max
  {
    hide Run, Owned, AllSnaps, EntriesApart, EntrySaved, QuarantineOk;
    RunInv(run, n);
  }

  /**
    A quarantined effect's entry exists, unless an operator deleted it or the reply of the quarantine
    statement was lost; QuarantineEntryKeptIff shows that the last exception is real.
  */
  lemma QuarantinedHasEntry(run: seq<State>, n: nat, id: string)
    requires Run(run) && n < |run| && id in run[n].rows && run[n].rows[id].status.Quarantined? && id !in run[n].log.lost
    ensures id in run[n].log.via
    ensures
      var q := run[n].log.via[id];
      q in run[n].log.removed || (q in run[n].entries && run[n].entries[q] == id)
  {
    hide Run, Counts, Owned, SentOk, AllSnaps, EntriesApart, EntrySaved;
    RunInv(run, n);
  }

  /** The publisher's own reaction to its quarantine statement: nothing more to do, or delete the entry. */
  function Cleanup(s: State, token: int): State
    requires token in s.batches
  {
    var b := s.batches[token];
    if b.phase.Undo? && b.todo != [] then
      s.(batches := s.batches[token := Next(b)], entries := s.entries - {b.phase.entry})
    else s
  }

  /**
    After a quarantine statement took effect and the publisher has reacted without further errors, the
    effect is quarantined and its entry is kept exactly when the statement's reply arrived.
  */
  lemma QuarantineEntryKeptIff(run: seq<State>, n: nat, token: int, at: int, reported: bool, t: State)
    requires Run(run) && n < |run| && Step(run[n], Quarantine(token, at, true, reported), t)
    requires
      var b := run[n].batches[token];
      Takes(run[n].rows, b.todo[0].id, token, at, true) && b.phase.entry !in run[n].log.removed
    ensures
      var b := run[n].batches[token];
      var id := b.todo[0].id;
      var after := Cleanup(t, token);
      (!reported ==> Step(t, DeleteEntry(token, true), after)) && (reported ==> after == t) &&
      id in after.rows && after.rows[id].status.Quarantined? && (b.phase.entry in after.entries <==> reported)
  {
    hide Run, Counts, Owned, SentOk, AllSnaps, EntriesApart, QuarantineOk;
    RunInv(run, n);
  }
}
