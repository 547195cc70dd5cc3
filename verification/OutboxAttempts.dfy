/** How often an effect is tried: in every run it is quarantined after its fifth failed attempt, never before. */
module OutboxAttempts {
  import opened OutboxProtocol
  import opened OutboxSafety
  import Backoff
  import Powers

  /** Every effect may be tried five times. */
  ghost predicate FiveTries(rows: map<string, Row>) {
    forall id | id in rows :: rows[id].max == 5 && (rows[id].status.Quarantined? ==> rows[id].attempts == 4)
  }

  /** A batch saves an entry only for an effect on its last attempt. */
  ghost predicate LastTry(batches: map<int, Batch>) {
    forall k | k in batches && batches[k].phase.Entered? && batches[k].todo != [] ::
      batches[k].todo[0].attempts + 1 >= batches[k].todo[0].max
  }

  lemma StepLastTry(s: State, a: Action, t: State)
    requires Step(s, a, t) && LastTry(s.batches)
    ensures LastTry(t.batches)
  {
    hide Claims, Attempts, Delay, Takes, Claimable, Retried;
  }

  /** A settlement of a row that a batch holds is about the attempt its snapshot names. */
  lemma QuarantineIsLast(s: State, a: Action, t: State)
    requires Inv(s) && FiveTries(s.rows) && LastTry(s.batches) && a.Quarantine? && Step(s, a, t)
    ensures FiveTries(t.rows)
  {
    hide Owned, SentOk, EntriesApart, EntrySaved, QuarantineOk, Claims, Attempts, Delay;
    var e := s.batches[a.token].todo[0];
    assert Snaps(s.rows, a.token, s.batches[a.token]);
    assert SnapOk(s.rows, a.token, e);
  }

  lemma StepFiveTries(s: State, a: Action, t: State)
    requires Inv(s) && FiveTries(s.rows) && LastTry(s.batches) && Step(s, a, t)
    ensures FiveTries(t.rows)
  {
    hide Inv, Claims, Attempts, Delay;
    if a.Quarantine? {
      QuarantineIsLast(s, a, t);
    }
  }

  lemma {:induction false} RunTries(run: seq<State>, n: nat)
    requires Run(run) && n < |run|
    ensures FiveTries(run[n].rows) && LastTry(run[n].batches)
  {
    hide Step, Inv, FiveTries, LastTry;
    if n == 0 {
      NoTries(run[0]);
    } else {
      RunTries(run, n - 1);
      RunInv(run, n - 1);
      assert Moves(run[n - 1], run[n - 1 + 1]);
      var a :| Step(run[n - 1], a, run[n]);
      StepFiveTries(run[n - 1], a, run[n]);
      StepLastTry(run[n - 1], a, run[n]);
    }
  }

  lemma NoTries(s: State)
    requires Init(s)
    ensures FiveTries(s.rows) && LastTry(s.batches)
  {
  }

  /** A quarantined effect has gone through four retries, and its fifth attempt failed; no effect has more than four. */
  lemma QuarantinedAfterFiveTries(run: seq<State>, n: nat, id: string)
    requires Run(run) && n < |run| && id in run[n].rows
    ensures run[n].rows[id].max == 5 && 0 <= Attempts(run[n].log.retries, id) <= 4
    ensures run[n].rows[id].status.Quarantined? ==> Attempts(run[n].log.retries, id) == 4
  {
    hide Run, Attempts;
    RunTries(run, n);
    SettlementIsHonest(run, n, id);
  }

  /** A new effect is due from the reading of its insertion on, with no attempt behind it. */
  lemma InsertedIsDue(s: State, id: string, at: int, t: State, reading: int)
    requires Step(s, Insert(id, at), t)
    ensures id !in s.rows && t.rows.Keys == s.rows.Keys + {id} && t.rows[id].attempts == 0
    ensures t.rows[id].available == at && t.rows[id].created == at
    ensures Claimable(t.rows[id], reading) <==> reading >= at
  {
  }

  /** After a retry was scheduled the effect is due exactly when its delay is over: 1, 2, 4 and 8 seconds. */
  lemma RetryIsDelayed(r: Row, attempts: int, at: int, reading: int)
    requires 1 <= attempts <= 4
    ensures
      var seconds := if attempts == 1 then 1 else if attempts == 2 then 2 else if attempts == 3 then 4 else 8;
      Claimable(Retried(r, attempts, at), reading) <==> reading >= at + seconds * 1_000_000_000
  {
    Backoff.BackoffsAgree(attempts);
    assert Powers.Pow2(0) == 1 && Powers.Pow2(1) == 2 && Powers.Pow2(2) == 4 && Powers.Pow2(3) == 8;
  }
}
