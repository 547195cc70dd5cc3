/**
  Which call to Submit an item came from: every call sends its item at most once, says so truthfully,
  and what it sent is handed to the processor at most once.
*/
module KeyQueueOrigins {
  import opened KeyQueueSteps
  import opened KeyQueueSafety
  import opened KeyQueueTheorems

  /** The `p`-th item of a key's history came from submission `i`. */
  ghost predicate SentAt(sent: map<Key, seq<Item>>, k: Key, p: int, i: int) {
    0 <= p < |Lookup(sent, k)| && Lookup(sent, k)[p].submission == i
  }

  ghost predicate WasSent(sent: map<Key, seq<Item>>, i: int) {
    exists k, p :: SentAt(sent, k, p, i)
  }

  predicate Unsent(p: SubmitPhase) {
    p.Admitted? || p.Slotted? || p.Registered? || p.Cancelled? || p.Refunded?
  }

  // ---------------------------------------------------------------- the invariant

  ghost predicate Named(subs: map<int, Submission>, begun: set<int>) {
    forall i | i in subs :: i in begun && subs[i].item.submission == i
  }

  ghost predicate SentBegun(sent: map<Key, seq<Item>>, begun: set<int>) {
    forall k, p, i | SentAt(sent, k, p, i) :: i in begun
  }

  /** No submission occurs twice in the histories of all keys together. */
  ghost predicate Once(sent: map<Key, seq<Item>>) {
    forall k, p, l, q, i | SentAt(sent, k, p, i) && SentAt(sent, l, q, i) :: k == l && p == q
  }

  ghost predicate Matches(subs: map<int, Submission>, sent: map<Key, seq<Item>>) {
    forall i | i in subs ::
      (Unsent(subs[i].phase) ==> !WasSent(sent, i)) && (subs[i].phase.Sent? ==> WasSent(sent, i))
  }

  ghost predicate Origins(s: State) {
    Named(s.submissions, s.begun) && SentBegun(s.log.sent, s.begun) && Once(s.log.sent) &&
    Matches(s.submissions, s.log.sent)
  }

  // ---------------------------------------------------------------- every step keeps it

  function Appended(sent: map<Key, seq<Item>>, x: Item): map<Key, seq<Item>> {
    sent[x.key := Lookup(sent, x.key) + [x]]
  }

  lemma AppendedAt(sent: map<Key, seq<Item>>, x: Item, k: Key, p: int, i: int)
    ensures SentAt(Appended(sent, x), k, p, i) <==>
            SentAt(sent, k, p, i) || (k == x.key && p == |Lookup(sent, k)| && i == x.submission)
  {
  }

  lemma AppendedSent(sent: map<Key, seq<Item>>, x: Item, i: int)
    ensures WasSent(Appended(sent, x), i) <==> WasSent(sent, i) || i == x.submission
  {
    hide SentAt, Lookup, Appended;
    forall k, p
      ensures SentAt(Appended(sent, x), k, p, i) <==>
              SentAt(sent, k, p, i) || (k == x.key && p == |Lookup(sent, k)| && i == x.submission)
    {
      AppendedAt(sent, x, k, p, i);
    }
    if i == x.submission {
      assert SentAt(Appended(sent, x), x.key, |Lookup(sent, x.key)|, i);
    }
    if WasSent(sent, i) {
      var k, p :| SentAt(sent, k, p, i);
      assert SentAt(Appended(sent, x), k, p, i);
    }
  }

  lemma AppendKeepsOnce(sent: map<Key, seq<Item>>, begun: set<int>, x: Item)
    requires Once(sent) && SentBegun(sent, begun) && !WasSent(sent, x.submission) && x.submission in begun
    ensures Once(Appended(sent, x)) && SentBegun(Appended(sent, x), begun)
  {
    hide SentAt, Lookup, Appended;
    forall k, p, i
      ensures SentAt(Appended(sent, x), k, p, i) <==>
              SentAt(sent, k, p, i) || (k == x.key && p == |Lookup(sent, k)| && i == x.submission)
    {
      AppendedAt(sent, x, k, p, i);
    }
    forall k, p, l, q, i | SentAt(Appended(sent, x), k, p, i) && SentAt(Appended(sent, x), l, q, i)
      ensures k == l && p == q
    {
      if i == x.submission {
        assert !SentAt(sent, k, p, i) && !SentAt(sent, l, q, i);
      }
    }
  }

  lemma SendOrigins(s: State, i: int, t: State)
    requires Origins(s) && Step(s, Send(i), t)
    ensures Origins(t)
  {
    hide SentAt, Lookup, WasSent, SentBegun, Once;
    var x := s.submissions[i].item;
    assert t.log.sent == Appended(s.log.sent, x) by {
      SendAppends(s, i, t);
    }
    AppendKeepsOnce(s.log.sent, s.begun, x);
    forall j
      ensures WasSent(t.log.sent, j) <==> WasSent(s.log.sent, j) || j == i
    {
      AppendedSent(s.log.sent, x, j);
    }
  }

  lemma SendAppends(s: State, i: int, t: State)
    requires Step(s, Send(i), t)
    ensures t.log.sent == Appended(s.log.sent, s.submissions[i].item)
  {
  }

  lemma NotBegunNotSent(sent: map<Key, seq<Item>>, begun: set<int>, i: int)
    requires SentBegun(sent, begun) && i !in begun
    ensures !WasSent(sent, i)
  {
    hide SentAt;
  }

  lemma BeginOrigins(s: State, i: int, item: Item, t: State)
    requires Origins(s) && Step(s, BeginSubmission(i, item), t)
    ensures Origins(t)
  {
    hide SentAt, WasSent, Once;
    NotBegunNotSent(s.log.sent, s.begun, i);
  }

  /** What a step other than a send or an admission does to the submissions. */
  ghost predicate Quiet(before: map<int, Submission>, after: map<int, Submission>) {
    forall i | i in after ::
      i in before && after[i].item == before[i].item &&
      (Unsent(after[i].phase) ==> Unsent(before[i].phase)) && (after[i].phase.Sent? ==> before[i].phase.Sent?)
  }

  lemma QuietMove(subs: map<int, Submission>, i: int, p: SubmitPhase)
    requires i in subs && (Unsent(p) ==> Unsent(subs[i].phase)) && !p.Sent?
    ensures Quiet(subs, Moved(subs, i, p))
  {
  }

  lemma RegisterQuiet(s: State, i: int, t: State)
    requires Step(s, Register(i), t)
    ensures Quiet(s.submissions, t.submissions) && t.begun == s.begun && t.log.sent == s.log.sent
  {
    hide Quiet, Unsent;
    QuietRegister(s, i);
  }

  lemma QuietRegister(s: State, i: int)
    requires PhaseIs(s, i, Slotted)
    ensures Quiet(s.submissions, Registering(s, i).submissions)
  {
    QuietMove(s.submissions, i, Registered(RefFor(s.queues, s.submissions[i].item.key, s.nextRef)));
  }

  lemma FinishQuiet(s: State, i: int, t: State)
    requires Step(s, FinishSubmit(i), t)
    ensures Quiet(s.submissions, t.submissions) && t.begun == s.begun && t.log.sent == s.log.sent
  {
    hide Quiet;
    QuietMove(s.submissions, i, Left);
  }

  lemma MoveQuiet(s: State, a: Action, t: State)
    requires Step(s, a, t) && (a.AcquireSlot? || a.GiveUpSlot? || a.Cancel? || a.Refund?)
    ensures Quiet(s.submissions, t.submissions) && t.begun == s.begun && t.log.sent == s.log.sent
  {
    hide Quiet;
    QuietMove(s.submissions, a.i, t.submissions[a.i].phase);
  }

  lemma QuietSubmissions(s: State, a: Action, t: State)
    requires Step(s, a, t) && !WorkerAction(a) && !a.Send? && !a.BeginSubmission?
    ensures Quiet(s.submissions, t.submissions) && t.begun == s.begun && t.log.sent == s.log.sent
  {
    hide Step, Quiet;
    match a
    case Register(i) => RegisterQuiet(s, i, t);
    case FinishSubmit(i) => FinishQuiet(s, i, t);
    case Start => RestQuiet(s, a, t);
    case SubmissionDone(_) => RestQuiet(s, a, t);
    case _ => MoveQuiet(s, a, t);
  }

  lemma RestQuiet(s: State, a: Action, t: State)
    requires Step(s, a, t) && (a.Start? || a.SubmissionDone?)
    ensures Quiet(s.submissions, t.submissions) && t.begun == s.begun && t.log.sent == s.log.sent
  {
  }

  lemma QuietWorkers(s: State, a: Action, t: State)
    requires Step(s, a, t) && WorkerAction(a)
    ensures t.submissions == s.submissions && t.begun == s.begun && t.log.sent == s.log.sent
  {
    SubmissionsUnchanged(s, a, t);
  }

  lemma StepOrigins(s: State, a: Action, t: State)
    requires Origins(s) && Step(s, a, t)
    ensures Origins(t)
  {
    hide Step, SentAt, WasSent, SentBegun, Once;
    if a.Send? {
      SendOrigins(s, a.i, t);
    } else if a.BeginSubmission? {
      BeginOrigins(s, a.i, a.item, t);
    } else if WorkerAction(a) {
      QuietWorkers(s, a, t);
    } else {
      QuietSubmissions(s, a, t);
    }
  }

  lemma {:induction false} RunOrigins(run: seq<State>, n: nat)
    requires Run(run) && n < |run|
    ensures Origins(run[n])
  {
    hide Origins, Step, Init;
    if n == 0 {
      InitOrigins(run[0]);
    } else {
      RunOrigins(run, n - 1);
      assert Next(run[n - 1], run[n - 1 + 1]);
      var a :| Step(run[n - 1], a, run[n]);
      StepOrigins(run[n - 1], a, run[n]);
    }
  }

  lemma InitOrigins(s: State)
    requires Init(s)
    ensures Origins(s)
  {
  }

  // ---------------------------------------------------------------- in every run

  /** A call to Submit sends at most once: no two places in the histories of all keys are its doing. */
  lemma SentAtMostOnce(run: seq<State>, n: nat, i: int, k: Key, p: int, l: Key, q: int)
    requires Run(run) && n < |run| && SentAt(run[n].log.sent, k, p, i) && SentAt(run[n].log.sent, l, q, i)
    ensures k == l && p == q
  {
    hide Run, SentAt;
    RunOrigins(run, n);
  }

  lemma TakenWasSent(run: seq<State>, n: nat, i: int, k: Key, p: int)
    requires Run(run) && n < |run| && SentAt(run[n].log.taken, k, p, i)
    ensures SentAt(run[n].log.sent, k, p, i)
  {
    hide Run;
    ProcessedInSendOrder(run, n, k);
  }

  /** An item is handed to the processor at most once: no two worker turns take what one call sent. */
  lemma TakenAtMostOnce(run: seq<State>, n: nat, i: int, k: Key, p: int, l: Key, q: int)
    requires Run(run) && n < |run| && SentAt(run[n].log.taken, k, p, i) && SentAt(run[n].log.taken, l, q, i)
    ensures k == l && p == q
  {
    hide Run;
    TakenWasSent(run, n, i, k, p);
    TakenWasSent(run, n, i, l, q);
    SentAtMostOnce(run, n, i, k, p, l, q);
  }

  /** Only its own step sends for a submission. */
  lemma OthersSendNothing(s: State, a: Action, t: State, i: int)
    requires Origins(s) && Step(s, a, t) && a != Send(i)
    ensures WasSent(t.log.sent, i) <==> WasSent(s.log.sent, i)
  {
    hide Step, WasSent, SentBegun, Once, Matches;
    if a.Send? {
      SenderIsNamed(s, a.i, t);
      SendAppends(s, a.i, t);
      AppendedSent(s.log.sent, s.submissions[a.i].item, i);
    } else if WorkerAction(a) {
      QuietWorkers(s, a, t);
    } else if !a.BeginSubmission? {
      QuietSubmissions(s, a, t);
    } else {
      HistoryUnchanged(s, a, t);
    }
  }

  lemma SenderIsNamed(s: State, i: int, t: State)
    requires Step(s, Send(i), t)
    ensures i in s.submissions
  {
  }

  /** The submission is over: it was begun and no call is under way. */
  ghost predicate Over(s: State, i: int) {
    i in s.begun && i !in s.submissions
  }

  lemma OverStays(s: State, a: Action, t: State, i: int)
    requires Step(s, a, t) && Over(s, i)
    ensures Over(t, i) && a != Send(i)
  {
    if WorkerAction(a) {
      SubmissionsUnchanged(s, a, t);
    }
  }

  /** What a call to Submit did is settled when it returns: afterwards nothing is sent for it any more. */
  lemma {:induction false} RefusedStaysUnsent(run: seq<State>, m: nat, n: nat, i: int)
    requires Run(run) && m <= n < |run| && Over(run[m], i)
    ensures Over(run[n], i) && (WasSent(run[n].log.sent, i) <==> WasSent(run[m].log.sent, i))
    decreases n
  {
    hide Origins, Step, Init, Over, WasSent;
    if m < n {
      RefusedStaysUnsent(run, m, n - 1, i);
      RunOrigins(run, n - 1);
      assert Next(run[n - 1], run[n - 1 + 1]);
      var a :| Step(run[n - 1], a, run[n]);
      OverStays(run[n - 1], a, run[n], i);
      OthersSendNothing(run[n - 1], a, run[n], i);
    }
  }

  /** What a refused call carried is never handed to the processor. */
  lemma RefusedIsNeverTaken(run: seq<State>, m: nat, n: nat, i: int, k: Key, p: int)
    requires Run(run) && m <= n < |run| && Over(run[m], i) && !WasSent(run[m].log.sent, i)
    ensures !SentAt(run[n].log.taken, k, p, i)
  {
    hide Run, Over, SentAt;
    if SentAt(run[n].log.taken, k, p, i) {
      TakenWasSent(run, n, i, k, p);
      RefusedStaysUnsent(run, m, n, i);
    }
  }
}
