/**
  What Stop leaves behind. It waits for the submitters, then tells the workers to stop; a worker that
  is told so leaves without looking at the channels again. So an accepted item can stay untaken.
*/
module KeyQueueShutdown {
  import opened KeyQueueSteps
  import opened KeyQueueSafety
  import opened KeyQueueTheorems

  predicate AllExited(s: State) {
    forall w | w in s.workers :: s.workers[w].Exited?
  }

  /** Everything that was accepted was handed to the processor. */
  ghost predicate Drained(s: State) {
    forall k: Key :: Lookup(s.log.taken, k) == Lookup(s.log.sent, k)
  }

  // ---------------------------------------------------------------- after the last worker has left

  lemma ExitedStep(s: State, a: Action, t: State, k: Key)
    requires Step(s, a, t) && AllExited(s)
    ensures AllExited(t) && Lookup(t.log.taken, k) == Lookup(s.log.taken, k)
  {
    hide Registering, Sending, FinishingSubmit, Lookup;
    if a.Send? {
      SendKeepsTaken(s, a.i, t);
    } else {
      ExitedKeepsWorkers(s, a, t);
      HistoryUnchanged(s, a, t);
    }
  }

  lemma SendKeepsTaken(s: State, i: int, t: State)
    requires Step(s, Send(i), t)
    ensures t.workers == s.workers && t.log.taken == s.log.taken
  {
  }

  lemma ExitedKeepsWorkers(s: State, a: Action, t: State)
    requires Step(s, a, t) && AllExited(s) && !a.Send?
    ensures !a.Receive? && t.workers == s.workers
  {
  }

  /**
    Once every worker has exited, nothing is taken any more, and at any later time what was accepted
    for a key and not taken is exactly what is in the key's channel.
  */
  lemma {:induction false} UntakenStays(run: seq<State>, m: nat, n: nat, k: Key)
    requires Run(run) && m <= n < |run| && AllExited(run[m])
    ensures AllExited(run[n]) && Lookup(run[n].log.taken, k) == Lookup(run[m].log.taken, k)
    ensures Lookup(run[n].log.sent, k) == Lookup(run[m].log.taken, k) + Pending(run[n].queues, run[n].objects, k)
    ensures run[m].workersStopped ==>
              run[n].workersStopped &&
              Pending(run[n].queues, run[n].objects, k) == Pending(run[m].queues, run[m].objects, k)
    decreases n
  {
    hide Step, Init, Inv, AllExited, Pending, Lookup;
    RunInv(run, n);
    FifoAt(run[n], k);
    if m < n {
      UntakenStays(run, m, n - 1, k);
      assert Next(run[n - 1], run[n - 1 + 1]);
      var a :| Step(run[n - 1], a, run[n]);
      ExitedStep(run[n - 1], a, run[n], k);
      if run[m].workersStopped {
        NoSendAfterStop(run, n - 1, a, run[n]);
        RunInv(run, n - 1);
        FifoAt(run[n - 1], k);
        DropPrefix(Lookup(run[m].log.taken, k), Pending(run[n].queues, run[n].objects, k),
                   Pending(run[n - 1].queues, run[n - 1].objects, k));
      }
    }
  }

  /** In every reachable state everything accepted was taken if and only if every channel in the map is empty. */
  lemma DrainedIff(run: seq<State>, n: nat)
    requires Run(run) && n < |run|
    ensures Drained(run[n]) <==> forall k | k in run[n].queues && run[n].queues[k] in run[n].objects ::
                                   run[n].objects[run[n].queues[k]].items == []
  {
    hide Run, Inv, Lookup;
    var s := run[n];
    RunInv(run, n);
    forall k: Key
      ensures Lookup(s.log.taken, k) == Lookup(s.log.sent, k) <==> Pending(s.queues, s.objects, k) == []
    {
      FifoAt(s, k);
    }
    assert forall k | k in s.queues && s.queues[k] in s.objects ::
        Pending(s.queues, s.objects, k) == s.objects[s.queues[k]].items;
  }

  // ---------------------------------------------------------------- what the workers will still take

  /** The worker is about to receive from the key's channel. */
  ghost predicate SelectedFor(s: State, w: int, k: Key) {
    w in s.workers && s.workers[w].Selected? && s.workers[w].q in s.objects && s.objects[s.workers[w].q].key == k
  }

  ghost predicate IsSelected(s: State, k: Key) {
    exists w :: SelectedFor(s, w, k)
  }

  /** Something waits for the key that no worker is about to receive. */
  ghost predicate LeftOver(s: State, k: Key) {
    var waiting := Pending(s.queues, s.objects, k);
    waiting != [] && (|waiting| > 1 || !IsSelected(s, k))
  }

  /** Everything that waits is alone in its channel, and a worker is about to receive it. */
  ghost predicate Claimed(s: State) {
    forall k: Key :: !LeftOver(s, k)
  }

  /** A worker about to receive owns the key's channel, alone. */
  lemma SelectedOwns(s: State, w: int, k: Key)
    requires Inv(s) && SelectedFor(s, w, k)
    ensures k in s.queues && s.queues[k] == s.workers[w].q && s.objects[s.queues[k]].processing
    ensures forall v | SelectedFor(s, v, k) :: v == w
  {
    hide Counted, ChannelsOk, Conserved, Fifo, Lifecycle;
    OwnerFacts(s.objects, s.workers, w);
    InUseIsMapped(s.queues, s.objects, s.workers[w].q);
    forall v | SelectedFor(s, v, k)
      ensures v == w
    {
      OwnerFacts(s.objects, s.workers, v);
      InUseIsMapped(s.queues, s.objects, s.workers[v].q);
      assert Owns(s.workers, v, s.workers[w].q) && Owns(s.workers, w, s.workers[w].q);
    }
  }

  /** The receive takes the first item and ends the selection of its key; other keys are not touched. */
  lemma ReceiveTakes(s: State, w: int, t: State, k: Key)
    requires Inv(s) && Inv(t) && Step(s, Receive(w), t)
    ensures SelectedFor(s, w, s.objects[s.workers[w].q].key)
    ensures k == s.objects[s.workers[w].q].key ==>
              !IsSelected(t, k) && |Pending(t.queues, t.objects, k)| == |Pending(s.queues, s.objects, k)| - 1
    ensures k != s.objects[s.workers[w].q].key ==>
              (IsSelected(t, k) <==> IsSelected(s, k)) &&
              Pending(t.queues, t.objects, k) == Pending(s.queues, s.objects, k)
  {
    hide Inv, Pending;
    var key := s.objects[s.workers[w].q].key;
    ReceiveAt(s, w, t, k);
    SelectedOwns(s, w, key);
    forall v
      ensures SelectedFor(t, v, k) <==> SelectedFor(s, v, k) && v != w
    {
    }
    if k != key && IsSelected(s, k) {
      var v :| SelectedFor(s, v, k);
      assert SelectedFor(t, v, k);
    }
  }

  lemma FinishKeepsSelected(s: State, w: int, t: State, k: Key)
    requires Inv(s) && Step(s, FinishEvent(w), t)
    ensures IsSelected(t, k) <==> IsSelected(s, k)
  {
    hide Inv, Step;
    FinishFacts(s, w, t);
    forall v
      ensures SelectedFor(t, v, k) <==> SelectedFor(s, v, k)
    {
    }
  }

  lemma FinishFacts(s: State, w: int, t: State)
    requires Step(s, FinishEvent(w), t)
    ensures w in s.workers && s.workers[w].Working? && t.workers == s.workers[w := Finished(s.workers[w].item)]
    ensures t.objects.Keys == s.objects.Keys && forall r | r in s.objects :: t.objects[r].key == s.objects[r].key
    ensures t.log == s.log && t.submissions == s.submissions
  {
  }

  lemma RestKeepsSelected(s: State, a: Action, t: State, k: Key)
    requires Step(s, a, t) && (a.ReleaseSlot? || a.WorkerExit? || a.StopWorkers?)
    ensures IsSelected(t, k) <==> IsSelected(s, k)
  {
    forall v
      ensures SelectedFor(t, v, k) <==> SelectedFor(s, v, k)
    {
    }
  }

  /** What is left over stays left over when the workers end what they have begun. */
  lemma LeftOverStays(s: State, a: Action, t: State, k: Key)
    requires Inv(s) && Inv(t) && Step(s, a, t) && LeftOver(s, k)
    requires a.Receive? || a.FinishEvent? || a.ReleaseSlot? || a.WorkerExit?
    ensures LeftOver(t, k)
  {
    hide Inv, Step, Pending, SelectedFor;
    if a.Receive? {
      Received(s, a.w, t);
      ReceiveTakes(s, a.w, t, k);
    } else {
      QuietPending(s, a, t, k);
      if a.FinishEvent? {
        FinishKeepsSelected(s, a.w, t, k);
      } else {
        RestKeepsSelected(s, a, t, k);
      }
    }
  }

  lemma Received(s: State, w: int, t: State)
    requires Step(s, Receive(w), t)
    ensures w in s.workers && s.workers[w].Selected? && s.workers[w].q in s.objects
  {
  }

  /** After Stop has told the workers, only they move. */
  lemma OnlyWorkersMove(s: State, a: Action, t: State)
    requires Inv(s) && s.workersStopped && Step(s, a, t)
    ensures a.Select? || a.Receive? || a.FinishEvent? || a.ReleaseSlot? || a.WorkerExit? || a.StopWorkers?
    ensures t.workersStopped
  {
    hide Attached, ChannelsOk, Counted, Exclusive, Conserved, Fifo, RefsIssued, Registering, Sending, FinishingSubmit;
  }

  lemma NothingToSelect(s: State, w: int, key: Key, t: State)
    requires Inv(s) && s.workersStopped && Claimed(s)
    ensures !Step(s, Select(w, key), t)
  {
    hide Inv, SelectedFor;
    if Step(s, Select(w, key), t) {
      assert !LeftOver(s, key);
      var v :| SelectedFor(s, v, key);
      SelectedOwns(s, v, key);
      assert false;
    }
  }

  lemma ClaimedStays(s: State, a: Action, t: State)
    requires Inv(s) && Inv(t) && s.workersStopped && Step(s, a, t) && Claimed(s)
    ensures Claimed(t) && t.workersStopped
  {
    hide Inv, Step, Pending, SelectedFor, IsSelected;
    OnlyWorkersMove(s, a, t);
    if a.Select? {
      NothingToSelect(s, a.w, a.key, t);
    } else {
      forall k: Key
        ensures !LeftOver(t, k)
      {
        assert !LeftOver(s, k);
        if a.Receive? {
          Received(s, a.w, t);
          ReceiveTakes(s, a.w, t, k);
        } else {
          QuietPending(s, a, t, k);
          if a.FinishEvent? {
            FinishKeepsSelected(s, a.w, t, k);
          } else {
            RestKeepsSelected(s, a, t, k);
          }
        }
      }
    }
  }

  lemma {:induction false} ClaimedToTheEnd(run: seq<State>, m: nat, n: nat)
    requires Run(run) && m <= n < |run| && run[m].workersStopped && Claimed(run[m])
    ensures Claimed(run[n]) && run[n].workersStopped
    decreases n
  {
    hide Step, Init, Inv, Claimed;
    if m < n {
      ClaimedToTheEnd(run, m, n - 1);
      RunInv(run, n - 1);
      RunInv(run, n);
      assert Next(run[n - 1], run[n - 1 + 1]);
      var a :| Step(run[n - 1], a, run[n]);
      ClaimedStays(run[n - 1], a, run[n]);
    }
  }

  /** When all workers have left, nothing is left over if and only if everything was taken. */
  lemma ClaimedIsDrained(s: State)
    requires Inv(s) && AllExited(s)
    ensures Claimed(s) <==> Drained(s)
  {
    hide Inv, Lookup, Pending;
    forall k: Key
      ensures LeftOver(s, k) <==> Lookup(s.log.taken, k) != Lookup(s.log.sent, k)
    {
      FifoAt(s, k);
    }
  }

  // ---------------------------------------------------------------- the workers end what they have begun

  /** A step of the worker that brings it closer to its exit. */
  ghost predicate Ends(s: State, w: int, a: Action, t: State) {
    Step(s, a, t) && (a.Receive? || a.FinishEvent? || a.ReleaseSlot? || a.WorkerExit?) &&
    w in s.workers && w in t.workers && t.workers == s.workers[w := t.workers[w]] &&
    Left(t.workers[w]) < Left(s.workers[w]) && t.workersStopped == s.workersStopped && t.log.sent == s.log.sent
  }

  lemma ReceiveEnds(s: State, w: int) returns (t: State)
    requires Inv(s) && w in s.workers && s.workers[w].Selected?
    ensures Ends(s, w, Receive(w), t)
  {
    hide Attached, Counted, ChannelsOk, Conserved, Fifo, Exclusive;
    OwnerFacts(s.objects, s.workers, w);
    t := Receiving(s, w);
  }

  lemma FinishEnds(s: State, w: int) returns (t: State)
    requires Inv(s) && w in s.workers && s.workers[w].Working?
    ensures Ends(s, w, FinishEvent(w), t)
  {
    hide Inv;
    t := FinishingEvent(s, w);
  }

  lemma RestEnds(s: State, w: int) returns (a: Action, t: State)
    requires Inv(s) && w in s.workers && (s.workers[w].Finished? || s.workers[w].Idle?)
    ensures Ends(s, w, a, t)
  {
    hide Inv;
    if s.workers[w].Finished? {
      HeldSlot(s, w, 0);
      a, t := ReleaseSlot(w), s.(workers := s.workers[w := Idle], slots := s.slots - 1);
    } else {
      a, t := WorkerExit(w), s.(workers := s.workers[w := Exited]);
    }
  }

  lemma WorkerEnds(s: State, w: int) returns (a: Action, t: State)
    requires Inv(s) && w in s.workers && !s.workers[w].Exited?
    ensures Ends(s, w, a, t)
  {
    hide Inv, Ends;
    match s.workers[w]
    case Selected(_) =>
      a := Receive(w);
      t := ReceiveEnds(s, w);
    case Working(_, _) =>
      a := FinishEvent(w);
      t := FinishEnds(s, w);
    case _ =>
      a, t := RestEnds(s, w);
  }

  /** How many steps a worker is away from its exit. */
  function Left(p: WorkerPhase): nat {
    match p
    case Selected(_) => 4
    case Working(_, _) => 3
    case Finished(_) => 2
    case Idle => 1
    case Exited => 0
  }

  lemma {:induction false} WorkerLeaves(run: seq<State>, w: int, k: Key) returns (longer: seq<State>)
    requires Run(run) && w in run[|run| - 1].workers
    ensures Run(longer) && run <= longer && (LeftOver(run[|run| - 1], k) ==> LeftOver(longer[|longer| - 1], k))
    ensures
      var s, t := run[|run| - 1], longer[|longer| - 1];
      t.workers == s.workers[w := Exited] && t.workersStopped == s.workersStopped && t.log.sent == s.log.sent
    decreases Left(run[|run| - 1].workers[w])
  {
    hide Inv, Step, Init, LeftOver, Next;
    longer := run;
    var s := run[|run| - 1];
    if s.workers[w].Exited? {
      assert s.workers == s.workers[w := Exited];
    } else {
      RunInv(run, |run| - 1);
      var a, t := WorkerEnds(s, w);
      StepKeepsInv(s, a, t);
      TraceExtends(run, s, a, t);
      if LeftOver(s, k) {
        LeftOverStays(s, a, t, k);
      }
      longer := WorkerLeaves(run + [t], w, k);
      assert run <= run + [t];
    }
  }

  lemma {:induction false} WorkersLeave(run: seq<State>, ws: set<int>, k: Key) returns (longer: seq<State>)
    requires Run(run) && ws <= run[|run| - 1].workers.Keys
    ensures Run(longer) && run <= longer && (LeftOver(run[|run| - 1], k) ==> LeftOver(longer[|longer| - 1], k))
    ensures
      var s, t := run[|run| - 1], longer[|longer| - 1];
      t.workers.Keys == s.workers.Keys && t.workersStopped == s.workersStopped && t.log.sent == s.log.sent &&
      forall w | w in s.workers :: t.workers[w] == if w in ws then Exited else s.workers[w]
    decreases |ws|
  {
    hide Run, LeftOver;
    longer := run;
    if forall w :: w !in ws {
      assert ws == {};
    } else {
      var w :| w in ws;
      var next := WorkerLeaves(run, w, k);
      longer := WorkersLeave(next, ws - {w}, k);
    }
  }

  // ---------------------------------------------------------------- the exact condition

  /** A continuation of the run in which every worker leaves. */
  ghost predicate Retires(run: seq<State>, longer: seq<State>) {
    Run(longer) && run != [] && run <= longer && AllExited(longer[|longer| - 1])
  }

  /**
    When Stop has told the workers to leave: whatever they do before they are gone, everything accepted
    is processed, if and only if every item that waits then is alone in its channel and some worker is
    about to receive it.
  */
  lemma StopProcessesAllIff(run: seq<State>)
    requires Run(run) && run[|run| - 1].workersStopped
    ensures (forall longer | Retires(run, longer) :: Drained(longer[|longer| - 1])) <==> Claimed(run[|run| - 1])
  {
    hide Next, Init, Inv, LeftOver, Drained;
    var s := run[|run| - 1];
    if k :| LeftOver(s, k) {
      var longer := WorkersLeave(run, s.workers.Keys, k);
      RunInv(longer, |longer| - 1);
      ClaimedIsDrained(longer[|longer| - 1]);
      assert Retires(run, longer);
    } else {
      forall longer | Retires(run, longer)
        ensures Drained(longer[|longer| - 1])
      {
        RunInv(longer, |longer| - 1);
        ClaimedToTheEnd(longer, |run| - 1, |longer| - 1);
        ClaimedIsDrained(longer[|longer| - 1]);
      }
    }
  }

  // ---------------------------------------------------------------- an accepted item that nobody takes

  /** The queue holds one item, and the submission stands at `subs`. */
  ghost function Holding(s: State, k: Key, i: int, submitters: nat, subs: map<int, Submission>): State {
    s.(started := true, begun := {i}, slots := 1, nextRef := s.nextRef + 1, queues := map[k := s.nextRef],
       objects := map[s.nextRef := Queue(k, [Item(k, i)], false, submitters)], submissions := subs,
       log := Log(map[k := [Item(k, i)]], map[]))
  }

  /** One call to Submit from a fresh queue, up to its return. */
  lemma SubmitOne(s: State, k: Key, i: int) returns (run: seq<State>)
    requires Init(s)
    ensures Traced(run, Holding(s, k, i, 0, map[])) && run[0] == s
  {
    hide Run, Registering, Sending, FinishingSubmit;
    var begun := s.(started := true, submissions := map[i := Submission(Item(k, i), Admitted)], begun := {i});
    var slotted := begun.(submissions := map[i := Submission(Item(k, i), Slotted)], slots := 1);
    run := BeginOne(s, k, i, begun, slotted);
    run := SendOne(s, run, k, i, slotted);
    run := LeaveOne(s, run, k, i);
  }

  lemma SendOne(s: State, run: seq<State>, k: Key, i: int, slotted: State) returns (longer: seq<State>)
    requires Init(s) && Traced(run, slotted) && run != [] && run[0] == s
    requires slotted == s.(started := true, submissions := map[i := Submission(Item(k, i), Slotted)],
                           begun := {i}, slots := 1)
    ensures longer != [] && longer[0] == s
    ensures Traced(longer, Holding(s, k, i, 1, map[i := Submission(Item(k, i), Sent(s.nextRef))]))
  {
    hide Run;
    var registered := Registering(slotted, i);
    TraceExtends(run, slotted, Register(i), registered);
    assert registered.objects == map[s.nextRef := Queue(k, [], false, 1)];
    var sent := Sending(registered, i);
    assert [] + [Item(k, i)] == [Item(k, i)];
    TraceExtends(run + [registered], registered, Send(i), sent);
    assert sent.submissions == map[i := Submission(Item(k, i), Sent(s.nextRef))];
    assert sent.objects == map[s.nextRef := Queue(k, [Item(k, i)], false, 1)];
    assert sent == Holding(s, k, i, 1, sent.submissions);
    longer := run + [registered] + [sent];
  }

  lemma LeaveOne(s: State, run: seq<State>, k: Key, i: int) returns (longer: seq<State>)
    requires run != [] && run[0] == s
    requires Traced(run, Holding(s, k, i, 1, map[i := Submission(Item(k, i), Sent(s.nextRef))]))
    ensures Traced(longer, Holding(s, k, i, 0, map[])) && longer[0] == s
  {
    hide Run;
    var sent := Holding(s, k, i, 1, map[i := Submission(Item(k, i), Sent(s.nextRef))]);
    var left := FinishingSubmit(sent, i);
    TraceExtends(run, sent, FinishSubmit(i), left);
    var done := left.(submissions := left.submissions - {i});
    TraceExtends(run + [left], left, SubmissionDone(i), done);
    assert done.submissions == map[];
    assert done.objects == map[s.nextRef := Queue(k, [Item(k, i)], false, 0)];
    assert done == Holding(s, k, i, 0, map[]);
    longer := run + [left] + [done];
  }

  lemma BeginOne(s: State, k: Key, i: int, begun: State, slotted: State) returns (run: seq<State>)
    requires Init(s)
    requires begun == s.(started := true, submissions := map[i := Submission(Item(k, i), Admitted)], begun := {i})
    requires slotted == begun.(submissions := map[i := Submission(Item(k, i), Slotted)], slots := 1)
    ensures Traced(run, slotted) && run != [] && run[0] == s
  {
    var started := s.(started := true);
    TraceExtends([s], s, Start, started);
    TraceExtends([s] + [started], started, BeginSubmission(i, Item(k, i)), begun);
    TraceExtends([s] + [started] + [begun], begun, AcquireSlot(i), slotted);
    run := [s] + [started] + [begun] + [slotted];
  }

  /**
    Whatever the limits and the number of workers, a queue can stop without processing what it accepted:
    the call has returned with success, Stop has run, every worker has left, and the item is untaken.
  */
  lemma StopCanLeaveAnItem(s: State, k: Key, i: int) returns (run: seq<State>)
    requires Init(s)
    ensures Run(run) && run[0] == s
    ensures
      var t := run[|run| - 1];
      t.workersStopped && AllExited(t) && t.submissions == map[] &&
      Lookup(t.log.sent, k) == [Item(k, i)] && Lookup(t.log.taken, k) == []
  {
    hide Next, Inv;
    run := SubmitOne(s, k, i);
    var before := Holding(s, k, i, 0, map[]);
    var stopping := before.(stopping := true);
    var stopped := stopping.(workersStopped := true);
    TraceExtends(run, before, StopSubmitting, stopping);
    TraceExtends(run + [stopping], stopping, StopWorkers, stopped);
    assert LeftOver(stopped, k);
    run := WorkersLeave(run + [stopping] + [stopped], stopped.workers.Keys, k);
    var t := run[|run| - 1];
    RunInv(run, |run| - 1);
    FifoAt(t, k);
    StoppedIsQuiet(t);
  }

  lemma StoppedIsQuiet(s: State)
    requires Inv(s) && s.workersStopped
    ensures s.submissions == map[]
  {
  }
}
