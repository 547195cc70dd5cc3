/** What the key queue promises, stated over all runs. */
module KeyQueueTheorems {
  import opened KeyQueueSteps
  import opened KeyQueueSafety

  // ---------------------------------------------------------------- refinement

  /** The abstract queue: per key, a FIFO sequence and whether an item of the key is being processed. */
  datatype Entry = Entry(pending: seq<Item>, busy: bool)

  datatype AbstractAction = Put(k: Key, x: Item) | Take(k: Key, x: Item) | Done(k: Key) | Stutter

  ghost predicate AbstractStep(m: imap<Key, Entry>, a: AbstractAction, n: imap<Key, Entry>)
    requires forall k: Key :: k in m
  {
    match a
    case Put(k, x) => n == m[k := Entry(m[k].pending + [x], m[k].busy)]
    case Take(k, x) =>
      !m[k].busy && m[k].pending != [] && x == m[k].pending[0] && n == m[k := Entry(m[k].pending[1..], true)]
    case Done(k) => m[k].busy && n == m[k := Entry(m[k].pending, false)]
    case Stutter => n == m
  }

  ghost predicate WorksOn(workers: map<int, WorkerPhase>, w: int, k: Key) {
    w in workers && workers[w].Working? && workers[w].item.key == k
  }

  ghost predicate Busy(workers: map<int, WorkerPhase>, k: Key) {
    exists w :: WorksOn(workers, w, k)
  }

  ghost function Abstract(s: State): (m: imap<Key, Entry>)
    ensures forall k: Key :: k in m
  {
    imap k: Key :: Entry(Pending(s.queues, s.objects, k), Busy(s.workers, k))
  }

  /** Which abstract action a step performs: only three of the concrete steps are visible. */
  ghost function Meaning(s: State, a: Action): AbstractAction {
    match a
    case Send(i) =>
      if i in s.submissions then Put(s.submissions[i].item.key, s.submissions[i].item) else Stutter
    case Receive(w) =>
      if w in s.workers && OwnsQueue(s.workers[w]) && s.workers[w].q in s.objects &&
         s.objects[s.workers[w].q].items != [] then
        Take(s.objects[s.workers[w].q].key, s.objects[s.workers[w].q].items[0])
      else Stutter
    case FinishEvent(w) =>
      if w in s.workers && s.workers[w].Working? then Done(s.workers[w].item.key) else Stutter
    case _ => Stutter
  }

  /** A key is busy for at most one worker, because its mapped queue has one owner. */
  lemma OneWorkerPerKey(s: State, v: int, w: int, k: Key)
    requires Inv(s) && WorksOn(s.workers, v, k)
    requires w in s.workers && OwnsQueue(s.workers[w]) && s.workers[w].q in s.objects &&
             s.objects[s.workers[w].q].key == k
    ensures v == w
  {
    hide Counted, ChannelsOk, Conserved, Fifo;
    assert Owns(s.workers, v, s.workers[v].q);
    assert Owns(s.workers, w, s.workers[w].q);
  }

  lemma BusyWhenReceived(s: State, w: int, t: State, k: Key)
    requires Inv(s) && Step(s, Receive(w), t)
    ensures Busy(t.workers, k) <==> Busy(s.workers, k) || k == s.objects[s.workers[w].q].key
    ensures k == s.objects[s.workers[w].q].key ==> !Busy(s.workers, k)
  {
    ReceivedKey(s, w);
    forall v
      ensures WorksOn(t.workers, v, k) <==> WorksOn(s.workers, v, k) || (v == w && k == s.objects[s.workers[w].q].key)
    {
    }
    if k == s.objects[s.workers[w].q].key && Busy(s.workers, k) {
      var v :| WorksOn(s.workers, v, k);
      OneWorkerPerKey(s, v, w, k);
    }
    if k == s.objects[s.workers[w].q].key {
      assert WorksOn(t.workers, w, k);
    }
  }

  lemma ReceivedKey(s: State, w: int)
    requires Inv(s) && w in s.workers && s.workers[w].Selected?
    ensures s.workers[w].q in s.objects && s.objects[s.workers[w].q].items != []
    ensures s.objects[s.workers[w].q].items[0].key == s.objects[s.workers[w].q].key
  {
    OwnerFacts(s.objects, s.workers, w);
    ChannelAt(s.objects, s.maxPerKey, s.workers[w].q);
  }

  lemma DropPrefix(a: seq<Item>, b: seq<Item>, c: seq<Item>)
    requires a + b == a + c
    ensures b == c
  {
    assert b == (a + b)[|a|..];
    assert c == (a + c)[|a|..];
  }

  lemma FifoAt(s: State, k: Key)
    requires Inv(s)
    ensures Lookup(s.log.sent, k) == Lookup(s.log.taken, k) + Pending(s.queues, s.objects, k)
  {
  }

  /** What waits changes exactly by what is sent and what is taken. */
  lemma PendingChange(s: State, a: Action, t: State, k: Key, put: seq<Item>, got: seq<Item>)
    requires Inv(s) && Inv(t)
    requires Lookup(t.log.sent, k) == Lookup(s.log.sent, k) + put
    requires Lookup(t.log.taken, k) == Lookup(s.log.taken, k) + got
    ensures Pending(s.queues, s.objects, k) + put == got + Pending(t.queues, t.objects, k)
  {
    hide Inv, Pending, Lookup;
    FifoAt(s, k);
    FifoAt(t, k);
    var before, after := Lookup(s.log.taken, k), Pending(t.queues, t.objects, k);
    assert before + (Pending(s.queues, s.objects, k) + put) == (before + Pending(s.queues, s.objects, k)) + put;
    assert before + (got + after) == (before + got) + after;
    DropPrefix(before, Pending(s.queues, s.objects, k) + put, got + after);
  }

  lemma BusyWhenFinished(s: State, w: int, t: State, k: Key)
    requires Inv(s) && Step(s, FinishEvent(w), t)
    ensures Busy(t.workers, k) <==> Busy(s.workers, k) && k != s.workers[w].item.key
    ensures k == s.workers[w].item.key ==> Busy(s.workers, k)
  {
    var key := s.workers[w].item.key;
    assert WorksOn(s.workers, w, key);
    OwnerFacts(s.objects, s.workers, w);
    forall v
      ensures WorksOn(t.workers, v, k) <==> WorksOn(s.workers, v, k) && v != w
    {
    }
    if k == key && Busy(t.workers, k) {
      var v :| WorksOn(t.workers, v, k);
      OneWorkerPerKey(s, v, w, k);
    }
    if k != key && Busy(s.workers, k) {
      var v :| WorksOn(s.workers, v, k);
      assert WorksOn(t.workers, v, k);
    }
  }

  lemma BusyUnchanged(s: State, a: Action, t: State, k: Key)
    requires Step(s, a, t) && !a.Receive? && !a.FinishEvent?
    ensures Busy(t.workers, k) <==> Busy(s.workers, k)
  {
    hide Registering, Sending, FinishingSubmit;
    forall v
      ensures WorksOn(t.workers, v, k) <==> WorksOn(s.workers, v, k)
    {
      WorkersUnchanged(s, a, t);
    }
  }

  lemma WorkersUnchanged(s: State, a: Action, t: State)
    requires Step(s, a, t)
    ensures a.Register? || a.Send? || a.FinishSubmit? ==> t.workers == s.workers
  {
  }

  lemma HistoryUnchanged(s: State, a: Action, t: State)
    requires Step(s, a, t) && !a.Send? && !a.Receive?
    ensures t.log == s.log
  {
  }

  /** Every step of the concrete queue is a step of the abstract one, or invisible. */
  lemma Refines(s: State, a: Action, t: State)
    requires Inv(s) && Step(s, a, t)
    ensures AbstractStep(Abstract(s), Meaning(s, a), Abstract(t))
  {
    hide Inv, Step, Abstract;
    StepKeepsInv(s, a, t);
    if a.Send? {
      SendRefines(s, a.i, t);
    } else if a.Receive? {
      ReceiveRefines(s, a.w, t);
    } else if a.FinishEvent? {
      FinishRefines(s, a.w, t);
    } else {
      QuietRefines(s, a, t);
    }
  }

  lemma SendAt(s: State, i: int, t: State, k: Key)
    requires Inv(s) && Inv(t) && Step(s, Send(i), t)
    ensures Pending(t.queues, t.objects, k) ==
            Pending(s.queues, s.objects, k) + if k == s.submissions[i].item.key then [s.submissions[i].item] else []
    ensures Busy(t.workers, k) == Busy(s.workers, k)
  {
    hide Inv, Pending, Busy;
    var x := s.submissions[i].item;
    PendingChange(s, Send(i), t, k, if k == x.key then [x] else [], []);
    BusyUnchanged(s, Send(i), t, k);
  }

  lemma SendRefines(s: State, i: int, t: State)
    requires Inv(s) && Inv(t) && Step(s, Send(i), t)
    ensures AbstractStep(Abstract(s), Meaning(s, Send(i)), Abstract(t))
  {
    hide Inv, Pending, Busy, Sending;
    var x := s.submissions[i].item;
    var m, n := Abstract(s), Abstract(t);
    forall k: Key
      ensures n[k] == if k == x.key then Entry(m[k].pending + [x], m[k].busy) else m[k]
    {
      SendAt(s, i, t, k);
    }
  }

  lemma ReceiveAt(s: State, w: int, t: State, k: Key)
    requires Inv(s) && Inv(t) && Step(s, Receive(w), t)
    ensures k != s.objects[s.workers[w].q].key ==>
              Pending(t.queues, t.objects, k) == Pending(s.queues, s.objects, k) &&
              Busy(t.workers, k) == Busy(s.workers, k)
    ensures k == s.objects[s.workers[w].q].key ==>
              Pending(s.queues, s.objects, k) ==
                [s.objects[s.workers[w].q].items[0]] + Pending(t.queues, t.objects, k) &&
              !Busy(s.workers, k) && Busy(t.workers, k)
  {
    hide Inv, Pending, Busy;
    var q := s.objects[s.workers[w].q];
    PendingChange(s, Receive(w), t, k, [], if k == q.key then [q.items[0]] else []);
    assert Pending(s.queues, s.objects, k) + [] == Pending(s.queues, s.objects, k);
    assert [] + Pending(t.queues, t.objects, k) == Pending(t.queues, t.objects, k);
    BusyWhenReceived(s, w, t, k);
  }

  lemma ReceiveRefines(s: State, w: int, t: State)
    requires Inv(s) && Inv(t) && Step(s, Receive(w), t)
    ensures AbstractStep(Abstract(s), Meaning(s, Receive(w)), Abstract(t))
  {
    hide Inv, Pending, Busy, Receiving;
    var q := s.objects[s.workers[w].q];
    var m, n := Abstract(s), Abstract(t);
    ReceiveAt(s, w, t, q.key);
    assert m[q.key].pending[1..] == n[q.key].pending;
    forall k: Key
      ensures n[k] == if k == q.key then Entry(m[q.key].pending[1..], true) else m[k]
    {
      ReceiveAt(s, w, t, k);
    }
  }

  lemma QuietPending(s: State, a: Action, t: State, k: Key)
    requires Inv(s) && Inv(t) && Step(s, a, t) && !a.Send? && !a.Receive?
    ensures Pending(t.queues, t.objects, k) == Pending(s.queues, s.objects, k)
  {
    hide Inv, Pending, Step;
    HistoryUnchanged(s, a, t);
    PendingChange(s, a, t, k, [], []);
    assert Pending(s.queues, s.objects, k) + [] == Pending(s.queues, s.objects, k);
    assert [] + Pending(t.queues, t.objects, k) == Pending(t.queues, t.objects, k);
  }

  lemma FinishRefines(s: State, w: int, t: State)
    requires Inv(s) && Inv(t) && Step(s, FinishEvent(w), t)
    ensures AbstractStep(Abstract(s), Meaning(s, FinishEvent(w)), Abstract(t))
  {
    hide Inv, Pending, Busy, FinishingEvent;
    var m, n := Abstract(s), Abstract(t);
    var key := s.workers[w].item.key;
    BusyWhenFinished(s, w, t, key);
    forall k: Key
      ensures n[k] == if k == key then Entry(m[k].pending, false) else m[k]
    {
      QuietPending(s, FinishEvent(w), t, k);
      BusyWhenFinished(s, w, t, k);
    }
  }

  lemma QuietRefines(s: State, a: Action, t: State)
    requires Inv(s) && Inv(t) && Step(s, a, t) && !a.Send? && !a.Receive? && !a.FinishEvent?
    ensures Abstract(t) == Abstract(s)
  {
    hide Inv, Pending, Busy, Step;
    forall k: Key
      ensures Abstract(t)[k] == Abstract(s)[k]
    {
      QuietPending(s, a, t, k);
      BusyUnchanged(s, a, t, k);
    }
  }

  // ---------------------------------------------------------------- consequences for every run

  /** In every reachable state at most one worker processes a given key. */
  lemma SerializedPerKey(run: seq<State>, n: nat, v: int, w: int, k: Key)
    requires Run(run) && n < |run| && WorksOn(run[n].workers, v, k) && WorksOn(run[n].workers, w, k)
    ensures v == w
  {
    RunInv(run, n);
    OwnerFacts(run[n].objects, run[n].workers, w);
    OneWorkerPerKey(run[n], v, w, k);
  }

  /**
    In every reachable state the processed items of a key are the first items sent for it, the rest
    waits in the map.
  */
  lemma ProcessedInSendOrder(run: seq<State>, n: nat, k: Key)
    requires Run(run) && n < |run|
    ensures Lookup(run[n].log.taken, k) <= Lookup(run[n].log.sent, k)
    ensures Lookup(run[n].log.sent, k)[|Lookup(run[n].log.taken, k)|..] == Pending(run[n].queues, run[n].objects, k)
  {
    RunInv(run, n);
    FifoAt(run[n], k);
  }

  /** A queue object that is not in the map is empty: its deletion lost nothing, and no one will write to it again. */
  lemma NothingStranded(run: seq<State>, n: nat, r: Ref)
    requires Run(run) && n < |run| && r in run[n].objects
    requires forall k | k in run[n].queues :: run[n].queues[k] != r
    ensures run[n].objects[r].items == [] && SubmittersOf(run[n].submissions, r) == {}
  {
    RunInv(run, n);
    var s := run[n];
    if InUse(s.objects[r]) {
      InUseIsMapped(s.queues, s.objects, r);
      assert false;
    }
  }

  /** A waiting item can be selected, unless a worker already owns its key. */
  lemma WaitingIsSelectable(run: seq<State>, n: nat, r: Ref, w: int)
    requires Run(run) && n < |run| && r in run[n].objects && run[n].objects[r].items != []
    requires w in run[n].workers && run[n].workers[w].Idle?
    ensures (exists v :: Owns(run[n].workers, v, r)) || (exists t :: Step(run[n], Select(w, run[n].objects[r].key), t))
  {
    RunInv(run, n);
    var s := run[n];
    InUseIsMapped(s.queues, s.objects, r);
    var q := s.objects[r];
    if !q.processing {
      var t := s.(objects := s.objects[r := q.(processing := true)], workers := s.workers[w := Selected(r)]);
      assert Step(s, Select(w, q.key), t);
    }
  }

  /**
    Slots are conserved: those taken are exactly the submitters past acquisition, the queued items and
    the items in processing. So in-flight work never exceeds the limit; nor does a channel its bound.
  */
  lemma Bounded(run: seq<State>, n: nat)
    requires Run(run) && n < |run|
    ensures run[n].slots ==
            |SlotHolders(run[n].submissions)| + |QueuedPositions(run[n].objects)| + |BusyWorkers(run[n].workers)|
              <= run[n].limit
    ensures forall r | r in run[n].objects :: |run[n].objects[r].items| <= run[n].maxPerKey
  {
    RunInv(run, n);
  }

  /** The receive in nextEvent and both slot releases never block. */
  lemma ReceiveAndReleaseNeverBlock(run: seq<State>, n: nat)
    requires Run(run) && n < |run|
    ensures forall w | w in run[n].workers && run[n].workers[w].Selected? :: exists t :: Step(run[n], Receive(w), t)
    ensures forall w | w in run[n].workers && run[n].workers[w].Finished? :: exists t :: Step(run[n], ReleaseSlot(w), t)
    ensures forall i | i in run[n].submissions && run[n].submissions[i].phase.Cancelled? ::
              exists t :: Step(run[n], Refund(i), t)
  {
    RunInv(run, n);
    var s := run[n];
    forall w | w in s.workers && s.workers[w].Selected?
      ensures exists t :: Step(s, Receive(w), t)
    {
      OwnerFacts(s.objects, s.workers, w);
      assert Step(s, Receive(w), Receiving(s, w));
    }
    forall w | w in s.workers && s.workers[w].Finished?
      ensures exists t :: Step(s, ReleaseSlot(w), t)
    {
      HeldSlot(s, w, 0);
      assert Step(s, ReleaseSlot(w), s.(workers := s.workers[w := Idle], slots := s.slots - 1));
    }
    forall i | i in s.submissions && s.submissions[i].phase.Cancelled?
      ensures exists t :: Step(s, Refund(i), t)
    {
      HeldSlot(s, 0, i);
      var t := s.(submissions := Moved(s.submissions, i, Refunded(s.submissions[i].phase.q)), slots := s.slots - 1);
      assert Step(s, Refund(i), t);
    }
  }

  lemma HeldSlot(s: State, w: int, i: int)
    requires Inv(s)
    requires w in BusyWorkers(s.workers) || i in SlotHolders(s.submissions)
    ensures s.slots > 0
  {
    hide Attached, Counted, Exclusive, ChannelsOk, Fifo;
  }

  // ---------------------------------------------------------------- shutdown

  /** How many of its own steps a Submit call still needs at most. */
  function Remaining(s: State, i: int): nat {
    if i !in s.submissions then 0 else
    match s.submissions[i].phase
    case Admitted => 6
    case Slotted => 5
    case Registered(_) => 4
    case Cancelled(_) => 3
    case Sent(_) => 2
    case Refunded(_) => 2
    case Left => 1
  }

  ghost predicate Advances(s: State, a: Action, t: State, i: int) {
    Step(s, a, t) && Remaining(t, i) < Remaining(s, i)
  }

  /** While the queue is stopping, an admitted Submit is never stuck: Stop's wait on submitWG terminates. */
  lemma StopDrains(s: State, i: int)
    requires Inv(s) && s.stopping && i in s.submissions
    ensures exists a, t :: Advances(s, a, t, i)
  {
    hide Attached, Counted, Exclusive, ChannelsOk, Fifo, SlotHolders;
    match s.submissions[i].phase
    case Admitted =>
      assert Advances(s, GiveUpSlot(i), s.(submissions := Moved(s.submissions, i, Left)), i);
    case Slotted =>
      assert Advances(s, Register(i), Registering(s, i), i);
    case Registered(q) =>
      assert Advances(s, Cancel(i), s.(submissions := Moved(s.submissions, i, Cancelled(q))), i);
    case Cancelled(q) =>
      CancelledHoldsSlot(s, i);
      assert Advances(s, Refund(i), s.(submissions := Moved(s.submissions, i, Refunded(q)), slots := s.slots - 1), i);
    case Sent(q) =>
      SubmitterIsCounted(s.objects, s.submissions, i);
      assert Advances(s, FinishSubmit(i), FinishingSubmit(s, i), i);
    case Refunded(q) =>
      SubmitterIsCounted(s.objects, s.submissions, i);
      assert Advances(s, FinishSubmit(i), FinishingSubmit(s, i), i);
    case Left =>
      assert Advances(s, SubmissionDone(i), s.(submissions := s.submissions - {i}), i);
  }

  lemma CancelledHoldsSlot(s: State, i: int)
    requires Inv(s) && i in s.submissions && s.submissions[i].phase.Cancelled?
    ensures s.slots > 0
  {
    HeldSlot(s, 0, i);
  }

  /** No other step sets an admitted Submit back, and once stopping none is admitted any more. */
  lemma NeverSetBack(s: State, a: Action, t: State, i: int)
    requires Step(s, a, t) && s.stopping
    ensures t.stopping && Remaining(t, i) <= Remaining(s, i)
  {
    if WorkerAction(a) {
      SubmissionsUnchanged(s, a, t);
    }
  }

  lemma SubmissionsUnchanged(s: State, a: Action, t: State)
    requires Step(s, a, t) && WorkerAction(a)
    ensures t.submissions == s.submissions && (s.stopping ==> t.stopping)
  {
  }

  /** After the workers are told to stop, nothing is ever sent again. */
  lemma NoSendAfterStop(run: seq<State>, n: nat, a: Action, t: State)
    requires Run(run) && n < |run| && run[n].workersStopped && Step(run[n], a, t)
    ensures t.log.sent == run[n].log.sent && t.workersStopped
  {
    RunInv(run, n);
    if a.Send? {
      assert false;
    }
  }

  // ---------------------------------------------------------------- interference

  predicate OfSubmission(a: Action, i: int) {
    !WorkerAction(a) && !a.Start? && a.i == i
  }

  predicate OfWorker(a: Action, w: int) {
    (a.Select? || a.Receive? || a.FinishEvent? || a.ReleaseSlot? || a.WorkerExit?) && a.w == w
  }

  /** Other goroutines leave a submission and a worker alone: what Yield and YieldWorker promise. */
  lemma OthersInterfere(s: State, a: Action, t: State, i: int, w: int)
    requires Step(s, a, t)
    ensures !OfSubmission(a, i) ==> (i in t.submissions <==> i in s.submissions)
    ensures !OfSubmission(a, i) && i in s.submissions ==> t.submissions[i] == s.submissions[i]
    ensures !OfWorker(a, w) && w in s.workers ==> w in t.workers && t.workers[w] == s.workers[w]
  {
    if WorkerAction(a) {
      SubmissionsUnchanged(s, a, t);
    }
  }

  /** What was sent and what was taken for a key keep their place in the order. */
  lemma HistoryOnlyGrows(s: State, a: Action, t: State, k: Key)
    requires Step(s, a, t)
    ensures Lookup(s.log.sent, k) <= Lookup(t.log.sent, k) && Lookup(s.log.taken, k) <= Lookup(t.log.taken, k)
  {
    if !a.Send? && !a.Receive? {
      HistoryUnchanged(s, a, t);
    }
  }
}
