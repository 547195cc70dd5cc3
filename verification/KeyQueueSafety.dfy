/** Safety of the key queue over all runs. */
module KeyQueueSafety {
  import opened KeyQueueSteps

  // ---------------------------------------------------------------- the map and its objects

  /** Replacing the contents of a queue that is in the map strands nothing. */
  lemma ReplaceMapped(queues: map<Key, Ref>, objects: map<Ref, Queue>, r: Ref, q: Queue)
    requires Attached(queues, objects) && r in objects && q.key == objects[r].key
    requires q.key in queues && queues[q.key] == r
    ensures Attached(queues, objects[r := q])
  {
  }

  /** registerQueueSubmitter puts the queue it returns in the map. */
  lemma AttachQueue(queues: map<Key, Ref>, objects: map<Ref, Queue>, k: Key, made: Ref, q: Queue)
    requires Attached(queues, objects) && made !in objects && q.key == k
    ensures
      var r := RefFor(queues, k, made);
      Attached(queues[k := r], objects[r := q])
  {
  }

  /** Deleting a queue from the map is safe: nothing uses it. */
  lemma PruneQueue(queues: map<Key, Ref>, objects: map<Ref, Queue>, r: Ref, q: Queue)
    requires Attached(queues, objects) && r in objects && q.key == objects[r].key
    requires q.key in queues && queues[q.key] == r
    ensures Attached(Prune(queues, r, q), objects[r := q])
  {
  }

  // ---------------------------------------------------------------- submitter counts

  lemma CountJoin(objects: map<Ref, Queue>, subs: map<int, Submission>, i: int, r: Ref)
    requires Counted(objects, subs) && i in subs && !OnQueue(subs[i].phase)
    requires QueueAt(objects, r, subs[i].item.key).key == subs[i].item.key
    ensures
      var q := QueueAt(objects, r, subs[i].item.key);
      Counted(objects[r := q.(submitters := q.submitters + 1)], subs[i := subs[i].(phase := Registered(r))])
  {
    var subs' := subs[i := subs[i].(phase := Registered(r))];
    assert SubmittersOf(subs', r) == SubmittersOf(subs, r) + {i};
    if r !in objects {
      forall j | j in SubmittersOf(subs, r)
        ensures false
      {
      }
      assert SubmittersOf(subs, r) == {};
    }
    forall p | p in objects && p != r
      ensures SubmittersOf(subs', p) == SubmittersOf(subs, p)
    {
    }
  }

  lemma CountLeave(objects: map<Ref, Queue>, subs: map<int, Submission>, i: int)
    requires Counted(objects, subs) && i in subs && OnQueue(subs[i].phase)
    ensures subs[i].phase.q in objects && objects[subs[i].phase.q].submitters > 0
    ensures
      var r := subs[i].phase.q;
      var q := objects[r].(submitters := objects[r].submitters - 1);
      Counted(objects[r := q], subs[i := subs[i].(phase := Left)])
  {
    var r := subs[i].phase.q;
    var subs' := subs[i := subs[i].(phase := Left)];
    assert i in SubmittersOf(subs, r);
    assert SubmittersOf(subs', r) == SubmittersOf(subs, r) - {i};
    forall p | p in objects && p != r
      ensures SubmittersOf(subs', p) == SubmittersOf(subs, p)
    {
    }
  }

  /** A submitter that stays on its queue, or stays off every queue, leaves all counts alone. */
  lemma CountSame(objects: map<Ref, Queue>, subs: map<int, Submission>, i: int, p: SubmitPhase)
    requires Counted(objects, subs) && i in subs
    requires OnQueue(p) <==> OnQueue(subs[i].phase)
    requires OnQueue(p) ==> p.q == subs[i].phase.q
    ensures Counted(objects, subs[i := subs[i].(phase := p)])
  {
    forall r | r in objects
      ensures SubmittersOf(subs[i := subs[i].(phase := p)], r) == SubmittersOf(subs, r)
    {
    }
  }

  /** Channel contents and the processing flag do not enter the counts. */
  lemma CountObject(objects: map<Ref, Queue>, subs: map<int, Submission>, r: Ref, q: Queue)
    requires Counted(objects, subs) && r in objects
    requires q.key == objects[r].key && q.submitters == objects[r].submitters
    ensures Counted(objects[r := q], subs)
  {
  }

  // ---------------------------------------------------------------- the processing flag

  lemma ExclusiveObject(objects: map<Ref, Queue>, workers: map<int, WorkerPhase>, r: Ref, q: Queue)
    requires Exclusive(objects, workers)
    requires r in objects ==>
               q.key == objects[r].key && q.processing == objects[r].processing && |q.items| >= |objects[r].items|
    requires r !in objects ==> !q.processing
    ensures Exclusive(objects[r := q], workers)
  {
  }

  lemma ExclusiveOther(objects: map<Ref, Queue>, workers: map<int, WorkerPhase>, w: int, p: WorkerPhase)
    requires Exclusive(objects, workers) && w in workers && !OwnsQueue(workers[w]) && !OwnsQueue(p)
    ensures Exclusive(objects, workers[w := p])
  {
    var workers' := workers[w := p];
    forall v, r
      ensures Owns(workers', v, r) <==> Owns(workers, v, r)
    {
    }
  }

  lemma ExclusiveSelect(objects: map<Ref, Queue>, workers: map<int, WorkerPhase>, w: int, r: Ref)
    requires Exclusive(objects, workers) && w in workers && workers[w].Idle?
    requires r in objects && !objects[r].processing && objects[r].items != []
    ensures Exclusive(objects[r := objects[r].(processing := true)], workers[w := Selected(r)])
  {
    var workers' := workers[w := Selected(r)];
    assert Owns(workers', w, r);
    forall p | p in objects && objects[p].processing
      ensures exists v :: Owns(workers', v, p)
    {
      var v :| Owns(workers, v, p);
      assert Owns(workers', v, p);
    }
    forall v, p | Owns(workers', v, p) && v != w
      ensures Owns(workers, v, p)
    {
    }
  }

  lemma ExclusiveReceive(objects: map<Ref, Queue>, workers: map<int, WorkerPhase>, w: int, q: Queue, x: Item)
    requires Exclusive(objects, workers) && w in workers && workers[w].Selected?
    requires workers[w].q in objects && q.key == objects[workers[w].q].key == x.key && q.processing
    ensures Exclusive(objects[workers[w].q := q], workers[w := Working(workers[w].q, x)])
  {
    var r := workers[w].q;
    var workers' := workers[w := Working(r, x)];
    assert Owns(workers, w, r);
    forall v, p
      ensures Owns(workers', v, p) <==> Owns(workers, v, p)
    {
    }
  }

  lemma ExclusiveFinish(objects: map<Ref, Queue>, workers: map<int, WorkerPhase>, w: int)
    requires Exclusive(objects, workers) && w in workers && workers[w].Working?
    ensures workers[w].q in objects
    ensures
      var r := workers[w].q;
      Exclusive(objects[r := objects[r].(processing := false)], workers[w := Finished(workers[w].item)])
  {
    var r := workers[w].q;
    assert Owns(workers, w, r);
    var workers' := workers[w := Finished(workers[w].item)];
    forall v, p
      ensures Owns(workers', v, p) <==> Owns(workers, v, p) && v != w
    {
    }
    forall p | p in objects && objects[p].processing && p != r
      ensures exists v :: Owns(workers', v, p)
    {
      var v :| Owns(workers, v, p);
      assert Owns(workers', v, p);
    }
  }

  // ---------------------------------------------------------------- slots

  lemma SlotPhase(subs: map<int, Submission>, i: int, p: SubmitPhase)
    requires i in subs
    ensures |SlotHolders(subs[i := subs[i].(phase := p)])| ==
            |SlotHolders(subs)| + (if HoldsSlot(p) then 1 else 0) - (if HoldsSlot(subs[i].phase) then 1 else 0)
  {
    var rest := SlotHolders(subs) - {i};
    assert SlotHolders(subs) == if HoldsSlot(subs[i].phase) then rest + {i} else rest;
    assert SlotHolders(subs[i := subs[i].(phase := p)]) == if HoldsSlot(p) then rest + {i} else rest;
  }

  lemma BusyPhase(workers: map<int, WorkerPhase>, w: int, p: WorkerPhase)
    requires w in workers
    ensures |BusyWorkers(workers[w := p])| ==
            |BusyWorkers(workers)| + (if HoldsItem(p) then 1 else 0) - (if HoldsItem(workers[w]) then 1 else 0)
  {
    var rest := BusyWorkers(workers) - {w};
    assert BusyWorkers(workers) == if HoldsItem(workers[w]) then rest + {w} else rest;
    assert BusyWorkers(workers[w := p]) == if HoldsItem(p) then rest + {w} else rest;
  }

  lemma QueuedSame(objects: map<Ref, Queue>, r: Ref, q: Queue)
    requires |q.items| == if r in objects then |objects[r].items| else 0
    ensures QueuedPositions(objects[r := q]) == QueuedPositions(objects)
  {
  }

  lemma QueuedPush(objects: map<Ref, Queue>, r: Ref, q: Queue)
    requires r in objects && |q.items| == |objects[r].items| + 1
    ensures |QueuedPositions(objects[r := q])| == |QueuedPositions(objects)| + 1
  {
    assert QueuedPositions(objects[r := q]) == QueuedPositions(objects) + {Position(r, |objects[r].items|)};
  }

  lemma QueuedPop(objects: map<Ref, Queue>, r: Ref, q: Queue)
    requires r in objects && |q.items| + 1 == |objects[r].items|
    ensures |QueuedPositions(objects[r := q])| == |QueuedPositions(objects)| - 1
  {
    assert Position(r, |q.items|) in QueuedPositions(objects);
    assert QueuedPositions(objects[r := q]) == QueuedPositions(objects) - {Position(r, |q.items|)};
  }

  // ---------------------------------------------------------------- channel contents and order

  lemma ChannelReplaced(objects: map<Ref, Queue>, maxPerKey: nat, r: Ref, q: Queue)
    requires ChannelsOk(objects, maxPerKey) && ChannelOk(q, maxPerKey)
    ensures ChannelsOk(objects[r := q], maxPerKey)
  {
  }

  /** A mapped queue keeps its contents. */
  lemma FifoSame(log: Log, queues: map<Key, Ref>, objects: map<Ref, Queue>, r: Ref, q: Queue)
    requires Fifo(log, queues, objects) && r in objects && q.items == objects[r].items
    ensures Fifo(log, queues, objects[r := q])
  {
  }

  lemma FifoAttach(log: Log, queues: map<Key, Ref>, objects: map<Ref, Queue>,
                   k: Key, made: Ref, q: Queue)
    requires Fifo(log, queues, objects) && Attached(queues, objects) && made !in objects
    requires q.items == QueueAt(objects, RefFor(queues, k, made), k).items
    ensures
      var r := RefFor(queues, k, made);
      Fifo(log, queues[k := r], objects[r := q])
  {
  }

  lemma FifoPrune(log: Log, queues: map<Key, Ref>, objects: map<Ref, Queue>, r: Ref, q: Queue)
    requires Fifo(log, queues, objects) && r in objects && q.items == objects[r].items
    ensures Fifo(log, Prune(queues, r, q), objects[r := q])
  {
  }

  lemma FifoSend(log: Log, queues: map<Key, Ref>, objects: map<Ref, Queue>, r: Ref, x: Item)
    requires Fifo(log, queues, objects) && Attached(queues, objects)
    requires r in objects && objects[r].key == x.key && x.key in queues && queues[x.key] == r
    ensures Fifo(log.(sent := log.sent[x.key := Lookup(log.sent, x.key) + [x]]), queues,
                 objects[r := objects[r].(items := objects[r].items + [x])])
  {
  }

  lemma FifoReceive(log: Log, queues: map<Key, Ref>, objects: map<Ref, Queue>, r: Ref)
    requires Fifo(log, queues, objects) && Attached(queues, objects)
    requires r in objects && objects[r].items != [] && objects[r].key in queues && queues[objects[r].key] == r
    ensures
      var q := objects[r];
      Fifo(log.(taken := log.taken[q.key := Lookup(log.taken, q.key) + [q.items[0]]]), queues,
           objects[r := q.(items := q.items[1..])])
  {
  }

  lemma ChannelAt(objects: map<Ref, Queue>, maxPerKey: nat, r: Ref)
    requires ChannelsOk(objects, maxPerKey) && r in objects
    ensures ChannelOk(objects[r], maxPerKey)
  {
  }

  lemma InUseIsMapped(queues: map<Key, Ref>, objects: map<Ref, Queue>, r: Ref)
    requires Attached(queues, objects) && r in objects && InUse(objects[r])
    ensures objects[r].key in queues && queues[objects[r].key] == r
  {
  }

  lemma MappedIsObject(queues: map<Key, Ref>, objects: map<Ref, Queue>, k: Key)
    requires Attached(queues, objects) && k in queues
    ensures queues[k] in objects && objects[queues[k]].key == k
  {
  }

  lemma SubmitterIsCounted(objects: map<Ref, Queue>, subs: map<int, Submission>, i: int)
    requires Counted(objects, subs) && i in subs && OnQueue(subs[i].phase)
    ensures subs[i].phase.q in objects
    ensures objects[subs[i].phase.q].key == subs[i].item.key && objects[subs[i].phase.q].submitters > 0
  {
    assert i in SubmittersOf(subs, subs[i].phase.q);
  }

  lemma OwnerFacts(objects: map<Ref, Queue>, workers: map<int, WorkerPhase>, w: int)
    requires Exclusive(objects, workers) && w in workers && OwnsQueue(workers[w])
    ensures workers[w].q in objects && objects[workers[w].q].processing
    ensures workers[w].Selected? ==> objects[workers[w].q].items != []
    ensures workers[w].Working? ==> workers[w].item.key == objects[workers[w].q].key
  {
    assert Owns(workers, w, workers[w].q);
  }

  // ---------------------------------------------------------------- one lemma per step that touches a queue

  lemma RegisterKeeps(s: State, i: int, t: State)
    requires Inv(s) && PhaseIs(s, i, Slotted) && t == Registering(s, i)
    ensures Inv(t)
  {
    hide Attached, Counted, Exclusive, ChannelsOk, Fifo, SlotHolders, QueuedPositions, BusyWorkers;
    var k := s.submissions[i].item.key;
    var made := s.nextRef;
    var r := RefFor(s.queues, k, made);
    var q := t.objects[r];
    if k in s.queues {
      MappedIsObject(s.queues, s.objects, k);
      ChannelAt(s.objects, s.maxPerKey, r);
    }
    AttachQueue(s.queues, s.objects, k, made, q);
    FifoAttach(s.log, s.queues, s.objects, k, made, q);
    SlotPhase(s.submissions, i, Registered(r));
    CountJoin(s.objects, s.submissions, i, r);
    ExclusiveObject(s.objects, s.workers, r, q);
    QueuedSame(s.objects, r, q);
    ChannelReplaced(s.objects, s.maxPerKey, r, q);
  }

  lemma SendKeeps(s: State, i: int, t: State)
    requires Inv(s) && i in s.submissions && s.submissions[i].phase.Registered? && s.submissions[i].phase.q in s.objects
    requires |s.objects[s.submissions[i].phase.q].items| < s.maxPerKey && t == Sending(s, i)
    ensures Inv(t)
  {
    hide Attached, Counted, Exclusive, ChannelsOk, Fifo, SlotHolders, QueuedPositions, BusyWorkers;
    var r := s.submissions[i].phase.q;
    var x := s.submissions[i].item;
    var q := t.objects[r];
    SubmitterIsCounted(s.objects, s.submissions, i);
    InUseIsMapped(s.queues, s.objects, r);
    SlotPhase(s.submissions, i, Sent(r));
    CountSame(s.objects, s.submissions, i, Sent(r));
    CountObject(s.objects, t.submissions, r, q);
    ExclusiveObject(s.objects, s.workers, r, q);
    QueuedPush(s.objects, r, q);
    ReplaceMapped(s.queues, s.objects, r, q);
    FifoSend(s.log, s.queues, s.objects, r, x);
    ChannelAt(s.objects, s.maxPerKey, r);
    ChannelReplaced(s.objects, s.maxPerKey, r, q);
  }

  lemma FinishSubmitKeeps(s: State, i: int, t: State)
    requires Inv(s) && i in s.submissions && (s.submissions[i].phase.Sent? || s.submissions[i].phase.Refunded?)
    requires s.submissions[i].phase.q in s.objects && t == FinishingSubmit(s, i)
    ensures Inv(t)
  {
    hide Attached, Counted, Exclusive, ChannelsOk, Fifo, SlotHolders, QueuedPositions, BusyWorkers;
    var r := s.submissions[i].phase.q;
    var q := t.objects[r];
    SubmitterIsCounted(s.objects, s.submissions, i);
    InUseIsMapped(s.queues, s.objects, r);
    SlotPhase(s.submissions, i, Left);
    CountLeave(s.objects, s.submissions, i);
    ExclusiveObject(s.objects, s.workers, r, q);
    QueuedSame(s.objects, r, q);
    ChannelAt(s.objects, s.maxPerKey, r);
    ChannelReplaced(s.objects, s.maxPerKey, r, q);
    FifoPrune(s.log, s.queues, s.objects, r, q);
    PruneQueue(s.queues, s.objects, r, q);
  }

  lemma SelectKeeps(s: State, w: int, key: Key, t: State)
    requires Inv(s) && Step(s, Select(w, key), t)
    ensures Inv(t)
  {
    hide Attached, Counted, Exclusive, ChannelsOk, Fifo, SlotHolders, QueuedPositions, BusyWorkers;
    var r := s.queues[key];
    var q := t.objects[r];
    MappedIsObject(s.queues, s.objects, key);
    BusyPhase(s.workers, w, Selected(r));
    CountObject(s.objects, s.submissions, r, q);
    ExclusiveSelect(s.objects, s.workers, w, r);
    QueuedSame(s.objects, r, q);
    ReplaceMapped(s.queues, s.objects, r, q);
    FifoSame(s.log, s.queues, s.objects, r, q);
    ChannelAt(s.objects, s.maxPerKey, r);
    ChannelReplaced(s.objects, s.maxPerKey, r, q);
  }

  lemma ReceiveKeeps(s: State, w: int, t: State)
    requires Inv(s) && Step(s, Receive(w), t)
    ensures Inv(t)
  {
    hide Attached, Counted, Exclusive, ChannelsOk, Fifo, SlotHolders, QueuedPositions, BusyWorkers;
    var r := s.workers[w].q;
    var q := t.objects[r];
    var x := s.objects[r].items[0];
    OwnerFacts(s.objects, s.workers, w);
    InUseIsMapped(s.queues, s.objects, r);
    ChannelAt(s.objects, s.maxPerKey, r);
    BusyPhase(s.workers, w, Working(r, x));
    CountObject(s.objects, s.submissions, r, q);
    ExclusiveReceive(s.objects, s.workers, w, q, x);
    QueuedPop(s.objects, r, q);
    ReplaceMapped(s.queues, s.objects, r, q);
    FifoReceive(s.log, s.queues, s.objects, r);
    ChannelReplaced(s.objects, s.maxPerKey, r, q);
  }

  lemma FinishEventKeeps(s: State, w: int, t: State)
    requires Inv(s) && Step(s, FinishEvent(w), t)
    ensures Inv(t)
  {
    hide Attached, Counted, Exclusive, ChannelsOk, Fifo, SlotHolders, QueuedPositions, BusyWorkers;
    var r := s.workers[w].q;
    OwnerFacts(s.objects, s.workers, w);
    InUseIsMapped(s.queues, s.objects, r);
    var q := t.objects[r];
    BusyPhase(s.workers, w, t.workers[w]);
    CountObject(s.objects, s.submissions, r, q);
    ExclusiveFinish(s.objects, s.workers, w);
    QueuedSame(s.objects, r, q);
    ChannelAt(s.objects, s.maxPerKey, r);
    ChannelReplaced(s.objects, s.maxPerKey, r, q);
    FifoPrune(s.log, s.queues, s.objects, r, q);
    PruneQueue(s.queues, s.objects, r, q);
  }

  // ---------------------------------------------------------------- the remaining steps

  /** Steps that only move one submitter between phases and adjust the slot count. */
  lemma PhaseKeeps(s: State, i: int, p: SubmitPhase, slots: nat, t: State)
    requires Inv(s) && i in s.submissions && t == s.(submissions := Moved(s.submissions, i, p), slots := slots)
    requires OnQueue(p) <==> OnQueue(s.submissions[i].phase)
    requires OnQueue(p) ==> p.q == s.submissions[i].phase.q
    requires slots - s.slots == (if HoldsSlot(p) then 1 else 0) - (if HoldsSlot(s.submissions[i].phase) then 1 else 0)
    requires slots <= s.limit
    ensures Inv(t)
  {
    hide Attached, Counted, Exclusive, ChannelsOk, Fifo, SlotHolders, QueuedPositions, BusyWorkers;
    SlotPhase(s.submissions, i, p);
    CountSame(s.objects, s.submissions, i, p);
  }

  lemma BeginKeeps(s: State, i: int, item: Item, t: State)
    requires Inv(s) && Step(s, BeginSubmission(i, item), t)
    ensures Inv(t)
  {
    hide Attached, Exclusive, ChannelsOk, Fifo, QueuedPositions, BusyWorkers;
    assert SlotHolders(t.submissions) == SlotHolders(s.submissions);
    forall r
      ensures SubmittersOf(t.submissions, r) == SubmittersOf(s.submissions, r)
    {
    }
  }

  lemma DoneKeeps(s: State, i: int, t: State)
    requires Inv(s) && Step(s, SubmissionDone(i), t)
    ensures Inv(t)
  {
    hide Attached, Exclusive, ChannelsOk, Fifo, QueuedPositions, BusyWorkers;
    assert SlotHolders(t.submissions) == SlotHolders(s.submissions);
    forall r
      ensures SubmittersOf(t.submissions, r) == SubmittersOf(s.submissions, r)
    {
    }
  }

  lemma WorkerKeeps(s: State, w: int, p: WorkerPhase, slots: nat, t: State)
    requires Inv(s) && w in s.workers && !OwnsQueue(s.workers[w]) && !HoldsItem(p) && !OwnsQueue(p)
    requires t == s.(workers := s.workers[w := p], slots := slots)
    requires slots == s.slots - (if HoldsItem(s.workers[w]) then 1 else 0)
    ensures Inv(t)
  {
    hide Attached, Counted, Exclusive, ChannelsOk, Fifo, SlotHolders, QueuedPositions, BusyWorkers;
    BusyPhase(s.workers, w, p);
    ExclusiveOther(s.objects, s.workers, w, p);
  }

  lemma StepKeepsInv(s: State, a: Action, t: State)
    requires Inv(s) && Step(s, a, t)
    ensures Inv(t)
  {
    hide Inv, Registering, Sending, Receiving, FinishingSubmit, FinishingEvent;
    match a
    case Start =>
      FlagsKeep(s, t);
    case BeginSubmission(i, item) =>
      BeginKeeps(s, i, item, t);
    case AcquireSlot(i) =>
      PhaseKeeps(s, i, Slotted, s.slots + 1, t);
    case GiveUpSlot(i) =>
      PhaseKeepsSlots(s, i, Left, t);
    case Register(i) =>
      RegisterKeeps(s, i, t);
    case Send(i) =>
      SendKeeps(s, i, t);
    case Cancel(i) =>
      PhaseKeepsSlots(s, i, Cancelled(s.submissions[i].phase.q), t);
    case Refund(i) =>
      SlotsBounded(s);
      PhaseKeeps(s, i, Refunded(s.submissions[i].phase.q), s.slots - 1, t);
    case FinishSubmit(i) =>
      FinishSubmitKeeps(s, i, t);
    case SubmissionDone(i) =>
      DoneKeeps(s, i, t);
    case _ =>
      WorkerStepKeepsInv(s, a, t);
  }

  predicate WorkerAction(a: Action) {
    a.Select? || a.Receive? || a.FinishEvent? || a.ReleaseSlot? || a.WorkerExit? || a.StopSubmitting? || a.StopWorkers?
  }

  lemma WorkerStepKeepsInv(s: State, a: Action, t: State)
    requires Inv(s) && Step(s, a, t) && WorkerAction(a)
    ensures Inv(t)
  {
    hide Inv, Registering, Sending, Receiving, FinishingSubmit, FinishingEvent;
    match a
    case Select(w, key) =>
      SelectKeeps(s, w, key, t);
    case Receive(w) =>
      ReceiveKeeps(s, w, t);
    case FinishEvent(w) =>
      FinishEventKeeps(s, w, t);
    case ReleaseSlot(w) =>
      WorkerKeeps(s, w, Idle, s.slots - 1, t);
    case WorkerExit(w) =>
      WorkerKeeps(s, w, Exited, s.slots, t);
    case StopSubmitting =>
      FlagsKeep(s, t);
    case StopWorkers =>
      FlagsKeep(s, t);
  }

  lemma SlotsBounded(s: State)
    requires Inv(s)
    ensures s.slots <= s.limit
  {
  }

  lemma PhaseKeepsSlots(s: State, i: int, p: SubmitPhase, t: State)
    requires Inv(s) && i in s.submissions && t == s.(submissions := Moved(s.submissions, i, p))
    requires OnQueue(p) <==> OnQueue(s.submissions[i].phase)
    requires OnQueue(p) ==> p.q == s.submissions[i].phase.q
    requires HoldsSlot(p) <==> HoldsSlot(s.submissions[i].phase)
    ensures Inv(t)
  {
    hide Attached, Counted, Exclusive, ChannelsOk, Fifo, SlotHolders, QueuedPositions, BusyWorkers;
    PhaseKeeps(s, i, p, s.slots, t);
  }

  lemma FlagsKeep(s: State, t: State)
    requires Inv(s) && (s.started ==> t.started) && (s.stopping ==> t.stopping)
    requires t.workersStopped ==> s.workersStopped || (t.stopping && s.submissions == map[])
    requires t == s.(started := t.started, stopping := t.stopping, workersStopped := t.workersStopped)
    ensures Inv(t)
  {
    hide Attached, Counted, Exclusive, ChannelsOk, Fifo, SlotHolders, QueuedPositions, BusyWorkers;
  }

  lemma InitInv(s: State)
    requires Init(s)
    ensures Inv(s)
  {
    assert SlotHolders(s.submissions) == {};
    assert QueuedPositions(s.objects) == {};
    forall w | w in s.workers
      ensures !HoldsItem(s.workers[w])
    {
    }
    assert BusyWorkers(s.workers) == {};
  }

  /** Every state of every run satisfies the invariant. */
  lemma {:induction false} RunInv(run: seq<State>, n: nat)
    requires Run(run) && n < |run|
    ensures Inv(run[n])
  {
    if n == 0 {
      InitInv(run[0]);
    } else {
      RunInv(run, n - 1);
      assert Next(run[n - 1], run[n - 1 + 1]);
      var a :| Step(run[n - 1], a, run[n]);
      StepKeepsInv(run[n - 1], a, run[n]);
    }
  }
}
