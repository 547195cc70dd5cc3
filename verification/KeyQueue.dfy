/**
  The key queue as the object the worker calls.

  Each method is one lock-protected block or one channel operation and is proved to be a step of
  the transition system. Submit and ProcessNext are the composite routines: between their blocks
  `Yield` lets any other goroutine run. The ghost `state` adds to the object's fields where every
  call stands; the ghost `trace` is the run of the transition system the object has been through.
  Every method and every `Yield` extends the run, and its last state is the object's, so what the
  theorems say of runs holds of the object.
*/
module KeyQueueObject {
  import opened KeyQueueSteps
  import opened KeyQueueSafety
  import opened KeyQueueTheorems
  import opened KeyQueueOrigins

  class KeyQueue {
    const limit: nat
    const maxPerKey: nat
    var started: bool
    var stopping: bool
    var queues: map<Key, Ref>
    var objects: map<Ref, Queue>
    var nextRef: Ref
    var slots: nat
    ghost var state: State
    ghost var trace: seq<State>

    /** The fields are those of the state. */
    ghost predicate Concrete()
      reads this
    {
      limit == state.limit && maxPerKey == state.maxPerKey && started == state.started && stopping == state.stopping &&
      queues == state.queues && objects == state.objects && nextRef == state.nextRef && slots == state.slots
    }

    ghost predicate Valid()
      reads this
    {
      Concrete() && Inv(state) && Traced(trace, state)
    }

    /** NewKeyQueue, with its defaults for non-positive settings. */
    constructor (maxGlobalInFlight: int, maxPerKeyQueue: int, ghost workerIds: set<int>)
      ensures Init(state) && Valid()
      ensures limit == (if maxGlobalInFlight <= 0 then 100 else maxGlobalInFlight)
      ensures maxPerKey == (if maxPerKeyQueue <= 0 then 100 else maxPerKeyQueue)
      ensures state.workers.Keys == workerIds
    {
      limit := if maxGlobalInFlight <= 0 then 100 else maxGlobalInFlight;
      maxPerKey := if maxPerKeyQueue <= 0 then 100 else maxPerKeyQueue;
      started, stopping := false, false;
      queues, objects, nextRef, slots := map[], map[], 0, 0;
      new;
      ghost var workers := map w | w in workerIds :: Idle;
      state := State(limit, maxPerKey, false, false, false, map[], map[], 0, 0, map[], {}, workers, Log(map[], map[]));
      trace := [state];
      InitInv(state);
    }

    /** Other goroutines run: they extend the run without touching this submission and only append to the histories. */
    method Yield(ghost i: int)
      requires Valid()
      modifies this
      ensures Valid() && old(trace) <= trace && Undisturbed(old(state), state, i)
    {
    }

    method BeginSubmission(ghost i: int, item: Item) returns (ok: bool)
      requires Valid() && i !in state.submissions && i !in state.begun && item.submission == i
      modifies this
      ensures Valid() && old(trace) <= trace && state.log == old(state).log && !WasSent(state.log.sent, i)
      ensures ok == (old(started) && !old(stopping))
      ensures ok ==> At(state, i, item, Admitted)
      ensures !ok ==> state == old(state)
      ensures ok ==> Step(old(state), KeyQueueSteps.BeginSubmission(i, item), state)
    {
      hide Inv, Traced, WasSent;
      UnbegunIsUnsent(trace, state, i);
      ok := started && !stopping;
      if ok {
        ghost var t := state.(submissions := state.submissions[i := Submission(item, Admitted)],
                              begun := state.begun + {i});
        Recorded(trace, state, KeyQueueSteps.BeginSubmission(i, item), t);
        state, trace := t, trace + [t];
      }
    }

    /** acquireGlobalSlot at the moment its select fires: a free slot, or cancellation of the caller or the queue. */
    method AcquireGlobalSlot(ghost i: int, cancelled: bool) returns (ok: bool)
      requires Valid() && PhaseIs(state, i, Admitted)
      modifies this
      ensures Valid() && old(trace) <= trace && state.log == old(state).log
      ensures ok == (old(slots) < limit && !cancelled)
      ensures At(state, i, old(state).submissions[i].item, if ok then Slotted else Left)
      ensures Step(old(state), if ok then AcquireSlot(i) else GiveUpSlot(i), state)
    {
      hide Inv, Traced;
      ok := slots < limit && !cancelled;
      ghost var t := state.(submissions := Moved(state.submissions, i, if ok then Slotted else Left),
                            slots := if ok then state.slots + 1 else state.slots);
      Recorded(trace, state, if ok then AcquireSlot(i) else GiveUpSlot(i), t);
      if ok {
        slots := slots + 1;
      }
      state, trace := t, trace + [t];
    }

    method RegisterQueueSubmitter(ghost i: int, key: Key) returns (r: Ref)
      requires Valid() && PhaseIs(state, i, Slotted) && state.submissions[i].item.key == key
      modifies this
      ensures Valid() && old(trace) <= trace && state == Registering(old(state), i)
      ensures At(state, i, old(state).submissions[i].item, Registered(r)) && key in queues && queues[key] == r
    {
      hide Inv, Traced, Step, RefFor, QueueAt;
      r := RefFor(queues, key, nextRef);
      var q := QueueAt(objects, r, key);
      ghost var t := Registering(state, i);
      RegisterIsStep(state, i, t);
      Recorded(trace, state, Register(i), t);
      queues, objects, nextRef := queues[key := r], objects[r := q.(submitters := q.submitters + 1)], nextRef + 1;
      state, trace := t, trace + [t];
    }

    /** The select of enqueueItem at the moment it fires: send into a channel with room, or abandon. */
    method TrySend(ghost i: int, r: Ref, item: Item, cancelled: bool) returns (ok: bool)
      requires Valid() && At(state, i, item, Registered(r)) && item.submission == i
      modifies this
      ensures Valid() && old(trace) <= trace && At(state, i, item, if ok then Sent(r) else Cancelled(r))
      ensures ok ==> state.log.sent == Appended(old(state).log.sent, item)
      ensures !ok ==> state.log == old(state).log
      ensures Step(old(state), if ok then Send(i) else Cancel(i), state)
    {
      hide Inv, Traced;
      SubmitterFacts(state, i);
      ok := |objects[r].items| < maxPerKey && !cancelled;
      ghost var t := if ok then Sending(state, i) else state.(submissions := Moved(state.submissions, i, Cancelled(r)));
      Recorded(trace, state, if ok then Send(i) else Cancel(i), t);
      if ok {
        objects := objects[r := objects[r].(items := objects[r].items + [item])];
      }
      state, trace := t, trace + [t];
    }

    /** The receive from globalSem on the abandoned path; it cannot block. */
    method RefundSlot(ghost i: int, r: Ref)
      requires Valid() && PhaseIs(state, i, Cancelled(r))
      modifies this
      ensures Valid() && old(trace) <= trace && state.log == old(state).log
      ensures At(state, i, old(state).submissions[i].item, Refunded(r))
      ensures Step(old(state), Refund(i), state)
    {
      hide Inv, Traced;
      SlotOfSubmitter(state, i);
      ghost var t := state.(submissions := Moved(state.submissions, i, Refunded(r)), slots := state.slots - 1);
      Recorded(trace, state, Refund(i), t);
      slots := slots - 1;
      state, trace := t, trace + [t];
    }

    method FinishSubmit(ghost i: int, r: Ref)
      requires Valid() && (PhaseIs(state, i, Sent(r)) || PhaseIs(state, i, Refunded(r)))
      modifies this
      ensures Valid() && old(trace) <= trace && r in old(objects) && state == FinishingSubmit(old(state), i)
      ensures At(state, i, old(state).submissions[i].item, Left)
    {
      hide Inv, Traced, Step;
      SubmitterFacts(state, i);
      var n := objects[r].submitters;
      var q := objects[r].(submitters := if n > 0 then n - 1 else n);
      ghost var t := FinishingSubmit(state, i);
      FinishSubmitIsStep(state, i, t);
      Recorded(trace, state, KeyQueueSteps.FinishSubmit(i), t);
      queues, objects := Prune(queues, r, q), objects[r := q];
      state, trace := t, trace + [t];
    }

    method SubmissionDone(ghost i: int)
      requires Valid() && PhaseIs(state, i, Left)
      modifies this
      ensures Valid() && old(trace) <= trace && state.log == old(state).log && i !in state.submissions
      ensures Step(old(state), KeyQueueSteps.SubmissionDone(i), state)
    {
      hide Inv, Traced;
      ghost var t := state.(submissions := state.submissions - {i});
      Recorded(trace, state, KeyQueueSteps.SubmissionDone(i), t);
      state, trace := t, trace + [t];
    }

    /** Waiting for a free slot: it ends when there is one, or when the caller's patience ends. */
    method AwaitSlot(ghost i: int)
      requires Valid() && i in state.submissions
      modifies this
      ensures Valid() && old(trace) <= trace && Undisturbed(old(state), state, i)
    {
      hide Inv, Traced, Undisturbed;
      Yield(i);
      var patience: nat := *;
      while slots >= limit && patience > 0
        invariant Valid() && old(trace) <= trace && Undisturbed(old(state), state, i)
        decreases patience
      {
        ghost var was := state;
        Yield(i);
        UndisturbedChains(old(state), was, state, i);
        patience := patience - 1;
      }
    }

    /** Waiting for room in the channel, likewise. */
    method AwaitRoom(ghost i: int, r: Ref)
      requires Valid() && PhaseIs(state, i, Registered(r))
      modifies this
      ensures Valid() && old(trace) <= trace && Undisturbed(old(state), state, i)
    {
      hide Inv, Traced;
      Yield(i);
      SubmitterFacts(state, i);
      var patience: nat := *;
      while |objects[r].items| >= maxPerKey && patience > 0
        invariant Valid() && old(trace) <= trace && Undisturbed(old(state), state, i) && r in objects
        decreases patience
      {
        ghost var was := state;
        Yield(i);
        UndisturbedChains(old(state), was, state, i);
        SubmitterFacts(state, i);
        patience := patience - 1;
      }
    }

    /** registerQueueSubmitter and enqueueItem with everything they lead to. */
    method SendItem(ghost i: int, item: Item) returns (ok: bool, ghost n: int)
      requires Valid() && At(state, i, item, Slotted) && item.submission == i && !WasSent(state.log.sent, i)
      modifies this
      ensures Valid() && old(trace) <= trace && At(state, i, item, Left)
      ensures ok <==> WasSent(state.log.sent, i)
      ensures ok ==> PlacedAt(old(state).log.sent, state.log.sent, item, n)
    {
      hide Inv, Traced, WasSent, Step, Lookup, PlacedAt;
      ghost var sent := state.log.sent;
      var r := RegisterQueueSubmitter(i, item.key);
      AwaitRoom(i, r);
      n := |Lookup(state.log.sent, item.key)|;
      ghost var before := state.log.sent;
      var abandoned: bool := *;
      ok := TrySend(i, r, item, abandoned);
      if ok {
        AppendedSent(before, item, i);
        AppendedIsPlaced(sent, before, item);
      }
      ghost var after := state.log.sent;
      Yield(i);
      if ok {
        PlacedStays(sent, after, state.log.sent, item, n);
      } else {
        RefundSlot(i, r);
        Yield(i);
      }
      FinishSubmit(i, r);
    }

    /**
      Submit, interleaved with everyone else: it returns true if and only if it sent its item, which
      it then did during the call; and whatever happens it leaves no trace in submitWG.
    */
    method Submit(ghost i: int, item: Item) returns (ok: bool, ghost n: int)
      requires Valid() && i !in state.submissions && i !in state.begun && item.submission == i
      modifies this
      ensures Valid() && old(trace) <= trace && i !in state.submissions
      ensures ok <==> WasSent(state.log.sent, i)
      ensures ok ==> PlacedAt(old(state).log.sent, state.log.sent, item, n)
    {
      hide Inv, Traced, WasSent, Step, Lookup, PlacedAt;
      n := 0;
      ok := BeginSubmission(i, item);
      if !ok {
        return;
      }
      AwaitSlot(i);
      var cancelled: bool := *;
      ok := AcquireGlobalSlot(i, cancelled);
      Yield(i);
      if ok {
        ghost var sent := state.log.sent;
        ok, n := SendItem(i, item);
        ghost var after := state.log.sent;
        Yield(i);
        if ok {
          PlacedStays(sent, after, state.log.sent, item, n);
          PlacedSince(old(state).log.sent, sent, state.log.sent, item, n);
        }
      }
      SubmissionDone(i);
    }

    /** The locked loop of nextEvent: mark some queue that has items and no worker, or report that there is none. */
    method SelectQueue(ghost w: int) returns (found: bool, r: Ref)
      requires Valid() && w in state.workers && state.workers[w].Idle?
      modifies this
      ensures Valid() && old(trace) <= trace && state.log == old(state).log
      ensures found ==> w in state.workers && state.workers[w] == Selected(r)
      ensures found ==> exists k :: Step(old(state), Select(w, k), state)
      ensures !found ==> state == old(state) && forall k | k in queues && queues[k] in objects ::
                           objects[queues[k]].processing || objects[queues[k]].items == []
    {
      hide Inv, Traced;
      found, r := false, 0;
      var todo := queues.Keys;
      while todo != {}
        invariant Valid() && state == old(state) && trace == old(trace) && todo <= queues.Keys
        invariant forall k | k in queues && k !in todo && queues[k] in objects ::
                    objects[queues[k]].processing || objects[queues[k]].items == []
        decreases |todo|
      {
        var k :| k in todo;
        MappedFacts(state, k);
        var q := objects[queues[k]];
        if !q.processing && |q.items| > 0 {
          found, r := true, queues[k];
          ghost var t := state.(objects := state.objects[r := q.(processing := true)],
                                workers := state.workers[w := Selected(r)]);
          Recorded(trace, state, Select(w, k), t);
          objects := objects[r := q.(processing := true)];
          state, trace := t, trace + [t];
          return;
        }
        todo := todo - {k};
      }
    }

    /** The channel receive of nextEvent: the item is there, and it is the next one of its key to be taken. */
    method ReceiveItem(ghost w: int, r: Ref) returns (item: Item)
      requires Valid() && w in state.workers && state.workers[w] == Selected(r)
      modifies this
      ensures Valid() && old(trace) <= trace && w in state.workers && state.workers[w] == Working(r, item)
      ensures state.log == old(state).log.(taken := Appended(old(state).log.taken, item))
      ensures Lookup(old(state).log.taken, item.key) + [item] <= Lookup(state.log.sent, item.key)
      ensures Step(old(state), Receive(w), state)
    {
      hide Inv, Traced;
      SelectedFacts(state, w);
      var q := objects[r];
      item := q.items[0];
      ghost var t := Receiving(state, w);
      Recorded(trace, state, Receive(w), t);
      objects := objects[r := q.(items := q.items[1..])];
      state, trace := t, trace + [t];
    }

    method FinishEvent(ghost w: int, key: Key)
      requires Valid() && w in state.workers && state.workers[w].Working? && state.workers[w].item.key == key
      modifies this
      ensures Valid() && old(trace) <= trace && state.log == old(state).log && state == FinishingEvent(old(state), w)
      ensures w in state.workers && state.workers[w].Finished?
    {
      hide Inv, Traced, Step;
      MappedFacts(state, key);
      ghost var t := FinishingEvent(state, w);
      FinishEventIsStep(state, w, t);
      Recorded(trace, state, KeyQueueSteps.FinishEvent(w), t);
      if key in queues {
        var r := queues[key];
        var q := objects[r].(processing := false);
        queues, objects := Prune(queues, r, q), objects[r := q];
      }
      state, trace := t, trace + [t];
    }

    /** Other goroutines run: they extend the run without touching this worker and only append to the histories. */
    method YieldWorker(ghost w: int)
      requires Valid() && w in state.workers
      modifies this
      ensures Valid() && old(trace) <= trace && w in state.workers && state.workers[w] == old(state).workers[w]
      ensures Grows(old(state).log, state.log)
    {
    }

    /** The slot release after finishEvent; it cannot block. */
    method ReleaseSlot(ghost w: int)
      requires Valid() && w in state.workers && state.workers[w].Finished?
      modifies this
      ensures Valid() && old(trace) <= trace && state.log == old(state).log
      ensures w in state.workers && state.workers[w].Idle?
      ensures Step(old(state), KeyQueueSteps.ReleaseSlot(w), state)
    {
      hide Inv, Traced;
      SlotOfWorker(state, w);
      ghost var t := state.(workers := state.workers[w := Idle], slots := state.slots - 1);
      Recorded(trace, state, KeyQueueSteps.ReleaseSlot(w), t);
      slots := slots - 1;
      state, trace := t, trace + [t];
    }

    /**
      nextEvent: take the next item of some free key. The item is the `n`-th that was taken for its key,
      exactly as it was the `n`-th sent, and it was taken during the call.
    */
    method TakeNext(ghost w: int) returns (found: bool, item: Item, ghost n: int)
      requires Valid() && w in state.workers && state.workers[w].Idle?
      modifies this
      ensures Valid() && old(trace) <= trace && w in state.workers && Grows(old(state).log, state.log)
      ensures if found then state.workers[w].Working? && state.workers[w].item == item else state.workers[w].Idle?
      ensures found ==> TakenAt(old(state).log, state.log, item, n)
    {
      hide Inv, Traced, Step, Lookup, Appended, Grows, PlacedAt;
      var r;
      item, n := Item("", 0), 0;
      found, r := SelectQueue(w);
      NothingGrows(state.log);
      if found {
        ghost var first := state.log;
        YieldWorker(w);
        ghost var before := state.log;
        item := ReceiveItem(w, r);
        n := |Lookup(before.taken, item.key)|;
        TakenIsPlaced(first, before, state.log, item);
        TakingGrows(first, before, state.log, item);
      }
    }

    /** The end of processQueuedItem: free the key, then give the slot back. */
    method FinishTurn(ghost w: int, item: Item)
      requires Valid() && w in state.workers && state.workers[w].Working? && state.workers[w].item == item
      modifies this
      ensures Valid() && old(trace) <= trace && w in state.workers && state.workers[w].Idle?
      ensures Grows(old(state).log, state.log)
    {
      hide Inv, Traced, Step, FinishingEvent, Grows;
      FinishEvent(w, item.key);
      YieldWorker(w);
      ReleaseSlot(w);
    }

    /**
      One turn of workerLoop: take an item, let the processor run, finish. The worker ends idle, and the
      item is at the same place of what was taken and of what was sent for its key.
    */
    method ProcessNext(ghost w: int) returns (found: bool, item: Item, ghost n: int)
      requires Valid() && w in state.workers && state.workers[w].Idle?
      modifies this
      ensures Valid() && old(trace) <= trace && w in state.workers && state.workers[w].Idle?
      ensures found ==> PlacedAt(old(state).log.taken, state.log.taken, item, n)
      ensures found ==> n < |Lookup(state.log.sent, item.key)| && Lookup(state.log.sent, item.key)[n] == item
    {
      hide Inv, Traced, Step, Grows, PlacedAt, Lookup;
      found, item, n := TakeNext(w);
      if found {
        ghost var taken := state.log;
        YieldWorker(w);
        TakenStays(old(state).log, taken, state.log, item, n);
        ghost var processed := state.log;
        FinishTurn(w, item);
        TakenStays(old(state).log, processed, state.log, item, n);
      }
    }
  }

  // ---------------------------------------------------------------- what the methods speak of

  ghost predicate At(s: State, i: int, item: Item, p: SubmitPhase) {
    i in s.submissions && s.submissions[i] == Submission(item, p)
  }

  ghost predicate Grows(before: Log, after: Log) {
    forall k: Key ::
      Lookup(before.sent, k) <= Lookup(after.sent, k) && Lookup(before.taken, k) <= Lookup(after.taken, k)
  }

  /** Submission `i` is where it was, nothing was sent for it, and the histories were only appended to. */
  ghost predicate Undisturbed(s: State, t: State, i: int) {
    (i in t.submissions <==> i in s.submissions) && (i in s.submissions ==> t.submissions[i] == s.submissions[i]) &&
    (WasSent(t.log.sent, i) <==> WasSent(s.log.sent, i)) && Grows(s.log, t.log)
  }

  lemma UndisturbedChains(s: State, t: State, u: State, i: int)
    requires Undisturbed(s, t, i) && Undisturbed(t, u, i)
    ensures Undisturbed(s, u, i)
  {
    hide Lookup, WasSent;
  }

  /** What Yield promises is what any step of another goroutine does. */
  lemma OthersLeaveAlone(run: seq<State>, s: State, a: Action, t: State, i: int)
    requires Traced(run, s) && Step(s, a, t) && !OfSubmission(a, i)
    ensures Undisturbed(s, t, i) && Traced(run + [t], t)
  {
    hide Step, WasSent, Lookup, Once, Named, Matches, SentBegun, Init, Next;
    RunOrigins(run, |run| - 1);
    OthersInterfere(s, a, t, i, 0);
    OthersSendNothing(s, a, t, i);
    forall k: Key
      ensures Lookup(s.log.sent, k) <= Lookup(t.log.sent, k) && Lookup(s.log.taken, k) <= Lookup(t.log.taken, k)
    {
      HistoryOnlyGrows(s, a, t, k);
    }
    TraceExtends(run, s, a, t);
  }

  /** The item is at place `n` of its key's history, and was put there since `before`. */
  ghost predicate PlacedAt(before: map<Key, seq<Item>>, after: map<Key, seq<Item>>, item: Item, n: int) {
    |Lookup(before, item.key)| <= n < |Lookup(after, item.key)| && Lookup(after, item.key)[n] == item
  }

  lemma AppendedIsPlaced(first: map<Key, seq<Item>>, before: map<Key, seq<Item>>, item: Item)
    requires Lookup(first, item.key) <= Lookup(before, item.key)
    ensures PlacedAt(first, Appended(before, item), item, |Lookup(before, item.key)|)
  {
  }

  lemma PlacedStays(first: map<Key, seq<Item>>, s: map<Key, seq<Item>>, t: map<Key, seq<Item>>, item: Item, n: int)
    requires PlacedAt(first, s, item, n) && Lookup(s, item.key) <= Lookup(t, item.key)
    ensures PlacedAt(first, t, item, n)
  {
  }

  lemma PlacedSince(first: map<Key, seq<Item>>, s: map<Key, seq<Item>>, t: map<Key, seq<Item>>, item: Item, n: int)
    requires PlacedAt(s, t, item, n) && Lookup(first, item.key) <= Lookup(s, item.key)
    ensures PlacedAt(first, t, item, n)
  {
  }

  /** The item is at the same place of both histories of its key. */
  ghost predicate TakenAt(first: Log, log: Log, item: Item, n: int) {
    PlacedAt(first.taken, log.taken, item, n) &&
    n < |Lookup(log.sent, item.key)| && Lookup(log.sent, item.key)[n] == item
  }

  lemma TakenIsPlaced(first: Log, before: Log, after: Log, item: Item)
    requires Grows(first, before) && after == before.(taken := Appended(before.taken, item))
    requires Lookup(before.taken, item.key) + [item] <= Lookup(after.sent, item.key)
    ensures TakenAt(first, after, item, |Lookup(before.taken, item.key)|)
  {
    hide Appended, Lookup;
    AppendedIsPlaced(first.taken, before.taken, item);
  }

  lemma NothingGrows(log: Log)
    ensures Grows(log, log)
  {
  }

  lemma TakingGrows(first: Log, before: Log, after: Log, item: Item)
    requires Grows(first, before) && after == before.(taken := Appended(before.taken, item))
    ensures Grows(first, after)
  {
  }

  lemma TakenStays(first: Log, s: Log, t: Log, item: Item, n: int)
    requires TakenAt(first, s, item, n) && Grows(s, t)
    ensures TakenAt(first, t, item, n)
  {
    hide Lookup;
    PlacedStays(first.taken, s.taken, t.taken, item, n);
  }

  lemma RegisterIsStep(s: State, i: int, t: State)
    requires PhaseIs(s, i, Slotted) && t == Registering(s, i)
    ensures Step(s, Register(i), t)
  {
    hide Registering;
  }

  lemma FinishSubmitIsStep(s: State, i: int, t: State)
    requires i in s.submissions && (s.submissions[i].phase.Sent? || s.submissions[i].phase.Refunded?)
    requires s.submissions[i].phase.q in s.objects && t == FinishingSubmit(s, i)
    ensures Step(s, FinishSubmit(i), t)
  {
    hide FinishingSubmit;
  }

  lemma FinishEventIsStep(s: State, w: int, t: State)
    requires w in s.workers && s.workers[w].Working? && t == FinishingEvent(s, w)
    ensures Step(s, FinishEvent(w), t)
  {
    hide FinishingEvent;
  }

  /** A step of the object keeps the invariant and makes its run one state longer. */
  lemma Recorded(run: seq<State>, s: State, a: Action, t: State)
    requires Inv(s) && Traced(run, s) && Step(s, a, t)
    ensures Inv(t) && Traced(run + [t], t)
  {
    hide Inv, Traced, Step;
    StepKeepsInv(s, a, t);
    TraceExtends(run, s, a, t);
  }

  lemma UnbegunIsUnsent(run: seq<State>, s: State, i: int)
    requires Traced(run, s) && i !in s.begun
    ensures !WasSent(s.log.sent, i)
  {
    hide WasSent, Once, Named, Matches, Init, Next;
    RunOrigins(run, |run| - 1);
    NotBegunNotSent(s.log.sent, s.begun, i);
  }

  lemma SlotOfWorker(s: State, w: int)
    requires Inv(s) && w in s.workers && HoldsItem(s.workers[w])
    ensures s.slots > 0
  {
    hide Attached, Counted, Exclusive, ChannelsOk, Fifo;
    assert w in BusyWorkers(s.workers);
  }

  lemma SelectedFacts(s: State, w: int)
    requires Inv(s) && w in s.workers && s.workers[w].Selected?
    ensures s.workers[w].q in s.objects && s.objects[s.workers[w].q].items != []
    ensures
      var q := s.objects[s.workers[w].q];
      q.items[0].key == q.key && Lookup(s.log.sent, q.key) == Lookup(s.log.taken, q.key) + q.items
  {
    OwnerFacts(s.objects, s.workers, w);
    InUseIsMapped(s.queues, s.objects, s.workers[w].q);
    ChannelAt(s.objects, s.maxPerKey, s.workers[w].q);
  }

  lemma SubmitterFacts(s: State, i: int)
    requires Inv(s) && i in s.submissions && OnQueue(s.submissions[i].phase)
    ensures s.submissions[i].phase.q in s.objects
    ensures s.objects[s.submissions[i].phase.q].key == s.submissions[i].item.key
  {
    SubmitterIsCounted(s.objects, s.submissions, i);
  }

  lemma MappedFacts(s: State, k: Key)
    requires Inv(s)
    ensures k in s.queues ==> s.queues[k] in s.objects && s.objects[s.queues[k]].key == k
    ensures s.nextRef !in s.objects
  {
  }

  lemma SlotOfSubmitter(s: State, i: int)
    requires Inv(s) && i in s.submissions && HoldsSlot(s.submissions[i].phase)
    ensures s.slots > 0
  {
    hide Attached, Counted, Exclusive, ChannelsOk, Fifo;
    assert i in SlotHolders(s.submissions);
  }
}
