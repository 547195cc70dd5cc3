/**
  One worker process: its key queue and its deliveries in the shared event system, joined.

  A delivery is queued by the very step that puts its item into a channel, and it is moved on only by
  the queue worker that holds the item. Everybody else (other processes, leases, operators, the
  broker) interleaves freely. The process does not crash in these runs; a crash ends them.
*/
module DeliveryFlow {
  import Q = KeyQueueSteps
  import QueueSafety = KeyQueueSafety
  import QueueTheorems = KeyQueueTheorems
  import Origins = KeyQueueOrigins
  import KeyQueueShutdown
  import E = EventProtocol
  import EventSafety
  import Identity

  type Item = Q.Item
  type Tasks = map<int, E.Task>
  type History = map<Q.Key, seq<Item>>

  /** The process `me`. */
  datatype Flow = Flow(me: string, queue: Q.State, events: E.State)

  datatype Action =
    | QueueStep(a: Q.Action)
    | Accept(i: int, shard: int, token: int)
    | Take(w: int)
    | Finish(w: int)
    | EventStep(e: E.Action)

  /** A readable delivery of the process. */
  predicate Mine(tasks: Tasks, me: string, i: int) {
    i in tasks && tasks[i].worker == me && tasks[i].message.Parsed?
  }

  /** The item is that of a delivery of the process, under the event's partition key. */
  predicate Carries(tasks: Tasks, me: string, x: Item) {
    Mine(tasks, me, x.submission) && tasks[x.submission].message.env.partition == x.key
  }

  /** Some queue worker holds the delivery's item. */
  ghost predicate InHands(workers: map<int, Q.WorkerPhase>, i: int) {
    exists w :: w in workers && workers[w].Working? && workers[w].item.submission == i
  }

  predicate OfDelivery(a: E.Action, i: int) {
    (E.TaskAction(a) || a.CommitTransaction? || a.SaveQuarantine?) && a.id == i
  }

  /** A call to Submit for the delivery has returned an error, or was never made. */
  ghost predicate Refusable(queue: Q.State, i: int) {
    i !in queue.submissions && !Origins.WasSent(queue.log.sent, i)
  }

  /** What the process does to its own deliveries. */
  ghost predicate Permitted(s: Flow, a: E.Action) {
    a != E.Crash(s.me) &&
    forall i | Mine(s.events.tasks, s.me, i) && OfDelivery(a, i) ::
      !a.Submit? && if a.Reject? then Refusable(s.queue, i) else InHands(s.queue.workers, i)
  }

  ghost predicate Step(s: Flow, a: Action, t: Flow) {
    match a
    case QueueStep(b) =>
      !b.Send? && !b.Receive? && !b.FinishEvent? &&
      (b.BeginSubmission? ==>
         Carries(s.events.tasks, s.me, b.item) && s.events.tasks[b.item.submission].phase.Fetched?) &&
      Q.Step(s.queue, b, t.queue) && t == s.(queue := t.queue)
    case Accept(i, shard, token) =>
      Q.Step(s.queue, Q.Send(i), t.queue) && E.Step(s.events, E.Submit(i, shard, token), t.events) && t.me == s.me
    case Take(w) =>
      Q.Step(s.queue, Q.Receive(w), t.queue) && t == s.(queue := t.queue)
    case Finish(w) =>
      // the processor has returned
      w in s.queue.workers && s.queue.workers[w].Working? &&
      s.queue.workers[w].item.submission in s.events.tasks &&
      s.events.tasks[s.queue.workers[w].item.submission].phase.Settled? &&
      Q.Step(s.queue, Q.FinishEvent(w), t.queue) && t == s.(queue := t.queue)
    case EventStep(b) =>
      Permitted(s, b) && E.Step(s.events, b, t.events) && t == s.(events := t.events)
  }

  ghost predicate Next(s: Flow, t: Flow) {
    exists a :: Step(s, a, t)
  }

  /** Some run of the event system leads to the state. */
  ghost predicate Reachable(e: E.State) {
    exists past :: E.Traced(past, e)
  }

  /** The process starts with a new queue in any reachable state of the system in which it has no delivery. */
  ghost predicate Init(s: Flow) {
    Q.Init(s.queue) && Reachable(s.events) && forall i | i in s.events.tasks :: s.events.tasks[i].worker != s.me
  }

  ghost predicate Run(run: seq<Flow>) {
    run != [] && Init(run[0]) && forall i | 0 <= i < |run| - 1 :: Next(run[i], run[i + 1])
  }

  // ---------------------------------------------------------------- the invariant

  predicate Handled(p: E.Phase) {
    !p.Fetched? && !p.Lost? && p != E.Settled(E.Nak)
  }

  /** Where a delivery stands, given its place among the items sent for its key. */
  predicate PlaceOk(p: E.Phase, place: int, taken: int, busy: bool) {
    if place >= taken then p.Queued?
    else if place == taken - 1 && busy then Handled(p)
    else p.Settled? && Handled(p)
  }

  /** A submission that has not sent is that of a delivery not yet queued. */
  ghost predicate SubmittedOk(subs: map<int, Q.Submission>, tasks: Tasks, me: string) {
    forall i | i in subs && Origins.Unsent(subs[i].phase) ::
      Carries(tasks, me, subs[i].item) && subs[i].item.submission == i && tasks[i].phase.Fetched?
  }

  ghost predicate SentOk(sent: History, taken: History, workers: map<int, Q.WorkerPhase>, tasks: Tasks, me: string,
                         k: Q.Key, p: int)
  {
    0 <= p < |Q.Lookup(sent, k)| ==>
      var x := Q.Lookup(sent, k)[p];
      x.key == k && Carries(tasks, me, x) &&
      PlaceOk(tasks[x.submission].phase, p, |Q.Lookup(taken, k)|, QueueTheorems.Busy(workers, k))
  }

  ghost predicate AllSentOk(sent: History, taken: History, workers: map<int, Q.WorkerPhase>, tasks: Tasks, me: string) {
    forall k, p :: SentOk(sent, taken, workers, tasks, me, k, p)
  }

  /** What a worker holds is the last item taken for its key. */
  ghost predicate HeldOk(taken: History, workers: map<int, Q.WorkerPhase>) {
    forall w | w in workers && workers[w].Working? ::
      var items := Q.Lookup(taken, workers[w].item.key);
      items != [] && items[|items| - 1] == workers[w].item
  }

  /** A delivery beyond its routing was sent. */
  ghost predicate RoutedOk(sent: History, tasks: Tasks, me: string) {
    forall i | Mine(tasks, me, i) && Handled(tasks[i].phase) :: Origins.WasSent(sent, i)
  }

  /** None is lost: the process has not crashed. */
  ghost predicate Alive(tasks: Tasks, me: string) {
    forall i | Mine(tasks, me, i) :: !tasks[i].phase.Lost?
  }

  ghost predicate Link(queue: Q.State, tasks: Tasks, me: string) {
    SubmittedOk(queue.submissions, tasks, me) &&
    AllSentOk(queue.log.sent, queue.log.taken, queue.workers, tasks, me) &&
    HeldOk(queue.log.taken, queue.workers) && RoutedOk(queue.log.sent, tasks, me) && Alive(tasks, me)
  }

  ghost predicate Inv(s: Flow) {
    Q.Inv(s.queue) && Origins.Origins(s.queue) && EventSafety.Inv(s.events) && Link(s.queue, s.events.tasks, s.me)
  }

  // ---------------------------------------------------------------- steps of the queue alone

  lemma HandsUnchanged(s: Q.State, a: Q.Action, t: Q.State, w: int)
    requires Q.Step(s, a, t) && !a.Receive? && !a.FinishEvent?
    ensures (w in t.workers && t.workers[w].Working?) <==> (w in s.workers && s.workers[w].Working?)
    ensures w in s.workers && s.workers[w].Working? ==> t.workers[w] == s.workers[w]
  {
    hide Q.Registering, Q.Sending, Q.FinishingSubmit;
    QueueTheorems.WorkersUnchanged(s, a, t);
  }

  lemma QuietLink(s: Q.State, a: Q.Action, t: Q.State, tasks: Tasks, me: string)
    requires Q.Inv(s) && Origins.Origins(s) && Q.Step(s, a, t) && Link(s, tasks, me)
    requires !a.Send? && !a.Receive? && !a.FinishEvent? && !a.BeginSubmission?
    ensures Link(t, tasks, me)
  {
    hide Q.Inv, Q.Step, QueueTheorems.Busy, Carries, PlaceOk, Q.Lookup, Origins.WasSent, Origins.Origins, Handled, Mine;
    QueueTheorems.HistoryUnchanged(s, a, t);
    if QueueSafety.WorkerAction(a) {
      Origins.QuietWorkers(s, a, t);
    } else {
      Origins.QuietSubmissions(s, a, t);
    }
    forall k: Q.Key
      ensures QueueTheorems.Busy(t.workers, k) <==> QueueTheorems.Busy(s.workers, k)
    {
      QueueTheorems.BusyUnchanged(s, a, t, k);
    }
    forall w
      ensures (w in t.workers && t.workers[w].Working?) <==> (w in s.workers && s.workers[w].Working?)
      ensures w in s.workers && s.workers[w].Working? ==> t.workers[w] == s.workers[w]
    {
      HandsUnchanged(s, a, t, w);
    }
    forall k, p
      ensures SentOk(t.log.sent, t.log.taken, t.workers, tasks, me, k, p)
    {
      assert SentOk(s.log.sent, s.log.taken, s.workers, tasks, me, k, p);
    }
  }

  lemma BeginLink(s: Q.State, i: int, item: Item, t: Q.State, tasks: Tasks, me: string)
    requires Q.Step(s, Q.BeginSubmission(i, item), t) && Link(s, tasks, me)
    requires Carries(tasks, me, item) && tasks[item.submission].phase.Fetched?
    ensures Link(t, tasks, me)
  {
    hide AllSentOk, HeldOk, RoutedOk, Alive, Carries;
  }

  // ---------------------------------------------------------------- accepting

  lemma SubmitMoves(s: E.State, i: int, shard: int, token: int, t: E.State)
    requires E.Step(s, E.Submit(i, shard, token), t)
    ensures i in s.tasks && t.tasks == s.tasks[i := s.tasks[i].(shard := shard, token := token, phase := E.Queued)]
  {
  }

  lemma AcceptSubmissions(s: Q.State, i: int, t: Q.State)
    requires Q.Step(s, Q.Send(i), t)
    ensures i in s.submissions && s.submissions[i].phase.Registered?
    ensures t.submissions == s.submissions[i := t.submissions[i]] && t.submissions[i].phase.Sent?
    ensures t.workers == s.workers && t.log.taken == s.log.taken
    ensures t.log.sent == Origins.Appended(s.log.sent, s.submissions[i].item)
  {
  }

  /** The places of the other items are as they were; the new item is the last of its key and untaken. */
  lemma AcceptSent(s: Q.State, i: int, t: Q.State, tasks: Tasks, u: E.Task, me: string, k: Q.Key, p: int)
    requires Q.Inv(s) && Origins.Origins(s) && Q.Step(s, Q.Send(i), t) && Link(s, tasks, me)
    requires i in tasks && u.phase.Queued? && u.worker == tasks[i].worker && u.message == tasks[i].message
    ensures SentOk(t.log.sent, t.log.taken, t.workers, tasks[i := u], me, k, p)
  {
    hide Q.Inv, Q.Step, QueueTheorems.Busy, Origins.WasSent, Origins.SentBegun, Origins.Once, HeldOk, RoutedOk, Alive;
    AcceptSubmissions(s, i, t);
    var x := s.submissions[i].item;
    QueueTheorems.FifoAt(s, k);
    assert SentOk(s.log.sent, s.log.taken, s.workers, tasks, me, k, p);
    assert Carries(tasks, me, x) && x.submission == i;
    if 0 <= p < |Q.Lookup(s.log.sent, k)| && Q.Lookup(s.log.sent, k)[p].submission == i {
      assert Origins.SentAt(s.log.sent, k, p, i);
      NotSent(s.log.sent, k, p, i);
    }
  }

  lemma NotSent(sent: History, k: Q.Key, p: int, i: int)
    requires Origins.SentAt(sent, k, p, i)
    ensures Origins.WasSent(sent, i)
  {
  }

  lemma AcceptLink(s: Q.State, i: int, t: Q.State, tasks: Tasks, u: E.Task, me: string)
    requires Q.Inv(s) && Origins.Origins(s) && Q.Step(s, Q.Send(i), t) && Link(s, tasks, me)
    requires i in tasks && u.phase.Queued? && u.worker == tasks[i].worker && u.message == tasks[i].message
    ensures Link(t, tasks[i := u], me)
  {
    hide Q.Inv, Q.Step, SentOk, Origins.WasSent, Origins.SentBegun, Origins.Once, Origins.Matches;
    AcceptSubmissions(s, i, t);
    var later := tasks[i := u];
    forall k, p
      ensures SentOk(t.log.sent, t.log.taken, t.workers, later, me, k, p)
    {
      AcceptSent(s, i, t, tasks, u, me, k, p);
    }
    forall j
      ensures Origins.WasSent(t.log.sent, j) <==> Origins.WasSent(s.log.sent, j) || j == i
    {
      Origins.AppendedSent(s.log.sent, s.submissions[i].item, j);
    }
  }

  // ---------------------------------------------------------------- taking and finishing

  lemma TakeFacts(s: Q.State, w: int, t: Q.State)
    requires Q.Inv(s) && Q.Step(s, Q.Receive(w), t)
    ensures w in s.workers && s.workers[w].Selected? && s.workers[w].q in s.objects
    ensures s.objects[s.workers[w].q].items != []
    ensures
      var x := s.objects[s.workers[w].q].items[0];
      x.key == s.objects[s.workers[w].q].key && t.workers == s.workers[w := Q.Working(s.workers[w].q, x)] &&
      t.log == s.log.(taken := Origins.Appended(s.log.taken, x)) && t.submissions == s.submissions
  {
    hide Q.Inv;
    QueueTheorems.ReceivedKey(s, w);
  }

  /** The item taken is the first one sent for its key and not taken before. */
  lemma TakenIsNext(s: Q.State, w: int, t: Q.State)
    requires Q.Inv(s) && Q.Inv(t) && Q.Step(s, Q.Receive(w), t)
    ensures s.workers[w].q in s.objects && s.objects[s.workers[w].q].items != []
    ensures
      var x := s.objects[s.workers[w].q].items[0];
      |Q.Lookup(s.log.taken, x.key)| < |Q.Lookup(s.log.sent, x.key)| &&
      Q.Lookup(s.log.sent, x.key)[|Q.Lookup(s.log.taken, x.key)|] == x && !QueueTheorems.Busy(s.workers, x.key)
  {
    hide Q.Inv, Q.Step, Q.Pending, QueueTheorems.Busy;
    TakeFacts(s, w, t);
    var x := s.objects[s.workers[w].q].items[0];
    QueueTheorems.ReceiveAt(s, w, t, x.key);
    QueueTheorems.FifoAt(s, x.key);
  }

  lemma TakeSent(s: Q.State, w: int, t: Q.State, tasks: Tasks, me: string, k: Q.Key, p: int)
    requires Q.Inv(s) && Q.Inv(t) && Q.Step(s, Q.Receive(w), t) && Link(s, tasks, me)
    ensures SentOk(t.log.sent, t.log.taken, t.workers, tasks, me, k, p)
  {
    hide Q.Inv, Q.Step, QueueTheorems.Busy, HeldOk, RoutedOk, Alive, SubmittedOk, Carries;
    TakeFacts(s, w, t);
    TakenIsNext(s, w, t);
    QueueTheorems.BusyWhenReceived(s, w, t, k);
    assert SentOk(s.log.sent, s.log.taken, s.workers, tasks, me, k, p);
  }

  lemma TakeHeld(s: Q.State, w: int, t: Q.State, tasks: Tasks, me: string)
    requires Q.Inv(s) && Q.Inv(t) && Q.Step(s, Q.Receive(w), t) && Link(s, tasks, me)
    ensures HeldOk(t.log.taken, t.workers)
  {
    hide Q.Inv, Q.Step, AllSentOk, RoutedOk, Alive, SubmittedOk;
    TakeFacts(s, w, t);
    TakenIsNext(s, w, t);
    var x := s.objects[s.workers[w].q].items[0];
    forall v | v in t.workers && t.workers[v].Working?
      ensures
        var items := Q.Lookup(t.log.taken, t.workers[v].item.key);
        items != [] && items[|items| - 1] == t.workers[v].item
    {
      if v != w {
        assert QueueTheorems.WorksOn(s.workers, v, t.workers[v].item.key);
      }
    }
  }

  lemma TakeLink(s: Q.State, w: int, t: Q.State, tasks: Tasks, me: string)
    requires Q.Inv(s) && Q.Inv(t) && Q.Step(s, Q.Receive(w), t) && Link(s, tasks, me)
    ensures Link(t, tasks, me)
  {
    hide Q.Inv, Q.Step, SentOk, HeldOk, RoutedOk, Alive, SubmittedOk;
    TakeFacts(s, w, t);
    TakeHeld(s, w, t, tasks, me);
    forall k, p
      ensures SentOk(t.log.sent, t.log.taken, t.workers, tasks, me, k, p)
    {
      TakeSent(s, w, t, tasks, me, k, p);
    }
  }

  lemma FinishSent(s: Q.State, w: int, t: Q.State, tasks: Tasks, me: string, k: Q.Key, p: int)
    requires Q.Inv(s) && Origins.Origins(s) && Q.Step(s, Q.FinishEvent(w), t) && Link(s, tasks, me)
    requires w in s.workers && s.workers[w].Working? && s.workers[w].item.submission in tasks
    requires tasks[s.workers[w].item.submission].phase.Settled?
    ensures SentOk(t.log.sent, t.log.taken, t.workers, tasks, me, k, p)
  {
    hide Q.Inv, Q.Step, QueueTheorems.Busy, RoutedOk, Alive, SubmittedOk, Carries, Origins.Origins;
    KeyQueueShutdown.FinishFacts(s, w, t);
    QueueTheorems.BusyWhenFinished(s, w, t, k);
    QueueTheorems.FifoAt(s, k);
    assert SentOk(s.log.sent, s.log.taken, s.workers, tasks, me, k, p);
  }

  lemma FinishLink(s: Q.State, w: int, t: Q.State, tasks: Tasks, me: string)
    requires Q.Inv(s) && Origins.Origins(s) && Q.Step(s, Q.FinishEvent(w), t) && Link(s, tasks, me)
    requires w in s.workers && s.workers[w].Working? && s.workers[w].item.submission in tasks
    requires tasks[s.workers[w].item.submission].phase.Settled?
    ensures Link(t, tasks, me)
  {
    hide Q.Inv, Q.Step, SentOk, RoutedOk, Alive, SubmittedOk, Origins.Origins, Q.Lookup;
    KeyQueueShutdown.FinishFacts(s, w, t);
    forall k, p
      ensures SentOk(t.log.sent, t.log.taken, t.workers, tasks, me, k, p)
    {
      FinishSent(s, w, t, tasks, me, k, p);
    }
  }

  // ---------------------------------------------------------------- steps of the event system

  lemma TaskKeeps(s: E.State, a: E.Action, i: int, t: E.Task, u: E.Task)
    requires E.TaskAction(a) && E.TaskStep(s, a, i, t, u)
    ensures u.worker == t.worker && u.message == t.message
  {
    hide Identity.ExecutionText, E.InboxFree, E.ExecutionFree, E.EffectFree, E.Plan, E.InsertedEffect, E.Finished,
         E.DistinctSources, E.Distinct;
  }

  /** A step moves one delivery, or crashes a worker, or brings a new delivery; nobody else's delivery changes. */
  ghost predicate Framed(s: E.State, a: E.Action, t: E.State, i: int) {
    (i in s.tasks ==>
       i in t.tasks && t.tasks[i].worker == s.tasks[i].worker && t.tasks[i].message == s.tasks[i].message) &&
    (i in s.tasks && !OfDelivery(a, i) && a != E.Crash(s.tasks[i].worker) ==> t.tasks[i] == s.tasks[i]) &&
    (i in t.tasks && i !in s.tasks ==> t.tasks[i].phase.Fetched?)
  }

  lemma LocalFrame(s: E.State, a: E.Action, t: E.State, i: int)
    requires E.TaskAction(a) && E.Local(s, a, a.id, t)
    ensures Framed(s, a, t, i)
  {
    hide E.TaskStep, E.Settling;
    TaskKeeps(s, a, a.id, s.tasks[a.id], t.tasks[a.id]);
  }

  lemma EventFrame(s: E.State, a: E.Action, t: E.State, i: int)
    requires E.Step(s, a, t)
    ensures Framed(s, a, t, i)
  {
    hide E.Local, E.Unlocked, E.Merged, E.CommitRecord, E.EntryFor, Identity.ExecutionText;
    if E.TaskAction(a) {
      LocalFrame(s, a, t, i);
    }
  }

  lemma TaskPhase(s: E.State, a: E.Action, i: int, t: E.Task, u: E.Task)
    requires E.TaskAction(a) && !a.Submit? && !a.Reject? && E.TaskStep(s, a, i, t, u)
    ensures Handled(t.phase) ==> Handled(u.phase) && !t.phase.Settled?
  {
    hide Identity.ExecutionText, E.InboxFree, E.ExecutionFree, E.EffectFree, E.Plan, E.InsertedEffect, E.Finished,
         E.DistinctSources, E.Distinct;
  }

  /** A delivery that was handled stays so under its own steps. */
  lemma OwnPhase(s: E.State, a: E.Action, t: E.State, i: int)
    requires E.Step(s, a, t) && OfDelivery(a, i) && !a.Submit? && !a.Reject?
    requires i in s.tasks && Handled(s.tasks[i].phase)
    ensures i in t.tasks && Handled(t.tasks[i].phase) && !s.tasks[i].phase.Settled?
  {
    hide E.Merged, E.CommitRecord, E.Settling, E.EntryFor, Identity.ExecutionText, E.TaskStep;
    if E.TaskAction(a) {
      TaskPhase(s, a, i, s.tasks[i], t.tasks[i]);
    }
  }

  lemma RejectMoves(s: E.State, i: int, t: E.State)
    requires E.Step(s, E.Reject(i), t)
    ensures i in s.tasks && s.tasks[i].phase.Fetched? && i in t.tasks && t.tasks[i].phase == E.Settled(E.Nak)
  {
  }

  /** A held item sits at the last taken place of its key, and nowhere else. */
  lemma HeldPlace(s: Q.State, i: int, k: Q.Key, p: int)
    requires Q.Inv(s) && Origins.Origins(s) && HeldOk(s.log.taken, s.workers) && InHands(s.workers, i)
    requires Origins.SentAt(s.log.sent, k, p, i)
    requires forall l, q | 0 <= q < |Q.Lookup(s.log.sent, l)| :: Q.Lookup(s.log.sent, l)[q].key == l
    ensures p == |Q.Lookup(s.log.taken, k)| - 1 && QueueTheorems.Busy(s.workers, k)
  {
    hide Q.Inv, Origins.Named, Origins.SentBegun, Origins.Matches;
    var w :| w in s.workers && s.workers[w].Working? && s.workers[w].item.submission == i;
    var l := s.workers[w].item.key;
    QueueTheorems.FifoAt(s, l);
    assert Origins.SentAt(s.log.sent, l, |Q.Lookup(s.log.taken, l)| - 1, i);
    assert QueueTheorems.WorksOn(s.workers, w, l);
  }

  lemma KeysMatch(sent: History, taken: History, workers: map<int, Q.WorkerPhase>, tasks: Tasks, me: string)
    requires AllSentOk(sent, taken, workers, tasks, me)
    ensures forall l, q | 0 <= q < |Q.Lookup(sent, l)| :: Q.Lookup(sent, l)[q].key == l
  {
    hide Q.Lookup, Carries, PlaceOk, QueueTheorems.Busy;
    forall l, q | 0 <= q < |Q.Lookup(sent, l)|
      ensures Q.Lookup(sent, l)[q].key == l
    {
      assert SentOk(sent, taken, workers, tasks, me, l, q);
    }
  }

  lemma EventSent(s: Flow, b: E.Action, t: Flow, k: Q.Key, p: int)
    requires Inv(s) && Step(s, EventStep(b), t)
    ensures SentOk(s.queue.log.sent, s.queue.log.taken, s.queue.workers, t.events.tasks, s.me, k, p)
  {
    hide Q.Inv, E.Step, QueueTheorems.Busy, RoutedOk, Alive, SubmittedOk, HeldOk, Origins.Origins, EventSafety.Inv,
         OfDelivery, InHands, Handled, Origins.WasSent;
    var sent, taken := s.queue.log.sent, s.queue.log.taken;
    if 0 <= p < |Q.Lookup(sent, k)| {
      var i := Q.Lookup(sent, k)[p].submission;
      assert SentOk(sent, taken, s.queue.workers, s.events.tasks, s.me, k, p);
      EventFrame(s.events, b, t.events, i);
      if OfDelivery(b, i) {
        assert Origins.SentAt(sent, k, p, i);
        NotSent(sent, k, p, i);
        KeysMatch(sent, taken, s.queue.workers, s.events.tasks, s.me);
        HeldPlace(s.queue, i, k, p);
        OwnPhase(s.events, b, t.events, i);
      }
    }
  }

  lemma EventSubmitted(s: Flow, b: E.Action, t: Flow)
    requires Inv(s) && Step(s, EventStep(b), t)
    ensures SubmittedOk(s.queue.submissions, t.events.tasks, s.me)
  {
    hide Q.Inv, E.Step, RoutedOk, Alive, AllSentOk, EventSafety.Inv, OfDelivery, InHands, HeldOk, Origins.WasSent;
    var subs := s.queue.submissions;
    forall i | i in subs && Origins.Unsent(subs[i].phase)
      ensures Carries(t.events.tasks, s.me, subs[i].item) && subs[i].item.submission == i
      ensures t.events.tasks[i].phase.Fetched?
    {
      EventFrame(s.events, b, t.events, i);
      if OfDelivery(b, i) && InHands(s.queue.workers, i) {
        HeldWasSent(s, i);
      }
    }
  }

  lemma HeldWasSent(s: Flow, i: int)
    requires Inv(s) && InHands(s.queue.workers, i)
    ensures Origins.WasSent(s.queue.log.sent, i)
  {
    hide Q.Inv, EventSafety.Inv, AllSentOk, RoutedOk, SubmittedOk, Alive, Origins.Origins;
    var q := s.queue;
    var w :| w in q.workers && q.workers[w].Working? && q.workers[w].item.submission == i;
    var k := q.workers[w].item.key;
    QueueTheorems.FifoAt(q, k);
    assert Origins.SentAt(q.log.sent, k, |Q.Lookup(q.log.taken, k)| - 1, i);
  }

  lemma EventRouted(s: Flow, b: E.Action, t: Flow)
    requires Inv(s) && Step(s, EventStep(b), t)
    ensures RoutedOk(s.queue.log.sent, t.events.tasks, s.me) && Alive(t.events.tasks, s.me)
  {
    hide Q.Inv, E.Step, AllSentOk, EventSafety.Inv, OfDelivery, InHands, HeldOk, Origins.WasSent, SubmittedOk,
         Origins.Origins;
    forall i | Mine(t.events.tasks, s.me, i)
      ensures Handled(t.events.tasks[i].phase) ==> Origins.WasSent(s.queue.log.sent, i)
      ensures !t.events.tasks[i].phase.Lost?
    {
      EventFrame(s.events, b, t.events, i);
      if i in s.events.tasks && OfDelivery(b, i) {
        if b.Reject? {
          RejectOf(b, i);
          RejectMoves(s.events, i, t.events);
        } else {
          HeldWasSent(s, i);
          HeldIsHandled(s, i);
          OwnPhase(s.events, b, t.events, i);
        }
      }
    }
  }

  lemma RejectOf(b: E.Action, i: int)
    requires OfDelivery(b, i) && b.Reject?
    ensures b == E.Reject(i)
  {
  }

  lemma HeldIsHandled(s: Flow, i: int)
    requires Inv(s) && InHands(s.queue.workers, i)
    ensures Mine(s.events.tasks, s.me, i) && Handled(s.events.tasks[i].phase)
  {
    hide Q.Inv, EventSafety.Inv, RoutedOk, SubmittedOk, Alive, QueueTheorems.Busy, Origins.Origins;
    var q := s.queue;
    var w :| w in q.workers && q.workers[w].Working? && q.workers[w].item.submission == i;
    var k := q.workers[w].item.key;
    QueueTheorems.FifoAt(q, k);
    assert SentOk(q.log.sent, q.log.taken, q.workers, s.events.tasks, s.me, k, |Q.Lookup(q.log.taken, k)| - 1);
  }

  lemma EventLink(s: Flow, b: E.Action, t: Flow)
    requires Inv(s) && Step(s, EventStep(b), t)
    ensures Link(t.queue, t.events.tasks, t.me)
  {
    hide Q.Inv, E.Step, EventSafety.Inv, SentOk, HeldOk, RoutedOk, SubmittedOk, Alive, Permitted, Origins.Origins;
    EventSubmitted(s, b, t);
    EventRouted(s, b, t);
    forall k, p
      ensures SentOk(t.queue.log.sent, t.queue.log.taken, t.queue.workers, t.events.tasks, t.me, k, p)
    {
      EventSent(s, b, t, k, p);
    }
  }

  // ---------------------------------------------------------------- every step keeps the invariant

  lemma QueueStepKeeps(s: Flow, b: Q.Action, t: Flow)
    requires Inv(s) && Q.Step(s.queue, b, t.queue)
    ensures Q.Inv(t.queue) && Origins.Origins(t.queue)
  {
    hide Q.Inv, Q.Step, Origins.Origins, Link, EventSafety.Inv;
    QueueSafety.StepKeepsInv(s.queue, b, t.queue);
    Origins.StepOrigins(s.queue, b, t.queue);
  }

  lemma StepKeepsInv(s: Flow, a: Action, t: Flow)
    requires Inv(s) && Step(s, a, t)
    ensures Inv(t)
  {
    hide Q.Inv, Q.Step, Origins.Origins, Link, EventSafety.Inv, E.Step, Permitted, Carries;
    match a
    case QueueStep(b) =>
      QueueStepKeeps(s, b, t);
      if b.BeginSubmission? {
        BeginLink(s.queue, b.i, b.item, t.queue, s.events.tasks, s.me);
      } else {
        QuietLink(s.queue, b, t.queue, s.events.tasks, s.me);
      }
    case Accept(i, shard, token) =>
      QueueStepKeeps(s, Q.Send(i), t);
      EventSafety.StepKeepsInv(s.events, E.Submit(i, shard, token), t.events);
      SubmitMoves(s.events, i, shard, token, t.events);
      AcceptLink(s.queue, i, t.queue, s.events.tasks, t.events.tasks[i], s.me);
    case Take(w) =>
      QueueStepKeeps(s, Q.Receive(w), t);
      TakeLink(s.queue, w, t.queue, s.events.tasks, s.me);
    case Finish(w) =>
      QueueStepKeeps(s, Q.FinishEvent(w), t);
      FinishLink(s.queue, w, t.queue, s.events.tasks, s.me);
    case EventStep(b) =>
      EventSafety.StepKeepsInv(s.events, b, t.events);
      EventLink(s, b, t);
  }

  lemma PastInv(past: seq<E.State>, e: E.State)
    requires E.Traced(past, e)
    ensures EventSafety.Inv(e)
  {
    hide EventSafety.Inv, E.Next, E.Init;
    EventSafety.RunInv(past, |past| - 1);
  }

  lemma InitInv(s: Flow)
    requires Init(s)
    ensures Inv(s)
  {
    hide EventSafety.Inv, Q.Inv, Origins.Origins, E.Run;
    var past :| E.Traced(past, s.events);
    PastInv(past, s.events);
    QueueSafety.InitInv(s.queue);
    Origins.InitOrigins(s.queue);
  }

  lemma {:induction false} RunInv(run: seq<Flow>, n: nat)
    requires Run(run) && n < |run|
    ensures Inv(run[n])
  {
    hide Step, Inv, Init;
    if n == 0 {
      InitInv(run[0]);
    } else {
      RunInv(run, n - 1);
      assert Next(run[n - 1], run[n - 1 + 1]);
      var a :| Step(run[n - 1], a, run[n]);
      StepKeepsInv(run[n - 1], a, run[n]);
    }
  }

  // ---------------------------------------------------------------- in every run

  lemma PlaceOf(s: Flow, k: Q.Key, p: int)
    requires Inv(s) && 0 <= p < |Q.Lookup(s.queue.log.sent, k)|
    ensures
      var x := Q.Lookup(s.queue.log.sent, k)[p];
      x.key == k && Carries(s.events.tasks, s.me, x) &&
      PlaceOk(s.events.tasks[x.submission].phase, p, |Q.Lookup(s.queue.log.taken, k)|,
              QueueTheorems.Busy(s.queue.workers, k))
  {
    hide Q.Inv, EventSafety.Inv, RoutedOk, SubmittedOk, Alive, HeldOk, QueueTheorems.Busy, Origins.Origins, PlaceOk,
         Carries, Q.Lookup;
    assert SentOk(s.queue.log.sent, s.queue.log.taken, s.queue.workers, s.events.tasks, s.me, k, p);
  }

  /**
    Deliveries of a key are carried out in the order in which they were queued: when one of them has
    left the queue, every earlier one has been settled.
  */
  lemma SettledInSendOrder(run: seq<Flow>, n: nat, k: Q.Key, p: int, q: int)
    requires Run(run) && n < |run| && 0 <= p < q < |Q.Lookup(run[n].queue.log.sent, k)|
    ensures
      var first, second := Q.Lookup(run[n].queue.log.sent, k)[p], Q.Lookup(run[n].queue.log.sent, k)[q];
      first.submission in run[n].events.tasks && second.submission in run[n].events.tasks &&
      (!run[n].events.tasks[second.submission].phase.Queued? ==>
         run[n].events.tasks[first.submission].phase.Settled?)
  {
    hide Run, Inv, QueueTheorems.Busy, Q.Lookup;
    RunInv(run, n);
    PlaceOf(run[n], k, p);
    PlaceOf(run[n], k, q);
  }

  /** A delivery that is being processed: past the queue and not settled. */
  predicate Processing(tasks: Tasks, me: string, i: int) {
    Mine(tasks, me, i) && Handled(tasks[i].phase) && !tasks[i].phase.Queued? && !tasks[i].phase.Settled?
  }

  lemma ProcessingPlace(s: Flow, i: int) returns (k: Q.Key, p: int)
    requires Inv(s) && Processing(s.events.tasks, s.me, i)
    ensures k == s.events.tasks[i].message.env.partition && Origins.SentAt(s.queue.log.sent, k, p, i)
    ensures p == |Q.Lookup(s.queue.log.taken, k)| - 1
  {
    hide Q.Inv, EventSafety.Inv, AllSentOk, SubmittedOk, Alive, HeldOk, QueueTheorems.Busy, Origins.Origins, Q.Lookup;
    k, p :| Origins.SentAt(s.queue.log.sent, k, p, i);
    PlaceOf(s, k, p);
  }

  /** In every reachable state the process has at most one delivery of a partition key in processing. */
  lemma OneInProcessingPerKey(run: seq<Flow>, n: nat, i: int, j: int)
    requires Run(run) && n < |run|
    requires Processing(run[n].events.tasks, run[n].me, i) && Processing(run[n].events.tasks, run[n].me, j)
    requires run[n].events.tasks[i].message.env.partition == run[n].events.tasks[j].message.env.partition
    ensures i == j
  {
    hide Run, Inv;
    RunInv(run, n);
    var k, p := ProcessingPlace(run[n], i);
    var l, q := ProcessingPlace(run[n], j);
  }

  /** The item a worker receives is that of a queued delivery under its partition key. */
  lemma TakenIsQueued(run: seq<Flow>, n: nat, w: int, t: Flow)
    requires Run(run) && n < |run| && Step(run[n], Take(w), t)
    ensures w in t.queue.workers && t.queue.workers[w].Working?
    ensures
      var x := t.queue.workers[w].item;
      Carries(t.events.tasks, t.me, x) && t.events.tasks[x.submission].phase.Queued?
  {
    hide Run, Inv, Q.Inv, QueueTheorems.Busy, Q.Lookup, Q.Step, Carries;
    RunInv(run, n);
    var s := run[n];
    QueueInvOf(s);
    QueueSafety.StepKeepsInv(s.queue, Q.Receive(w), t.queue);
    TakeFacts(s.queue, w, t.queue);
    TakenIsNext(s.queue, w, t.queue);
    var k := t.queue.workers[w].item.key;
    PlaceOf(s, k, |Q.Lookup(s.queue.log.taken, k)|);
  }

  lemma QueueInvOf(s: Flow)
    requires Inv(s)
    ensures Q.Inv(s.queue) && Origins.Origins(s.queue)
  {
  }

  /** The place at which a worker turn took the delivery's item. */
  ghost predicate TurnAt(queue: Q.State, i: int, k: Q.Key, p: int) {
    Origins.SentAt(queue.log.taken, k, p, i)
  }

  /**
    A settled delivery was refused, and then no worker ever took it, or it was settled by the one worker
    turn that took it.
  */
  lemma SettledByOneTurn(run: seq<Flow>, n: nat, i: int)
    requires Run(run) && n < |run| && Mine(run[n].events.tasks, run[n].me, i) && run[n].events.tasks[i].phase.Settled?
    ensures run[n].events.tasks[i].phase.how.Nak? ==> !Origins.WasSent(run[n].queue.log.sent, i)
    ensures run[n].events.tasks[i].phase.how.Nak? ==> forall k, p :: !TurnAt(run[n].queue, i, k, p)
    ensures !run[n].events.tasks[i].phase.how.Nak? ==> exists k, p :: TurnAt(run[n].queue, i, k, p)
    ensures forall k, p, l, q | TurnAt(run[n].queue, i, k, p) && TurnAt(run[n].queue, i, l, q) :: k == l && p == q
  {
    hide Run, Inv, Q.Inv, QueueTheorems.Busy, Q.Lookup, Origins.SentAt;
    RunInv(run, n);
    var s := run[n];
    forall k, p | Origins.SentAt(s.queue.log.sent, k, p, i)
      ensures !s.events.tasks[i].phase.how.Nak? && TurnAt(s.queue, i, k, p)
    {
      SettledPlace(s, i, k, p);
    }
    forall k, p | TurnAt(s.queue, i, k, p)
      ensures Origins.SentAt(s.queue.log.sent, k, p, i)
    {
      TurnWasSent(s, i, k, p);
    }
    OncePlace(s, i);
    if !s.events.tasks[i].phase.how.Nak? {
      HandledWasSent(s, i);
      var k, p :| Origins.SentAt(s.queue.log.sent, k, p, i);
      assert TurnAt(s.queue, i, k, p);
    }
  }

  lemma SettledPlace(s: Flow, i: int, k: Q.Key, p: int)
    requires Inv(s) && Origins.SentAt(s.queue.log.sent, k, p, i)
    requires i in s.events.tasks && s.events.tasks[i].phase.Settled?
    ensures !s.events.tasks[i].phase.how.Nak? && TurnAt(s.queue, i, k, p)
  {
    hide Inv, Q.Inv, QueueTheorems.Busy;
    PlaceOf(s, k, p);
    QueueInvOf(s);
    QueueTheorems.FifoAt(s.queue, k);
  }

  lemma TurnWasSent(s: Flow, i: int, k: Q.Key, p: int)
    requires Inv(s) && TurnAt(s.queue, i, k, p)
    ensures Origins.SentAt(s.queue.log.sent, k, p, i)
  {
    hide Inv, Q.Inv;
    QueueInvOf(s);
    QueueTheorems.FifoAt(s.queue, k);
  }

  lemma OncePlace(s: Flow, i: int)
    requires Inv(s)
    ensures forall k, p, l, q |
              Origins.SentAt(s.queue.log.sent, k, p, i) && Origins.SentAt(s.queue.log.sent, l, q, i) :: k == l && p == q
  {
    hide Q.Inv, EventSafety.Inv, Link, Origins.SentAt;
  }

  lemma HandledWasSent(s: Flow, i: int)
    requires Inv(s) && Mine(s.events.tasks, s.me, i) && Handled(s.events.tasks[i].phase)
    ensures Origins.WasSent(s.queue.log.sent, i)
  {
    hide Q.Inv, EventSafety.Inv, Origins.Origins, AllSentOk, SubmittedOk, HeldOk, Alive, Origins.WasSent;
  }

  // ---------------------------------------------------------------- shutdown

  /** With all workers gone, an accepted delivery is settled if its item was taken and still queued if not. */
  lemma SettledIffTaken(run: seq<Flow>, n: nat, k: Q.Key, p: int)
    requires Run(run) && n < |run| && KeyQueueShutdown.AllExited(run[n].queue)
    requires 0 <= p < |Q.Lookup(run[n].queue.log.sent, k)|
    ensures
      var i := Q.Lookup(run[n].queue.log.sent, k)[p].submission;
      i in run[n].events.tasks &&
      (run[n].events.tasks[i].phase.Settled? <==> p < |Q.Lookup(run[n].queue.log.taken, k)|) &&
      (run[n].events.tasks[i].phase.Queued? <==> p >= |Q.Lookup(run[n].queue.log.taken, k)|)
  {
    hide Run, Inv, Q.Lookup;
    RunInv(run, n);
    PlaceOf(run[n], k, p);
  }

  lemma ExitedStep(s: Flow, a: Action, t: Flow, k: Q.Key)
    requires Step(s, a, t) && KeyQueueShutdown.AllExited(s.queue)
    ensures KeyQueueShutdown.AllExited(t.queue)
    ensures Q.Lookup(t.queue.log.taken, k) == Q.Lookup(s.queue.log.taken, k)
    ensures Q.Lookup(s.queue.log.sent, k) <= Q.Lookup(t.queue.log.sent, k)
  {
    hide Q.Step, E.Step, Permitted, Carries, KeyQueueShutdown.AllExited, Q.Lookup;
    if !a.EventStep? {
      var b := match a
        case QueueStep(b) => b
        case Accept(i, _, _) => Q.Send(i)
        case Take(w) => Q.Receive(w)
        case Finish(w) => Q.FinishEvent(w);
      KeyQueueShutdown.ExitedStep(s.queue, b, t.queue, k);
      QueueTheorems.HistoryOnlyGrows(s.queue, b, t.queue, k);
    }
  }

  /** What Stop has left in a channel stays queued: the process never settles it. */
  lemma {:induction false} LeftBehind(run: seq<Flow>, m: nat, n: nat, k: Q.Key, p: int)
    requires Run(run) && m <= n < |run| && KeyQueueShutdown.AllExited(run[m].queue)
    requires |Q.Lookup(run[m].queue.log.taken, k)| <= p < |Q.Lookup(run[m].queue.log.sent, k)|
    ensures KeyQueueShutdown.AllExited(run[n].queue)
    ensures Q.Lookup(run[n].queue.log.taken, k) == Q.Lookup(run[m].queue.log.taken, k)
    ensures Q.Lookup(run[m].queue.log.sent, k) <= Q.Lookup(run[n].queue.log.sent, k)
    ensures
      var i := Q.Lookup(run[m].queue.log.sent, k)[p].submission;
      i in run[n].events.tasks && run[n].events.tasks[i].phase.Queued?
    decreases n
  {
    hide Step, Init, KeyQueueShutdown.AllExited, Q.Lookup;
    if m < n {
      LeftBehind(run, m, n - 1, k, p);
      assert Next(run[n - 1], run[n - 1 + 1]);
      var a :| Step(run[n - 1], a, run[n]);
      ExitedStep(run[n - 1], a, run[n], k);
    }
    SettledIffTaken(run, n, k, p);
  }
}
