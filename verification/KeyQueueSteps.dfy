/**
  The per-key queue of internal/runtime/keyqueue as a transition system.

  Every lock-protected block and every channel operation of the queue is one atomic step, so a run
  of this system is an arbitrary interleaving of submitters, workers and the shutdown routine.
  Queue objects are named by references: a queue that was deleted from the map stays in `objects`,
  which is what lets the invariant say that nothing is ever stranded in it.
*/
module KeyQueueSteps {

  /** A partition key; the queue only ever compares keys for equality. */
  type Key = string

  type Ref = int

  /** A delivery handed to Submit: the event's partition key, and the call to Submit that carries it. */
  datatype Item = Item(key: Key, submission: int)

  /** A keyQueue object: its channel contents and the two fields guarded by its mutex. */
  datatype Queue = Queue(key: Key, items: seq<Item>, processing: bool, submitters: nat)

  /** Where a call to Submit stands. */
  datatype SubmitPhase =
    | Admitted              // counted in submitWG
    | Slotted               // holds one global slot
    | Registered(q: Ref)    // counted in the queue's submitters, about to send
    | Sent(q: Ref)          // the item is in the channel
    | Cancelled(q: Ref)     // the send was abandoned, the slot is still held
    | Refunded(q: Ref)      // the slot was given back
    | Left                  // only submitWG.Done is missing

  datatype Submission = Submission(item: Item, phase: SubmitPhase)

  /** Where a queue worker stands. */
  datatype WorkerPhase =
    | Idle
    | Selected(q: Ref)              // set the processing flag, has not received yet
    | Working(q: Ref, item: Item)   // runs the processor
    | Finished(item: Item)          // ran finishEvent, still holds the slot
    | Exited

  datatype State = State(
    limit: nat,
    maxPerKey: nat,
    started: bool,
    stopping: bool,
    workersStopped: bool,
    queues: map<Key, Ref>,
    objects: map<Ref, Queue>,
    nextRef: Ref,
    slots: nat,
    submissions: map<int, Submission>,
    begun: set<int>,
    workers: map<int, WorkerPhase>,
    log: Log)

  /** Per key, the items sent on the channels and the items handed to the processor, in order. */
  datatype Log = Log(sent: map<Key, seq<Item>>, taken: map<Key, seq<Item>>)

  datatype Action =
    | Start
    | BeginSubmission(i: int, item: Item)
    | AcquireSlot(i: int)
    | GiveUpSlot(i: int)
    | Register(i: int)
    | Send(i: int)
    | Cancel(i: int)
    | Refund(i: int)
    | FinishSubmit(i: int)
    | SubmissionDone(i: int)
    | Select(w: int, key: Key)
    | Receive(w: int)
    | FinishEvent(w: int)
    | ReleaseSlot(w: int)
    | WorkerExit(w: int)
    | StopSubmitting
    | StopWorkers

  function Lookup(m: map<Key, seq<Item>>, k: Key): seq<Item> {
    if k in m then m[k] else []
  }

  predicate PhaseIs(s: State, i: int, p: SubmitPhase) {
    i in s.submissions && s.submissions[i].phase == p
  }

  /** The queue a submitter is counted on, between registerQueueSubmitter and finishSubmit. */
  predicate OnQueue(p: SubmitPhase) {
    p.Registered? || p.Sent? || p.Cancelled? || p.Refunded?
  }

  predicate HoldsSlot(p: SubmitPhase) {
    p.Slotted? || p.Registered? || p.Cancelled?
  }

  predicate OwnsQueue(p: WorkerPhase) {
    p.Selected? || p.Working?
  }

  predicate HoldsItem(p: WorkerPhase) {
    p.Working? || p.Finished?
  }

  function Moved(subs: map<int, Submission>, i: int, p: SubmitPhase): map<int, Submission>
    requires i in subs
  {
    subs[i := subs[i].(phase := p)]
  }

  /** The queue object registered under `k`, or the reference a new one would get. */
  function RefFor(queues: map<Key, Ref>, k: Key, made: Ref): Ref {
    if k in queues then queues[k] else made
  }

  function QueueAt(objects: map<Ref, Queue>, r: Ref, k: Key): Queue {
    if r in objects then objects[r] else Queue(k, [], false, 0)
  }

  /** registerQueueSubmitter: find or create the key's queue and count the submitter on it. */
  function Registering(s: State, i: int): State
    requires i in s.submissions
  {
    var k := s.submissions[i].item.key;
    var r := RefFor(s.queues, k, s.nextRef);
    var q := QueueAt(s.objects, r, k);
    s.(queues := s.queues[k := r],
       objects := s.objects[r := q.(submitters := q.submitters + 1)],
       nextRef := s.nextRef + 1,
       submissions := Moved(s.submissions, i, Registered(r)))
  }

  function Sending(s: State, i: int): State
    requires i in s.submissions && s.submissions[i].phase.Registered?
    requires s.submissions[i].phase.q in s.objects
  {
    var r := s.submissions[i].phase.q;
    var x := s.submissions[i].item;
    var q := s.objects[r];
    s.(objects := s.objects[r := q.(items := q.items + [x])],
       submissions := Moved(s.submissions, i, Sent(r)),
       log := s.log.(sent := s.log.sent[x.key := Lookup(s.log.sent, x.key) + [x]]))
  }

  predicate InUse(q: Queue) {
    q.items != [] || q.processing || q.submitters > 0
  }

  /** Both finish routines delete a queue from the map when it is mapped, idle, empty and unclaimed. */
  function Prune(queues: map<Key, Ref>, r: Ref, q: Queue): map<Key, Ref> {
    if q.key in queues && queues[q.key] == r && !InUse(q) then queues - {q.key} else queues
  }

  /** finishSubmit: leave the queue. */
  function FinishingSubmit(s: State, i: int): State
    requires i in s.submissions
    requires s.submissions[i].phase.Sent? || s.submissions[i].phase.Refunded?
    requires s.submissions[i].phase.q in s.objects
  {
    var r := s.submissions[i].phase.q;
    var q := s.objects[r].(submitters := if s.objects[r].submitters > 0 then s.objects[r].submitters - 1 else 0);
    s.(objects := s.objects[r := q],
       queues := Prune(s.queues, r, q),
       submissions := Moved(s.submissions, i, Left))
  }

  function Receiving(s: State, w: int): State
    requires w in s.workers && s.workers[w].Selected?
    requires s.workers[w].q in s.objects && s.objects[s.workers[w].q].items != []
  {
    var r := s.workers[w].q;
    var q := s.objects[r];
    var x := q.items[0];
    s.(objects := s.objects[r := q.(items := q.items[1..])],
       workers := s.workers[w := Working(r, x)],
       log := s.log.(taken := s.log.taken[q.key := Lookup(s.log.taken, q.key) + [x]]))
  }

  /** finishEvent: looked up by the item's key, not by the reference the worker selected. */
  function FinishingEvent(s: State, w: int): State
    requires w in s.workers && s.workers[w].Working?
  {
    var x := s.workers[w].item;
    if x.key in s.queues && s.queues[x.key] in s.objects then
      var r := s.queues[x.key];
      var q := s.objects[r].(processing := false);
      s.(objects := s.objects[r := q], queues := Prune(s.queues, r, q), workers := s.workers[w := Finished(x)])
    else
      s.(workers := s.workers[w := Finished(x)])
  }

  /** One step. A channel operation that would block is not enabled. */
  ghost predicate Step(s: State, a: Action, t: State) {
    match a
    case Start =>
      !s.started && !s.stopping && t == s.(started := true)
    case BeginSubmission(i, item) =>
      s.started && !s.stopping && i !in s.submissions && i !in s.begun && item.submission == i &&
      t == s.(submissions := s.submissions[i := Submission(item, Admitted)], begun := s.begun + {i})
    case AcquireSlot(i) =>
      PhaseIs(s, i, Admitted) && s.slots < s.limit &&
      t == s.(submissions := Moved(s.submissions, i, Slotted), slots := s.slots + 1)
    case GiveUpSlot(i) =>
      PhaseIs(s, i, Admitted) && t == s.(submissions := Moved(s.submissions, i, Left))
    case Register(i) =>
      PhaseIs(s, i, Slotted) && t == Registering(s, i)
    case Send(i) =>
      i in s.submissions && s.submissions[i].phase.Registered? &&
      s.submissions[i].phase.q in s.objects &&
      |s.objects[s.submissions[i].phase.q].items| < s.maxPerKey &&
      t == Sending(s, i)
    case Cancel(i) =>
      i in s.submissions && s.submissions[i].phase.Registered? &&
      t == s.(submissions := Moved(s.submissions, i, Cancelled(s.submissions[i].phase.q)))
    case Refund(i) =>
      i in s.submissions && s.submissions[i].phase.Cancelled? && s.slots > 0 &&
      t == s.(submissions := Moved(s.submissions, i, Refunded(s.submissions[i].phase.q)), slots := s.slots - 1)
    case FinishSubmit(i) =>
      i in s.submissions && (s.submissions[i].phase.Sent? || s.submissions[i].phase.Refunded?) &&
      s.submissions[i].phase.q in s.objects &&
      t == FinishingSubmit(s, i)
    case SubmissionDone(i) =>
      PhaseIs(s, i, Left) && t == s.(submissions := s.submissions - {i})
    case Select(w, key) =>
      w in s.workers && s.workers[w].Idle? && key in s.queues && s.queues[key] in s.objects &&
      var q := s.objects[s.queues[key]];
      !q.processing && q.items != [] &&
      t == s.(objects := s.objects[s.queues[key] := q.(processing := true)],
              workers := s.workers[w := Selected(s.queues[key])])
    case Receive(w) =>
      w in s.workers && s.workers[w].Selected? &&
      s.workers[w].q in s.objects && s.objects[s.workers[w].q].items != [] &&
      t == Receiving(s, w)
    case FinishEvent(w) =>
      w in s.workers && s.workers[w].Working? && t == FinishingEvent(s, w)
    case ReleaseSlot(w) =>
      w in s.workers && s.workers[w].Finished? && s.slots > 0 &&
      t == s.(workers := s.workers[w := Idle], slots := s.slots - 1)
    case WorkerExit(w) =>
      w in s.workers && s.workers[w].Idle? && t == s.(workers := s.workers[w := Exited])
    case StopSubmitting =>
      !s.stopping && t == s.(stopping := true)
    case StopWorkers =>
      s.stopping && s.submissions == map[] && t == s.(workersStopped := true)
  }

  /** A freshly constructed queue with `n` workers that have not started yet. */
  predicate Init(s: State) {
    s.limit > 0 && s.maxPerKey > 0 && !s.started && !s.stopping && !s.workersStopped &&
    s.queues == map[] && s.objects == map[] && s.slots == 0 && s.submissions == map[] && s.begun == {} &&
    s.log == Log(map[], map[]) &&
    forall w | w in s.workers :: s.workers[w].Idle?
  }

  ghost predicate Next(s: State, t: State) {
    exists a :: Step(s, a, t)
  }

  /** A run: consecutive states are one step apart. */
  ghost predicate Run(run: seq<State>) {
    run != [] && Init(run[0]) &&
    forall i | 0 <= i < |run| - 1 :: Next(run[i], run[i + 1])
  }

  /** The state is where the run has got to. */
  ghost predicate Traced(run: seq<State>, s: State) {
    Run(run) && run[|run| - 1] == s
  }

  lemma TraceExtends(run: seq<State>, s: State, a: Action, t: State)
    requires Traced(run, s) && Step(s, a, t)
    ensures Traced(run + [t], t)
  {
    hide Step, Init;
    var longer := run + [t];
    forall i | 0 <= i < |longer| - 1
      ensures Next(longer[i], longer[i + 1])
    {
      if i < |run| - 1 {
        assert Next(run[i], run[i + 1]);
      }
    }
  }

  // ---------------------------------------------------------------- the invariant

  /** The submitters counted on queue `r`. */
  ghost function SubmittersOf(subs: map<int, Submission>, r: Ref): set<int> {
    set i | i in subs && OnQueue(subs[i].phase) && subs[i].phase.q == r
  }

  /** Submit calls that acquired a slot and have neither sent their item nor given the slot back. */
  ghost function SlotHolders(subs: map<int, Submission>): set<int> {
    set i | i in subs && HoldsSlot(subs[i].phase)
  }

  datatype Position = Position(queue: Ref, index: int)

  /** The occupied channel positions of all queue objects, deleted ones included. */
  ghost function QueuedPositions(objects: map<Ref, Queue>): set<Position> {
    set r, p | r in objects && 0 <= p < |objects[r].items| :: Position(r, p)
  }

  ghost function BusyWorkers(workers: map<int, WorkerPhase>): set<int> {
    set w | w in workers && HoldsItem(workers[w])
  }

  /** A channel is bounded and holds only items of its key. */
  ghost predicate ChannelOk(q: Queue, maxPerKey: nat) {
    |q.items| <= maxPerKey && forall x | x in q.items :: x.key == q.key
  }

  /**
    The map holds queues under their own key, and a queue that has items, a worker or a submitter
    is the one in the map: nothing is stranded in a deleted queue.
  */
  ghost predicate Attached(queues: map<Key, Ref>, objects: map<Ref, Queue>) {
    (forall k | k in queues :: queues[k] in objects && objects[queues[k]].key == k) &&
    (forall r | r in objects && InUse(objects[r]) :: objects[r].key in queues && queues[objects[r].key] == r)
  }

  ghost predicate ChannelsOk(objects: map<Ref, Queue>, maxPerKey: nat) {
    forall r | r in objects :: ChannelOk(objects[r], maxPerKey)
  }

  ghost predicate Counted(objects: map<Ref, Queue>, subs: map<int, Submission>) {
    (forall i | i in subs && OnQueue(subs[i].phase) ::
       subs[i].phase.q in objects && objects[subs[i].phase.q].key == subs[i].item.key) &&
    (forall r | r in objects :: objects[r].submitters == |SubmittersOf(subs, r)|)
  }

  ghost predicate Owns(workers: map<int, WorkerPhase>, w: int, r: Ref) {
    w in workers && OwnsQueue(workers[w]) && workers[w].q == r
  }

  /** The processing flag is owned by exactly one worker, and a selected queue is not empty. */
  ghost predicate Exclusive(objects: map<Ref, Queue>, workers: map<int, WorkerPhase>) {
    (forall w, r | Owns(workers, w, r) ::
       r in objects && objects[r].processing &&
       (workers[w].Selected? ==> objects[r].items != []) &&
       (workers[w].Working? ==> workers[w].item.key == objects[r].key)) &&
    (forall v, w, r | Owns(workers, v, r) && Owns(workers, w, r) :: v == w) &&
    (forall r | r in objects && objects[r].processing :: exists w :: Owns(workers, w, r))
  }

  /** Slots held are exactly submitters past acquisition plus queued items plus items with a worker. */
  ghost predicate Conserved(s: State) {
    s.slots == |SlotHolders(s.submissions)| + |QueuedPositions(s.objects)| + |BusyWorkers(s.workers)| &&
    s.slots <= s.limit
  }

  /** What waits for key `k`. */
  function Pending(queues: map<Key, Ref>, objects: map<Ref, Queue>, k: Key): seq<Item> {
    if k in queues && queues[k] in objects then objects[queues[k]].items else []
  }

  /** Per key, what was sent is what was taken followed by what waits. */
  ghost predicate Fifo(log: Log, queues: map<Key, Ref>, objects: map<Ref, Queue>) {
    forall k: Key :: Lookup(log.sent, k) == Lookup(log.taken, k) + Pending(queues, objects, k)
  }

  /** References are handed out in increasing order, so a new queue object is a new one. */
  ghost predicate RefsIssued(objects: map<Ref, Queue>, nextRef: Ref) {
    forall r | r in objects :: r < nextRef
  }

  ghost predicate Lifecycle(s: State) {
    (s.workersStopped ==> s.stopping && s.submissions == map[]) &&
    (!s.started ==> s.submissions == map[])
  }

  ghost predicate Inv(s: State) {
    Attached(s.queues, s.objects) && ChannelsOk(s.objects, s.maxPerKey) && RefsIssued(s.objects, s.nextRef) &&
    Counted(s.objects, s.submissions) && Exclusive(s.objects, s.workers) &&
    Conserved(s) && Fifo(s.log, s.queues, s.objects) && Lifecycle(s)
  }
}
