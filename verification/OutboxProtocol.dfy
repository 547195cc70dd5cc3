/**
  Publishing outbox effects as a transition system: expiring claims, sends, and the statements that
  settle an effect. Any number of publishers run concurrently, each batch under its own token.

  Statements read whatever clock value they are given. The only assumption about clocks is that a
  publisher settles at a reading no earlier than the one it claimed at.
*/
module OutboxProtocol {
  import opened Backoff

  datatype Status =
    | Pending
    | Claimed(holder: int, since: int, expires: int)
    | Delivered
    | Quarantined

  datatype Row = Row(status: Status, attempts: int, max: int, available: int, created: int)

  const MAX_ATTEMPTS := 5

  /** What a claim returns of a row. */
  datatype Snapshot = Snapshot(id: string, attempts: int, max: int)

  datatype Phase =
    | Claiming
    | Ready
    | Sent
    | SendFailed
    | Entered(entry: string)   // the quarantine entry is saved
    | Undo(entry: string)      // the quarantine statement reported an error

  /** One PublishBatch call: its claim reading and TTL, the effects still to do, and where the first of them stands. */
  datatype Batch = Batch(at: int, ttl: int, todo: seq<Snapshot>, phase: Phase)

  datatype Log = Log(
    claims: map<string, seq<int>>,    // tokens that claimed an effect, oldest first
    sent: set<string>,                // effects some send of which succeeded
    retries: map<string, int>,        // retry settlements per effect
    via: map<string, string>,         // the entry a quarantined effect was quarantined with
    lost: set<string>,                // effects whose quarantine statement took effect without a reply
    removed: set<string>,             // entries an operator deleted
    made: set<string>)                // entry identities ever used

  datatype State = State(rows: map<string, Row>, batches: map<int, Batch>, entries: map<string, string>, log: Log)

  datatype Action =
    | Insert(id: string, at: int)
    | Begin(token: int, at: int, ttl: int)
    | ClaimOne(token: int, id: string)
    | Start(token: int)
    | Send(token: int, ok: bool)
    | MarkDelivered(token: int, at: int, executed: bool)
    | ScheduleRetry(token: int, at: int, executed: bool)
    | SaveEntry(token: int, entry: string, executed: bool, reported: bool)
    | Quarantine(token: int, at: int, executed: bool, reported: bool)
    | DeleteEntry(token: int, executed: bool)
    | OperatorDeletes(entry: string)
    | Crash(token: int)

  function Attempts(retries: map<string, int>, id: string): int {
    if id in retries then retries[id] else 0
  }

  function Claims(claims: map<string, seq<int>>, id: string): seq<int> {
    if id in claims then claims[id] else []
  }

  /** The filter of ClaimPending at clock reading `at`. */
  predicate Claimable(r: Row, at: int) {
    (r.status.Pending? && r.available <= at) || (r.status.Claimed? && r.status.expires <= at)
  }

  /** The WHERE clause of every settlement. */
  predicate Holds(r: Row, token: int, at: int) {
    r.status.Claimed? && r.status.holder == token && r.status.expires > at
  }

  /** The retry delay, in nanoseconds. */
  function Delay(attempts: int): (d: int)
    ensures d > 0
  {
    BackoffsAgree(attempts);
    BackoffDuration(attempts) as int
  }

  /** The batch after it is done with its first effect, whatever came of it. */
  function Next(b: Batch): Batch
    requires b.todo != []
  {
    b.(todo := b.todo[1..], phase := Ready)
  }

  predicate Busy(s: State, token: int, p: Phase) {
    token in s.batches && s.batches[token].phase == p && s.batches[token].todo != []
  }

  function Retried(r: Row, attempts: int, at: int): Row {
    r.(status := Pending, attempts := attempts, available := at + Delay(attempts))
  }

  predicate Takes(rows: map<string, Row>, id: string, token: int, at: int, executed: bool) {
    executed && id in rows && Holds(rows[id], token, at)
  }

  predicate Step(s: State, a: Action, t: State) {
    match a
    case Insert(id, at) =>
      id !in s.rows && t == s.(rows := s.rows[id := Row(Pending, 0, MAX_ATTEMPTS, at, at)])
    case Begin(token, at, ttl) =>
      token !in s.batches && ttl > 0 && t == s.(batches := s.batches[token := Batch(at, ttl, [], Claiming)])
    case ClaimOne(token, id) =>
      token in s.batches && s.batches[token].phase.Claiming? && id in s.rows &&
      Claimable(s.rows[id], s.batches[token].at) &&
      var b, r := s.batches[token], s.rows[id];
      t == s.(rows := s.rows[id := r.(status := Claimed(token, b.at, b.at + b.ttl))],
              batches := s.batches[token := b.(todo := b.todo + [Snapshot(id, r.attempts, r.max)])],
              log := s.log.(claims := s.log.claims[id := Claims(s.log.claims, id) + [token]]))
    case Start(token) =>
      token in s.batches && s.batches[token].phase.Claiming? &&
      t == s.(batches := s.batches[token := s.batches[token].(phase := Ready)])
    case Send(token, ok) =>
      Busy(s, token, Ready) &&
      var b := s.batches[token];
      t == s.(batches := s.batches[token := b.(phase := if ok then Sent else SendFailed)],
              log := if ok then s.log.(sent := s.log.sent + {b.todo[0].id}) else s.log)
    case MarkDelivered(token, at, executed) =>
      Busy(s, token, Sent) && at >= s.batches[token].at &&
      var b := s.batches[token];
      var id := b.todo[0].id;
      t == s.(batches := s.batches[token := Next(b)],
              rows := if Takes(s.rows, id, token, at, executed) then s.rows[id := s.rows[id].(status := Delivered)]
                      else s.rows)
    case ScheduleRetry(token, at, executed) =>
      Busy(s, token, SendFailed) && at >= s.batches[token].at &&
      var b := s.batches[token];
      var e := b.todo[0];
      e.attempts + 1 < e.max &&
      t == s.(batches := s.batches[token := Next(b)],
              rows := if Takes(s.rows, e.id, token, at, executed)
                      then s.rows[e.id := Retried(s.rows[e.id], e.attempts + 1, at)] else s.rows,
              log := if Takes(s.rows, e.id, token, at, executed)
                     then s.log.(retries := s.log.retries[e.id := Attempts(s.log.retries, e.id) + 1]) else s.log)
    case SaveEntry(token, entry, executed, reported) =>
      Busy(s, token, SendFailed) && entry !in s.log.made && (reported ==> executed) &&
      var b := s.batches[token];
      b.todo[0].attempts + 1 >= b.todo[0].max &&
      t == s.(batches := s.batches[token := if reported then b.(phase := Entered(entry)) else Next(b)],
              entries := if executed then s.entries[entry := b.todo[0].id] else s.entries,
              log := s.log.(made := s.log.made + {entry}))
    case Quarantine(token, at, executed, reported) =>
      token in s.batches && s.batches[token].phase.Entered? && s.batches[token].todo != [] &&
      at >= s.batches[token].at &&
      var b := s.batches[token];
      var id := b.todo[0].id;
      var took := Takes(s.rows, id, token, at, executed);
      (reported ==> took) &&
      t == s.(batches := s.batches[token := if reported then Next(b) else b.(phase := Undo(b.phase.entry))],
              rows := if took then s.rows[id := s.rows[id].(status := Quarantined)] else s.rows,
              log := if took then s.log.(via := s.log.via[id := b.phase.entry],
                                         lost := if reported then s.log.lost else s.log.lost + {id}) else s.log)
    case DeleteEntry(token, executed) =>
      token in s.batches && s.batches[token].phase.Undo? && s.batches[token].todo != [] &&
      var b := s.batches[token];
      t == s.(batches := s.batches[token := Next(b)],
              entries := if executed then s.entries - {b.phase.entry} else s.entries)
    case OperatorDeletes(entry) =>
      t == s.(entries := s.entries - {entry}, log := s.log.(removed := s.log.removed + {entry}))
    case Crash(token) =>
      token in s.batches && t == s.(batches := s.batches[token := s.batches[token].(todo := [])])
  }

  predicate Init(s: State) {
    s == State(map[], map[], map[], Log(map[], {}, map[], map[], {}, {}, {}))
  }

  ghost predicate Moves(s: State, t: State) {
    exists a :: Step(s, a, t)
  }

  ghost predicate Run(run: seq<State>) {
    run != [] && Init(run[0]) && forall i | 0 <= i < |run| - 1 :: Moves(run[i], run[i + 1])
  }

  /** The state is where the run has got to. */
  ghost predicate Traced(run: seq<State>, s: State) {
    Run(run) && run[|run| - 1] == s
  }

  lemma TraceExtends(run: seq<State>, s: State, a: Action, t: State)
    requires Traced(run, s) && Step(s, a, t)
    ensures Traced(run + [t], t)
  {
    hide Step, Init;
    var longer := run + [t];
    forall i | 0 <= i < |longer| - 1
      ensures Moves(longer[i], longer[i + 1])
    {
      if i < |run| - 1 {
        assert Moves(run[i], run[i + 1]);
      }
    }
  }
}
