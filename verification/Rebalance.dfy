/**
  The lease managers of a fleet, each reconciling its own lease count with the fixed target.

  A manager's round is not atomic: every release and every acquire is one statement, and the
  statements of all managers interleave freely. Managers start their rounds independently of each
  other. Statements may fail, with or without having taken effect, and leases may expire; either
  leaves its mark in `clean`.
*/
module Rebalance {
  import opened Leases

  datatype Phase =
    | Idle
    | Releasing(tried: set<int>)   // shards whose release failed in this round
    | Scanning(next: int, needed: int)

  /** A manager: the shards in its local snapshot, where its round stands, and how many rounds it has finished. */
  datatype Member = Member(owned: set<int>, phase: Phase, rounds: int)

  /** `clean` until some statement of a round fails or some lease expires. */
  datatype Fleet = Fleet(numShards: int, replicas: int, rows: Rows, now: int, clean: bool, members: map<string, Member>)

  /** targetOwnedShards. */
  function Target(numShards: int, replicas: int): (t: int)
    requires numShards > 0 && replicas > 0
    ensures t >= 1 && t * replicas >= numShards && (t - 1) * replicas < numShards
  {
    var t := numShards / replicas;
    var rounded := if numShards % replicas != 0 then t + 1 else t;
    assert numShards == t * replicas + numShards % replicas;
    if rounded == 0 then 1 else rounded
  }

  function Goal(f: Fleet): int
    requires f.numShards > 0 && f.replicas > 0
  {
    Target(f.numShards, f.replicas)
  }

  /** Nobody can take the shard over at this time. */
  predicate Live(rows: Rows, now: int, s: int) {
    s in rows && rows[s].expires >= now
  }

  ghost predicate NoneExpires(rows: Rows, now: int, to: int) {
    forall s | Live(rows, now, s) :: Live(rows, to, s)
  }

  predicate HeldBy(rows: Rows, now: int, s: int, w: string) {
    Live(rows, now, s) && rows[s].owner == w
  }

  predicate IsMax(owned: set<int>, s: int) {
    s in owned && forall x | x in owned :: x <= s
  }

  // ---------------------------------------------------------------- the steps of a round

  function Ended(m: Member): Member {
    m.(phase := Idle, rounds := m.rounds + 1)
  }

  /** The start of rebalanceIfNeeded: release, nothing to do, or acquire. */
  function Opened(m: Member, target: int): Member {
    if |m.owned| > target then m.(phase := Releasing({}))
    else if |m.owned| == target then Ended(m)
    else m.(phase := Scanning(0, target - |m.owned|))
  }

  /** The excess loop goes on while there is an excess and a shard not tried yet. */
  function AfterTry(m: Member, tried: set<int>, target: int): Member {
    if |m.owned| > target && m.owned - tried != {} then m.(phase := Releasing(tried)) else Ended(m)
  }

  /** The acquire loop goes on while shards are needed and left to look at. */
  function AfterScan(m: Member, numShards: int, next: int, needed: int): Member {
    if next >= numShards || needed <= 0 then Ended(m) else m.(phase := Scanning(next, needed))
  }

  datatype Action =
    | Tick(to: int)
    | Renew(shard: int, owner: string, token: int, ttl: int)
    | Drop(w: string, shard: int)
    | Start(w: string)
    | Release(w: string, shard: int)
    | ReleaseFails(w: string, shard: int, executed: bool)
    | Scan(w: string, ttl: int)
    | ScanFails(w: string, ttl: int, executed: bool)

  predicate Trying(f: Fleet, w: string, s: int) {
    w in f.members && f.members[w].phase.Releasing? && IsMax(f.members[w].owned - f.members[w].phase.tried, s)
  }

  /** Whose lease the acquire of a scan finds: its own from then on, or somebody else's. */
  predicate Wins(f: Fleet, w: string, s: int, ttl: int) {
    var rows := Acquired(f.rows, s, w, f.now, ttl);
    s in rows && rows[s].owner == w
  }

  ghost predicate Step(f: Fleet, a: Action, g: Fleet)
    requires f.numShards > 0 && f.replicas > 0
  {
    match a
    case Tick(to) =>
      f.now <= to && g == f.(now := to, clean := f.clean && NoneExpires(f.rows, f.now, to))
    case Renew(shard, owner, token, ttl) =>
      ttl >= 0 && g == f.(rows := Renewed(f.rows, shard, owner, token, f.now, ttl))
    case Drop(w, s) =>
      // between rounds, a renewal has found the lease lost
      w in f.members && f.members[w].phase.Idle? &&
      var m := f.members[w];
      g == f.(clean := false, members := f.members[w := m.(owned := m.owned - {s})])
    case Start(w) =>
      w in f.members && f.members[w].phase.Idle? && g == f.(members := f.members[w := Opened(f.members[w], Goal(f))])
    case Release(w, s) =>
      Trying(f, w, s) &&
      var m := f.members[w];
      g == f.(rows := Released(f.rows, s, w, f.now),
              members := f.members[w := AfterTry(m.(owned := m.owned - {s}), m.phase.tried, Goal(f))])
    case ReleaseFails(w, s, executed) =>
      Trying(f, w, s) &&
      var m := f.members[w];
      g == f.(clean := false, rows := if executed then Released(f.rows, s, w, f.now) else f.rows,
              members := f.members[w := AfterTry(m, m.phase.tried + {s}, Goal(f))])
    case Scan(w, ttl) =>
      w in f.members && f.members[w].phase.Scanning? && ttl >= 0 &&
      var m := f.members[w];
      var s := m.phase.next;
      if s in m.owned then
        g == f.(members := f.members[w := AfterScan(m, f.numShards, s + 1, m.phase.needed)])
      else if Wins(f, w, s, ttl) then
        g == f.(rows := Acquired(f.rows, s, w, f.now, ttl),
                members := f.members[
                  w := AfterScan(m.(owned := m.owned + {s}), f.numShards, s + 1, m.phase.needed - 1)])
      else
        g == f.(members := f.members[w := AfterScan(m, f.numShards, s + 1, m.phase.needed)])
    case ScanFails(w, ttl, executed) =>
      w in f.members && f.members[w].phase.Scanning? && f.members[w].phase.next !in f.members[w].owned &&
      var m := f.members[w];
      g == f.(clean := false, rows := if executed then Acquired(f.rows, m.phase.next, w, f.now, ttl) else f.rows,
              members := f.members[w := AfterScan(m, f.numShards, m.phase.next + 1, m.phase.needed)])
  }

  /** The snapshots agree with the lease rows, and live leases belong to members. */
  ghost predicate Synced(rows: Rows, now: int, numShards: int, members: map<string, Member>) {
    (forall w, s | w in members :: s in members[w].owned <==> 0 <= s < numShards && HeldBy(rows, now, s, w)) &&
    (forall s | 0 <= s < numShards && Live(rows, now, s) :: rows[s].owner in members)
  }

  /** Any ownership at all, as long as the snapshots are right and there are as many managers as configured. */
  ghost predicate Init(f: Fleet) {
    f.numShards > 0 && f.replicas > 0 && f.clean && |f.members.Keys| == f.replicas &&
    Synced(f.rows, f.now, f.numShards, f.members) &&
    forall w | w in f.members :: f.members[w].phase.Idle? && f.members[w].rounds == 0
  }

  ghost predicate Next(f: Fleet, g: Fleet) {
    f.numShards > 0 && f.replicas > 0 && exists a :: Step(f, a, g)
  }

  ghost predicate Path(p: seq<Fleet>) {
    p != [] && forall i | 0 <= i < |p| - 1 :: Next(p[i], p[i + 1])
  }

  ghost predicate Run(run: seq<Fleet>) {
    Path(run) && Init(run[0])
  }

  /** The state is where the run has got to. */
  ghost predicate Traced(run: seq<Fleet>, f: Fleet) {
    Run(run) && run[|run| - 1] == f
  }

  lemma PathExtends(p: seq<Fleet>, g: Fleet)
    requires Path(p) && Next(p[|p| - 1], g)
    ensures Path(p + [g])
  {
    hide Next;
    var longer := p + [g];
    forall i | 0 <= i < |longer| - 1
      ensures Next(longer[i], longer[i + 1])
    {
      if i < |p| - 1 {
        assert Next(p[i], p[i + 1]);
      }
    }
  }

  // ---------------------------------------------------------------- the invariant

  ghost predicate AllHeld(rows: Rows, now: int, n: int) {
    forall s | 0 <= s < n :: Live(rows, now, s)
  }

  predicate CountOk(numShards: int, target: int, clean: bool, m: Member) {
    m.rounds >= 0 &&
    match m.phase
    case Idle => clean && m.rounds >= 1 ==> |m.owned| <= target
    case Releasing(tried) => |m.owned| > target && m.owned - tried != {} && (clean ==> tried == {} && m.rounds == 0)
    case Scanning(next, needed) => 0 <= next < numShards && needed > 0 && |m.owned| + needed == target
  }

  ghost predicate Inv(f: Fleet) {
    f.numShards > 0 && f.replicas > 0 && |f.members.Keys| == f.replicas &&
    (f.clean ==> Synced(f.rows, f.now, f.numShards, f.members)) &&
    (forall w | w in f.members :: CountOk(f.numShards, Goal(f), f.clean, f.members[w]))
  }

  /** Clock and renewals: the same shards are held by the same owners. */
  ghost predicate SameHolders(rows: Rows, now: int, later: Rows, to: int) {
    forall s :: Live(later, to, s) == Live(rows, now, s) && (Live(rows, now, s) ==> later[s].owner == rows[s].owner)
  }

  lemma TimeKeepsHolders(f: Fleet, a: Action, g: Fleet)
    requires f.numShards > 0 && f.replicas > 0 && (a.Tick? || a.Renew?) && Step(f, a, g)
    ensures g.clean ==> f.clean && SameHolders(f.rows, f.now, g.rows, g.now)
    ensures g == f.(rows := g.rows, now := g.now, clean := g.clean)
  {
  }

  lemma TimeKeeps(f: Fleet, a: Action, g: Fleet)
    requires Inv(f) && (a.Tick? || a.Renew?) && Step(f, a, g)
    ensures Inv(g)
  {
    hide Target, Step, Live;
    TimeKeepsHolders(f, a, g);
  }

  lemma SyncSame(rows: Rows, now: int, numShards: int, members: map<string, Member>, w: string, m: Member)
    requires Synced(rows, now, numShards, members) && w in members && m.owned == members[w].owned
    ensures Synced(rows, now, numShards, members[w := m])
    ensures forall s | s in members[w].owned :: Live(rows, now, s)
  {
  }

  lemma SyncRelease(rows: Rows, now: int, numShards: int, members: map<string, Member>, w: string, s: int, m: Member)
    requires Synced(rows, now, numShards, members) && w in members && s in members[w].owned
    requires m.owned == members[w].owned - {s}
    ensures Synced(Released(rows, s, w, now), now, numShards, members[w := m])
    ensures 0 <= s < numShards && !Live(Released(rows, s, w, now), now, s)
  {
    assert rows[s].owner == w;
  }

  /** With right snapshots a scan wins a shard if and only if nobody holds it. */
  lemma SyncAcquire(rows: Rows, now: int, numShards: int, members: map<string, Member>, w: string, s: int, ttl: int,
                    m: Member)
    requires Synced(rows, now, numShards, members) && w in members && s !in members[w].owned && 0 <= s < numShards &&
             ttl >= 0
    requires m.owned == members[w].owned + {s}
    ensures
      var later := Acquired(rows, s, w, now, ttl);
      Live(later, now, s) && (forall x | Live(rows, now, x) :: Live(later, now, x)) &&
      ((s in later && later[s].owner == w) <==> !Live(rows, now, s)) &&
      (!Live(rows, now, s) ==> Synced(later, now, numShards, members[w := m]))
  {
    if Live(rows, now, s) {
      assert !HeldBy(rows, now, s, w);
    }
  }

  lemma StartKeeps(f: Fleet, w: string, g: Fleet)
    requires Inv(f) && Step(f, Start(w), g)
    ensures Inv(g)
  {
    hide Target, Synced;
    assert f.members.Keys == g.members.Keys;
    assert f.members[w].owned - {} == f.members[w].owned;
    if f.clean {
      SyncSame(f.rows, f.now, f.numShards, f.members, w, g.members[w]);
    }
  }

  lemma ReleaseKeeps(f: Fleet, w: string, s: int, g: Fleet)
    requires Inv(f) && Step(f, Release(w, s), g)
    ensures Inv(g)
  {
    hide Target, Synced, Released;
    assert f.members.Keys == g.members.Keys;
    assert CountOk(f.numShards, Goal(f), f.clean, f.members[w]);
    if f.clean {
      SyncRelease(f.rows, f.now, f.numShards, f.members, w, s, g.members[w]);
    }
  }

  lemma ScanKeeps(f: Fleet, w: string, ttl: int, g: Fleet)
    requires Inv(f) && Step(f, Scan(w, ttl), g)
    ensures Inv(g)
  {
    hide Target, Synced, Acquired;
    assert f.members.Keys == g.members.Keys;
    var m := f.members[w];
    var s := m.phase.next;
    assert CountOk(f.numShards, Goal(f), f.clean, m);
    if f.clean {
      if s !in m.owned && Wins(f, w, s, ttl) {
        SyncAcquire(f.rows, f.now, f.numShards, f.members, w, s, ttl, g.members[w]);
      } else {
        SyncSame(f.rows, f.now, f.numShards, f.members, w, g.members[w]);
      }
    }
  }

  lemma FailureKeeps(f: Fleet, a: Action, g: Fleet)
    requires Inv(f) && (a.Drop? || a.ReleaseFails? || a.ScanFails?) && Step(f, a, g)
    ensures Inv(g)
  {
    hide Target, Synced, Acquired, Released;
    assert f.members.Keys == g.members.Keys;
    assert CountOk(f.numShards, Goal(f), f.clean, f.members[a.w]);
  }

  lemma StepKeepsInv(f: Fleet, a: Action, g: Fleet)
    requires Inv(f) && Step(f, a, g)
    ensures Inv(g)
  {
    hide Inv, Step;
    match a {
      case Tick(_) => TimeKeeps(f, a, g);
      case Renew(_, _, _, _) => TimeKeeps(f, a, g);
      case Drop(_, _) => FailureKeeps(f, a, g);
      case Start(w) => StartKeeps(f, w, g);
      case Release(w, s) => ReleaseKeeps(f, w, s, g);
      case ReleaseFails(_, _, _) => FailureKeeps(f, a, g);
      case Scan(w, ttl) => ScanKeeps(f, w, ttl, g);
      case ScanFails(_, _, _) => FailureKeeps(f, a, g);
    }
  }

  lemma InitInv(f: Fleet)
    requires Init(f)
    ensures Inv(f)
  {
    hide Target;
  }

  lemma {:induction false} RunInv(run: seq<Fleet>, n: nat)
    requires Run(run) && n < |run|
    ensures Inv(run[n])
  {
    hide Step, Inv;
    if n == 0 {
      InitInv(run[0]);
    } else {
      RunInv(run, n - 1);
      assert Next(run[n - 1], run[n - 1 + 1]);
      var a :| Step(run[n - 1], a, run[n]);
      StepKeepsInv(run[n - 1], a, run[n]);
    }
  }
}
