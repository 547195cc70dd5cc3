/**
  When rebalancing covers the fleet: after which rounds every shard has an owner, and when one round
  is enough.
*/
module RebalanceTheorems {
  import opened Leases
  import opened Rebalance

  // ---------------------------------------------------------------- pigeonhole

  ghost predicate Disjoint(members: map<string, Member>) {
    forall v, w | v in members && w in members && v != w :: members[v].owned !! members[w].owned
  }

  /** Disjoint sets of one size fit into a set only as often as its size allows. */
  lemma {:induction false} Packs(ws: set<string>, members: map<string, Member>, target: int, b: set<int>)
    requires ws <= members.Keys && Disjoint(members)
    requires forall w | w in ws :: |members[w].owned| == target && members[w].owned <= b
    ensures |ws| * target <= |b|
  {
    if ws != {} {
      var w :| w in ws;
      var rest := ws - {w};
      forall v | v in rest
        ensures members[v].owned <= b - members[w].owned
      {
        assert members[v].owned !! members[w].owned;
      }
      Packs(rest, members, target, b - members[w].owned);
      assert |ws| == |rest| + 1;
      assert (|rest| + 1) * target == |rest| * target + target;
    }
  }

  ghost function Range(n: nat): (r: set<int>)
    ensures |r| == n && forall s :: s in r <==> 0 <= s < n
  {
    if n == 0 then {} else Range(n - 1) + {n - 1}
  }

  lemma SyncedDisjoint(rows: Rows, now: int, numShards: int, members: map<string, Member>)
    requires Synced(rows, now, numShards, members)
    ensures Disjoint(members)
  {
    forall v, w, s | v in members && w in members && v != w && s in members[v].owned
      ensures s !in members[w].owned
    {
      assert HeldBy(rows, now, s, v);
    }
  }

  /** Full managers leave no shard over. */
  lemma FullFleetCovers(f: Fleet)
    requires Inv(f) && f.clean && forall w | w in f.members :: |f.members[w].owned| == Goal(f)
    ensures AllHeld(f.rows, f.now, f.numShards)
  {
    hide CountOk;
    var target := Goal(f);
    SyncedDisjoint(f.rows, f.now, f.numShards, f.members);
    assert target * f.replicas == f.replicas * target;
    forall s | 0 <= s < f.numShards
      ensures Live(f.rows, f.now, s)
    {
      if !Live(f.rows, f.now, s) {
        Packs(f.members.Keys, f.members, target, Range(f.numShards) - {s});
        assert false;
      }
    }
  }

  // ---------------------------------------------------------------- rounds begun when nobody is above the target

  /** Nobody is above the target or about to release. */
  ghost predicate Calm(f: Fleet)
    requires f.numShards > 0 && f.replicas > 0
  {
    f.clean && forall w | w in f.members :: |f.members[w].owned| <= Goal(f) && !f.members[w].phase.Releasing?
  }

  /** How many rounds a manager will have finished when it finishes no round begun from now on. */
  function Base(m: Member): int {
    if m.phase.Idle? then m.rounds else m.rounds + 1
  }

  /**
    A manager after a calm moment at which its base was `base`: what it scans in a round begun since
    then stays held, and once it has finished such a round it is full or everything is held.
  */
  ghost predicate FreshOk(rows: Rows, now: int, numShards: int, target: int, base: int, m: Member) {
    |m.owned| <= target && !m.phase.Releasing? &&
    (m.phase.Scanning? && m.rounds >= base ==> AllHeld(rows, now, m.phase.next)) &&
    (m.rounds > base ==> |m.owned| == target || AllHeld(rows, now, numShards))
  }

  ghost predicate Fresh(g: Fleet, f: Fleet)
    requires f.numShards > 0 && f.replicas > 0
  {
    f.members.Keys == g.members.Keys &&
    forall w | w in f.members :: FreshOk(f.rows, f.now, f.numShards, Goal(f), Base(g.members[w]), f.members[w])
  }

  lemma CalmIsFresh(g: Fleet)
    requires Inv(g) && Calm(g)
    ensures Fresh(g, g)
  {
    hide Target, AllHeld, Synced;
  }

  lemma HeldGrows(rows: Rows, now: int, later: Rows, numShards: int, target: int, base: int, m: Member)
    requires FreshOk(rows, now, numShards, target, base, m) && forall x | Live(rows, now, x) :: Live(later, now, x)
    ensures FreshOk(later, now, numShards, target, base, m)
  {
    hide Live;
  }

  lemma FreshTime(g: Fleet, f: Fleet, a: Action, f': Fleet)
    requires Inv(f) && Fresh(g, f) && (a.Tick? || a.Renew?) && Step(f, a, f') && f'.clean
    ensures f'.numShards > 0 && f'.replicas > 0 && Fresh(g, f')
  {
    hide Target, Step, Live, Synced, CountOk;
    TimeKeepsHolders(f, a, f');
    forall w | w in f.members
      ensures FreshOk(f'.rows, f'.now, f.numShards, Goal(f), Base(g.members[w]), f.members[w])
    {
      assert FreshOk(f.rows, f.now, f.numShards, Goal(f), Base(g.members[w]), f.members[w]);
    }
  }

  lemma FreshStart(g: Fleet, f: Fleet, w: string, f': Fleet)
    requires Inv(f) && Fresh(g, f) && Step(f, Start(w), f')
    ensures f'.numShards > 0 && f'.replicas > 0 && Fresh(g, f')
  {
    hide Target, Live, Synced;
    assert FreshOk(f.rows, f.now, f.numShards, Goal(f), Base(g.members[w]), f.members[w]);
    assert f'.members.Keys == f.members.Keys;
  }

  /** A scanned shard is held from then on, by the scanner or by somebody else. */
  lemma ScanHolds(f: Fleet, w: string, ttl: int, f': Fleet)
    requires Inv(f) && f.clean && Step(f, Scan(w, ttl), f')
    ensures Live(f'.rows, f'.now, f.members[w].phase.next) && f'.now == f.now
    ensures forall x | Live(f.rows, f.now, x) :: Live(f'.rows, f'.now, x)
  {
    hide Target, Synced, Acquired, Live;
    var m := f.members[w];
    var s := m.phase.next;
    assert CountOk(f.numShards, Goal(f), f.clean, m);
    SyncSame(f.rows, f.now, f.numShards, f.members, w, m);
    if s !in m.owned {
      SyncAcquire(f.rows, f.now, f.numShards, f.members, w, s, ttl, m.(owned := m.owned + {s}));
    }
  }

  lemma FreshScanner(g: Fleet, f: Fleet, w: string, ttl: int, f': Fleet)
    requires Inv(f) && f.clean && Fresh(g, f) && Step(f, Scan(w, ttl), f')
    ensures FreshOk(f'.rows, f'.now, f.numShards, Goal(f), Base(g.members[w]), f'.members[w])
  {
    hide Target, Synced, Acquired, Live;
    var m := f.members[w];
    var s := m.phase.next;
    assert FreshOk(f.rows, f.now, f.numShards, Goal(f), Base(g.members[w]), m);
    assert CountOk(f.numShards, Goal(f), f.clean, m);
    ScanHolds(f, w, ttl, f');
    if m.rounds >= Base(g.members[w]) {
      assert AllHeld(f'.rows, f'.now, s + 1);
    }
  }

  lemma FreshScan(g: Fleet, f: Fleet, w: string, ttl: int, f': Fleet)
    requires Inv(f) && f.clean && Fresh(g, f) && Step(f, Scan(w, ttl), f')
    ensures f'.numShards > 0 && f'.replicas > 0 && Fresh(g, f')
  {
    hide Target, Synced, Acquired, Live, FreshOk, CountOk;
    ScanHolds(f, w, ttl, f');
    FreshScanner(g, f, w, ttl, f');
    assert f'.members.Keys == f.members.Keys;
    forall v | v in f.members && v != w
      ensures FreshOk(f'.rows, f'.now, f.numShards, Goal(f), Base(g.members[v]), f'.members[v])
    {
      HeldGrows(f.rows, f.now, f'.rows, f.numShards, Goal(f), Base(g.members[v]), f.members[v]);
    }
  }

  lemma NoRelease(g: Fleet, f: Fleet, w: string)
    requires Inv(f) && Fresh(g, f) && w in f.members
    ensures !f.members[w].phase.Releasing?
  {
    hide Target, Synced, AllHeld;
  }

  lemma FreshStep(g: Fleet, f: Fleet, a: Action, f': Fleet)
    requires Inv(f) && Fresh(g, f) && Step(f, a, f') && f.clean && f'.clean
    ensures f'.numShards > 0 && f'.replicas > 0 && Fresh(g, f')
  {
    hide Inv, Fresh, Target, Acquired, Released, Renewed, Live, IsMax;
    match a {
      case Tick(_) => FreshTime(g, f, a, f');
      case Renew(_, _, _, _) => FreshTime(g, f, a, f');
      case Start(w) => FreshStart(g, f, w, f');
      case Release(w, _) => NoRelease(g, f, w);
      case Scan(w, ttl) => FreshScan(g, f, w, ttl, f');
      case _ =>
    }
  }

  lemma CleanBefore(f: Fleet, a: Action, g: Fleet)
    requires f.numShards > 0 && f.replicas > 0 && Step(f, a, g)
    ensures (g.clean ==> f.clean) && g.members.Keys == f.members.Keys
    ensures g.numShards == f.numShards && g.replicas == f.replicas
  {
    hide Target, Acquired, Released, Renewed, Live, IsMax;
  }

  lemma {:induction false} CleanSoFar(run: seq<Fleet>, m: nat, n: nat)
    requires Run(run) && m <= n < |run|
    ensures (run[n].clean ==> run[m].clean) && run[n].members.Keys == run[m].members.Keys
    ensures run[n].numShards == run[m].numShards && run[n].replicas == run[m].replicas
    decreases n
  {
    hide Step, Init;
    if m < n {
      CleanSoFar(run, m, n - 1);
      assert Next(run[n - 1], run[n - 1 + 1]);
      var a :| Step(run[n - 1], a, run[n]);
      CleanBefore(run[n - 1], a, run[n]);
    }
  }

  lemma {:induction false} FreshRun(run: seq<Fleet>, m: nat, n: nat)
    requires Run(run) && m <= n < |run| && run[n].clean
    requires run[m].numShards > 0 && run[m].replicas > 0 && Calm(run[m])
    ensures run[n].numShards > 0 && run[n].replicas > 0 && Fresh(run[m], run[n])
    decreases n
  {
    hide Step, Init, Inv, Fresh, Calm;
    if m == n {
      RunInv(run, m);
      CalmIsFresh(run[m]);
    } else {
      CleanSoFar(run, n - 1, n);
      FreshRun(run, m, n - 1);
      RunInv(run, n - 1);
      assert Next(run[n - 1], run[n - 1 + 1]);
      var a :| Step(run[n - 1], a, run[n]);
      FreshStep(run[m], run[n - 1], a, run[n]);
    }
  }

  lemma FreshCovers(g: Fleet, f: Fleet)
    requires Inv(f) && f.clean && Fresh(g, f) && f.members.Keys == g.members.Keys
    requires forall w | w in f.members :: f.members[w].rounds > Base(g.members[w])
    ensures AllHeld(f.rows, f.now, f.numShards)
  {
    hide Target, AllHeld, Synced, CountOk;
    if w :| w in f.members && |f.members[w].owned| != Goal(f) {
      assert FreshOk(f.rows, f.now, f.numShards, Goal(f), Base(g.members[w]), f.members[w]);
    } else {
      FullFleetCovers(f);
    }
  }

  // ---------------------------------------------------------------- coverage

  /** The shard is in exactly one manager's snapshot, and that manager holds its lease. */
  ghost predicate OwnedByOne(f: Fleet, s: int) {
    exists w :: w in f.members && s in f.members[w].owned && HeldBy(f.rows, f.now, s, w) &&
      forall v | v in f.members && s in f.members[v].owned :: v == w
  }

  ghost predicate Covered(f: Fleet) {
    forall s | 0 <= s < f.numShards :: OwnedByOne(f, s)
  }

  lemma HeldIsOwned(f: Fleet, s: int)
    requires Inv(f) && f.clean && 0 <= s < f.numShards
    ensures Live(f.rows, f.now, s) <==> OwnedByOne(f, s)
  {
    hide Target, CountOk;
    if Live(f.rows, f.now, s) {
      var w := f.rows[s].owner;
      assert w in f.members && s in f.members[w].owned && HeldBy(f.rows, f.now, s, w);
    }
  }

  lemma HeldIsCovered(f: Fleet)
    requires Inv(f) && f.clean
    ensures AllHeld(f.rows, f.now, f.numShards) <==> Covered(f)
  {
    hide Inv, Live, OwnedByOne;
    forall s | 0 <= s < f.numShards
      ensures Live(f.rows, f.now, s) <==> OwnedByOne(f, s)
    {
      HeldIsOwned(f, s);
    }
  }

  lemma FirstRoundCalms(f: Fleet)
    requires Inv(f) && f.clean && forall w | w in f.members :: f.members[w].rounds >= 1
    ensures Calm(f)
  {
    hide Target, Synced;
    forall w | w in f.members
      ensures |f.members[w].owned| <= Goal(f) && !f.members[w].phase.Releasing?
    {
      assert CountOk(f.numShards, Goal(f), f.clean, f.members[w]);
    }
  }

  /**
    From any ownership with synchronized snapshots: once everybody has finished a first round (at
    `m`), and after that everybody has finished another round begun since (at `n`), every shard is
    owned by exactly one manager and no manager is above ceil(numShards / replicas). Nobody waits for
    anybody: managers may be in the middle of a round at `m` and in any round at `n`.
  */
  lemma TwoRoundsCoverTheFleet(run: seq<Fleet>, m: nat, n: nat)
    requires Run(run) && m <= n < |run| && run[n].clean
    requires forall w | w in run[m].members :: run[m].members[w].rounds >= 1
    requires forall w | w in run[m].members && w in run[n].members ::
               run[n].members[w].rounds > Base(run[m].members[w])
    ensures run[n].numShards > 0 && run[n].replicas > 0 && Covered(run[n])
    ensures forall w | w in run[n].members :: |run[n].members[w].owned| <= Goal(run[n])
  {
    hide Run, Inv, Fresh, Covered, AllHeld, Calm;
    RunInv(run, m);
    RunInv(run, n);
    CleanSoFar(run, m, n);
    FleetShape(run[m]);
    FirstRoundCalms(run[m]);
    FreshRun(run, m, n);
    FreshCovers(run[m], run[n]);
    HeldIsCovered(run[n]);
    FreshBounds(run[m], run[n]);
  }

  lemma FleetShape(f: Fleet)
    requires Inv(f)
    ensures f.numShards > 0 && f.replicas > 0
  {
  }

  lemma FreshBounds(g: Fleet, f: Fleet)
    requires f.numShards > 0 && f.replicas > 0 && Fresh(g, f)
    ensures forall w | w in f.members :: |f.members[w].owned| <= Goal(f)
  {
    hide Target, AllHeld;
  }

  // ---------------------------------------------------------------- when one round is enough

  /** A run from `f` in which everybody finishes exactly one round and nothing fails. */
  ghost predicate OneRound(f: Fleet, run: seq<Fleet>) {
    Run(run) && run[0] == f &&
    var g := run[|run| - 1];
    g.clean && forall w | w in g.members :: g.members[w].phase.Idle? && g.members[w].rounds == 1
  }

  /** The other managers and the configuration are untouched. */
  ghost predicate Solo(f: Fleet, w: string, g: Fleet) {
    w in f.members && w in g.members && g.members == f.members[w := g.members[w]] &&
    g.numShards == f.numShards && g.replicas == f.replicas && f.clean && g.clean
  }

  /** Somebody can take a shard over. */
  ghost predicate Gap(f: Fleet) {
    exists s :: 0 <= s < f.numShards && !Live(f.rows, f.now, s)
  }

  lemma GapIsUncovered(f: Fleet)
    requires Inv(f) && f.clean && Gap(f)
    ensures !Covered(f)
  {
    hide Inv, Covered;
    HeldIsCovered(f);
  }

  lemma {:induction false} HasMax(owned: set<int>) returns (s: int)
    requires owned != {}
    ensures IsMax(owned, s)
  {
    NonEmpty(owned);
    var x :| x in owned;
    var rest := owned - {x};
    if rest == {} {
      s := x;
      forall y | y in owned
        ensures y <= x
      {
        assert y !in rest;
      }
    } else {
      var top := HasMax(rest);
      s := if top > x then top else x;
      forall y | y in owned
        ensures y <= s
      {
        assert y in rest || y == x;
      }
    }
  }

  lemma ReleaseStep(f: Fleet, w: string) returns (g: Fleet)
    requires Inv(f) && f.clean && w in f.members && f.members[w].phase.Releasing?
    ensures Next(f, g) && Inv(g) && Solo(f, w, g) && Gap(g)
    ensures |g.members[w].owned| < |f.members[w].owned|
    ensures
      if g.members[w].phase.Idle? then g.members[w].rounds == f.members[w].rounds + 1
      else g.members[w].phase.Releasing? && g.members[w].rounds == f.members[w].rounds
  {
    hide Target, Synced, Live, Released;
    var m := f.members[w];
    assert CountOk(f.numShards, Goal(f), f.clean, m);
    var s := HasMax(m.owned - m.phase.tried);
    var later := AfterTry(m.(owned := m.owned - {s}), m.phase.tried, Goal(f));
    g := f.(rows := Released(f.rows, s, w, f.now), members := f.members[w := later]);
    assert Step(f, Release(w, s), g);
    ReleaseKeeps(f, w, s, g);
    SyncRelease(f.rows, f.now, f.numShards, f.members, w, s, later);
  }

  lemma ScanStep(f: Fleet, w: string) returns (g: Fleet)
    requires Inv(f) && f.clean && w in f.members && f.members[w].phase.Scanning?
    ensures Next(f, g) && Inv(g) && Solo(f, w, g)
    ensures
      var m := g.members[w];
      if m.phase.Idle? then m.rounds == f.members[w].rounds + 1
      else m.phase.Scanning? && m.phase.next == f.members[w].phase.next + 1 && m.rounds == f.members[w].rounds
  {
    hide Target, Synced, Live, Acquired, CountOk;
    var m := f.members[w];
    var s := m.phase.next;
    if s !in m.owned && Wins(f, w, s, 0) {
      var later := AfterScan(m.(owned := m.owned + {s}), f.numShards, s + 1, m.phase.needed - 1);
      g := f.(rows := Acquired(f.rows, s, w, f.now, 0), members := f.members[w := later]);
    } else {
      g := f.(members := f.members[w := AfterScan(m, f.numShards, s + 1, m.phase.needed)]);
    }
    assert Step(f, Scan(w, 0), g);
    ScanKeeps(f, w, 0, g);
  }

  /** A sequence of steps in which only `w` moves. */
  ghost predicate Alone(p: seq<Fleet>, w: string, q: seq<Fleet>) {
    Path(q) && p != [] && q[0] == p[0] && Inv(q[|q| - 1]) && Solo(p[|p| - 1], w, q[|q| - 1])
  }

  lemma Then(p: seq<Fleet>, w: string, g: Fleet)
    requires Path(p) && Next(p[|p| - 1], g) && Inv(g) && Solo(p[|p| - 1], w, g)
    ensures Alone(p, w, p + [g])
  {
    hide Next, Inv;
    PathExtends(p, g);
  }

  lemma {:induction false} ReleaseAll(p: seq<Fleet>, w: string) returns (q: seq<Fleet>)
    requires Path(p)
    requires var f := p[|p| - 1]; Inv(f) && f.clean && w in f.members && f.members[w].phase.Releasing?
    ensures Alone(p, w, q) && Gap(q[|q| - 1])
    ensures
      var m := q[|q| - 1].members[w];
      m.phase.Idle? && m.rounds == p[|p| - 1].members[w].rounds + 1
    decreases |p[|p| - 1].members[w].owned|
  {
    hide Inv, Next, Gap;
    var g := ReleaseStep(p[|p| - 1], w);
    Then(p, w, g);
    q := p + [g];
    if g.members[w].phase.Releasing? {
      q := ReleaseAll(q, w);
    }
  }

  lemma {:induction false} ScanAll(p: seq<Fleet>, w: string) returns (q: seq<Fleet>)
    requires Path(p)
    requires var f := p[|p| - 1]; Inv(f) && f.clean && w in f.members && f.members[w].phase.Scanning?
    ensures Alone(p, w, q)
    ensures
      var m := q[|q| - 1].members[w];
      m.phase.Idle? && m.rounds == p[|p| - 1].members[w].rounds + 1
    decreases p[|p| - 1].numShards - p[|p| - 1].members[w].phase.next
  {
    hide Inv, Next;
    var g := ScanStep(p[|p| - 1], w);
    Then(p, w, g);
    q := p + [g];
    if g.members[w].phase.Scanning? {
      ScanningBelow(g, w);
      q := ScanAll(q, w);
    }
  }

  lemma ScanningBelow(f: Fleet, w: string)
    requires Inv(f) && w in f.members && f.members[w].phase.Scanning?
    ensures f.members[w].phase.next < f.numShards
  {
    hide Target, Synced;
  }

  lemma StartStep(f: Fleet, w: string) returns (g: Fleet)
    requires Inv(f) && f.clean && w in f.members && f.members[w].phase.Idle?
    ensures Next(f, g) && Inv(g) && Solo(f, w, g) && g.members[w] == Opened(f.members[w], Goal(f))
  {
    hide Target, Synced, CountOk, Opened;
    g := f.(members := f.members[w := Opened(f.members[w], Goal(f))]);
    assert Step(f, Start(w), g);
    StartKeeps(f, w, g);
  }

  /** One manager does a round while the others rest; afterwards a shard is free if it had to release. */
  lemma WholeRound(p: seq<Fleet>, w: string) returns (q: seq<Fleet>)
    requires Path(p)
    requires var f := p[|p| - 1]; Inv(f) && f.clean && w in f.members && f.members[w].phase.Idle?
    ensures Alone(p, w, q)
    ensures
      var m := q[|q| - 1].members[w];
      m.phase.Idle? && m.rounds == p[|p| - 1].members[w].rounds + 1
    ensures
      var f := p[|p| - 1];
      f.numShards > 0 && f.replicas > 0 && (|f.members[w].owned| > Goal(f) ==> Gap(q[|q| - 1]))
  {
    hide Inv, Next, Gap, Target;
    var f := p[|p| - 1];
    FleetShape(f);
    var g := StartStep(f, w);
    Then(p, w, g);
    q := p + [g];
    if g.members[w].phase.Releasing? {
      q := ReleaseAll(q, w);
    } else if g.members[w].phase.Scanning? {
      q := ScanAll(q, w);
    }
  }

  /** Several managers do a round one after the other. */
  lemma {:induction false} RoundEach(p: seq<Fleet>, ws: set<string>) returns (q: seq<Fleet>)
    requires Path(p)
    requires var f := p[|p| - 1]; Inv(f) && f.clean && ws <= f.members.Keys
    requires forall w | w in ws :: p[|p| - 1].members[w].phase.Idle? && p[|p| - 1].members[w].rounds == 0
    ensures Path(q) && q[0] == p[0] && Inv(q[|q| - 1]) && q[|q| - 1].clean
    ensures q[|q| - 1].members.Keys == p[|p| - 1].members.Keys
    ensures q[|q| - 1].numShards == p[|p| - 1].numShards && q[|q| - 1].replicas == p[|p| - 1].replicas
    ensures
      var g := q[|q| - 1];
      forall w | w in g.members ::
        if w in ws then g.members[w].phase.Idle? && g.members[w].rounds == 1 else g.members[w] == p[|p| - 1].members[w]
    decreases |ws|
  {
    hide Inv, Path;
    q := p;
    if ws != {} {
      var w :| w in ws;
      q := WholeRound(p, w);
      q := RoundEach(q, ws - {w});
    }
  }

  /** With an excess somewhere, one round can leave a shard to nobody: the manager with the excess releases last. */
  lemma ExcessLeavesAGap(f: Fleet, e: string) returns (run: seq<Fleet>)
    requires Init(f) && e in f.members && |f.members[e].owned| > Goal(f)
    ensures OneRound(f, run) && Inv(run[|run| - 1]) && Gap(run[|run| - 1])
  {
    hide Inv, Gap, Target, Next, Synced;
    InitInv(f);
    assert Path([f]);
    var p := RoundEach([f], f.members.Keys - {e});
    run := WholeRound(p, e);
  }

  /** From every start there is such a run: the managers take turns. */
  lemma OneRoundIsPossible(f: Fleet) returns (run: seq<Fleet>)
    requires Init(f)
    ensures OneRound(f, run)
  {
    hide Inv, Next, Synced;
    InitInv(f);
    assert Path([f]);
    run := RoundEach([f], f.members.Keys);
  }

  lemma OneRoundCovers(f: Fleet, run: seq<Fleet>)
    requires Init(f) && (forall w | w in f.members :: |f.members[w].owned| <= Goal(f)) && OneRound(f, run)
    ensures Covered(run[|run| - 1])
  {
    hide Inv, Covered, Fresh, AllHeld, Target, Synced;
    var n := |run| - 1;
    FreshRun(run, 0, n);
    RunInv(run, n);
    CleanSoFar(run, 0, n);
    FreshCovers(f, run[n]);
    HeldIsCovered(run[n]);
  }

  /**
    Exactly when one round is enough, whatever the interleaving: if and only if no manager starts
    above the target.
  */
  lemma OneRoundSufficesIff(f: Fleet)
    requires Init(f)
    ensures (forall run | OneRound(f, run) :: Covered(run[|run| - 1])) <==>
            (forall w | w in f.members :: |f.members[w].owned| <= Goal(f))
  {
    hide Covered, Inv, Gap, Target, Synced, Next;
    if w :| w in f.members && |f.members[w].owned| > Goal(f) {
      var run := ExcessLeavesAGap(f, w);
      GapIsUncovered(run[|run| - 1]);
    } else {
      forall run | OneRound(f, run)
        ensures Covered(run[|run| - 1])
      {
        OneRoundCovers(f, run);
      }
    }
  }

  // Two managers, two shards, both owned by "a": with target 1, "b" scans before "a" releases.
  const LOPSIDED := Fleet(2, 2, map[0 := Row("a", 1, 1), 1 := Row("a", 1, 1)], 0, true,
                          map["a" := Member({0, 1}, Idle, 0), "b" := Member({}, Idle, 0)])

  /** One round does not cover every fleet. */
  lemma OneRoundCanLeaveAGap()
    ensures Init(LOPSIDED) && exists run :: OneRound(LOPSIDED, run) && !Covered(run[|run| - 1])
  {
    hide OneRound, Covered;
    assert LOPSIDED.members.Keys == {"a", "b"};
    assert |{0, 1}| == 2;
    OneRoundSufficesIff(LOPSIDED);
  }
}
