/**
  One lease manager as an object: the renewal of its snapshot, and its rebalancing round with
  `Yield` wherever other managers may run and with statements that fail nondeterministically. The
  ghost `trace` is the run so far, extended by every method and every `Yield`; its last state is the
  object's.
*/
module LeaseManagers {
  import opened Leases
  import opened Rebalance

  // ---------------------------------------------------------------- renewal

  predicate Current(owned: map<int, Row>, expected: map<int, int>, s: int) {
    s in owned && s in expected && owned[s].token == expected[s]
  }

  /** applyBatchRenewals: entries that changed since the tokens were read are left alone. */
  method ApplyBatchRenewals(owned: map<int, Row>, expected: map<int, int>, renewed: map<int, Row>)
    returns (after: map<int, Row>)
    ensures forall s :: s in after <==> s in owned && (Current(owned, expected, s) ==> s in renewed)
    ensures forall s | s in after :: after[s] == if Current(owned, expected, s) then renewed[s] else owned[s]
  {
    after := owned;
    var todo := expected.Keys;
    while todo != {}
      invariant todo <= expected.Keys
      invariant forall s :: s in after <==> s in owned && (Current(owned, expected, s) && s !in todo ==> s in renewed)
      invariant forall s | s in after ::
                  after[s] == if Current(owned, expected, s) && s !in todo then renewed[s] else owned[s]
      decreases |todo|
    {
      NonEmpty(todo);
      var s :| s in todo;
      if s in after && after[s].token == expected[s] {
        after := if s in renewed then after[s := renewed[s]] else after - {s};
      }
      todo := todo - {s};
    }
  }

  /** renewOwned: after a batch renewal the snapshot holds exactly the worker's rows that were still live. */
  method RenewOwnedBatch(leases: ShardLeases, owner: string, owned: map<int, Row>, now: int, ttl: int)
    returns (after: map<int, Row>)
    requires ttl > 0
    modifies leases
    ensures forall s :: s in after <==> s in owned && Renewable(old(leases.rows), s, owner, owned[s].token, now)
    ensures forall s | s in after ::
              s in leases.rows && after[s] == leases.rows[s] && after[s] == Row(owner, owned[s].token, now + ttl)
  {
    var tokens := map s | s in owned :: owned[s].token;
    var renewed := leases.RenewOwned(owner, tokens, now, ttl);
    after := ApplyBatchRenewals(owned, tokens, renewed);
  }

  // ---------------------------------------------------------------- what a round comes to

  /** The first of the owned shards in the source's descending sort. */
  method Highest(owned: set<int>) returns (s: int)
    requires owned != {}
    ensures IsMax(owned, s)
  {
    NonEmpty(owned);
    s :| s in owned;
    var todo := owned - {s};
    while todo != {}
      invariant todo <= owned && s in owned && forall x | x in owned && x !in todo :: x <= s
      decreases |todo|
    {
      NonEmpty(todo);
      var x :| x in todo;
      s := if x > s then x else s;
      todo := todo - {x};
    }
  }

  /** What is left of the shards when the highest are released, passing over those whose release failed. */
  ghost predicate GaveUp(before: set<int>, after: set<int>, failed: set<int>) {
    after <= before && failed <= after &&
    forall x, y | x in before && x !in after && y in after && y !in failed :: x > y
  }

  lemma NothingGivenUp(s: set<int>)
    ensures GaveUp(s, s, {})
  {
  }

  lemma GiveUpHighest(before: set<int>, after: set<int>, failed: set<int>, s: int)
    requires GaveUp(before, after, failed) && IsMax(after - failed, s)
    ensures GaveUp(before, after - {s}, failed) && |after - {s}| == |after| - 1
  {
    forall y | y in after && y !in failed
      ensures y <= s
    {
      assert y in after - failed;
    }
  }

  lemma PassOver(before: set<int>, after: set<int>, failed: set<int>, s: int)
    requires GaveUp(before, after, failed) && IsMax(after - failed, s)
    ensures GaveUp(before, after, failed + {s})
  {
  }

  lemma OnlyFailed(before: set<int>, after: set<int>, failed: set<int>)
    requires GaveUp(before, after, failed)
    ensures after <= failed ==> after == failed
  {
  }

  /** The manager's statement for the shard fails in state `k` of the run. */
  ghost predicate FailsAt(run: seq<Fleet>, k: int, w: string, s: int) {
    0 <= k < |run| - 1 && run[k].numShards > 0 && run[k].replicas > 0 && w in run[k].members &&
    match run[k].members[w].phase
    case Idle => false
    case Releasing(_) => exists executed :: Step(run[k], ReleaseFails(w, s, executed), run[k + 1])
    case Scanning(next, _) =>
      next == s && exists ttl, executed :: Step(run[k], ScanFails(w, ttl, executed), run[k + 1])
  }

  /** Another manager holds the shard in state `k` of the run. */
  ghost predicate TakenAt(run: seq<Fleet>, k: int, w: string, s: int) {
    0 <= k < |run| && Taken(run[k], w, s)
  }

  predicate Taken(f: Fleet, w: string, s: int) {
    Live(f.rows, f.now, s) && f.rows[s].owner != w
  }

  /** In some state since `from` the manager's statement for the shard failed. */
  ghost predicate Failed(run: seq<Fleet>, from: int, w: string, s: int) {
    exists k :: from <= k && FailsAt(run, k, w, s)
  }

  /** In some state since `from` the shard was held by another manager, or the acquire of it failed. */
  ghost predicate Refused(run: seq<Fleet>, from: int, w: string, s: int) {
    Failed(run, from, w, s) || exists k :: from <= k && TakenAt(run, k, w, s)
  }

  ghost predicate AllFailed(run: seq<Fleet>, from: int, w: string, shards: set<int>) {
    forall s | s in shards :: Failed(run, from, w, s)
  }

  /** Every shard below `n` is owned or was refused. */
  ghost predicate SearchedTo(run: seq<Fleet>, from: int, w: string, owned: set<int>, n: int) {
    forall s | 0 <= s < n && s !in owned :: Refused(run, from, w, s)
  }

  lemma FailureStays(run: seq<Fleet>, longer: seq<Fleet>, from: int, w: string, s: int)
    requires run <= longer && Failed(run, from, w, s)
    ensures Failed(longer, from, w, s)
  {
    hide Step;
    var k :| from <= k && FailsAt(run, k, w, s);
    assert longer[k] == run[k] && longer[k + 1] == run[k + 1];
    assert FailsAt(longer, k, w, s);
  }

  lemma FailuresStay(run: seq<Fleet>, longer: seq<Fleet>, from: int, w: string, shards: set<int>)
    requires run <= longer && AllFailed(run, from, w, shards)
    ensures AllFailed(longer, from, w, shards)
  {
    hide Failed;
    forall s | s in shards
      ensures Failed(longer, from, w, s)
    {
      FailureStays(run, longer, from, w, s);
    }
  }

  lemma RefusedStays(run: seq<Fleet>, longer: seq<Fleet>, from: int, w: string, s: int)
    requires run <= longer && Refused(run, from, w, s)
    ensures Refused(longer, from, w, s)
  {
    hide Failed, Taken;
    if Failed(run, from, w, s) {
      FailureStays(run, longer, from, w, s);
    } else {
      var k :| from <= k && TakenAt(run, k, w, s);
      assert TakenAt(longer, k, w, s);
    }
  }

  lemma SearchStays(run: seq<Fleet>, longer: seq<Fleet>, from: int, w: string, owned: set<int>, n: int)
    requires run <= longer && SearchedTo(run, from, w, owned, n)
    ensures SearchedTo(longer, from, w, owned, n)
  {
    hide Refused;
    forall s | 0 <= s < n && s !in owned
      ensures Refused(longer, from, w, s)
    {
      RefusedStays(run, longer, from, w, s);
    }
  }

  lemma NowFailed(run: seq<Fleet>, w: string, s: int, executed: bool, g: Fleet)
    requires run != [] && run[|run| - 1].numShards > 0 && run[|run| - 1].replicas > 0
    requires Step(run[|run| - 1], ReleaseFails(w, s, executed), g)
    ensures Failed(run + [g], |run| - 1, w, s)
  {
    hide Target, Released, AfterTry, IsMax;
    assert FailsAt(run + [g], |run| - 1, w, s);
  }

  lemma NowRefused(run: seq<Fleet>, w: string, ttl: int, executed: bool, g: Fleet)
    requires run != [] && run[|run| - 1].numShards > 0 && run[|run| - 1].replicas > 0
    requires Step(run[|run| - 1], ScanFails(w, ttl, executed), g)
    ensures Refused(run + [g], |run| - 1, w, run[|run| - 1].members[w].phase.next)
  {
    hide Target, Acquired, AfterScan, Taken;
    assert FailsAt(run + [g], |run| - 1, w, run[|run| - 1].members[w].phase.next);
  }

  lemma NowTaken(run: seq<Fleet>, from: int, w: string, s: int)
    requires TakenAt(run, from, w, s)
    ensures Refused(run, from, w, s)
  {
    hide Taken, Failed;
  }

  lemma OneMoreFailed(run: seq<Fleet>, from: int, later: int, w: string, failed: set<int>, s: int)
    requires AllFailed(run, from, w, failed) && from <= later && Failed(run, later, w, s)
    ensures AllFailed(run, from, w, failed + {s})
  {
    hide FailsAt;
  }

  lemma RefusedBefore(run: seq<Fleet>, from: int, later: int, w: string, s: int)
    requires from <= later && Refused(run, later, w, s)
    ensures Refused(run, from, w, s)
  {
    hide FailsAt, Taken;
  }

  /** The search goes on by one shard, which was owned, won, or refused. */
  lemma SearchGoesOn(run: seq<Fleet>, from: int, w: string, owned: set<int>, n: int, more: set<int>)
    requires SearchedTo(run, from, w, owned, n) && owned <= more && (n in more || Refused(run, from, w, n))
    ensures SearchedTo(run, from, w, more, n + 1)
  {
    hide Refused;
  }

  // ---------------------------------------------------------------- one step

  lemma Recorded(run: seq<Fleet>, f: Fleet, a: Action, g: Fleet)
    requires Inv(f) && Traced(run, f) && f.numShards > 0 && f.replicas > 0 && Step(f, a, g)
    ensures Inv(g) && Traced(run + [g], g)
  {
    hide Inv, Step, Init;
    StepKeepsInv(f, a, g);
    PathExtends(run, g);
  }

  /** Steps of this manager's rounds and of its renewals. */
  predicate OfManager(a: Action, w: string) {
    !a.Tick? && !a.Renew? && a.w == w
  }

  /** What Yield promises is what any step of another manager, a renewal or the clock does. */
  lemma OthersInterfere(run: seq<Fleet>, f: Fleet, a: Action, g: Fleet, w: string)
    requires Inv(f) && Traced(run, f) && f.numShards > 0 && f.replicas > 0 && Step(f, a, g)
    requires w in f.members && !OfManager(a, w)
    ensures Inv(g) && Traced(run + [g], g) && w in g.members && g.members[w] == f.members[w]
    ensures g.numShards == f.numShards && g.replicas == f.replicas
  {
    hide Inv, Traced, Step;
    Recorded(run, f, a, g);
    OthersLeaveMember(f, a, g, w);
  }

  lemma OthersLeaveMember(f: Fleet, a: Action, g: Fleet, w: string)
    requires f.numShards > 0 && f.replicas > 0 && Step(f, a, g) && w in f.members && !OfManager(a, w)
    ensures w in g.members && g.members[w] == f.members[w]
    ensures g.numShards == f.numShards && g.replicas == f.replicas
  {
    hide Target, Acquired, Released, Renewed, NoneExpires;
  }

  lemma MemberShape(f: Fleet, w: string)
    requires Inv(f) && w in f.members
    ensures f.numShards > 0 && f.replicas > 0 && CountOk(f.numShards, Goal(f), f.clean, f.members[w])
  {
    hide Synced, CountOk;
  }

  class LeaseManager {
    const owner: string
    var fleet: Fleet
    ghost var trace: seq<Fleet>

    ghost predicate Valid()
      reads this
    {
      Inv(fleet) && Traced(trace, fleet) && trace != [] &&
      owner in fleet.members && fleet.numShards > 0 && fleet.replicas > 0
    }

    constructor (owner: string, fleet: Fleet)
      requires Init(fleet) && owner in fleet.members
      ensures Valid() && this.owner == owner && this.fleet == fleet && trace == [fleet]
    {
      this.owner := owner;
      this.fleet := fleet;
      trace := [fleet];
      new;
      InitInv(fleet);
    }

    ghost predicate At(m: Member)
      reads this
    {
      owner in fleet.members && fleet.members[owner] == m
    }

    ghost predicate Grown(f: Fleet, run: seq<Fleet>)
      reads this
    {
      fleet.numShards == f.numShards && fleet.replicas == f.replicas && run <= trace
    }

    /** Others run, as OthersInterfere allows. */
    method Yield()
      requires Valid()
      modifies this
      ensures Valid() && Grown(old(fleet), old(trace)) && At(old(fleet).members[owner])
    {
    }

    method StartRound()
      requires Valid() && fleet.members[owner].phase.Idle?
      modifies this
      ensures Valid() && Grown(old(fleet), old(trace))
      ensures At(Opened(old(fleet).members[owner], Goal(fleet)))
      ensures Step(old(fleet), Start(owner), fleet)
    {
      hide Inv, Traced, Target;
      var g := fleet.(members := fleet.members[owner := Opened(fleet.members[owner], Goal(fleet))]);
      Recorded(trace, fleet, Start(owner), g);
      fleet, trace := g, trace + [g];
    }

    /** One turn of the excess loop: the release of the highest shard not tried yet. */
    method ReleaseHighest(fails: bool, executed: bool) returns (s: int)
      requires Valid() && fleet.members[owner].phase.Releasing?
      modifies this
      ensures Valid() && Grown(old(fleet), old(trace))
      ensures
        var m := old(fleet).members[owner];
        IsMax(m.owned - m.phase.tried, s) &&
        At(if fails then AfterTry(m, m.phase.tried + {s}, Goal(fleet))
           else AfterTry(m.(owned := m.owned - {s}), m.phase.tried, Goal(fleet)))
      ensures fails ==> Failed(trace, |old(trace)| - 1, owner, s)
      ensures fleet.rows == if fails && !executed then old(fleet).rows
                            else Released(old(fleet).rows, s, owner, old(fleet).now)
    {
      hide Inv, Target, IsMax, AfterTry, Released, Failed, Next;
      MemberShape(fleet, owner);
      var m := fleet.members[owner];
      s := Highest(m.owned - m.phase.tried);
      var later := if fails then AfterTry(m, m.phase.tried + {s}, Goal(fleet))
                   else AfterTry(m.(owned := m.owned - {s}), m.phase.tried, Goal(fleet));
      var rows := if fails && !executed then fleet.rows else Released(fleet.rows, s, owner, fleet.now);
      var g := fleet.(clean := fleet.clean && !fails, rows := rows, members := fleet.members[owner := later]);
      if fails {
        assert Step(fleet, ReleaseFails(owner, s, executed), g);
        NowFailed(trace, owner, s, executed, g);
        Recorded(trace, fleet, ReleaseFails(owner, s, executed), g);
      } else {
        Recorded(trace, fleet, Release(owner, s), g);
      }
      fleet, trace := g, trace + [g];
    }

    /**
      One turn of the acquire loop: a shard not owned yet is won unless another manager holds it or the
      statement fails.
    */
    method ScanNext(ttl: int, fails: bool, executed: bool)
      requires Valid() && fleet.members[owner].phase.Scanning? && ttl >= 0
      modifies this
      ensures Valid() && Grown(old(fleet), old(trace))
      ensures
        var m := old(fleet).members[owner];
        var s := m.phase.next;
        if s !in m.owned && !fails && !Taken(old(fleet), owner, s) then
          At(AfterScan(m.(owned := m.owned + {s}), fleet.numShards, s + 1, m.phase.needed - 1))
        else
          At(AfterScan(m, fleet.numShards, s + 1, m.phase.needed)) &&
          (s in m.owned || Refused(trace, |old(trace)| - 1, owner, s))
    {
      hide Inv, Target, AfterScan, Next, Refused;
      var m := fleet.members[owner];
      var s := m.phase.next;
      if s !in m.owned && fails {
        FailNext(ttl, executed);
        return;
      }
      var won := s !in m.owned && !Taken(fleet, owner, s);
      var later := if won then AfterScan(m.(owned := m.owned + {s}), fleet.numShards, s + 1, m.phase.needed - 1)
                   else AfterScan(m, fleet.numShards, s + 1, m.phase.needed);
      var rows := if won then Acquired(fleet.rows, s, owner, fleet.now, ttl) else fleet.rows;
      var g := fleet.(rows := rows, members := fleet.members[owner := later]);
      Recorded(trace, fleet, Scan(owner, ttl), g);
      if s !in m.owned && !won {
        NowTaken(trace + [g], |trace| - 1, owner, s);
      }
      fleet, trace := g, trace + [g];
    }

    /** An acquire that fails, with or without having taken effect. */
    method FailNext(ttl: int, executed: bool)
      requires Valid() && fleet.members[owner].phase.Scanning?
      requires fleet.members[owner].phase.next !in fleet.members[owner].owned
      modifies this
      ensures Valid() && Grown(old(fleet), old(trace))
      ensures
        var m := old(fleet).members[owner];
        At(AfterScan(m, fleet.numShards, m.phase.next + 1, m.phase.needed)) &&
        Refused(trace, |old(trace)| - 1, owner, m.phase.next) &&
        fleet.rows == (if executed then Acquired(old(fleet).rows, m.phase.next, owner, old(fleet).now, ttl)
                       else old(fleet).rows)
    {
      hide Inv, Target, AfterScan, Next, Refused, Acquired;
      var m := fleet.members[owner];
      var rows := if executed then Acquired(fleet.rows, m.phase.next, owner, fleet.now, ttl) else fleet.rows;
      var later := AfterScan(m, fleet.numShards, m.phase.next + 1, m.phase.needed);
      var g := fleet.(clean := false, rows := rows, members := fleet.members[owner := later]);
      Recorded(trace, fleet, ScanFails(owner, ttl, executed), g);
      NowRefused(trace, owner, ttl, executed, g);
      fleet, trace := g, trace + [g];
    }

    /** The excess loop: it gives up the highest shards down to the target, or all whose release works. */
    method ReleaseExcess() returns (ghost failed: set<int>)
      requires Valid() && fleet.members[owner].phase.Releasing? && fleet.members[owner].phase.tried == {}
      modifies this
      ensures Valid() && Grown(old(fleet), old(trace))
      ensures fleet.members[owner].phase.Idle? && fleet.members[owner].rounds == old(fleet).members[owner].rounds + 1
      ensures AllFailed(trace, |old(trace)| - 1, owner, failed)
      ensures
        var before, after := old(fleet).members[owner].owned, fleet.members[owner].owned;
        GaveUp(before, after, failed) && |after| >= Goal(fleet) && (|after| == Goal(fleet) || after == failed)
    {
      hide Inv, Traced, Target, GaveUp, IsMax, Failed;
      ghost var before, rounds := fleet.members[owner].owned, fleet.members[owner].rounds;
      failed := {};
      MemberShape(fleet, owner);
      NothingGivenUp(before);
      while fleet.members[owner].phase.Releasing?
        invariant Valid() && Grown(old(fleet), old(trace)) && Loop(rounds, failed)
        invariant GaveUp(before, fleet.members[owner].owned, failed)
        invariant AllFailed(trace, |old(trace)| - 1, owner, failed)
        decreases |fleet.members[owner].owned - failed|
      {
        failed := ReleaseOnce(|old(trace)| - 1, before, rounds, failed);
      }
      OnlyFailed(before, fleet.members[owner].owned, failed);
    }

    /** Where the excess loop stands. */
    ghost predicate Loop(rounds: int, failed: set<int>)
      reads this
      requires fleet.numShards > 0 && fleet.replicas > 0
    {
      owner in fleet.members &&
      var m := fleet.members[owner];
      if m.phase.Idle? then
        m.rounds == rounds + 1 && |m.owned| >= Goal(fleet) && (|m.owned| == Goal(fleet) || m.owned <= failed)
      else
        m.phase == Releasing(failed) && m.rounds == rounds && |m.owned| > Goal(fleet)
    }

    method ReleaseOnce(ghost from: int, ghost before: set<int>, ghost rounds: int, ghost failed: set<int>)
      returns (ghost failed': set<int>)
      requires Valid() && fleet.members[owner].phase.Releasing? && Loop(rounds, failed) && 0 <= from < |trace|
      requires GaveUp(before, fleet.members[owner].owned, failed) && AllFailed(trace, from, owner, failed)
      modifies this
      ensures Valid() && Grown(old(fleet), old(trace)) && Loop(rounds, failed')
      ensures GaveUp(before, fleet.members[owner].owned, failed') && AllFailed(trace, from, owner, failed')
      ensures |fleet.members[owner].owned - failed'| < |old(fleet).members[owner].owned - failed|
    {
      hide Inv, Traced, Target, GaveUp, Failed, AllFailed;
      Yield();
      var fails: bool, executed: bool := *, *;
      ghost var owned := fleet.members[owner].owned;
      ghost var run := trace;
      var s := ReleaseHighest(fails, executed);
      if fails {
        PassOver(before, owned, failed, s);
        failed' := failed + {s};
        assert owned - failed' == owned - failed - {s};
        FailuresStay(old(trace), trace, from, owner, failed);
        OneMoreFailed(trace, from, |run| - 1, owner, failed, s);
      } else {
        GiveUpHighest(before, owned, failed, s);
        failed' := failed;
        assert owned - {s} - failed == owned - failed - {s};
        FailuresStay(old(trace), trace, from, owner, failed);
      }
    }

    /**
      The acquire loop: it keeps what it has, never exceeds the target, and stops short of it only when
      every shard it does not own was refused during the call.
    */
    method AcquireMissing(ttl: int)
      requires Valid() && fleet.members[owner].phase.Scanning? && fleet.members[owner].phase.next == 0 && ttl >= 0
      modifies this
      ensures Valid() && Grown(old(fleet), old(trace))
      ensures fleet.members[owner].phase.Idle? && fleet.members[owner].rounds == old(fleet).members[owner].rounds + 1
      ensures
        var before, after := old(fleet).members[owner].owned, fleet.members[owner].owned;
        before <= after && |after| <= Goal(fleet) &&
        (|after| == Goal(fleet) || SearchedTo(trace, |old(trace)| - 1, owner, after, fleet.numShards))
    {
      hide Inv, Traced, Target, SearchedTo;
      ghost var before, rounds := fleet.members[owner].owned, fleet.members[owner].rounds;
      NothingSearched(trace, |trace| - 1, owner, before);
      while fleet.members[owner].phase.Scanning?
        invariant Valid() && Grown(old(fleet), old(trace)) && Search(|old(trace)| - 1, rounds)
        invariant before <= fleet.members[owner].owned
        decreases if fleet.members[owner].phase.Scanning? then fleet.numShards - fleet.members[owner].phase.next else -1
      {
        MemberShape(fleet, owner);
        ScanOnce(ttl, |old(trace)| - 1, rounds);
      }
    }

    /** Where the acquire loop stands. */
    ghost predicate Search(from: int, rounds: int)
      reads this
      requires fleet.numShards > 0 && fleet.replicas > 0
    {
      owner in fleet.members &&
      var m := fleet.members[owner];
      if m.phase.Idle? then
        m.rounds == rounds + 1 && |m.owned| <= Goal(fleet) &&
        (|m.owned| == Goal(fleet) || SearchedTo(trace, from, owner, m.owned, fleet.numShards))
      else
        m.phase.Scanning? && m.rounds == rounds && SearchedTo(trace, from, owner, m.owned, m.phase.next)
    }

    method ScanOnce(ttl: int, ghost from: int, ghost rounds: int)
      requires Valid() && fleet.members[owner].phase.Scanning? && ttl >= 0
      requires 0 <= from < |trace| && Search(from, rounds)
      modifies this
      ensures Valid() && Grown(old(fleet), old(trace)) && Search(from, rounds)
      ensures old(fleet).members[owner].owned <= fleet.members[owner].owned
      ensures fleet.members[owner].phase.Scanning? ==>
                fleet.members[owner].phase.next == old(fleet).members[owner].phase.next + 1
    {
      hide Inv, Traced, Target, SearchedTo, Refused;
      Yield();
      MemberShape(fleet, owner);
      var fails: bool, executed: bool := *, *;
      ghost var run, m := trace, fleet.members[owner];
      ScanNext(ttl, fails, executed);
      ghost var more := fleet.members[owner].owned;
      if m.phase.next !in more {
        RefusedBefore(trace, from, |run| - 1, owner, m.phase.next);
      }
      SearchStays(old(trace), trace, from, owner, m.owned, m.phase.next);
      SearchGoesOn(trace, from, owner, m.owned, m.phase.next, more);
    }

    /**
      rebalanceIfNeeded. Above the target the round gives up the highest shards, except those whose
      release failed during the call. Below the target it acquires, and what it then still lacks was
      refused during the call.
    */
    method RebalanceIfNeeded(ttl: int) returns (ghost failed: set<int>)
      requires Valid() && fleet.members[owner].phase.Idle? && ttl >= 0
      modifies this
      ensures Valid() && Grown(old(fleet), old(trace))
      ensures fleet.members[owner].phase.Idle? && fleet.members[owner].rounds == old(fleet).members[owner].rounds + 1
      ensures AllFailed(trace, |old(trace)| - 1, owner, failed)
      ensures
        var before, after, target := old(fleet).members[owner].owned, fleet.members[owner].owned, Goal(fleet);
        if |before| > target then
          GaveUp(before, after, failed) && |after| >= target && (|after| == target || after == failed)
        else
          before <= after && |after| <= target &&
          (|after| == target || SearchedTo(trace, |old(trace)| - 1, owner, after, fleet.numShards))
    {
      hide Inv, Step, Target, GaveUp, SearchedTo, Failed;
      Yield();
      StartRound();
      failed := {};
      ghost var run := trace;
      var m := fleet.members[owner];
      if m.phase.Releasing? {
        failed := ReleaseExcess();
        FailedBefore(trace, |old(trace)| - 1, |run| - 1, owner, failed);
      } else if m.phase.Scanning? {
        AcquireMissing(ttl);
        SearchedBefore(trace, |old(trace)| - 1, |run| - 1, owner, fleet.members[owner].owned, fleet.numShards);
      }
    }
  }

  lemma NothingSearched(run: seq<Fleet>, from: int, w: string, owned: set<int>)
    ensures SearchedTo(run, from, w, owned, 0)
  {
    hide Refused;
  }

  lemma FailedBefore(run: seq<Fleet>, from: int, later: int, w: string, failed: set<int>)
    requires from <= later && AllFailed(run, later, w, failed)
    ensures AllFailed(run, from, w, failed)
  {
    hide FailsAt;
    forall s | s in failed
      ensures Failed(run, from, w, s)
    {
      assert Failed(run, later, w, s);
    }
  }

  lemma SearchedBefore(run: seq<Fleet>, from: int, later: int, w: string, owned: set<int>, n: int)
    requires from <= later
    ensures SearchedTo(run, later, w, owned, n) ==> SearchedTo(run, from, w, owned, n)
  {
    hide Refused;
    if SearchedTo(run, later, w, owned, n) {
      forall s | 0 <= s < n && s !in owned
        ensures Refused(run, from, w, s)
      {
        RefusedBefore(run, from, later, w, s);
      }
    }
  }
}
