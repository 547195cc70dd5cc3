/**
  The shard lease rows and the SQL statements on them.

  Each statement is one atomic change of the table. Times are database clock readings.
*/
module Leases {

  datatype Row = Row(owner: string, token: int, expires: int)

  type Rows = map<int, Row>

  // ---------------------------------------------------------------- the statements

  /** Insert a first lease, or take over a lease that has expired, with the next token. */
  function Acquired(rows: Rows, shard: int, owner: string, now: int, ttl: int): Rows {
    if shard !in rows then rows[shard := Row(owner, 1, now + ttl)]
    else if rows[shard].expires < now then rows[shard := Row(owner, rows[shard].token + 1, now + ttl)]
    else rows
  }

  /** The row a renewal matches: same owner, same token, not expired. */
  predicate Renewable(rows: Rows, shard: int, owner: string, token: int, now: int) {
    shard in rows && rows[shard].owner == owner && rows[shard].token == token && rows[shard].expires > now
  }

  function Renewed(rows: Rows, shard: int, owner: string, token: int, now: int, ttl: int): Rows {
    if Renewable(rows, shard, owner, token, now) then rows[shard := rows[shard].(expires := now + ttl)] else rows
  }

  /** Expire the owner's lease but keep the row, so that the token stays. */
  function Released(rows: Rows, shard: int, owner: string, now: int): Rows {
    if shard in rows && rows[shard].owner == owner then rows[shard := rows[shard].(expires := now - 1)] else rows
  }

  datatype AssertOutcome = Held | NoRow | TokenMismatch | LeaseExpired

  /** AssertHeld with its expiry test taken at clock reading `at`. */
  function Assertion(rows: Rows, shard: int, owner: string, token: int, at: int): AssertOutcome {
    if shard !in rows || rows[shard].owner != owner then NoRow
    else if token <= 0 then TokenMismatch
    else if rows[shard].expires <= at then LeaseExpired
    else if rows[shard].token != token then TokenMismatch
    else Held
  }

  // ---------------------------------------------------------------- what every statement keeps

  /** Tokens never decrease, rows never disappear, and while a token stays so does its owner. */
  ghost predicate Evolves(rows: Rows, later: Rows) {
    forall s | s in rows ::
      s in later && rows[s].token <= later[s].token &&
      (later[s].token == rows[s].token ==> later[s].owner == rows[s].owner)
  }

  /** Only the given shard's row may differ. */
  ghost predicate Touches(rows: Rows, later: Rows, shard: int) {
    forall s | s != shard :: (s in later <==> s in rows) && (s in rows ==> later[s] == rows[s])
  }

  lemma AcquireEvolves(rows: Rows, shard: int, owner: string, now: int, ttl: int)
    ensures Evolves(rows, Acquired(rows, shard, owner, now, ttl))
    ensures Touches(rows, Acquired(rows, shard, owner, now, ttl), shard)
  {
  }

  lemma RenewEvolves(rows: Rows, shard: int, owner: string, token: int, now: int, ttl: int)
    ensures Evolves(rows, Renewed(rows, shard, owner, token, now, ttl))
    ensures Touches(rows, Renewed(rows, shard, owner, token, now, ttl), shard)
  {
  }

  lemma ReleaseEvolves(rows: Rows, shard: int, owner: string, now: int)
    ensures Evolves(rows, Released(rows, shard, owner, now))
    ensures Touches(rows, Released(rows, shard, owner, now), shard)
  {
  }

  lemma EvolvesTransitive(a: Rows, b: Rows, c: Rows)
    requires Evolves(a, b) && Evolves(b, c)
    ensures Evolves(a, c)
  {
    forall s | s in a
      ensures s in c && a[s].token <= c[s].token && (c[s].token == a[s].token ==> c[s].owner == a[s].owner)
    {
      assert s in b;
    }
  }

  /**
    A lease just acquired at `now` is exclusive for its whole term: up to and including the end nobody
    can take it over, and strictly before the end its owner passes the assertion.
  */
  lemma AcquiredLeaseHolds(rows: Rows, shard: int, owner: string, now: int, ttl: int, other: string, at: int, ttl': int)
    requires shard !in rows || rows[shard].expires < now
    ensures
      var held := Acquired(rows, shard, owner, now, ttl);
      shard in held && held[shard].owner == owner &&
      held[shard].token == (if shard in rows then rows[shard].token + 1 else 1) &&
      (Acquired(held, shard, other, at, ttl') == held <==> at <= now + ttl) &&
      (held[shard].token > 0 ==> (Assertion(held, shard, owner, held[shard].token, at).Held? <==> at < now + ttl))
  {
    var held := Acquired(rows, shard, owner, now, ttl);
    var taken := Acquired(held, shard, other, at, ttl');
    if at > now + ttl {
      assert taken[shard].token == held[shard].token + 1;
    }
  }

  /**
    A renewal at `now` starts a new term: up to and including its end nobody can take the lease over,
    after it anybody can, and strictly before it its owner passes the assertion, with the same token.
  */
  lemma RenewedLeaseHolds(rows: Rows, shard: int, owner: string, token: int, now: int, ttl: int, other: string,
                          at: int, ttl': int)
    requires Renewable(rows, shard, owner, token, now)
    ensures
      var held := Renewed(rows, shard, owner, token, now, ttl);
      shard in held && held[shard].owner == owner && held[shard].token == token &&
      (Acquired(held, shard, other, at, ttl') == held <==> at <= now + ttl) &&
      (token > 0 ==> (Assertion(held, shard, owner, token, at).Held? <==> at < now + ttl))
  {
    var held := Renewed(rows, shard, owner, token, now, ttl);
    var taken := Acquired(held, shard, other, at, ttl');
    if at > now + ttl {
      assert taken[shard].token == held[shard].token + 1;
    }
  }

  /**
    A released lease can be taken over at once, under a new token, and its former owner no longer passes
    the assertion.
  */
  lemma ReleasedLeaseIsFree(rows: Rows, shard: int, owner: string, now: int, other: string, ttl: int, token: int)
    requires shard in rows && rows[shard].owner == owner
    ensures
      var free := Released(rows, shard, owner, now);
      var taken := Acquired(free, shard, other, now, ttl);
      taken[shard] == Row(other, rows[shard].token + 1, now + ttl) && !Assertion(free, shard, owner, token, now).Held?
  {
  }

  /** The statements that write lease rows; a bulk renewal is a series of single ones at one reading. */
  datatype Statement =
    | AcquireStatement(shard: int, owner: string, now: int, ttl: int)
    | RenewStatement(shard: int, owner: string, token: int, now: int, ttl: int)
    | ReleaseStatement(shard: int, owner: string, now: int)

  function Applied(rows: Rows, st: Statement): Rows {
    match st
    case AcquireStatement(shard, owner, now, ttl) => Acquired(rows, shard, owner, now, ttl)
    case RenewStatement(shard, owner, token, now, ttl) => Renewed(rows, shard, owner, token, now, ttl)
    case ReleaseStatement(shard, owner, now) => Released(rows, shard, owner, now)
  }

  /** The table after the first `n` of a list of statements, issued by anybody at any clock readings. */
  function After(rows: Rows, statements: seq<Statement>, n: nat): Rows
    requires n <= |statements|
  {
    if n == 0 then rows else Applied(After(rows, statements, n - 1), statements[n - 1])
  }

  lemma AppliedEvolves(rows: Rows, st: Statement)
    ensures Evolves(rows, Applied(rows, st))
  {
    hide Evolves, Touches, Acquired, Renewed, Released;
    match st {
      case AcquireStatement(shard, owner, now, ttl) => AcquireEvolves(rows, shard, owner, now, ttl);
      case RenewStatement(shard, owner, token, now, ttl) => RenewEvolves(rows, shard, owner, token, now, ttl);
      case ReleaseStatement(shard, owner, now) => ReleaseEvolves(rows, shard, owner, now);
    }
  }

  /** Whatever statements follow, a fencing token of a shard belongs to one worker for all time. */
  lemma {:induction false} TokenNamesOneOwner(rows: Rows, statements: seq<Statement>, m: nat, n: nat, shard: int)
    requires m <= n <= |statements| && shard in After(rows, statements, m)
    ensures
      var early, later := After(rows, statements, m), After(rows, statements, n);
      shard in later && early[shard].token <= later[shard].token &&
      (later[shard].token == early[shard].token ==> later[shard].owner == early[shard].owner)
    decreases n
  {
    hide Applied;
    if m < n {
      TokenNamesOneOwner(rows, statements, m, n - 1, shard);
      AppliedEvolves(After(rows, statements, n - 1), statements[n - 1]);
    }
  }

  lemma NothingApplied(rows: Rows, statements: seq<Statement>)
    ensures After(rows, statements, 0) == rows
  {
  }

  // ---------------------------------------------------------------- the repository

  lemma NonEmpty(s: set<int>)
    ensures s == {} || exists x :: x in s
  {
    if forall x :: x !in s {
      assert s == {};
    }
  }

  class ShardLeases {
    var rows: Rows

    constructor ()
      ensures rows == map[]
    {
      rows := map[];
    }

    /** The upsert of Acquire. */
    method Upsert(shard: int, owner: string, now: int, ttl: int)
      modifies this
      ensures rows == Acquired(old(rows), shard, owner, now, ttl) && shard in rows
      ensures shard !in old(rows) ==> rows == old(rows)[shard := Row(owner, 1, now + ttl)]
      ensures shard in old(rows) && old(rows)[shard].expires < now ==>
                rows == old(rows)[shard := Row(owner, old(rows)[shard].token + 1, now + ttl)]
      ensures rows[shard].owner == owner || (shard in old(rows) && rows == old(rows) && rows[shard].expires >= now)
    {
      if shard !in rows {
        rows := rows[shard := Row(owner, 1, now + ttl)];
      } else if rows[shard].expires < now {
        rows := rows[shard := Row(owner, rows[shard].token + 1, now + ttl)];
      }
    }

    /** Other sessions run any statements. */
    method RunOthers(others: seq<Statement>)
      modifies this
      ensures rows == After(old(rows), others, |others|)
    {
      for i := 0 to |others|
        invariant rows == After(old(rows), others, i)
      {
        rows := Applied(rows, others[i]);
      }
    }

    /**
      Acquire: the upsert, then a read of the row, between which other sessions may run. The answer is
      the row as it stands at the read. If it does not name the caller, the lease was held and nothing
      changed, or somebody has taken it over since under a greater token.
    */
    method Acquire(shard: int, owner: string, now: int, ttl: int, others: seq<Statement>) returns (lease: Row)
      modifies this
      ensures rows == After(Acquired(old(rows), shard, owner, now, ttl), others, |others|)
      ensures shard in rows && lease == rows[shard]
      ensures
        var written := Acquired(old(rows), shard, owner, now, ttl);
        shard in written && written[shard].token <= lease.token &&
        (lease.token == written[shard].token ==> lease.owner == written[shard].owner) &&
        (lease.owner != owner ==>
           (written == old(rows) && written[shard].expires >= now) || lease.token > written[shard].token)
    {
      hide Acquired, After;
      Upsert(shard, owner, now, ttl);
      ghost var written := rows;
      NothingApplied(written, others);
      TokenNamesOneOwner(written, others, 0, |others|, shard);
      RunOthers(others);
      lease := rows[shard];
    }

    method Renew(shard: int, owner: string, token: int, now: int, ttl: int) returns (ok: bool)
      modifies this
      ensures ok <==> shard in old(rows) && old(rows)[shard].owner == owner && old(rows)[shard].token == token &&
                      old(rows)[shard].expires > now
      ensures ok ==> rows == old(rows)[shard := Row(owner, token, now + ttl)]
      ensures !ok ==> rows == old(rows)
      ensures rows == Renewed(old(rows), shard, owner, token, now, ttl)
    {
      ok := shard in rows && rows[shard].owner == owner && rows[shard].token == token && rows[shard].expires > now;
      if ok {
        rows := rows[shard := rows[shard].(expires := now + ttl)];
      }
    }

    /**
      RenewOwned: one statement for a whole snapshot. A row is renewed exactly when the single
      renewal would renew it, and exactly the renewed rows are returned.
    */
    method RenewOwned(owner: string, leases: map<int, int>, now: int, ttl: int) returns (renewed: map<int, Row>)
      modifies this
      ensures rows.Keys == old(rows).Keys
      ensures forall s | s in rows ::
                rows[s] == if s in leases then Renewed(old(rows), s, owner, leases[s], now, ttl)[s] else old(rows)[s]
      ensures forall s :: s in renewed <==> s in leases && Renewable(old(rows), s, owner, leases[s], now)
      ensures forall s | s in renewed ::
                s in rows && renewed[s] == rows[s] && rows[s] == Row(owner, leases[s], now + ttl)
      ensures forall s | s in rows && s !in renewed :: rows[s] == old(rows)[s]
    {
      renewed := map[];
      var todo := leases.Keys;
      while todo != {}
        invariant todo <= leases.Keys && rows.Keys == old(rows).Keys
        invariant forall s | s in rows ::
                    rows[s] == if s in leases && s !in todo then Renewed(old(rows), s, owner, leases[s], now, ttl)[s]
                               else old(rows)[s]
        invariant forall s :: s in renewed <==>
                    s in leases && s !in todo && Renewable(old(rows), s, owner, leases[s], now)
        invariant forall s | s in renewed :: s in rows && renewed[s] == rows[s]
        decreases |todo|
      {
        NonEmpty(todo);
        var s :| s in todo;
        if Renewable(rows, s, owner, leases[s], now) {
          rows := rows[s := rows[s].(expires := now + ttl)];
          renewed := renewed[s := rows[s]];
        }
        todo := todo - {s};
      }
    }

    method Release(shard: int, owner: string, now: int)
      modifies this
      ensures rows == Released(old(rows), shard, owner, now) && rows.Keys == old(rows).Keys
      ensures forall s | s in rows ::
                rows[s] == if s == shard && old(rows)[s].owner == owner then Row(owner, old(rows)[s].token, now - 1)
                           else old(rows)[s]
    {
      if shard in rows && rows[shard].owner == owner {
        rows := rows[shard := rows[shard].(expires := now - 1)];
      }
    }

    /** AssertHeld succeeds only for the current owner with the current, positive token of a live lease. */
    method AssertHeld(shard: int, owner: string, token: int, at: int) returns (r: AssertOutcome)
      ensures r == Assertion(rows, shard, owner, token, at)
      ensures r.Held? <==> token > 0 && Renewable(rows, shard, owner, token, at)
    {
      if shard !in rows || rows[shard].owner != owner {
        return NoRow;
      }
      var row := rows[shard];
      if token <= 0 {
        return TokenMismatch;
      }
      if !(row.expires > at) {
        return LeaseExpired;
      }
      if row.token != token {
        return TokenMismatch;
      }
      r := Held;
    }
  }
}
