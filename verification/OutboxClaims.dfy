/**
  Two ways to claim a batch of effects: PostgreSQL's one statement over a sorted candidate list, and
  MongoDB's loop of single find-and-update operations. At one clock reading, with no row locked by
  others and with the same tie-break between rows that are available and created at the same time,
  they do the same.
*/
module OutboxClaims {
  import opened OutboxProtocol
  import opened Sorting

  type Rank = string -> int

  /** ORDER BY available_at, created_at, and then the store's tie-break. */
  predicate Before(rows: map<string, Row>, rank: Rank, x: string, y: string)
    requires x in rows && y in rows
  {
    rows[x].available < rows[y].available ||
    (rows[x].available == rows[y].available && rows[x].created < rows[y].created) ||
    (rows[x].available == rows[y].available && rows[x].created == rows[y].created && rank(x) < rank(y))
  }

  function Earlier(rows: map<string, Row>, rank: Rank): (string, string) -> bool {
    (x, y) => x in rows && y in rows && Before(rows, rank, x, y)
  }

  ghost predicate Tiebreaks(rows: map<string, Row>, rank: Rank) {
    forall x, y | x in rows && y in rows && x != y :: rank(x) != rank(y)
  }

  lemma EarlierOrders(rows: map<string, Row>, rank: Rank, list: seq<string>)
    requires Tiebreaks(rows, rank) && (forall x | x in list :: x in rows)
    requires forall i, j | 0 <= i < j < |list| :: list[i] != list[j]
    ensures Transitive(Earlier(rows, rank)) && Irreflexive(Earlier(rows, rank)) && Comparable(Earlier(rows, rank), list)
  {
  }

  function ClaimedRow(r: Row, token: int, at: int, ttl: int): Row {
    r.(status := Claimed(token, at, at + ttl))
  }

  /** The rows after exactly the picked ones were claimed. */
  function Update(rows: map<string, Row>, picked: seq<string>, token: int, at: int, ttl: int): map<string, Row> {
    map id | id in rows :: if id in picked then ClaimedRow(rows[id], token, at, ttl) else rows[id]
  }

  /** The picked rows, and no others, are held under the token until `at + ttl`; nothing else in them changes. */
  ghost predicate ClaimsExactly(rows: map<string, Row>, picked: seq<string>, token: int, at: int, ttl: int,
                                after: map<string, Row>)
  {
    after.Keys == rows.Keys && (forall x | x in rows && x !in picked :: after[x] == rows[x]) &&
    forall x | x in rows && x in picked ::
      after[x].status == Claimed(token, at, at + ttl) && after[x].attempts == rows[x].attempts &&
      after[x].max == rows[x].max && after[x].available == rows[x].available && after[x].created == rows[x].created
  }

  lemma UpdateClaims(rows: map<string, Row>, picked: seq<string>, token: int, at: int, ttl: int)
    ensures ClaimsExactly(rows, picked, token, at, ttl, Update(rows, picked, token, at, ttl))
  {
  }

  /** The claimable rows that no other transaction has locked. */
  function Open(rows: map<string, Row>, at: int, locked: set<string>): set<string> {
    set x | x in rows && x !in locked && Claimable(rows[x], at)
  }

  /** The first `n` open rows in order: what the candidate query selects, saying nothing about how. */
  ghost predicate Selected(rows: map<string, Row>, rank: Rank, at: int, locked: set<string>, n: nat,
                           picked: seq<string>)
  {
    Leads(Earlier(rows, rank), Open(rows, at, locked), n, picked)
  }

  // What a selection is, in the fields of the rows.

  /** The row is due earlier, or at the same time and not created later. */
  predicate NoLater(x: Row, y: Row) {
    x.available < y.available || (x.available == y.available && x.created <= y.created)
  }

  /** The row waits and is due, or its claim has run out. */
  predicate Due(r: Row, at: int) {
    if r.status.Pending? then r.available <= at else r.status.Claimed? && r.status.expires <= at
  }

  /**
    At most `n` different due and unlocked rows, each no later than the next and than every due and
    unlocked row that is not picked; and one is passed over only when `n` are picked.
  */
  ghost predicate OldestFirst(rows: map<string, Row>, at: int, locked: set<string>, n: nat, picked: seq<string>) {
    |picked| <= n && (forall i, j | 0 <= i < j < |picked| :: picked[i] != picked[j]) &&
    (forall i | 0 <= i < |picked| :: picked[i] in rows && picked[i] !in locked && Due(rows[picked[i]], at)) &&
    (forall i, j | 0 <= i < j < |picked| :: NoLater(rows[picked[i]], rows[picked[j]])) &&
    (forall x | x in rows && x !in locked && Due(rows[x], at) && x !in picked ::
       |picked| == n && forall i | 0 <= i < |picked| :: NoLater(rows[picked[i]], rows[x]))
  }

  lemma SelectedIsOldest(rows: map<string, Row>, rank: Rank, at: int, locked: set<string>, n: nat, picked: seq<string>)
    requires Selected(rows, rank, at, locked, n, picked)
    ensures OldestFirst(rows, at, locked, n, picked)
  {
    var all := Open(rows, at, locked);
    forall i | 0 <= i < |picked|
      ensures picked[i] in all
    {
    }
    forall x | x in rows && x !in locked && Due(rows[x], at) && x !in picked
      ensures |picked| == n && forall i | 0 <= i < |picked| :: NoLater(rows[picked[i]], rows[x])
    {
      assert x in all;
    }
  }

  /** The selection is unique, so any two ways to make it claim the same effects in the same order. */
  lemma SelectionIsUnique(rows: map<string, Row>, rank: Rank, at: int, locked: set<string>, n: nat,
                          p: seq<string>, q: seq<string>)
    requires Selected(rows, rank, at, locked, n, p) && Selected(rows, rank, at, locked, n, q) && Tiebreaks(rows, rank)
    ensures p == q
  {
    hide Open, Leads, Before;
    EarlierOrders(rows, rank, []);
    LeadingIsUnique(Earlier(rows, rank), Open(rows, at, locked), n, p, q);
  }

  // ---------------------------------------------------------------- the one statement

  /** The WHERE clause with SKIP LOCKED: all open rows, once each, in no particular order. */
  method Candidates(rows: map<string, Row>, at: int, locked: set<string>) returns (list: seq<string>)
    ensures forall x :: x in list <==> x in Open(rows, at, locked)
    ensures forall i, j | 0 <= i < j < |list| :: list[i] != list[j]
  {
    list := [];
    var todo := rows.Keys;
    while todo != {}
      invariant todo <= rows.Keys
      invariant forall x :: x in list <==> x in Open(rows, at, locked) && x !in todo
      invariant forall i, j | 0 <= i < j < |list| :: list[i] != list[j]
      decreases |todo|
    {
      var x :| x in todo;
      if x !in locked && Claimable(rows[x], at) {
        list := list + [x];
      }
      todo := todo - {x};
    }
  }

  /** The candidate query: filter, order, limit; then one update of all candidates. */
  method ClaimStatement(rows: map<string, Row>, rank: Rank, token: int, at: int, ttl: int, locked: set<string>, n: nat)
    returns (picked: seq<string>, after: map<string, Row>)
    requires Tiebreaks(rows, rank)
    ensures Selected(rows, rank, at, locked, n, picked) && OldestFirst(rows, at, locked, n, picked)
    ensures after == Update(rows, picked, token, at, ttl) && ClaimsExactly(rows, picked, token, at, ttl, after)
  {
    hide Update, Before, Tiebreaks, Leads, OldestFirst, ClaimsExactly;
    var candidates := Candidates(rows, at, locked);
    EarlierOrders(rows, rank, candidates);
    var list := Sort(Earlier(rows, rank), candidates);
    SameElements(candidates, list);
    picked := if |list| <= n then list else list[..n];
    after := Update(rows, picked, token, at, ttl);
    CutLeads(Earlier(rows, rank), Open(rows, at, locked), n, list);
    SelectedIsOldest(rows, rank, at, locked, n, picked);
    UpdateClaims(rows, picked, token, at, ttl);
  }

  // ---------------------------------------------------------------- the loop

  ghost predicate IsFirst(rows: map<string, Row>, rank: Rank, at: int, id: string) {
    id in rows && Claimable(rows[id], at) &&
    forall x | x in rows && Claimable(rows[x], at) && x != id :: Before(rows, rank, id, x)
  }

  /** The find of FindOneAndUpdate: the first match in sort order. */
  method FindFirst(rows: map<string, Row>, rank: Rank, at: int) returns (found: bool, id: string)
    requires Tiebreaks(rows, rank)
    ensures found ==> IsFirst(rows, rank, at, id) && id in rows && Due(rows[id], at) &&
                      forall x | x in rows && Due(rows[x], at) :: NoLater(rows[id], rows[x])
    ensures !found ==> forall x | x in rows :: !Claimable(rows[x], at) && !Due(rows[x], at)
  {
    found, id := false, "";
    var todo := rows.Keys;
    while todo != {}
      invariant todo <= rows.Keys
      invariant found ==> id in rows && id !in todo && Claimable(rows[id], at)
      invariant found ==>
                  forall x | x in rows && x !in todo && Claimable(rows[x], at) && x != id :: Before(rows, rank, id, x)
      invariant !found ==> forall x | x in rows && x !in todo :: !Claimable(rows[x], at)
      decreases |todo|
    {
      var x :| x in todo;
      if Claimable(rows[x], at) && (!found || Before(rows, rank, x, id)) {
        found, id := true, x;
      }
      todo := todo - {x};
    }
  }

  /** Claiming one more leaves the same rows claimable, less that one. */
  lemma OneMore(rows: map<string, Row>, rank: Rank, at: int, ttl: int, token: int, picked: seq<string>, id: string)
    requires ttl > 0 && Selected(rows, rank, at, {}, |picked|, picked)
    requires IsFirst(Update(rows, picked, token, at, ttl), rank, at, id)
    ensures Selected(rows, rank, at, {}, |picked| + 1, picked + [id])
    ensures Update(rows, picked + [id], token, at, ttl) ==
            Update(rows, picked, token, at, ttl)[
              id := ClaimedRow(Update(rows, picked, token, at, ttl)[id], token, at, ttl)]
  {
    var after := Update(rows, picked, token, at, ttl);
    assert id !in picked;
    assert id in Open(rows, at, {});
    forall x | x in Open(rows, at, {}) && x !in picked + [id]
      ensures forall i | 0 <= i < |picked| + 1 :: Earlier(rows, rank)((picked + [id])[i], x)
    {
      assert x !in picked;
      assert Claimable(after[x], at);
      assert Before(after, rank, id, x);
    }
  }

  lemma NoneLeft(rows: map<string, Row>, rank: Rank, at: int, ttl: int, token: int, n: nat, picked: seq<string>)
    requires |picked| <= n && Selected(rows, rank, at, {}, |picked|, picked)
    requires forall x | x in rows :: !Claimable(Update(rows, picked, token, at, ttl)[x], at)
    ensures Selected(rows, rank, at, {}, n, picked)
  {
    forall x | x in Open(rows, at, {})
      ensures x in picked
    {
      assert !Claimable(Update(rows, picked, token, at, ttl)[x], at);
    }
  }

  /**
    MongoDB's ClaimPending: up to `n` single claims at one reading. It returns the selection of the
    one-statement claim, in its order, and leaves its rows.
  */
  method ClaimLoop(rows: map<string, Row>, rank: Rank, token: int, at: int, ttl: int, n: nat)
    returns (picked: seq<string>, after: map<string, Row>)
    requires ttl > 0 && Tiebreaks(rows, rank)
    ensures Selected(rows, rank, at, {}, n, picked) && OldestFirst(rows, at, {}, n, picked)
    ensures after == Update(rows, picked, token, at, ttl) && ClaimsExactly(rows, picked, token, at, ttl, after)
  {
    hide Selected, IsFirst, Before, Claimable, OldestFirst, ClaimsExactly;
    picked, after := [], rows;
    NothingPicked(rows, rank, at, ttl, token);
    while |picked| < n
      invariant |picked| <= n && Selected(rows, rank, at, {}, |picked|, picked)
      invariant after == Update(rows, picked, token, at, ttl) && Tiebreaks(after, rank)
    {
      var found, id := FindFirst(after, rank, at);
      if !found {
        NoneLeft(rows, rank, at, ttl, token, n, picked);
        SelectedIsOldest(rows, rank, at, {}, n, picked);
        UpdateClaims(rows, picked, token, at, ttl);
        return;
      }
      OneMore(rows, rank, at, ttl, token, picked, id);
      FirstIsRow(after, rank, at, id);
      picked, after := picked + [id], after[id := ClaimedRow(after[id], token, at, ttl)];
    }
    SelectedIsOldest(rows, rank, at, {}, n, picked);
    UpdateClaims(rows, picked, token, at, ttl);
  }

  lemma FirstIsRow(rows: map<string, Row>, rank: Rank, at: int, id: string)
    requires IsFirst(rows, rank, at, id)
    ensures id in rows
  {
  }

  lemma NothingPicked(rows: map<string, Row>, rank: Rank, at: int, ttl: int, token: int)
    ensures Selected(rows, rank, at, {}, 0, []) && Update(rows, [], token, at, ttl) == rows
  {
  }

  /** The two forms agree on what they claim, on its order and on the rows they leave. */
  method ClaimBothWays(rows: map<string, Row>, rank: Rank, token: int, at: int, ttl: int, n: nat)
    returns (one: seq<string>, oneAfter: map<string, Row>, many: seq<string>, manyAfter: map<string, Row>)
    requires ttl > 0 && Tiebreaks(rows, rank)
    ensures one == many && oneAfter == manyAfter
  {
    hide Selected, Update, Tiebreaks;
    one, oneAfter := ClaimStatement(rows, rank, token, at, ttl, {}, n);
    many, manyAfter := ClaimLoop(rows, rank, token, at, ttl, n);
    SelectionIsUnique(rows, rank, at, {}, n, one, many);
  }
}
