/**
  The rotating selection of broker consumers and the split of the message budget among them.
*/
module FetchRotation {

  /** The consumer at offset `i` of a selection that starts at `start`. */
  function At(start: int, i: int, n: int): int
    requires n > 0
  {
    (start + i) % n
  }

  lemma SmallMod(x: int, n: int)
    requires 0 <= x < n
    ensures x % n == x
  {
  }

  lemma ModAgain(x: int, y: int, n: int)
    requires n > 0
    ensures (x % n + y) % n == (x + y) % n
  {
    var q := x / n;
    assert x == q * n + x % n;
    ModShift(x % n + y, q, n);
    assert x + y == x % n + y + q * n;
  }

  lemma ModShift(x: int, q: int, n: int)
    requires n > 0
    ensures (x + q * n) % n == x % n
  {
    var r := x % n;
    var p := x / n;
    assert x == p * n + r;
    assert x + q * n == (p + q) * n + r;
    ModOf(p + q, r, n);
  }

  lemma ModOf(p: int, r: int, n: int)
    requires n > 0 && 0 <= r < n
    ensures (p * n + r) % n == r
  {
    var x := p * n + r;
    var q := x / n;
    assert x == q * n + x % n;
    assert (q - p) * n == r - x % n;
    Multiple(q - p, n, r - x % n);
  }

  lemma TimesKeepsOrder(a: int, b: int, n: int)
    requires n >= 0
    ensures a >= b ==> a * n >= b * n
  {
  }

  /** A multiple of n that is smaller than n in absolute value is zero. */
  lemma Multiple(k: int, n: int, d: int)
    requires n > 0 && k * n == d && -n < d < n
    ensures d == 0
  {
    TimesKeepsOrder(k, 1, n);
    TimesKeepsOrder(-1, k, n);
  }

  class Consumer<Key(==)> {
    var fetchCursor: nat

    constructor ()
      ensures fetchCursor == 0
    {
      fetchCursor := 0;
    }

    /** selectFetchConsumers over the sorted matching consumers: consecutive ones, wrapping around, without repeats. */
    method Select(keys: seq<Key>, maxMessages: nat) returns (selected: seq<Key>)
      requires maxMessages > 0
      requires forall i, j | 0 <= i < j < |keys| :: keys[i] != keys[j]
      modifies this
      ensures keys == [] ==> selected == [] && fetchCursor == old(fetchCursor)
      ensures keys != [] ==>
                |selected| == (if |keys| <= maxMessages then |keys| else maxMessages) &&
                fetchCursor == After(old(fetchCursor), |keys|, |selected|)
      ensures keys != [] ==>
                forall i | 0 <= i < |selected| :: selected[i] == keys[At(old(fetchCursor) % |keys|, i, |keys|)]
      ensures forall i, j | 0 <= i < j < |selected| :: selected[i] != selected[j]
    {
      selected := [];
      if keys == [] {
        return;
      }
      var n := |keys|;
      var count := Take(n, maxMessages);
      var start := fetchCursor % n;
      for i := 0 to count
        invariant |selected| == i && forall j | 0 <= j < i :: selected[j] == keys[At(start, j, n)]
      {
        selected := selected + [keys[(start + i) % n]];
      }
      fetchCursor := (start + count) % n;
      forall i, j | 0 <= i < j < |selected|
        ensures selected[i] != selected[j]
      {
        OffsetsDiffer(start, i, j, n);
      }
    }
  }

  function Take(n: nat, max: nat): nat {
    if n <= max then n else max
  }

  /** The cursor after one selection of `k` out of `n` consumers. */
  function After(cursor: nat, n: nat, k: nat): nat
    requires n > 0
  {
    (cursor % n + k) % n
  }

  lemma OffsetsDiffer(start: int, i: int, j: int, n: int)
    requires n > 0 && 0 <= i < j < n
    ensures At(start, i, n) != At(start, j, n)
  {
    if At(start, i, n) == At(start, j, n) {
      var p, q := (start + i) / n, (start + j) / n;
      assert start + i == p * n + (start + i) % n;
      assert start + j == q * n + (start + j) % n;
      assert (q - p) * n == j - i;
      Multiple(q - p, n, j - i);
    }
  }

  // ---------------------------------------------------------------- fairness

  /** The cursors of consecutive selections over an unchanged set of consumers. */
  ghost predicate Rotation(cursors: seq<nat>, n: nat, k: nat)
    requires n > 0
  {
    forall t | 0 <= t < |cursors| - 1 :: cursors[t + 1] == After(cursors[t], n, k)
  }

  lemma {:induction false} CursorAt(cursors: seq<nat>, n: nat, k: nat, t: nat)
    requires n > 0 && Rotation(cursors, n, k) && t < |cursors|
    ensures cursors[t] % n == (cursors[0] + t * k) % n
  {
    if t > 0 {
      CursorAt(cursors, n, k, t - 1);
      var x := cursors[0] + (t - 1) * k;
      assert cursors[t - 1 + 1] == After(cursors[t - 1], n, k);
      ModAgain(x, k, n);
      assert x + k == cursors[0] + t * k;
      ModAgain(x % n + k, 0, n);
    }
  }

  /** Selections needed to go around once. */
  function Rounds(n: nat, k: nat): (r: nat)
    requires n > 0 && k > 0
    ensures r * k >= n
  {
    assert n == n / k * k + n % k;
    if n % k == 0 then n / k else n / k + 1
  }

  /**
    Fairness: any ceil(n / k) consecutive selections of k out of an unchanged set of n consumers poll
    every one of them.
  */
  lemma EveryConsumerIsPolled(cursors: seq<nat>, n: nat, k: nat, x: nat) returns (t: nat, i: nat)
    requires 0 < k <= n && x < n && Rotation(cursors, n, k) && |cursors| == Rounds(n, k)
    ensures t < |cursors| && i < k && At(cursors[t] % n, i, n) == x
  {
    hide Rotation;
    var c := cursors[0];
    var d := (x - c) % n;
    t, i := d / k, d % k;
    assert d == t * k + i;
    TurnInRange(d, n, k);
    CursorAt(cursors, n, k, t);
    ModAgain(c + t * k, i, n);
    assert c + t * k + i == c + d;
    ModAgain(x - c, c, n);
    assert (x - c) % n + c == c + d;
    SmallMod(x, n);
  }

  lemma TurnInRange(d: nat, n: nat, k: nat)
    requires 0 < k <= n && d < n
    ensures d / k < Rounds(n, k)
  {
    var t, r := d / k, Rounds(n, k);
    assert d == t * k + d % k;
    TimesKeepsOrder(t, r, k);
  }

  // ---------------------------------------------------------------- budgets

  function Sum(s: seq<nat>): nat {
    if s == [] then 0 else Sum(s[..|s| - 1]) + s[|s| - 1]
  }

  function LowerSum(base: nat, remainder: nat, i: nat): nat {
    i * base + if i < remainder then i else remainder
  }

  /** fetchSelectedConsumers: every selected consumer may fetch something, and together exactly the budget. */
  method SplitBudget(maxMessages: nat, selected: nat) returns (budgets: seq<nat>)
    requires 0 < selected <= maxMessages
    ensures |budgets| == selected && Sum(budgets) == maxMessages
    ensures forall i | 0 <= i < selected :: budgets[i] >= 1
    ensures forall i, j | 0 <= i < selected && 0 <= j < selected :: budgets[i] <= budgets[j] + 1
  {
    var base, remainder := maxMessages / selected, maxMessages % selected;
    assert maxMessages == selected * base + remainder;
    BasePositive(maxMessages, selected);
    budgets := [];
    for i := 0 to selected
      invariant |budgets| == i && Sum(budgets) == LowerSum(base, remainder, i)
      invariant forall j | 0 <= j < i :: budgets[j] == base || budgets[j] == base + 1
    {
      var budget := if i < remainder then base + 1 else base;
      assert (i + 1) * base == i * base + base;
      assert (budgets + [budget])[..i] == budgets;
      budgets := budgets + [budget];
    }
  }

  lemma BasePositive(max: nat, n: nat)
    requires 0 < n <= max
    ensures max / n >= 1
  {
    assert max == max / n * n + max % n;
    TimesKeepsOrder(0, max / n, n);
  }
}
