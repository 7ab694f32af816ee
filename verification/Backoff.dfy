/** The jittered retry delay. */
module Backoff {

  /** The table entry for attempt `n`, or the last one outside the table. */
  function Base(table: seq<nat>, n: int): (b: nat)
    requires table != []
    ensures b in table
  {
    if 1 <= n <= |table| then table[n - 1] else table[|table| - 1]
  }

  predicate Draw(u: real) {
    0.0 <= u < 1.0
  }

  /** Half the base plus a random part of the other half, rounded down. */
  function WebhookBackoff(table: seq<nat>, n: int, u: real): int
    requires table != []
  {
    var base := Base(table, n) as real;
    (base / 2.0 + u * (base / 2.0)).Floor
  }

  lemma HalfBounds(b: nat, u: real, y: real)
    requires Draw(u) && b >= 1 && y == b as real / 2.0 + u * (b as real / 2.0)
    ensures b as real / 2.0 <= y < b as real
  {
    var x := b as real / 2.0;
    assert 0.0 <= u * x;
    assert u * x < x;
  }

  lemma FloorBounds(b: nat, y: real)
    requires b as real / 2.0 <= y < b as real
    ensures b / 2 <= y.Floor <= b - 1
  {
  }

  /** Every draw lands in [floor(base / 2), base - 1]. */
  lemma BaseBounds(table: seq<nat>, n: int, u: real)
    requires table != [] && Draw(u) && Base(table, n) >= 1
    ensures Base(table, n) / 2 <= WebhookBackoff(table, n, u) <= Base(table, n) - 1
  {
    var b := Base(table, n);
    var y := b as real / 2.0 + u * (b as real / 2.0);
    HalfBounds(b, u, y);
    FloorBounds(b, y);
  }

  /** The delay of a table entry: at least half of it and less than all of it. */
  predicate Halved(entry: nat, delay: int) {
    if entry == 0 then delay == 0 else entry / 2 <= delay <= entry - 1
  }

  /** Attempt `n` waits by the n-th entry of the table, any attempt outside it by the last. */
  lemma DelayBounds(table: seq<nat>, n: int, u: real)
    requires table != [] && Draw(u)
    ensures 1 <= n <= |table| ==> Halved(table[n - 1], WebhookBackoff(table, n, u))
    ensures n < 1 || n > |table| ==> Halved(table[|table| - 1], WebhookBackoff(table, n, u))
  {
    if Base(table, n) >= 1 {
      BaseBounds(table, n, u);
    }
  }

  /** Both ends are reached. */
  lemma BoundsAreReached(table: seq<nat>, n: int)
    requires table != [] && Base(table, n) >= 1
    ensures WebhookBackoff(table, n, 0.0) == Base(table, n) / 2
    ensures var u := 1.0 - 1.0 / (Base(table, n) as real);
            Draw(u) && WebhookBackoff(table, n, u) == Base(table, n) - 1
  {
    var b := Base(table, n) as real;
    var u := 1.0 - 1.0 / b;
    assert u * (b / 2.0) == b / 2.0 - 0.5 by {
      assert (1.0 / b) * b == 1.0;
      assert (1.0 / b) * (b / 2.0) == 0.5;
    }
    assert b / 2.0 + u * (b / 2.0) == b - 0.5;
    assert 0.0 < 1.0 / b <= 1.0;
  }

  /** Delays strictly increase from attempt `n` to the next, for all draws, exactly when the
      next base is at least twice this one. */
  lemma DelaysIncreaseIffDoubling(table: seq<nat>, n: int)
    requires table != [] && Base(table, n) >= 1 && Base(table, n + 1) >= 1
    ensures (forall u, v | Draw(u) && Draw(v) :: WebhookBackoff(table, n, u) < WebhookBackoff(table, n + 1, v))
            <==> 2 * Base(table, n) <= Base(table, n + 1)
  {
    if 2 * Base(table, n) <= Base(table, n + 1) {
      forall u, v | Draw(u) && Draw(v)
        ensures WebhookBackoff(table, n, u) < WebhookBackoff(table, n + 1, v)
      {
        BaseBounds(table, n, u);
        BaseBounds(table, n + 1, v);
      }
    } else {
      BoundsAreReached(table, n);
      BoundsAreReached(table, n + 1);
      var u, v := 1.0 - 1.0 / (Base(table, n) as real), 0.0;
      assert Draw(u) && Draw(v) && !(WebhookBackoff(table, n, u) < WebhookBackoff(table, n + 1, v));
    }
  }

  /** In terms of the table: delays grow from attempt `n` to the next, whatever is drawn,
      exactly when both are in the table and the entry at least doubles. */
  lemma TableIncreasesIff(table: seq<nat>, n: int)
    requires n >= 1 && table != [] && forall i | 0 <= i < |table| :: table[i] >= 1
    ensures (forall u, v | Draw(u) && Draw(v) :: WebhookBackoff(table, n, u) < WebhookBackoff(table, n + 1, v))
            <==> n < |table| && 2 * table[n - 1] <= table[n]
  {
    DelaysIncreaseIffDoubling(table, n);
  }

  /** The default table doubles at every step. */
  lemma DefaultTableIncreases(n: int, u: real, v: real)
    requires 1 <= n < 5 && Draw(u) && Draw(v)
    ensures var table := [10000, 30000, 120000, 600000, 3600000];
            WebhookBackoff(table, n, u) < WebhookBackoff(table, n + 1, v)
    ensures forall m | m > 5 :: 1800000 <= WebhookBackoff([10000, 30000, 120000, 600000, 3600000], m, u) < 3600000
  {
    forall m | m > 5
      ensures 1800000 <= WebhookBackoff([10000, 30000, 120000, 600000, 3600000], m, u) < 3600000
    {
      DelayBounds([10000, 30000, 120000, 600000, 3600000], m, u);
    }
    DelaysIncreaseIffDoubling([10000, 30000, 120000, 600000, 3600000], n);
  }
}
