/** Six-dimensional budget amounts and the registry price of their tokens. */
module Amounts {

  const MAX_TIME: int := 31_536_000
  const MAX_TOKENS: int := 1_000_000_000
  const MAX_COST: int := 100_000_000_000
  const MAX_UNITS: int := 1_000_000
  const PER_MILLION: int := 1_000_000

  /** A vector over the six budget dimensions.  Running sums may be negative. */
  datatype Vector = Vector(time: int, input: int, output: int, cost: int, retry: int, human: int) {
    function Plus(v: Vector): Vector {
      Vector(time + v.time, input + v.input, output + v.output,
             cost + v.cost, retry + v.retry, human + v.human)
    }

    function Minus(v: Vector): Vector {
      Vector(time - v.time, input - v.input, output - v.output,
             cost - v.cost, retry - v.retry, human - v.human)
    }

    predicate Within(v: Vector) {
      && time <= v.time && input <= v.input && output <= v.output
      && cost <= v.cost && retry <= v.retry && human <= v.human
    }

    predicate NonNegative() {
      ZERO.Within(this)
    }

    predicate IsZero() {
      time == 0 && input == 0 && output == 0 && cost == 0 && retry == 0 && human == 0
    }

    /** The check made by the `BudgetAmounts` constructor. */
    predicate InLimits() {
      NonNegative() && Within(LIMITS)
    }

    /** The four dimensions a `consume` event may carry. */
    function UsagePart(): Vector {
      Vector(time, input, output, cost, 0, 0)
    }

    function RetryPart(): Vector {
      Vector(0, 0, 0, 0, retry, 0)
    }

    function HumanPart(): Vector {
      Vector(0, 0, 0, 0, 0, human)
    }
  }

  const ZERO: Vector := Vector(0, 0, 0, 0, 0, 0)
  const LIMITS: Vector := Vector(MAX_TIME, MAX_TOKENS, MAX_TOKENS, MAX_COST, MAX_UNITS, MAX_UNITS)

  /** A constructed `BudgetAmounts` value. */
  type Amount = v: Vector | v.InLimits() witness ZERO

  /** Integer microdollars for `tokens` at `price` per million, rounded up. */
  function RoundedUp(tokens: int, price: int): int {
    (tokens * price + 999_999) / PER_MILLION
  }

  /** The exact registry price of the tokens in `v`. */
  function Price(inputPrice: int, outputPrice: int, v: Vector): int {
    RoundedUp(v.input, inputPrice) + RoundedUp(v.output, outputPrice)
  }

  /** Outstanding (or consumed) cost covers the price of outstanding (or consumed) tokens. */
  predicate Covers(inputPrice: int, outputPrice: int, v: Vector) {
    v.cost >= Price(inputPrice, outputPrice, v)
  }

  /** `RoundedUp` is the least whole number of microdollars covering the exact price. */
  lemma RoundedUpIsCeiling(tokens: int, price: int, microusd: int)
    ensures microusd >= RoundedUp(tokens, price) <==> microusd * PER_MILLION >= tokens * price
  {
    var exact := tokens * price;
    var r := RoundedUp(tokens, price);
    assert exact <= r * PER_MILLION <= exact + 999_999;
    if microusd >= r {
      assert microusd * PER_MILLION >= r * PER_MILLION;
    } else {
      assert microusd * PER_MILLION <= (r - 1) * PER_MILLION;
    }
  }

  lemma RoundedUpSubadditive(a: int, b: int, price: int)
    ensures RoundedUp(a + b, price) <= RoundedUp(a, price) + RoundedUp(b, price)
  {
    RoundedUpIsCeiling(a, price, RoundedUp(a, price));
    RoundedUpIsCeiling(b, price, RoundedUp(b, price));
    RoundedUpIsCeiling(a + b, price, RoundedUp(a, price) + RoundedUp(b, price));
    assert (a + b) * price == a * price + b * price;
  }

  /** Covered amounts stay covered when they are pooled. */
  lemma CoversPlus(inputPrice: int, outputPrice: int, v: Vector, w: Vector)
    requires Covers(inputPrice, outputPrice, v) && Covers(inputPrice, outputPrice, w)
    ensures Covers(inputPrice, outputPrice, v.Plus(w))
  {
    RoundedUpSubadditive(v.input, w.input, inputPrice);
    RoundedUpSubadditive(v.output, w.output, outputPrice);
  }

  function Sum(vs: seq<Vector>): Vector {
    if vs == [] then ZERO else Sum(vs[..|vs| - 1]).Plus(vs[|vs| - 1])
  }

  lemma SumAppend(vs: seq<Vector>, v: Vector)
    ensures Sum(vs + [v]) == Sum(vs).Plus(v)
  {
    assert (vs + [v])[..|vs|] == vs;
  }

  lemma SumOne(v: Vector)
    ensures Sum([v]) == v
  {
    SumAppend([], v);
    assert [] + [v] == [v];
  }

  lemma PlusAssociates(a: Vector, b: Vector, c: Vector)
    ensures a.Plus(b).Plus(c) == a.Plus(b.Plus(c))
  {
  }

  lemma {:induction false} SumConcat(vs: seq<Vector>, ws: seq<Vector>)
    ensures Sum(vs + ws) == Sum(vs).Plus(Sum(ws))
  {
    if ws == [] {
      assert vs + ws == vs;
    } else {
      var init, w := ws[..|ws| - 1], ws[|ws| - 1];
      assert vs + ws == (vs + init) + [w];
      SumAppend(vs + init, w);
      SumConcat(vs, init);
      PlusAssociates(Sum(vs), Sum(init), w);
    }
  }

  /** When every term takes away, a prefix sum is at least the whole sum. */
  lemma {:induction false} SumPrefixDominates(vs: seq<Vector>, n: nat)
    requires n <= |vs| && forall i | 0 <= i < |vs| :: vs[i].Within(ZERO)
    ensures Sum(vs).Within(Sum(vs[..n]))
    decreases |vs|
  {
    if n == |vs| {
      assert vs[..n] == vs;
    } else {
      var init := vs[..|vs| - 1];
      SumPrefixDominates(init, n);
      assert init[..n] == vs[..n];
    }
  }

  lemma {:induction false} SumNonNegative(vs: seq<Vector>)
    requires forall i | 0 <= i < |vs| :: vs[i].NonNegative()
    ensures Sum(vs).NonNegative()
  {
    if vs != [] {
      SumNonNegative(vs[..|vs| - 1]);
    }
  }

  // ---- Sums over a finite set of owners ----

  ghost function Pick(owners: set<string>): (x: string)
    requires owners != {}
    ensures x in owners
  {
    var x :| x in owners; x
  }

  /** The sum of `share(x)` over every owner `x`. */
  ghost function SumOver(owners: set<string>, share: string -> Vector): Vector {
    if owners == {} then ZERO
    else var x := Pick(owners); SumOver(owners - {x}, share).Plus(share(x))
  }

  lemma {:induction false} SumOverAgree(owners: set<string>, f: string -> Vector, g: string -> Vector)
    requires forall x | x in owners :: f(x) == g(x)
    ensures SumOver(owners, f) == SumOver(owners, g)
  {
    if owners != {} {
      SumOverAgree(owners - {Pick(owners)}, f, g);
    }
  }

  /** Changing one owner's share by `d` changes the sum by `d`. */
  lemma {:induction false} SumOverUpdate(
    owners: set<string>, f: string -> Vector, g: string -> Vector, y: string, d: Vector)
    requires y in owners && g(y) == f(y).Plus(d)
    requires forall x | x in owners && x != y :: f(x) == g(x)
    ensures SumOver(owners, g) == SumOver(owners, f).Plus(d)
  {
    var x := Pick(owners);
    if x == y {
      SumOverAgree(owners - {x}, f, g);
    } else {
      SumOverUpdate(owners - {x}, f, g, y, d);
    }
  }

  lemma {:induction false} SumOverZero(owners: set<string>, f: string -> Vector)
    requires forall x | x in owners :: f(x) == ZERO
    ensures SumOver(owners, f) == ZERO
  {
    if owners != {} {
      SumOverZero(owners - {Pick(owners)}, f);
    }
  }

  lemma {:induction false} SumOverNonNegative(owners: set<string>, f: string -> Vector)
    requires forall x | x in owners :: f(x).NonNegative()
    ensures SumOver(owners, f).NonNegative()
    ensures forall x | x in owners :: f(x).Within(SumOver(owners, f))
  {
    if owners != {} {
      SumOverNonNegative(owners - {Pick(owners)}, f);
    }
  }
}
