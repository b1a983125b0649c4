/** Which chain wins, and how deep a reorganisation may reach. */
module ForkChoice {
  import opened Ledger

  const REORG_UNCONDITIONAL_DEPTH: nat := 10
  const MESS_EXPONENT_DIVISOR: nat := 20
  const MESS_EXPONENT_CAP: nat := 40
  const BOOTSTRAP_MESS_HEIGHT: nat := 1000
  const CHECKPOINT_INTERVAL: nat := 144

  function Pow2(n: nat): (p: nat)
    ensures p >= 1
  {
    if n == 0 then 1 else 2 * Pow2(n - 1)
  }

  /** The work multiplier of the cost curve at a reorganisation depth above the unconditional one. */
  function Multiplier(depth: nat): (m: nat)
    ensures m >= 1
  {
    if depth <= REORG_UNCONDITIONAL_DEPTH then 1
    else
      var e := (depth - REORG_UNCONDITIONAL_DEPTH) / MESS_EXPONENT_DIVISOR;
      Pow2(if e <= MESS_EXPONENT_CAP then e else MESS_EXPONENT_CAP)
  }

  function SatMul(a: nat, b: nat, max: nat): nat {
    if a * b <= max then a * b else max
  }

  /** The three-tier acceptance rule for a reorganisation. */
  function Acceptable(depth: nat, forkWork: nat, honestWork: nat, currentHeight: nat, maxDepth: nat): bool {
    if depth > maxDepth then false
    else if depth <= REORG_UNCONDITIONAL_DEPTH then forkWork >= honestWork
    else if currentHeight < BOOTSTRAP_MESS_HEIGHT then forkWork >= honestWork
    else forkWork > SatMul(honestWork, Multiplier(depth), U128_MAX)
  }

  /** The fork-choice order: more work first, then the smaller hash. */
  predicate Beats(work: nat, hash: Hash, work': nat, hash': Hash) {
    work > work' || (work == work' && hash < hash')
  }

  /** The highest checkpoint boundary at or below a height: nothing below it may be reorganised. */
  function Floor(h: nat): (f: nat)
    ensures f <= h < f + CHECKPOINT_INTERVAL && f % CHECKPOINT_INTERVAL == 0
  {
    h - h % CHECKPOINT_INTERVAL
  }

  lemma {:induction false} FloorMonotone(a: nat, b: nat)
    requires Floor(a) <= b
    ensures Floor(a) <= Floor(b)
  {
    var f := Floor(a);
    assert f % CHECKPOINT_INTERVAL == 0;
  }

  lemma {:induction false} Pow2Monotone(a: nat, b: nat)
    requires a <= b
    ensures Pow2(a) <= Pow2(b)
    decreases b - a
  {
    if a < b {
      Pow2Monotone(a, b - 1);
    }
  }

  lemma {:induction false} MultiplierMonotone(d: nat, d': nat)
    requires d <= d'
    ensures Multiplier(d) <= Multiplier(d')
  {
    if d > REORG_UNCONDITIONAL_DEPTH {
      var e := (d - REORG_UNCONDITIONAL_DEPTH) / MESS_EXPONENT_DIVISOR;
      var e' := (d' - REORG_UNCONDITIONAL_DEPTH) / MESS_EXPONENT_DIVISOR;
      assert e <= e';
      Pow2Monotone(if e <= MESS_EXPONENT_CAP then e else MESS_EXPONENT_CAP,
                   if e' <= MESS_EXPONENT_CAP then e' else MESS_EXPONENT_CAP);
    }
  }

  /** The multiplier doubles every 20 blocks of depth until it is capped at 2^40. */
  lemma {:induction false} MultiplierDoubles(depth: nat)
    requires depth >= REORG_UNCONDITIONAL_DEPTH
    ensures Multiplier(depth + MESS_EXPONENT_DIVISOR) ==
            if depth < REORG_UNCONDITIONAL_DEPTH + MESS_EXPONENT_DIVISOR * MESS_EXPONENT_CAP
            then 2 * Multiplier(depth) else Multiplier(depth)
  {
    var e := (depth - REORG_UNCONDITIONAL_DEPTH) / MESS_EXPONENT_DIVISOR;
    assert (depth + MESS_EXPONENT_DIVISOR - REORG_UNCONDITIONAL_DEPTH) / MESS_EXPONENT_DIVISOR == e + 1;
    assert Pow2(0) == 1;
  }

  lemma {:induction false} ProductMonotone(a: nat, b: nat, c: nat, d: nat)
    requires a <= c && b <= d
    ensures a * b <= c * d
  {
    assert a * b <= c * b;
    assert c * b <= c * d;
  }

  /** Acceptance is monotone over all three tiers: a shallower fork with at least as much work against a chain with at
      most as much work is accepted whenever the deeper one was. No tier boundary rewards a deeper reorganisation. */
  lemma {:induction false} AcceptanceMonotone(d: nat, f: nat, w: nat, d': nat, f': nat, w': nat, height: nat, max: nat)
    requires d' <= d && f' >= f && w' <= w && f' <= U128_MAX
    requires Acceptable(d, f, w, height, max)
    ensures Acceptable(d', f', w', height, max)
  {
    MultiplierMonotone(d', d);
    ProductMonotone(w', Multiplier(d'), w, Multiplier(d));
    ProductMonotone(w', 1, w, Multiplier(d));
  }

  /** Shallow forks, and all forks below height 1000, are accepted when they have no less work. */
  lemma {:induction false} CostFree(d: nat, f: nat, w: nat, height: nat, max: nat)
    requires d <= 10 || height < 1000
    ensures Acceptable(d, f, w, height, max) <==> d <= max && f >= w
  {
  }

  /** The cost curve: from height 1000 on, a fork of depth above 10 needs more than 2^k times the work of the chain it
      replaces once it is 10 + 20k deep, for k up to 40, and up to the next step any fork above that bound is accepted.
      The bound saturates at 128 bits. */
  lemma {:induction false} CostCurve(d: nat, f: nat, w: nat, height: nat, max: nat, k: nat)
    requires height >= 1000 && 10 < d <= max && 10 + 20 * k <= d && k <= 40
    ensures Acceptable(d, f, w, height, max) ==> f > w * Pow2(k) || f > U128_MAX
    ensures (d < 30 + 20 * k || k == 40) && (f > w * Pow2(k) || f > U128_MAX) ==> Acceptable(d, f, w, height, max)
  {
    var e := (d - 10) / 20;
    assert e >= k;
    var n := if e <= 40 then e else 40;
    assert Multiplier(d) == Pow2(n);
    Pow2Monotone(k, n);
    ProductMonotone(w, Pow2(k), w, Pow2(n));
  }

  /** Whatever the depth, an accepted fork never has less work than the chain it replaces. */
  lemma {:induction false} AcceptedHasWork(d: nat, f: nat, w: nat, height: nat, max: nat)
    requires f <= U128_MAX && Acceptable(d, f, w, height, max)
    ensures d <= max && f >= w
  {
    ProductMonotone(w, 1, w, Multiplier(d));
  }
}
