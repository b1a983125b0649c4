/** What admission guarantees: clean rejections, least evictions, and a bound on successive replacements. */
module AdmissionLaws {
  import opened Ledger
  import opened OrderedKeys
  import opened FeeOrder
  import opened Admission

  // ---------------------------------------------------------------- the plan takes no more than it needs

  ghost function FirstHashes(s: seq<Key>, n: nat): seq<Hash>
    requires n <= |s|
  {
    if n == 0 then [] else FirstHashes(s, n - 1) + [s[n - 1].1]
  }

  /** Bytes in use once the first `n` listed entries are gone. */
  ghost function UsedAfter(s: seq<Key>, m: Contents, used: nat, n: nat): nat
    requires Names(s, m) && n <= |s|
  {
    if n == 0 then used else SatSub(UsedAfter(s, m, used, n - 1), m[s[n - 1].1].size)
  }

  lemma {:induction false} UsedAfterTail(s: seq<Key>, m: Contents, used: nat, n: nat)
    requires Names(s, m) && 0 < n <= |s|
    ensures Names(s[1..], m)
    ensures UsedAfter(s, m, used, n) == UsedAfter(s[1..], m, SatSub(used, m[s[0].1].size), n - 1)
    ensures FirstHashes(s, n) == [s[0].1] + FirstHashes(s[1..], n - 1)
    decreases n
  {
    if n > 1 {
      UsedAfterTail(s, m, used, n - 1);
      assert s[1..][n - 2] == s[n - 1];
    }
  }

  /** The plan takes entries from the bottom of the listing, and stops at the first that leaves enough room. */
  lemma {:induction false} PlanIsLeast(s: seq<Key>, m: Contents, used: nat, size: nat, max: nat, budget: nat)
    requires Names(s, m)
    ensures var (victims, left) := Plan(s, m, {}, used, size, max, budget);
            && |victims| <= |s| && |victims| <= budget
            && victims == FirstHashes(s, |victims|) && left == UsedAfter(s, m, used, |victims|)
            && (forall n :: 0 <= n < |victims| ==> UsedAfter(s, m, used, n) + size > max)
            && (left + size <= max || |victims| == budget || |victims| == |s|)
    decreases |s|
  {
    if used + size > max && budget > 0 && s != [] {
      var used' := SatSub(used, m[s[0].1].size);
      PlanIsLeast(s[1..], m, used', size, max, budget - 1);
      var v := Plan(s[1..], m, {}, used', size, max, budget - 1).0;
      UsedAfterTail(s, m, used, |v| + 1);
      forall n | 0 < n <= |v| ensures UsedAfter(s, m, used, n) + size > max {
        UsedAfterTail(s, m, used, n);
      }
    }
  }

  // ---------------------------------------------------------------- clean rejections

  /** The pool's contents after `tx` has been submitted to admission. */
  ghost function After(m: Contents, s: seq<Key>, used: nat, max: nat, tx: Tx, height: nat, time: nat): Contents
    requires Ordered(s) && Lists(s, m)
  {
    var rest := m - Conflicts(m, tx.keyImages) - ToSet(AdmissionPlan(m, s, max, tx).0);
    match Decide(m, s, used, max, tx)
    case Deny(_) => m
    case Exhausted => rest
    case Admit => rest[tx.hash := NewEntry(tx, height, time)]
  }

  lemma {:induction false} UsedAfterShrinks(s: seq<Key>, m: Contents, used: nat, n: nat, k: nat)
    requires Names(s, m) && n <= k <= |s|
    ensures UsedAfter(s, m, used, k) <= UsedAfter(s, m, used, n)
    decreases k
  {
    if n < k {
      UsedAfterShrinks(s, m, used, n, k - 1);
    }
  }

  /** The room `tx` needs beside the pending transactions it does not replace takes exactly the whole eviction budget:
      the 99 cheapest are not enough, the 100 cheapest are. */
  ghost predicate TakesWholeBudget(m: Contents, s: seq<Key>, max: nat, tx: Tx)
    requires Ordered(s) && Lists(s, m)
  {
    var skip := Conflicts(m, tx.keyImages);
    WithoutLists(s, m, skip);
    var rest, w := Without(s, skip), m - skip;
    var used := TotalSize(rest, w);
    |rest| >= 100 && UsedAfter(rest, w, used, 99) + tx.size > max && UsedAfter(rest, w, used, 100) + tx.size <= max
  }

  /** `tx` is small enough, pays the fee floor and may replace what it conflicts with. */
  ghost predicate PassesChecks(m: Contents, used: nat, max: nat, tx: Tx) {
    tx.size <= MAX_TX_SIZE && tx.fee >= MinFee(tx.size, used, max) && CanReplace(m, tx)
  }

  /** The fee floor: 1000 per byte, times 1, 2, 4 or 8 as the pool is less than a quarter, a half or three quarters
      full, or fuller. */
  ghost function FeeFloor(size: nat, used: nat, max: nat): nat {
    if max == 0 || 4 * used < max then size * 1_000
    else if 2 * used < max then size * 2_000
    else if 4 * used < 3 * max then size * 4_000
    else size * 8_000
  }

  /** What each early refusal means: more than 500000 bytes, less than the fee floor, or a pending transaction that
      shares a key image and is not outbid by a quarter (a rate of zero outbids nothing). */
  lemma {:induction false} RefusedWhen(m: Contents, s: seq<Key>, used: nat, max: nat, tx: Tx)
    requires Ordered(s) && Lists(s, m)
    ensures Decide(m, s, used, max, tx) == Deny(TooLarge) <==> tx.size > 500_000
    ensures Decide(m, s, used, max, tx) == Deny(FeeTooLow) <==>
              tx.size <= 500_000 && tx.fee < FeeFloor(tx.size, used, max)
    ensures Decide(m, s, used, max, tx) == Deny(DuplicateKeyImage) <==>
              && tx.size <= 500_000 && tx.fee >= FeeFloor(tx.size, used, max)
              && exists h :: h in m && Overlap(m[h].tx, tx.keyImages) &&
                             (4 * Rate(tx.fee, tx.size) < 5 * m[h].rate || Rate(tx.fee, tx.size) == 0)
  {
    hide Plan, Ordered, Lists, Rate, AdmissionPlan;
    if max > 0 {
      FeeTiers(used, max);
    }
  }

  lemma {:induction false} ExhaustedIff(m: Contents, s: seq<Key>, used: nat, max: nat, tx: Tx)
    requires Ordered(s) && Lists(s, m)
    ensures Decide(m, s, used, max, tx) == Exhausted <==>
              PassesChecks(m, used, max, tx) && TakesWholeBudget(m, s, max, tx)
  {
    hide UsedAfter, Plan, TotalSize, CanReplace, Conflicts, MinFee, Ordered, Lists;
    var skip := Conflicts(m, tx.keyImages);
    WithoutLists(s, m, skip);
    var rest, w := Without(s, skip), m - skip;
    var all := TotalSize(rest, w);
    PlanIsLeast(rest, w, all, tx.size, max, MAX_EVICTION_ATTEMPTS);
    if |rest| >= MAX_EVICTION_ATTEMPTS {
      var n := |AdmissionPlan(m, s, max, tx).0|;
      UsedAfterShrinks(rest, w, all, n, MAX_EVICTION_ATTEMPTS);
      if n < MAX_EVICTION_ATTEMPTS {
        UsedAfterShrinks(rest, w, all, n, MAX_EVICTION_ATTEMPTS - 1);
      }
    }
  }

  /** A rejected submission leaves the pool as it was, unless it passes the size, fee and replacement checks and the
      room it needs takes exactly the whole eviction budget: then 100 transactions, and every transaction it would have
      replaced, are gone and it is rejected all the same. */
  lemma {:induction false} RejectionIsClean(m: Contents, s: seq<Key>, used: nat, max: nat, tx: Tx, height: nat,
                                            time: nat)
    requires Ordered(s) && Lists(s, m) && Decide(m, s, used, max, tx) != Admit
    ensures After(m, s, used, max, tx, height, time) == m <==>
              !(PassesChecks(m, used, max, tx) && TakesWholeBudget(m, s, max, tx))
  {
    hide PassesChecks, TakesWholeBudget;
    ExhaustedIff(m, s, used, max, tx);
    if Decide(m, s, used, max, tx) == Exhausted {
      var skip := Conflicts(m, tx.keyImages);
      var rest := Without(s, skip);
      WithoutLists(s, m, skip);
      PlanVictims(rest, m - skip, {}, TotalSize(rest, m - skip), tx.size, max, MAX_EVICTION_ATTEMPTS);
      var victims := AdmissionPlan(m, s, max, tx).0;
      var h := victims[0];
      assert h in victims;
      var i :| 0 <= i < |rest| && rest[i].1 == h;
      assert ListedAt(rest, m - skip, rest[i]);
      assert h in m && h in ToSet(victims);
      assert h !in After(m, s, used, max, tx, height, time);
    }
  }

  /** One-byte transactions 0..n-1 with rising fees. */
  ghost function Small(i: nat): Entry {
    NewEntry(Tx(i, false, MIN_FEE_PER_BYTE + i, 1, 1, []), 0, 0)
  }

  ghost function SmallPool(n: nat): (m: Contents)
    ensures forall h: nat :: h in m <==> h < n
    ensures forall h: nat :: h in m ==> m[h] == Small(h)
  {
    if n == 0 then map[] else SmallPool(n - 1)[n - 1 := Small(n - 1)]
  }

  ghost function SmallKey(i: nat): Key {
    ((MIN_FEE_PER_BYTE + i) * FEE_SCALE, i)
  }

  ghost function SmallIndex(lo: nat, hi: nat): (s: seq<Key>)
    requires lo <= hi
    ensures |s| == hi - lo && forall i :: 0 <= i < hi - lo ==> s[i] == SmallKey(lo + i)
    decreases hi - lo
  {
    if lo == hi then [] else [SmallKey(lo)] + SmallIndex(lo + 1, hi)
  }

  lemma {:induction false} SmallListed(n: nat)
    requires n <= 100
    ensures Ordered(SmallIndex(0, n)) && Lists(SmallIndex(0, n), SmallPool(n)) && Names(SmallIndex(0, n), SmallPool(n))
    ensures EntriesOk(SmallPool(n)) && Exclusive(SmallPool(n))
  {
    var s, m := SmallIndex(0, n), SmallPool(n);
    forall h | h in m ensures EntryOk(m, h) {
      assert m[h] == Small(h);
    }
    forall k: Key ensures ListedAt(s, m, k) {
      SmallRate(k.1);
      if k in s {
        var i :| 0 <= i < |s| && s[i] == k;
        assert k == SmallKey(i);
        SmallRate(i);
      }
      if k.1 in m && m[k.1].rate == k.0 {
        assert s[k.1] == SmallKey(k.1) && k == SmallKey(k.1);
      }
    }
    ListsNames(s, m);
  }

  lemma {:induction false} SmallRate(i: nat)
    ensures i <= 100 ==> Small(i).rate == (MIN_FEE_PER_BYTE + i) * FEE_SCALE && Small(i).size == 1
  {
  }

  lemma {:induction false} SmallPlan(n: nat, lo: nat, hi: nat, size: nat)
    requires lo <= hi <= n <= 100 && size > 0
    ensures Names(SmallIndex(lo, hi), SmallPool(n)) && TotalSize(SmallIndex(lo, hi), SmallPool(n)) == hi - lo
    ensures var (victims, left) := Plan(SmallIndex(lo, hi), SmallPool(n), {}, hi - lo, size, size, hi - lo);
            |victims| == hi - lo && left == 0
    decreases hi - lo
  {
    if lo < hi {
      SmallPlan(n, lo + 1, hi, size);
      SmallRate(lo);
      assert SmallIndex(lo, hi)[1..] == SmallIndex(lo + 1, hi);
      assert SmallIndex(lo, hi)[0].1 == lo;
    }
  }

  /** The submission that empties a full pool of `n` one-byte transactions. */
  function Big(n: nat): Tx {
    Tx(1000, false, n * MIN_FEE_PER_BYTE * 8, n, 1, [])
  }

  lemma {:induction false} SmallCovered(n: nat, hs: seq<Hash>)
    requires n <= 100 && hs == FirstHashes(SmallIndex(0, n), n)
    ensures SmallPool(n) - ToSet(hs) == map[]
  {
    forall h | h in SmallPool(n) ensures h in ToSet(hs) {
      FirstHashesAt(SmallIndex(0, n), n, h);
      assert hs[h] == h;
    }
  }

  lemma {:induction false} SmallVictims(n: nat)
    requires 0 < n <= 100
    ensures var s, m := SmallIndex(0, n), SmallPool(n);
            && Names(s, m) && TotalSize(s, m) == n
            && var (victims, left) := Plan(s, m, {}, n, n, n, n);
            |victims| == n && left == 0 && m - ToSet(victims) == map[]
  {
    hide Plan, TotalSize, UsedAfter, FirstHashes, ToSet, Names;
    SmallPlan(n, 0, n, n);
    PlanIsLeast(SmallIndex(0, n), SmallPool(n), n, n, n, n);
    SmallCovered(n, Plan(SmallIndex(0, n), SmallPool(n), {}, n, n, n, n).0);
  }

  lemma {:induction false} NoConflicts(s: seq<Key>, m: Contents, max: nat, tx: Tx)
    requires Ordered(s) && Lists(s, m) && Names(s, m) && tx.keyImages == []
    ensures Conflicts(m, tx.keyImages) == {} && m - {} == m && CanReplace(m, tx)
    ensures AdmissionPlan(m, s, max, tx) == Plan(s, m, {}, TotalSize(s, m), tx.size, max, MAX_EVICTION_ATTEMPTS)
  {
    assert Conflicts(m, []) == {} && m - {} == m;
    ListingIsWithout(s, s, m, {});
  }

  /** Such a rejection exists: a full pool of 100 one-byte transactions is emptied by a 100-byte submission that is then
      rejected. */
  lemma {:induction false} RejectionEmptiesPool(n: nat)
    requires n == 100
    ensures var s, m := SmallIndex(0, n), SmallPool(n);
            && Ordered(s) && Lists(s, m) && Names(s, m) && EntriesOk(m) && Exclusive(m) && TotalSize(s, m) == n
            && Decide(m, s, n, n, Big(n)) == Exhausted && After(m, s, n, n, Big(n), 0, 0) == map[]
  {
    hide Lists, Ordered, EntriesOk, Exclusive, Plan, TotalSize, Names, SmallIndex, SmallPool, AdmissionPlan, ToSet,
         Conflicts, CanReplace;
    var s, m := SmallIndex(0, n), SmallPool(n);
    SmallListed(n);
    SmallVictims(n);
    NoConflicts(s, m, n, Big(n));
  }

  lemma {:induction false} FirstHashesAt(s: seq<Key>, n: nat, i: nat)
    requires i < n <= |s|
    ensures |FirstHashes(s, n)| == n && FirstHashes(s, n)[i] == s[i].1
  {
    if i < n - 1 {
      FirstHashesAt(s, n - 1, i);
    } else if n > 1 {
      FirstHashesAt(s, n - 1, 0);
    }
  }

  /** Only the cheapest go: whatever is evicted for `tx` has a lower rate than everything that stays, or the same rate
      and a smaller hash. */
  lemma {:induction false} EvictsCheapest(m: Contents, s: seq<Key>, max: nat, tx: Tx, h: Hash, g: Hash)
    requires Ordered(s) && Lists(s, m) && h in AdmissionPlan(m, s, max, tx).0
    requires g in m - Conflicts(m, tx.keyImages) - ToSet(AdmissionPlan(m, s, max, tx).0)
    ensures h in m && (m[h].rate < m[g].rate || (m[h].rate == m[g].rate && h < g))
  {
    hide Plan, Without, FirstHashes, UsedAfter, Lists;
    var skip := Conflicts(m, tx.keyImages);
    WithoutLists(s, m, skip);
    var rest, w := Without(s, skip), m - skip;
    PlanIsLeast(rest, w, TotalSize(rest, w), tx.size, max, MAX_EVICTION_ATTEMPTS);
    var victims := AdmissionPlan(m, s, max, tx).0;
    var i :| 0 <= i < |victims| && victims[i] == h;
    FirstHashesAt(rest, |victims|, i);
    ListedOnce(rest, w, rest[i]);
    ListedOnce(rest, w, (m[g].rate, g));
    var j :| 0 <= j < |rest| && rest[j] == (m[g].rate, g);
    if j < |victims| {
      FirstHashesAt(rest, |victims|, j);
    }
    assert Below(rest[i], rest[j]);
  }

  lemma {:induction false} ListedOnce(s: seq<Key>, m: Contents, k: Key)
    requires Lists(s, m)
    ensures k in s <==> k.1 in m && m[k.1].rate == k.0
  {
    assert ListedAt(s, m, k);
  }

  // ---------------------------------------------------------------- successive replacements

  /** The fee rates of transactions that were admitted one after the other, each replacing the one before. */
  ghost predicate ReplacementChain(rates: seq<nat>) {
    && rates != [] && rates[0] >= MIN_FEE_PER_BYTE * FEE_SCALE
    && (forall i :: 0 <= i < |rates| ==> rates[i] <= U64_MAX)
    && (forall i {:trigger BumpAt(rates, i)} :: 0 < i < |rates| ==> BumpAt(rates, i))
  }

  ghost predicate BumpAt(rates: seq<nat>, i: int)
    requires 0 < i < |rates|
  {
    Bumps(rates[i], rates[i - 1])
  }

  /** An admitted transaction extends the chain of each one it replaces. */
  lemma {:induction false} ReplacementExtends(m: Contents, s: seq<Key>, used: nat, max: nat, tx: Tx, rates: seq<nat>,
                                              h: Hash)
    requires Ordered(s) && Lists(s, m) && Decide(m, s, used, max, tx) == Admit
    requires h in Conflicts(m, tx.keyImages) && ReplacementChain(rates) && rates[|rates| - 1] == m[h].rate
    ensures ReplacementChain(rates + [Rate(tx.fee, tx.size)])
  {
    var longer := rates + [Rate(tx.fee, tx.size)];
    forall i | 0 < i < |longer| ensures BumpAt(longer, i) {
      assert i < |rates| ==> BumpAt(rates, i);
    }
  }

  /** And one that replaces nothing starts one. */
  lemma {:induction false} AdmissionStarts(m: Contents, s: seq<Key>, used: nat, max: nat, tx: Tx)
    requires Ordered(s) && Lists(s, m) && Decide(m, s, used, max, tx) == Admit && tx.size >= 1
    ensures ReplacementChain([Rate(tx.fee, tx.size)])
  {
    var base := tx.size * MIN_FEE_PER_BYTE;
    assert base * FeeMultiplier(used, max) >= base;
    RateFloor(tx.fee, tx.size);
  }

  function Power(b: nat, n: nat): nat {
    if n == 0 then 1 else b * Power(b, n - 1)
  }

  /** After `n` replacements the rate has grown at least by the factor (5/4)^n. */
  lemma {:induction false} GrowsGeometrically(rates: seq<nat>, n: nat)
    requires ReplacementChain(rates) && n < |rates|
    ensures rates[n] * Power(4, n) >= rates[0] * Power(5, n)
  {
    if n > 0 {
      GrowsGeometrically(rates, n - 1);
      assert BumpAt(rates, n);
      Compound(rates[n], rates[n - 1], rates[0], Power(4, n - 1), Power(5, n - 1));
    }
  }

  lemma {:induction false} Compound(r: nat, x: nat, first: nat, f: nat, g: nat)
    requires 4 * r >= 5 * x && x * f >= first * g
    ensures r * (4 * f) >= first * (5 * g)
  {
    assert r * (4 * f) == (4 * r) * f;
    assert (4 * r) * f >= (5 * x) * f;
    assert (5 * x) * f == 5 * (x * f);
    assert first * (5 * g) == 5 * (first * g);
  }

  /** The smallest number reached from `first` by `n` steps of at least 25%, in integers. */
  function Bumped(first: nat, n: nat): nat {
    if n == 0 then first else (5 * Bumped(first, n - 1) + 3) / 4
  }

  lemma {:induction false} RateGrows(rates: seq<nat>, n: nat)
    requires ReplacementChain(rates) && n < |rates|
    ensures rates[n] >= Bumped(MIN_FEE_PER_BYTE * FEE_SCALE, n)
  {
    if n > 0 {
      RateGrows(rates, n - 1);
      assert BumpAt(rates, n);
    }
  }

  lemma {:induction false} BumpedGrows(first: nat, n: nat, k: nat)
    requires n <= k
    ensures Bumped(first, n) <= Bumped(first, k)
    decreases k
  {
    if n < k {
      BumpedGrows(first, n, k - 1);
    }
  }

  lemma {:induction false} OneBump(first: nat, n: nat)
    ensures 5 * Bumped(first, n) <= 4 * Bumped(first, n + 1) <= 5 * Bumped(first, n) + 3
  {
  }

  /** Ten steps multiply by (5/4)^10, up to rounding. */
  lemma {:induction false} TenBumps(first: nat, n: nat)
    ensures 9765625 * Bumped(first, n) <= 1048576 * Bumped(first, n + 10) <= 9765625 * Bumped(first, n) + 26151147
  {
    hide Bumped;
    OneBump(first, n);
    OneBump(first, n + 1);
    OneBump(first, n + 2);
    OneBump(first, n + 3);
    OneBump(first, n + 4);
    OneBump(first, n + 5);
    OneBump(first, n + 6);
    OneBump(first, n + 7);
    OneBump(first, n + 8);
    OneBump(first, n + 9);
  }

  lemma {:induction false} BumpedZero(first: nat)
    ensures Bumped(first, 0) == first
  {
  }

  /** From the lowest rate, 106 steps pass 64 bits. */
  lemma {:induction false} RateRunsOut(first: nat)
    requires first == MIN_FEE_PER_BYTE * FEE_SCALE
    ensures Bumped(first, 106) > U64_MAX
  {
    hide Bumped;
    BumpedZero(first);
    TenBumps(first, 0);
    assert 9313225747 <= Bumped(first, 10);
    TenBumps(first, 10);
    assert 86736173807 <= Bumped(first, 20);
    TenBumps(first, 20);
    assert 807793567023 <= Bumped(first, 30);
    TenBumps(first, 30);
    assert 7523163845977 <= Bumped(first, 40);
    TenBumps(first, 40);
    assert 70064923222894 <= Bumped(first, 50);
    TenBumps(first, 50);
    assert 652530446861815 <= Bumped(first, 60);
    TenBumps(first, 60);
    assert 6077163357863343 <= Bumped(first, 70);
    TenBumps(first, 70);
    assert 56597994248041353 <= Bumped(first, 80);
    TenBumps(first, 80);
    assert 527109897211579169 <= Bumped(first, 90);
    TenBumps(first, 90);
    assert 4909093465763881514 <= Bumped(first, 100);
    OneBump(first, 100);
    OneBump(first, 101);
    OneBump(first, 102);
    OneBump(first, 103);
    OneBump(first, 104);
    OneBump(first, 105);
  }

  /** A pending payment can be replaced at most 105 times in a row, because the rate cannot pass 64 bits. */
  lemma {:induction false} AtMost105Replacements(rates: seq<nat>)
    requires ReplacementChain(rates)
    ensures |rates| <= 106
  {
    hide Bumped;
    RateRunsOut(MIN_FEE_PER_BYTE * FEE_SCALE);
    if |rates| > 106 {
      RateGrows(rates, 106);
    }
  }

  // ---------------------------------------------------------------- whole runs of submissions

  /** A transaction is submitted, and afterwards others are removed for whatever reason. `index` is the fee index at the
      time. */
  datatype Submission = Submission(tx: Tx, index: seq<Key>, used: nat, max: nat, height: nat, time: nat,
                                   removed: set<Hash>)

  ghost predicate Proceeds(m: Contents, x: Submission) {
    Ordered(x.index) && Lists(x.index, m) && x.tx.size >= 1
  }

  ghost function Onward(m: Contents, x: Submission): Contents
    requires Proceeds(m, x)
  {
    After(m, x.index, x.used, x.max, x.tx, x.height, x.time) - x.removed
  }

  /** The pool after the first `n` submissions, from an empty one; `None` if one of them is not about the pool it
      finds. */
  ghost function PoolAfter(xs: seq<Submission>, n: nat): Option<Contents>
    requires n <= |xs|
  {
    if n == 0 then Some(map[])
    else
      var before := PoolAfter(xs, n - 1);
      if before.Some? && Proceeds(before.value, xs[n - 1]) then Some(Onward(before.value, xs[n - 1])) else None
  }

  /** `rates` are the rates of a line of admitted transactions, each of which replaced the one before, that ends in the
      pending transaction `h`. */
  ghost predicate History(xs: seq<Submission>, n: nat, h: Hash, rates: seq<nat>)
    requires n <= |xs|
    decreases n
  {
    && n > 0
    && var before, x := PoolAfter(xs, n - 1), xs[n - 1];
    && before.Some? && Proceeds(before.value, x)
    && var m := before.value;
    if h == x.tx.hash && Decide(m, x.index, x.used, x.max, x.tx) == Admit then
      && rates != [] && rates[|rates| - 1] == Rate(x.tx.fee, x.tx.size)
      && var replaced := Conflicts(m, x.tx.keyImages);
      (|rates| == 1 || exists g :: g in replaced && History(xs, n - 1, g, rates[..|rates| - 1]))
    else History(xs, n - 1, h, rates)
  }

  /** After any run of submissions and removals, a pending transaction stands at the end of at most 105 replacements,
      and the rates along the line grew at least by the factor 5/4 each time. */
  lemma {:induction false} RunOfReplacements(xs: seq<Submission>, n: nat, h: Hash, rates: seq<nat>)
    requires n <= |xs| && PoolAfter(xs, n).Some? && h in PoolAfter(xs, n).value && History(xs, n, h, rates)
    ensures ReplacementChain(rates) && rates[|rates| - 1] == PoolAfter(xs, n).value[h].rate && |rates| <= 106
    decreases n
  {
    hide Ordered, Lists, Conflicts, ReplacementChain, Decide, AdmissionPlan, Rate;
    var m, x := PoolAfter(xs, n - 1).value, xs[n - 1];
    if h == x.tx.hash && Decide(m, x.index, x.used, x.max, x.tx) == Admit {
      var last := Rate(x.tx.fee, x.tx.size);
      if |rates| == 1 {
        AdmissionStarts(m, x.index, x.used, x.max, x.tx);
        assert rates == [last];
      } else {
        var g :| g in Conflicts(m, x.tx.keyImages) && History(xs, n - 1, g, rates[..|rates| - 1]);
        RunOfReplacements(xs, n - 1, g, rates[..|rates| - 1]);
        ReplacementExtends(m, x.index, x.used, x.max, x.tx, rates[..|rates| - 1], g);
        assert rates == rates[..|rates| - 1] + [last];
      }
    } else {
      OldEntry(m, x, h);
      RunOfReplacements(xs, n - 1, h, rates);
    }
    AtMost105Replacements(rates);
  }

  /** What is pending after a submission and is not the admitted transaction was pending before. */
  lemma {:induction false} OldEntry(m: Contents, x: Submission, h: Hash)
    requires Proceeds(m, x) && h in Onward(m, x)
    requires !(h == x.tx.hash && Decide(m, x.index, x.used, x.max, x.tx) == Admit)
    ensures h in m && Onward(m, x)[h] == m[h]
  {
    hide Ordered, Lists, Decide, AdmissionPlan, Conflicts;
  }

  // ---------------------------------------------------------------- the bound is reached

  const BID_SIZE: nat := 1_000

  /** The `n`th bid for one key image: a thousand bytes, and a quarter more than the bid before. */
  function Bid(n: nat): Tx {
    Tx(n, false, Bumped(BID_SIZE * MIN_FEE_PER_BYTE, n), BID_SIZE, 1, [7])
  }

  function BidRate(n: nat): nat {
    Bumped(BID_SIZE * MIN_FEE_PER_BYTE, n) * (FEE_SCALE / BID_SIZE)
  }

  function BidPool(n: nat): Contents {
    map[n := NewEntry(Bid(n), 0, 0)]
  }

  function BidIndex(n: nat): seq<Key> {
    [(BidRate(n), n)]
  }

  lemma {:induction false} LastBidFits(first: nat)
    requires first == 1_000_000
    ensures Bumped(first, 105) <= 18446744073709551
  {
    hide Bumped;
    BumpedZero(first);
    TenBumps(first, 0);
    assert Bumped(first, 10) <= 9313250;
    TenBumps(first, 10);
    assert Bumped(first, 20) <= 86736424;
    TenBumps(first, 20);
    assert Bumped(first, 30) <= 807795922;
    TenBumps(first, 30);
    assert Bumped(first, 40) <= 7523185803;
    TenBumps(first, 40);
    assert Bumped(first, 50) <= 70065127738;
    TenBumps(first, 50);
    assert Bumped(first, 60) <= 652532351582;
    TenBumps(first, 60);
    assert Bumped(first, 70) <= 6077181096977;
    TenBumps(first, 70);
    assert Bumped(first, 80) <= 56598159456436;
    TenBumps(first, 80);
    assert Bumped(first, 90) <= 527111435834678;
    TenBumps(first, 90);
    assert Bumped(first, 100) <= 4909107795308164;
    OneBump(first, 100);
    OneBump(first, 101);
    OneBump(first, 102);
    OneBump(first, 103);
    OneBump(first, 104);
  }

  lemma {:induction false} BidsFit(first: nat, n: nat)
    requires first == BID_SIZE * MIN_FEE_PER_BYTE && n <= 105
    ensures first <= Bumped(first, n) && Bumped(first, n) * (FEE_SCALE / BID_SIZE) <= U64_MAX
  {
    hide Bumped;
    LastBidFits(first);
    BumpedZero(first);
    BumpedGrows(first, 0, n);
    BumpedGrows(first, n, 105);
  }

  lemma {:induction false} BidRateIs(n: nat)
    requires n <= 105
    ensures Rate(Bid(n).fee, BID_SIZE) == BidRate(n) && Bid(n).fee >= BID_SIZE * MIN_FEE_PER_BYTE
  {
    hide Bumped;
    BidsFit(BID_SIZE * MIN_FEE_PER_BYTE, n);
  }

  lemma {:induction false} BidListed(n: nat)
    requires n <= 105
    ensures Ordered(BidIndex(n)) && Lists(BidIndex(n), BidPool(n))
  {
    hide Bumped, Rate;
    BidRateIs(n);
    forall k: Key ensures ListedAt(BidIndex(n), BidPool(n), k) {
    }
  }

  /** The bid `n + 1` conflicts with the bid `n` alone, and outbids it. */
  lemma {:induction false} BidReplaces(n: nat)
    requires n < 105
    ensures Conflicts(BidPool(n), Bid(n + 1).keyImages) == {n} && CanReplace(BidPool(n), Bid(n + 1))
  {
    hide Bumped, Rate;
    BidRateIs(n);
    BidRateIs(n + 1);
    OneBump(BID_SIZE * MIN_FEE_PER_BYTE, n);
    assert 7 in Bid(n + 1).keyImages && 7 in BidPool(n)[n].tx.keyImages;
    assert Overlap(BidPool(n)[n].tx, Bid(n + 1).keyImages);
  }

  lemma {:induction false} BidFits(m: Contents, s: seq<Key>, max: nat, tx: Tx)
    requires Ordered(s) && Lists(s, m) && Conflicts(m, tx.keyImages) == m.Keys && tx.size <= max
    ensures AdmissionPlan(m, s, max, tx) == ([], 0)
  {
    var skip := Conflicts(m, tx.keyImages);
    WithoutLists(s, m, skip);
    assert m - skip == map[];
    ListsNonEmpty(Without(s, skip), m - skip);
  }

  /** A payment can indeed be replaced 105 times in a row: in any pool larger than 4,000 bytes the first bid is
      admitted, and each of the next 105 bids is admitted and replaces the one before. */
  lemma {:induction false} As105Replacements(max: nat, n: nat)
    requires max > 4 * BID_SIZE && n <= 105
    ensures Ordered([]) && Lists([], map[]) && Decide(map[], [], 0, max, Bid(0)) == Admit
    ensures After(map[], [], 0, max, Bid(0), 0, 0) == BidPool(0)
    ensures Ordered(BidIndex(n)) && Lists(BidIndex(n), BidPool(n))
    ensures n < 105 ==>
              && Decide(BidPool(n), BidIndex(n), BID_SIZE, max, Bid(n + 1)) == Admit
              && Conflicts(BidPool(n), Bid(n + 1).keyImages) == {n}
              && After(BidPool(n), BidIndex(n), BID_SIZE, max, Bid(n + 1), 0, 0) == BidPool(n + 1)
  {
    hide Bumped, Rate, Ordered, Lists, Conflicts, CanReplace, AdmissionPlan, NewEntry;
    EmptyPool(Bid(0));
    BidFits(map[], [], max, Bid(0));
    BidRateIs(0);
    FeeTiers(0, max);
    BidListed(n);
    if n < 105 {
      BidReplaces(n);
      BidFits(BidPool(n), BidIndex(n), max, Bid(n + 1));
      BidRateIs(n + 1);
      FeeTiers(BID_SIZE, max);
      assert BidPool(n) - {n} == map[];
    }
    assert ToSet([]) == {};
  }

  lemma {:induction false} EmptyPool(tx: Tx)
    ensures Ordered([]) && Lists([], map[]) && Conflicts(map[], tx.keyImages) == {} && CanReplace(map[], tx)
  {
    forall k: Key ensures ListedAt([], map[], k) {
    }
  }
}
