/** Which transactions the mempool admits, what they replace, and what is evicted to make room. */
module Admission {
  import opened Ledger
  import opened OrderedKeys
  import opened FeeOrder

  const MIN_FEE_PER_BYTE: nat := 1_000
  const MAX_TX_SIZE: nat := 500_000
  const MAX_EVICTION_ATTEMPTS: nat := 100
  const TX_EXPIRY_BLOCKS: nat := 288
  const RBF_FEE_BUMP_NUMERATOR: nat := 125
  const RBF_FEE_BUMP_DENOMINATOR: nat := 100

  datatype Reason = Coinbase | Malformed | BadProof | TooLarge | FeeTooLow | DuplicateKeyImage | Full

  // ---------------------------------------------------------------- contents

  type Contents = map<Hash, Entry>

  /** Every entry is filed under its transaction's hash with the metadata computed from it, is not a coinbase, and pays
      at least the base fee rate. */
  ghost predicate EntryOk(m: Contents, h: Hash)
    requires h in m
  {
    var e := m[h];
    && e == NewEntry(e.tx, e.heightAdded, e.addedTime) && e.tx.hash == h && !e.tx.coinbase
    && e.tx.size <= MAX_TX_SIZE && e.tx.fee >= e.tx.size * MIN_FEE_PER_BYTE
  }

  ghost predicate EntriesOk(m: Contents) {
    forall h {:trigger EntryOk(m, h)} :: h in m ==> EntryOk(m, h)
  }

  function KeysOf(tx: Tx): (ks: set<KeyImage>)
    ensures forall k :: k in ks <==> k in tx.keyImages
  {
    set k | k in tx.keyImages
  }

  /** The key images of all pending transactions. */
  ghost function KeyImages(m: Contents): (ks: set<KeyImage>)
    ensures forall k {:trigger k in ks} :: k in ks <==> exists h {:trigger Uses(m, h, k)} :: Uses(m, h, k)
  {
    set h, k | h in m && k in m[h].tx.keyImages && Uses(m, h, k) :: k
  }

  ghost predicate Uses(m: Contents, h: Hash, k: KeyImage) {
    h in m && k in m[h].tx.keyImages
  }

  /** No two pending transactions share a key image. */
  ghost predicate Exclusive(m: Contents) {
    forall h, g, k {:trigger Uses(m, h, k), Uses(m, g, k)} :: Uses(m, h, k) && Uses(m, g, k) ==> h == g
  }

  ghost predicate Overlap(tx: Tx, ks: seq<KeyImage>) {
    exists k :: k in ks && k in tx.keyImages
  }

  /** The pending transactions that spend one of the key images `ks`. */
  ghost function Conflicts(m: Contents, ks: seq<KeyImage>): (hs: set<Hash>)
    ensures forall h :: h in hs <==> h in m && Overlap(m[h].tx, ks)
  {
    set h | h in m && Overlap(m[h].tx, ks)
  }

  lemma {:induction false} ConflictsNext(m: Contents, ks: seq<KeyImage>, k: KeyImage)
    requires Exclusive(m)
    ensures k !in KeyImages(m) ==> Conflicts(m, ks + [k]) == Conflicts(m, ks)
    ensures forall h {:trigger Uses(m, h, k)} :: Uses(m, h, k) ==> Conflicts(m, ks + [k]) == Conflicts(m, ks) + {h}
  {
    forall g | g in m ensures Overlap(m[g].tx, ks + [k]) <==> Overlap(m[g].tx, ks) || Uses(m, g, k) {
      if Overlap(m[g].tx, ks) {
        var x :| x in ks && x in m[g].tx.keyImages;
        assert x in ks + [k];
      }
      assert k in ks + [k];
    }
    forall h | Uses(m, h, k) ensures Conflicts(m, ks + [k]) == Conflicts(m, ks) + {h} {
      forall g ensures g in Conflicts(m, ks + [k]) <==> g in Conflicts(m, ks) + {h} {
        assert Uses(m, g, k) ==> g == h;
      }
    }
  }

  /** The replacement rule: at least a 25% higher rate. */
  predicate Bumps(rate: nat, replaced: nat) {
    rate * RBF_FEE_BUMP_DENOMINATOR >= replaced * RBF_FEE_BUMP_NUMERATOR && rate > replaced
  }

  ghost predicate CanReplace(m: Contents, tx: Tx) {
    forall h :: h in Conflicts(m, tx.keyImages) ==> Bumps(Rate(tx.fee, tx.size), m[h].rate)
  }

  // ---------------------------------------------------------------- fees

  /** The fee floor rises as the pool fills. */
  function FeeMultiplier(used: nat, max: nat): nat {
    var fullness := if max > 0 then used * 100 / max else 0;
    if fullness <= 24 then 1 else if fullness <= 49 then 2 else if fullness <= 74 then 4 else 8
  }

  function MinFee(size: nat, used: nat, max: nat): nat {
    size * MIN_FEE_PER_BYTE * FeeMultiplier(used, max)
  }

  /** An admitted transaction's rate is at least a billion: a thousand per byte, scaled. */
  lemma {:induction false} RateFloor(fee: nat, size: nat)
    requires fee >= size * MIN_FEE_PER_BYTE && 1 <= size
    ensures Rate(fee, size) >= MIN_FEE_PER_BYTE * FEE_SCALE
  {
    var c := MIN_FEE_PER_BYTE * FEE_SCALE;
    assert fee * FEE_SCALE >= size * c;
    QuotientAtLeast(fee * FEE_SCALE, size, c);
  }

  /** The tiers by share of the pool in use, in exact terms: a quarter, a half, three quarters. */
  lemma {:induction false} FeeTiers(used: nat, max: nat)
    requires max > 0
    ensures FeeMultiplier(used, max) == if 4 * used < max then 1 else if 2 * used < max then 2
                                        else if 4 * used < 3 * max then 4 else 8
  {
    var f := used * 100 / max;
    assert max * f <= used * 100 < max * f + max;
    Threshold(used, max, f, 25);
    Threshold(used, max, f, 50);
    Threshold(used, max, f, 75);
  }

  lemma {:induction false} Threshold(used: nat, max: nat, f: nat, p: nat)
    requires max * f <= used * 100 < max * f + max
    ensures f < p <==> used * 100 < max * p
  {
    if f < p {
      NextMultiple(max, f, p);
    } else {
      ScaledDown(p, f, max);
    }
  }

  // ---------------------------------------------------------------- the eviction plan

  function SatSub(a: nat, b: nat): nat {
    if a <= b then 0 else a - b
  }

  /** Lowest rate first, passing over `skip`: the entries to evict until `size` more bytes fit into `max`, at most
      `budget` of them, and the bytes then used. */
  ghost function Plan(s: seq<Key>, m: Contents, skip: set<Hash>, used: nat, size: nat, max: nat, budget: nat)
    : (seq<Hash>, nat)
    requires Names(s, m)
  {
    if used + size <= max || budget == 0 || s == [] then ([], used)
    else if s[0].1 in skip then Plan(s[1..], m, skip, used, size, max, budget)
    else
      var (victims, left) := Plan(s[1..], m, skip, SatSub(used, m[s[0].1].size), size, max, budget - 1);
      ([s[0].1] + victims, left)
  }

  // ---------------------------------------------------------------- what removing and inserting do to the indexes

  lemma {:induction false} RemoveKeeps(m: Contents, h: Hash)
    requires EntriesOk(m) && Exclusive(m)
    ensures EntriesOk(m - {h}) && Exclusive(m - {h})
    ensures h in m ==> KeyImages(m - {h}) == KeyImages(m) - KeysOf(m[h].tx)
  {
    var w := m - {h};
    forall g | g in w ensures EntryOk(w, g) {
      assert EntryOk(m, g);
    }
    forall g, x, k | Uses(w, g, k) && Uses(w, x, k) ensures g == x {
      assert Uses(m, g, k) && Uses(m, x, k);
    }
    if h in m {
      forall k ensures k in KeyImages(w) <==> k in KeyImages(m) && k !in m[h].tx.keyImages {
        assert k in m[h].tx.keyImages ==> Uses(m, h, k);
        if g :| Uses(w, g, k) {
          assert Uses(m, g, k);
        }
        if g :| Uses(m, g, k) && g != h {
          assert Uses(w, g, k);
        }
      }
    }
  }

  lemma {:induction false} DropLists(s: seq<Key>, m: Contents, h: Hash)
    requires Ordered(s) && Lists(s, m) && Names(s, m) && h in m
    ensures var t := DropKey(s, (m[h].rate, h));
            && Ordered(t) && Lists(t, m - {h}) && Names(t, m - {h})
            && TotalSize(s, m) == TotalSize(t, m - {h}) + m[h].size
  {
    var k := (m[h].rate, h);
    var t, w := DropKey(s, k), m - {h};
    DropOrdered(s, k);
    assert ListedAt(s, m, k);
    forall x: Key ensures ListedAt(t, w, x) {
      assert ListedAt(s, m, x);
    }
    ListsNames(t, w);
    TotalSizeDrop(s, m, k);
    TotalSizeSame(t, m, w);
  }

  lemma {:induction false} InsertKeeps(m: Contents, h: Hash, e: Entry)
    requires EntriesOk(m) && Exclusive(m) && h !in m
    requires EntryOk(m[h := e], h) && forall k :: k in e.tx.keyImages ==> k !in KeyImages(m)
    ensures EntriesOk(m[h := e]) && Exclusive(m[h := e])
    ensures KeyImages(m[h := e]) == KeyImages(m) + KeysOf(e.tx)
  {
    var w := m[h := e];
    forall g | g in w ensures EntryOk(w, g) {
      if g != h {
        assert EntryOk(m, g);
      }
    }
    forall g, x, k | Uses(w, g, k) && Uses(w, x, k) ensures g == x {
      assert g != h ==> Uses(m, g, k);
      assert x != h ==> Uses(m, x, k);
    }
    forall k ensures k in KeyImages(w) <==> k in KeyImages(m) || k in e.tx.keyImages {
      assert k in e.tx.keyImages ==> Uses(w, h, k);
      if g :| Uses(w, g, k) && g != h {
        assert Uses(m, g, k);
      }
      if g :| Uses(m, g, k) {
        assert Uses(w, g, k);
      }
    }
  }

  lemma {:induction false} InsertLists(s: seq<Key>, m: Contents, h: Hash, e: Entry)
    requires Ordered(s) && Lists(s, m) && Names(s, m) && h !in m
    ensures var t := InsertKey(s, (e.rate, h));
            && Ordered(t) && Lists(t, m[h := e]) && Names(t, m[h := e])
            && TotalSize(t, m[h := e]) == TotalSize(s, m) + e.size
  {
    var k := (e.rate, h);
    var t, w := InsertKey(s, k), m[h := e];
    assert ListedAt(s, m, k);
    InsertOrdered(s, k);
    forall x: Key ensures ListedAt(t, w, x) {
      assert ListedAt(s, m, x);
    }
    ListsNames(t, w);
    forall i | 0 <= i < |s| ensures s[i].1 in w && w[s[i].1] == m[s[i].1] {
    }
    TotalSizeSame(s, m, w);
    TotalSizeInsert(s, w, k);
  }

  // ---------------------------------------------------------------- facts about the plan

  ghost function ToSet(hs: seq<Hash>): set<Hash> {
    set h | h in hs
  }

  lemma {:induction false} ToSetAppend(hs: seq<Hash>, h: Hash)
    ensures ToSet(hs + [h]) == ToSet(hs) + {h}
  {
  }

  lemma {:induction false} FirstVictims(m: Contents, hs: seq<Hash>)
    ensures m - ToSet(hs[..0]) == m && hs[0..] == hs
  {
  }

  lemma {:induction false} NextVictim(m: Contents, hs: seq<Hash>, n: nat)
    requires n < |hs|
    ensures m - ToSet(hs[..n + 1]) == m - ToSet(hs[..n]) - {hs[n]}
    ensures hs[n..][1..] == hs[n + 1..] && hs[n..][0] == hs[n]
  {
    assert hs[..n + 1] == hs[..n] + [hs[n]];
    ToSetAppend(hs[..n], hs[n]);
  }

  lemma {:induction false} EntrySize(m: Contents, h: Hash)
    requires EntriesOk(m) && h in m
    ensures m[h].size >= 1
  {
    assert EntryOk(m, h);
  }

  /** The listing without the entries `skip`. */
  ghost function Without(s: seq<Key>, skip: set<Hash>): seq<Key> {
    if s == [] then [] else (if s[0].1 in skip then [] else [s[0]]) + Without(s[1..], skip)
  }

  lemma {:induction false} WithoutHolds(s: seq<Key>, skip: set<Hash>)
    requires Ordered(s)
    ensures Ordered(Without(s, skip)) && forall k :: k in Without(s, skip) <==> k in s && k.1 !in skip
    decreases |s|
  {
    if s != [] {
      TailOrdered(s);
      WithoutHolds(s[1..], skip);
      assert s == [s[0]] + s[1..];
      if s[0].1 in skip {
        assert Without(s, skip) == Without(s[1..], skip);
      } else {
        PrependOrdered(s[0], Without(s[1..], skip));
      }
    }
  }

  lemma {:induction false} WithoutLists(s: seq<Key>, m: Contents, skip: set<Hash>)
    requires Ordered(s) && Lists(s, m)
    ensures Ordered(Without(s, skip)) && Lists(Without(s, skip), m - skip) && Names(Without(s, skip), m - skip)
  {
    WithoutHolds(s, skip);
    forall k: Key ensures ListedAt(Without(s, skip), m - skip, k) {
      assert ListedAt(s, m, k);
    }
    ListsNames(Without(s, skip), m - skip);
  }

  /** The index of the reduced pool is the reduced index. */
  lemma {:induction false} ListingIsWithout(s: seq<Key>, t: seq<Key>, m: Contents, skip: set<Hash>)
    requires Ordered(s) && Lists(s, m) && Ordered(t) && Lists(t, m - skip)
    ensures t == Without(s, skip)
  {
    WithoutLists(s, m, skip);
    forall k: Key ensures k in t <==> k in Without(s, skip) {
      assert ListedAt(t, m - skip, k) && ListedAt(Without(s, skip), m - skip, k);
    }
    OrderedUnique(t, Without(s, skip));
  }

  lemma {:induction false} PlanSame(s: seq<Key>, m: Contents, w: Contents, skip: set<Hash>, used: nat, size: nat,
                                    max: nat, budget: nat)
    requires Names(s, m) && Names(s, w) && forall i :: 0 <= i < |s| ==> m[s[i].1] == w[s[i].1]
    ensures Plan(s, m, skip, used, size, max, budget) == Plan(s, w, skip, used, size, max, budget)
    decreases |s|
  {
    if used + size > max && budget > 0 && s != [] {
      if s[0].1 in skip {
        PlanSame(s[1..], m, w, skip, used, size, max, budget);
      } else {
        PlanSame(s[1..], m, w, skip, SatSub(used, m[s[0].1].size), size, max, budget - 1);
      }
    }
  }

  /** The plan starts with the lowest-rate entry and goes on with the rest of the pool. */
  lemma {:induction false} PlanStep(s: seq<Key>, m: Contents, used: nat, size: nat, max: nat, budget: nat)
    requires Ordered(s) && Lists(s, m) && Names(s, m) && s != [] && used + size > max && budget > 0
    ensures var h := s[0].1;
            && Names(s[1..], m - {h})
            && var (v, l) := Plan(s[1..], m - {h}, {}, SatSub(used, m[h].size), size, max, budget - 1);
            Plan(s, m, {}, used, size, max, budget) == ([h] + v, l)
  {
    var h := s[0].1;
    TailOrdered(s);
    assert ListedAt(s, m, s[0]);
    forall i | 0 <= i < |s| - 1 ensures s[1..][i].1 != h {
      assert ListedAt(s, m, s[i + 1]);
    }
    PlanSame(s[1..], m, m - {h}, {}, SatSub(used, m[h].size), size, max, budget - 1);
  }

  lemma {:induction false} PlanDone(s: seq<Key>, m: Contents, used: nat, size: nat, max: nat, budget: nat)
    requires Names(s, m) && (used + size <= max || s == [] || budget == 0)
    ensures Plan(s, m, {}, used, size, max, budget) == ([], used)
  {
  }

  lemma {:induction false} ListsNonEmpty(s: seq<Key>, m: Contents)
    requires Lists(s, m)
    ensures s == [] <==> m == map[]
  {
    if s != [] {
      assert ListedAt(s, m, s[0]);
    }
    if m != map[] {
      var h :| h in m;
      assert ListedAt(s, m, (m[h].rate, h));
    }
  }

  /** Skipping entries in the plan is planning without them. */
  lemma {:induction false} PlanWithout(s: seq<Key>, m: Contents, skip: set<Hash>, used: nat, size: nat, max: nat,
                                       budget: nat)
    requires Names(s, m)
    ensures Names(Without(s, skip), m)
    ensures Plan(s, m, skip, used, size, max, budget) == Plan(Without(s, skip), m, {}, used, size, max, budget)
    decreases |s|
  {
    if s != [] {
      var u := if s[0].1 in skip || used + size <= max || budget == 0 then used else SatSub(used, m[s[0].1].size);
      var b := if s[0].1 in skip || used + size <= max || budget == 0 then budget else budget - 1;
      PlanWithout(s[1..], m, skip, u, size, max, b);
      if s[0].1 in skip {
        assert Without(s, skip) == Without(s[1..], skip);
      } else {
        assert Without(s, skip)[1..] == Without(s[1..], skip);
      }
    }
  }

  /** The victims are distinct listed entries outside `skip`, at most `budget` of them. */
  lemma {:induction false} PlanVictims(s: seq<Key>, m: Contents, skip: set<Hash>, used: nat, size: nat, max: nat,
                                       budget: nat)
    requires Names(s, m)
    ensures var (victims, left) := Plan(s, m, skip, used, size, max, budget);
            && |victims| <= budget && left <= used
            && forall h :: h in victims ==> h !in skip && exists i :: 0 <= i < |s| && s[i].1 == h
    decreases |s|
  {
    if used + size > max && budget > 0 && s != [] {
      var rest := if s[0].1 in skip then Plan(s[1..], m, skip, used, size, max, budget).0
                  else Plan(s[1..], m, skip, SatSub(used, m[s[0].1].size), size, max, budget - 1).0;
      if s[0].1 in skip {
        PlanVictims(s[1..], m, skip, used, size, max, budget);
      } else {
        PlanVictims(s[1..], m, skip, SatSub(used, m[s[0].1].size), size, max, budget - 1);
      }
      forall h | h in rest ensures exists i :: 0 <= i < |s| && s[i].1 == h {
        var i :| 0 <= i < |s| - 1 && s[1..][i].1 == h;
        assert s[i + 1].1 == h;
      }
    }
  }

  /** Bytes freed by removing the transactions `hs`. */
  function FreedBy(hs: seq<Hash>, m: Contents): nat
    requires forall h :: h in hs ==> h in m
  {
    if hs == [] then 0 else FreedBy(hs[..|hs| - 1], m) + m[hs[|hs| - 1]].size
  }

  ghost predicate Distinct(hs: seq<Hash>) {
    forall i, j :: 0 <= i < j < |hs| ==> hs[i] != hs[j]
  }

  /** They are the bytes by which the total shrinks. */
  lemma {:induction false} FreedIs(s: seq<Key>, m: Contents, hs: seq<Hash>)
    requires Ordered(s) && Lists(s, m) && Names(s, m) && Distinct(hs) && forall h :: h in hs ==> h in m
    ensures Names(Without(s, ToSet(hs)), m - ToSet(hs))
    ensures TotalSize(s, m) == TotalSize(Without(s, ToSet(hs)), m - ToSet(hs)) + FreedBy(hs, m)
    decreases |hs|
  {
    WithoutLists(s, m, ToSet(hs));
    if hs == [] {
      assert ToSet(hs) == {} && m - {} == m;
      ListingIsWithout(s, s, m, {});
    } else {
      var g, h := hs[..|hs| - 1], hs[|hs| - 1];
      FreedIs(s, m, g);
      WithoutLists(s, m, ToSet(g));
      var t, w := Without(s, ToSet(g)), m - ToSet(g);
      DropLists(t, w, h);
      assert hs == g + [h];
      ToSetAppend(g, h);
      assert w - {h} == m - ToSet(hs);
      ListingIsWithout(s, DropKey(t, (w[h].rate, h)), m, ToSet(hs));
    }
  }

  lemma {:induction false} PlanReduced(s: seq<Key>, m: Contents, skip: set<Hash>, used: nat, size: nat, max: nat)
    requires Ordered(s) && Lists(s, m) && Names(s, m)
    ensures Names(Without(s, skip), m - skip)
    ensures Plan(s, m, skip, used, size, max, MAX_EVICTION_ATTEMPTS)
            == Plan(Without(s, skip), m - skip, {}, used, size, max, MAX_EVICTION_ATTEMPTS)
  {
    WithoutLists(s, m, skip);
    PlanWithout(s, m, skip, used, size, max, MAX_EVICTION_ATTEMPTS);
    PlanSame(Without(s, skip), m, m - skip, {}, used, size, max, MAX_EVICTION_ATTEMPTS);
  }

  lemma {:induction false} ReplacedPresent(m: Contents, hs: seq<Hash>, ks: seq<KeyImage>)
    requires ToSet(hs) == Conflicts(m, ks)
    ensures forall h :: h in hs ==> h in m
  {
    forall h | h in hs ensures h in m {
      assert h in ToSet(hs);
    }
  }

  lemma {:induction false} NoConflictLeft(m: Contents, tx: Tx, w: Contents)
    requires forall h :: h in w ==> h in m && w[h] == m[h] && h !in Conflicts(m, tx.keyImages)
    ensures forall k :: k in tx.keyImages ==> k !in KeyImages(w)
  {
    forall k | k in tx.keyImages ensures k !in KeyImages(w) {
      forall h | Uses(w, h, k) ensures false {
        assert Overlap(m[h].tx, tx.keyImages);
      }
    }
  }

  lemma {:induction false} AdmittedEntry(m: Contents, tx: Tx, height: nat, time: nat, used: nat, max: nat)
    requires !tx.coinbase && tx.size <= MAX_TX_SIZE && tx.fee >= MinFee(tx.size, used, max)
    ensures EntryOk(m[tx.hash := NewEntry(tx, height, time)], tx.hash)
  {
    var base := tx.size * MIN_FEE_PER_BYTE;
    assert base * FeeMultiplier(used, max) >= base;
  }

  // ---------------------------------------------------------------- bytes pending

  /** The bytes of all pending transactions. */
  ghost function PendingBytes(m: Contents): nat {
    if m == map[] then 0
    else
      var h :| h in m;
      m[h].tx.size + PendingBytes(m - {h})
  }

  /** The sum does not depend on the order the transactions are taken in. */
  lemma {:induction false} PendingPick(m: Contents, h: Hash)
    requires h in m
    ensures PendingBytes(m) == m[h].tx.size + PendingBytes(m - {h})
    decreases |m|
  {
    var g :| g in m && PendingBytes(m) == m[g].tx.size + PendingBytes(m - {g});
    if g != h {
      PendingPick(m - {g}, h);
      PendingPick(m - {h}, g);
      assert m - {g} - {h} == m - {h} - {g};
    }
  }

  lemma {:induction false} PendingInsert(m: Contents, h: Hash, e: Entry)
    requires h !in m
    ensures PendingBytes(m[h := e]) == PendingBytes(m) + e.tx.size
  {
    PendingPick(m[h := e], h);
    assert m[h := e] - {h} == m;
  }

  /** The pool's byte count covers every pending transaction. */
  lemma {:induction false} PendingCounted(s: seq<Key>, m: Contents)
    requires EntriesOk(m) && Exclusive(m) && Ordered(s) && Lists(s, m) && Names(s, m)
    ensures PendingBytes(m) <= TotalSize(s, m)
    decreases |m|
  {
    if m != map[] {
      var h :| h in m;
      assert EntryOk(m, h);
      RemoveKeeps(m, h);
      DropLists(s, m, h);
      PendingCounted(DropKey(s, (m[h].rate, h)), m - {h});
      PendingPick(m, h);
    }
  }

  // ---------------------------------------------------------------- the decision

  /** What becomes of a transaction that passed validation. `Exhausted`: the plan makes room, but only by using up the
      whole eviction budget. */
  datatype Decision = Admit | Deny(reason: Reason) | Exhausted

  ghost function AdmissionPlan(m: Contents, s: seq<Key>, max: nat, tx: Tx): (seq<Hash>, nat)
    requires Ordered(s) && Lists(s, m)
  {
    var skip := Conflicts(m, tx.keyImages);
    WithoutLists(s, m, skip);
    var rest := Without(s, skip);
    Plan(rest, m - skip, {}, TotalSize(rest, m - skip), tx.size, max, MAX_EVICTION_ATTEMPTS)
  }

  ghost function Decide(m: Contents, s: seq<Key>, used: nat, max: nat, tx: Tx): Decision
    requires Ordered(s) && Lists(s, m)
  {
    if tx.size > MAX_TX_SIZE then Deny(TooLarge)
    else if tx.fee < MinFee(tx.size, used, max) then Deny(FeeTooLow)
    else if !CanReplace(m, tx) then Deny(DuplicateKeyImage)
    else
      var (victims, left) := AdmissionPlan(m, s, max, tx);
      if left + tx.size > max then Deny(Full)
      else if |victims| == MAX_EVICTION_ATTEMPTS then Exhausted
      else Admit
  }

  // ---------------------------------------------------------------- confirmation

  function Hashes(txs: seq<Tx>): (hs: seq<Hash>)
    ensures |hs| == |txs| && forall i :: 0 <= i < |txs| ==> hs[i] == txs[i].hash
  {
    seq(|txs|, i requires 0 <= i < |txs| => txs[i].hash)
  }

  /** The key images of a list of transactions, in order. */
  ghost function Spent(txs: seq<Tx>): seq<KeyImage> {
    if txs == [] then [] else Spent(txs[..|txs| - 1]) + txs[|txs| - 1].keyImages
  }

  lemma {:induction false} SpentNext(txs: seq<Tx>, i: nat)
    requires i < |txs|
    ensures Spent(txs[..i + 1]) == Spent(txs[..i]) + txs[i].keyImages
  {
    assert txs[..i + 1][..i] == txs[..i];
  }

  lemma {:induction false} SpentBy(txs: seq<Tx>, k: KeyImage)
    ensures k in Spent(txs) <==> exists t :: t in txs && k in t.keyImages
    decreases |txs|
  {
    if txs != [] {
      var rest, t := txs[..|txs| - 1], txs[|txs| - 1];
      SpentBy(rest, k);
      assert txs == rest + [t];
    }
  }

  /** A pending transaction is settled by a block that contains it or spends one of its key images. */
  ghost predicate SettledBy(tx: Tx, txs: seq<Tx>) {
    exists t :: t in txs && (t.hash == tx.hash || Overlap(tx, t.keyImages))
  }

  ghost function Settled(m: Contents, txs: seq<Tx>): (hs: set<Hash>)
    ensures forall h :: h in hs <==> h in m && SettledBy(m[h].tx, txs)
  {
    set h | h in m && SettledBy(m[h].tx, txs)
  }

  lemma {:induction false} Unused(m: Contents, k: KeyImage)
    requires forall h :: h in m ==> k !in m[h].tx.keyImages
    ensures k !in KeyImages(m)
  {
  }

  /** Removing the block's transactions and then those in conflict with its key images removes exactly the settled
      ones. */
  lemma {:induction false} SettledIs(m: Contents, txs: seq<Tx>, w: Contents, r: Contents)
    requires EntriesOk(m) && w == m - ToSet(Hashes(txs)) && r == w - Conflicts(w, Spent(txs))
    ensures r == m - Settled(m, txs)
  {
    forall h | h in m ensures h in r <==> !SettledBy(m[h].tx, txs) {
      assert EntryOk(m, h);
      if h in Hashes(txs) {
        var i :| 0 <= i < |txs| && Hashes(txs)[i] == h;
        assert txs[i] in txs;
      } else {
        OverlapSpent(m[h].tx, txs);
        forall t | t in txs ensures t.hash != h {
          var i :| 0 <= i < |txs| && txs[i] == t;
          assert Hashes(txs)[i] == t.hash;
        }
      }
    }
  }

  lemma {:induction false} OverlapSpent(tx: Tx, txs: seq<Tx>)
    ensures Overlap(tx, Spent(txs)) <==> exists t :: t in txs && Overlap(tx, t.keyImages)
  {
    if Overlap(tx, Spent(txs)) {
      var k :| k in Spent(txs) && k in tx.keyImages;
      SpentBy(txs, k);
      var t :| t in txs && k in t.keyImages;
      assert Overlap(tx, t.keyImages);
    }
    if t :| t in txs && Overlap(tx, t.keyImages) {
      var k :| k in t.keyImages && k in tx.keyImages;
      SpentBy(txs, k);
    }
  }
}
