/** Blocks, transactions, the UTXO set, and the quantities that are sums over a chain of blocks.

    A hash is a 32-byte string read as a big-endian number, so the byte order
    used by the fork-choice tie-break is the order on numbers. The consensus rules that live outside the chain
    state machine (block validation, the emission curve, the difficulty adjustment, the fee split) are the fields
    of `Rules`; what the state machine relies on about them is `Sound`. */
module Ledger {

  type Hash = nat
  type KeyImage = nat
  type OutPoint = (Hash, nat)

  datatype Option<+T> = None | Some(value: T)

  const U64_MAX: nat := 0xFFFF_FFFF_FFFF_FFFF
  const U128_MAX: nat := 0xFFFF_FFFF_FFFF_FFFF_FFFF_FFFF_FFFF_FFFF
  const TWO_128: nat := U128_MAX + 1
  const MAX_BLOCK_SIZE: nat := 2 * 1024 * 1024
  const CONGESTION_THRESHOLD: nat := 80

  /** A 256-bit difficulty target. */
  type Target = t: nat | t < TWO_128 * TWO_128

  datatype Tx = Tx(hash: Hash, coinbase: bool, fee: nat, size: nat, outputs: nat, keyImages: seq<KeyImage>)

  datatype Block = Block(hash: Hash, prev: Hash, height: nat, timestamp: nat, target: Target, size: nat, txs: seq<Tx>)

  /** One entry of the history handed to the difficulty adjustment. */
  datatype DifficultyBlock = DifficultyBlock(height: nat, timestamp: nat, target: Target)

  function AsDifficultyBlock(b: Block): DifficultyBlock {
    DifficultyBlock(b.height, b.timestamp, b.target)
  }

  // ---------------------------------------------------------------- UTXO set

  /** Unspent outputs with the height that created them, and the key images spent so far. */
  datatype Utxo = Utxo(outputs: map<OutPoint, nat>, spent: set<KeyImage>)

  const EMPTY_UTXO := Utxo(map[], {})

  function Outputs(txs: seq<Tx>): set<OutPoint> {
    set t, i | t in txs && 0 <= i < t.outputs :: (t.hash, i)
  }

  function Spends(txs: seq<Tx>): set<KeyImage> {
    set t, k | t in txs && !t.coinbase && k in t.keyImages :: k
  }

  /** Record the first `n` outputs of transaction `t` at height `h`. */
  function RecordTx(m: map<OutPoint, nat>, h: nat, t: Hash, n: nat): map<OutPoint, nat> {
    if n == 0 then m else RecordTx(m, h, t, n - 1)[(t, n - 1) := h]
  }

  /** Record the outputs of a block's transactions, in order. */
  function RecordOutputs(m: map<OutPoint, nat>, h: nat, txs: seq<Tx>): map<OutPoint, nat> {
    if txs == [] then m
    else
      var t := txs[|txs| - 1];
      RecordTx(RecordOutputs(m, h, txs[..|txs| - 1]), h, t.hash, t.outputs)
  }

  /** Apply a block's batch at height `h`: outputs are added, key images marked spent. */
  function Connect(u: Utxo, h: nat, txs: seq<Tx>): Utxo {
    Utxo(RecordOutputs(u.outputs, h, txs), u.spent + Spends(txs))
  }

  /** Apply a block's disconnect batch: its outputs are removed and its key images un-marked. */
  function Disconnect(u: Utxo, txs: seq<Tx>): Utxo {
    Utxo(u.outputs - Outputs(txs), u.spent - Spends(txs))
  }

  /** No output of the block exists yet and none of its key images is spent yet. */
  predicate Fresh(u: Utxo, txs: seq<Tx>) {
    u.outputs.Keys !! Outputs(txs) && u.spent !! Spends(txs)
  }

  lemma {:induction false} RecordTxIs(m: map<OutPoint, nat>, h: nat, t: Hash, n: nat)
    ensures forall o: OutPoint :: o in RecordTx(m, h, t, n) <==> o in m || (o.0 == t && o.1 < n)
    ensures forall o: OutPoint :: o in RecordTx(m, h, t, n) ==>
              RecordTx(m, h, t, n)[o] == if o.0 == t && o.1 < n then h else m[o]
  {
    if n > 0 {
      RecordTxIs(m, h, t, n - 1);
    }
  }

  /** Exactly the block's outputs are added, at its height. */
  lemma {:induction false} RecordOutputsIs(m: map<OutPoint, nat>, h: nat, txs: seq<Tx>)
    ensures forall o: OutPoint :: o in RecordOutputs(m, h, txs) <==> o in m || o in Outputs(txs)
    ensures forall o: OutPoint :: o in RecordOutputs(m, h, txs) ==>
              RecordOutputs(m, h, txs)[o] == if o in Outputs(txs) then h else m[o]
  {
    if txs != [] {
      var rest, t := txs[..|txs| - 1], txs[|txs| - 1];
      RecordOutputsIs(m, h, rest);
      RecordTxIs(RecordOutputs(m, h, rest), h, t.hash, t.outputs);
      assert txs == rest + [t];
      forall o: OutPoint ensures o in Outputs(txs) <==> o in Outputs(rest) || (o.0 == t.hash && o.1 < t.outputs) {
        OutputsAppend(rest, t, o);
      }
    }
  }

  lemma {:induction false} OutputsAppend(txs: seq<Tx>, t: Tx, o: OutPoint)
    ensures o in Outputs(txs + [t]) <==> o in Outputs(txs) || (o.0 == t.hash && o.1 < t.outputs)
  {
    assert o == (o.0, o.1);
    if o.0 == t.hash && o.1 < t.outputs {
      assert t in txs + [t];
    }
    if o in Outputs(txs) {
      var x, i :| x in txs && 0 <= i < x.outputs && o == (x.hash, i);
      assert x in txs + [t];
    }
  }

  lemma {:induction false} DisconnectUndoesConnect(u: Utxo, h: nat, txs: seq<Tx>)
    requires Fresh(u, txs)
    ensures Disconnect(Connect(u, h, txs), txs) == u
  {
    RecordOutputsIs(u.outputs, h, txs);
    assert Disconnect(Connect(u, h, txs), txs).outputs == u.outputs;
    assert Disconnect(Connect(u, h, txs), txs).spent == u.spent;
  }

  // ---------------------------------------------------------------- rules

  datatype Verdict = Valid | Invalid | Error

  /** The consensus rules the chain is run with. `validate` is given the block, its parent if found, the UTXO set to
      check against and the assume-valid checkpoint; `feeBurn` is the burned share of a fee total. */
  datatype Rules = Rules(
    genesis: Block,
    checkpoints: map<nat, Hash>,
    validate: (Block, Option<Block>, Utxo, Option<nat>) -> Verdict,
    reward: nat -> nat,
    feeBurn: (nat, bool) -> nat,
    feeDistributionHeight: nat,
    targetFor: (seq<DifficultyBlock>, nat) -> Target,
    maxDepth: nat)

  /** What the state machine relies on: the genesis block pays no fees and is pinned by the hardcoded checkpoint table,
      a valid block brings fresh outputs and key images, and no block above genesis is valid without its parent. */
  ghost predicate Sound(r: Rules) {
    && r.genesis.height == 0 && TotalFees(r.genesis.txs) == 0
    && 0 in r.checkpoints && r.checkpoints[0] == r.genesis.hash
    && (forall b, p, u, cp {:trigger ValidIsFresh(r, b, p, u, cp)} :: ValidIsFresh(r, b, p, u, cp))
    && (forall b, u, cp {:trigger NeedsParent(r, b, u, cp)} :: NeedsParent(r, b, u, cp))
  }

  predicate ValidIsFresh(r: Rules, b: Block, p: Option<Block>, u: Utxo, cp: Option<nat>) {
    r.validate(b, p, u, cp).Valid? ==> Fresh(u, b.txs)
  }

  predicate NeedsParent(r: Rules, b: Block, u: Utxo, cp: Option<nat>) {
    b.height > 0 ==> !r.validate(b, None, u, cp).Valid?
  }

  // ---------------------------------------------------------------- per-block quantities

  lemma {:induction false} QuotientBounds(a: nat, b: nat, q: int, m: nat)
    requires 0 < b <= a && m < b && a == q * b + m
    ensures 1 <= q <= a
  {
    if q > 0 {
      assert q * b == q + q * (b - 1);
    }
  }

  /** Work of a target: the largest 128-bit number divided by the target's top 128 bits. */
  function WorkOfTarget(t: Target): (w: nat)
    ensures 1 <= w <= U128_MAX
  {
    var top := t / TWO_128;
    if top == 0 then U128_MAX
    else
      assert top <= U128_MAX;
      QuotientBounds(U128_MAX, top, U128_MAX / top, U128_MAX % top);
      U128_MAX / top
  }

  /** Work is the largest 128-bit number rounded down by the top half of the target; a target without a top half is
      worth the maximum. */
  lemma {:induction false} WorkIsQuotient(t: Target)
    ensures var top, w := t / TWO_128, WorkOfTarget(t);
            if top == 0 then w == U128_MAX else top * w <= U128_MAX < top * (w + 1)
  {
    var top := t / TWO_128;
    if top > 0 {
      var w := U128_MAX / top;
      assert top * (w + 1) == top * w + top;
      assert U128_MAX == top * w + U128_MAX % top;
    }
  }

  function Work(b: Block): (w: nat)
    ensures 1 <= w <= U128_MAX
  {
    WorkOfTarget(b.target)
  }

  lemma {:induction false} NextMultiple(b: nat, q: nat, c: nat)
    requires q < c
    ensures b * q + b <= b * c
    decreases c
  {
    assert b * c == b * (c - 1) + b;
    if q < c - 1 {
      NextMultiple(b, q, c - 1);
    }
  }

  lemma {:induction false} QuotientAtLeast(a: nat, b: nat, c: nat)
    requires b > 0 && a >= b * c
    ensures a / b >= c
  {
    if a / b < c {
      NextMultiple(b, a / b, c);
    }
  }

  /** A harder target is worth at least as much work. */
  lemma {:induction false} WorkAntitone(t: Target, u: Target)
    requires t <= u
    ensures WorkOfTarget(t) >= WorkOfTarget(u)
  {
    var a, b := t / TWO_128, u / TWO_128;
    if a > 0 {
      var q := U128_MAX / b;
      assert b * q <= U128_MAX;
      ScaledDown(a, b, q);
      QuotientAtLeast(U128_MAX, a, q);
    }
  }

  lemma {:induction false} ScaledDown(a: nat, b: nat, q: nat)
    requires a <= b
    ensures a * q <= b * q
  {
  }

  function SatAdd(a: nat, b: nat, max: nat): nat {
    if a + b <= max then a + b else max
  }

  /** Fees of the non-coinbase transactions, summed in saturating 64-bit arithmetic. */
  function TotalFees(txs: seq<Tx>): nat {
    if txs == [] then 0
    else
      var rest := TotalFees(txs[..|txs| - 1]);
      var t := txs[|txs| - 1];
      if t.coinbase then rest else SatAdd(rest, t.fee, U64_MAX)
  }

  /** The plain sum of the non-coinbase fees. */
  function PlainFees(txs: seq<Tx>): nat {
    if txs == [] then 0
    else PlainFees(txs[..|txs| - 1]) + if txs[|txs| - 1].coinbase then 0 else txs[|txs| - 1].fee
  }

  /** Adding with saturation at every step caps the sum once. */
  lemma {:induction false} TotalFeesIsCapped(txs: seq<Tx>)
    ensures TotalFees(txs) == if PlainFees(txs) <= U64_MAX then PlainFees(txs) else U64_MAX
    decreases |txs|
  {
    if txs != [] {
      TotalFeesIsCapped(txs[..|txs| - 1]);
    }
  }

  /** Fees a block burns. */
  function BlockFeeBurn(r: Rules, b: Block): nat {
    var fees := TotalFees(b.txs);
    if b.height < r.feeDistributionHeight || fees == 0 then 0
    else r.feeBurn(fees, b.size * 100 / MAX_BLOCK_SIZE >= CONGESTION_THRESHOLD)
  }

  /** A block burns from the height fee distribution starts at, and only if its transactions pay fees. The burned share
      is the congested one exactly when the block fills at least 80 percent of the maximum size, 2 MiB. */
  lemma {:induction false} BurnStarts(r: Rules, b: Block)
    ensures b.height < r.feeDistributionHeight || PlainFees(b.txs) == 0 ==> BlockFeeBurn(r, b) == 0
    ensures b.height >= r.feeDistributionHeight && 0 < PlainFees(b.txs) <= U64_MAX ==>
              BlockFeeBurn(r, b) == r.feeBurn(PlainFees(b.txs), 100 * b.size >= 80 * 2_097_152)
    ensures b.height >= r.feeDistributionHeight && PlainFees(b.txs) > U64_MAX ==>
              BlockFeeBurn(r, b) == r.feeBurn(U64_MAX, 100 * b.size >= 80 * 2_097_152)
  {
    TotalFeesIsCapped(b.txs);
    assert b.size * 100 / MAX_BLOCK_SIZE >= 80 <==> 100 * b.size >= 80 * MAX_BLOCK_SIZE;
  }

  // ---------------------------------------------------------------- sums over a chain

  /** Rewards of heights 0..n-1. */
  function SumReward(r: Rules, n: nat): nat {
    if n == 0 then 0 else SumReward(r, n - 1) + r.reward(n - 1)
  }

  function SumBurn(r: Rules, p: seq<Block>): nat {
    if p == [] then 0 else SumBurn(r, p[..|p| - 1]) + BlockFeeBurn(r, p[|p| - 1])
  }

  /** Work of every block but the first. */
  function SumWork(p: seq<Block>): nat {
    if |p| <= 1 then 0 else SumWork(p[..|p| - 1]) + Work(p[|p| - 1])
  }

  function SumTxs(p: seq<Block>): nat {
    if p == [] then 0 else SumTxs(p[..|p| - 1]) + |p[|p| - 1].txs|
  }

  /** Rewards of the heights of the blocks of `p`. */
  function SumSupply(r: Rules, p: seq<Block>): nat {
    if p == [] then 0 else SumSupply(r, p[..|p| - 1]) + r.reward(p[|p| - 1].height)
  }

  /** The UTXO set after connecting every block of `p` in order. */
  function Replay(p: seq<Block>): Utxo {
    if p == [] then EMPTY_UTXO else Connect(Replay(p[..|p| - 1]), p[|p| - 1].height, p[|p| - 1].txs)
  }

  /** Block `i` of `p` was fresh when it was connected. */
  ghost predicate FreshAt(p: seq<Block>, i: int)
    requires 0 <= i < |p|
  {
    Fresh(Replay(p[..i]), p[i].txs)
  }

  /** Every block of `p` was fresh when it was connected. */
  ghost predicate FreshPath(p: seq<Block>) {
    forall i {:trigger FreshAt(p, i)} :: 0 <= i < |p| ==> FreshAt(p, i)
  }

  /** A transaction of the block, other than its coinbase, spends `k`. */
  ghost predicate SpentIn(b: Block, k: KeyImage) {
    exists t :: t in b.txs && !t.coinbase && k in t.keyImages
  }

  /** A transaction of the block creates output `o`. */
  ghost predicate CreatedIn(b: Block, o: OutPoint) {
    exists t :: t in b.txs && t.hash == o.0 && o.1 < t.outputs
  }

  /** The spent set after a chain: exactly the key images its non-coinbase transactions carry. */
  lemma {:induction false} ReplaySpent(p: seq<Block>, k: KeyImage)
    ensures k in Replay(p).spent <==> exists i :: 0 <= i < |p| && SpentIn(p[i], k)
    decreases |p|
  {
    if p != [] {
      var n := |p| - 1;
      ReplaySpent(p[..n], k);
      SpendsIs(p[n], k);
      if i :| 0 <= i < |p| && SpentIn(p[i], k) && i < n {
        assert SpentIn(p[..n][i], k);
      }
    }
  }

  /** The outputs after a chain: exactly those its transactions create, each at the height of the last block to create
      it. */
  lemma {:induction false} ReplayOutputs(p: seq<Block>, o: OutPoint)
    ensures o in Replay(p).outputs <==> exists i :: 0 <= i < |p| && CreatedIn(p[i], o)
    ensures forall i :: 0 <= i < |p| && CreatedIn(p[i], o) && (forall j :: i < j < |p| ==> !CreatedIn(p[j], o)) ==>
              o in Replay(p).outputs && Replay(p).outputs[o] == p[i].height
    decreases |p|
  {
    if p != [] {
      var n := |p| - 1;
      ReplayOutputs(p[..n], o);
      RecordOutputsIs(Replay(p[..n]).outputs, p[n].height, p[n].txs);
      CreatedInIs(p[n], o);
      if i :| 0 <= i < |p| && CreatedIn(p[i], o) && i < n {
        assert CreatedIn(p[..n][i], o);
      }
      assert forall i :: 0 <= i < n ==> p[..n][i] == p[i];
    }
  }

  lemma {:induction false} CreatedInIs(b: Block, o: OutPoint)
    ensures o in Outputs(b.txs) <==> CreatedIn(b, o)
  {
    assert o == (o.0, o.1);
  }

  lemma {:induction false} SpendsIs(b: Block, k: KeyImage)
    ensures k in Spends(b.txs) <==> SpentIn(b, k)
  {
  }

  /** No double spend: on a chain whose blocks were fresh no key image is spent by two blocks. */
  lemma {:induction false} SpentOnce(p: seq<Block>, i: nat, j: nat, k: KeyImage)
    requires FreshPath(p) && i < j < |p|
    ensures !(SpentIn(p[i], k) && SpentIn(p[j], k))
  {
    hide Replay, SpentIn, Spends;
    assert FreshAt(p, j) && p[..j][i] == p[i];
    ReplaySpent(p[..j], k);
    SpendsIs(p[j], k);
  }

  /** No output is created by two blocks of such a chain. */
  lemma {:induction false} CreatedOnce(p: seq<Block>, i: nat, j: nat, o: OutPoint)
    requires FreshPath(p) && i < j < |p|
    ensures !(CreatedIn(p[i], o) && CreatedIn(p[j], o))
  {
    hide Replay, CreatedIn, Outputs;
    assert FreshAt(p, j) && p[..j][i] == p[i];
    ReplayOutputs(p[..j], o);
    CreatedInIs(p[j], o);
  }

  /** A prefix of a chain has strictly less work than the chain: every block adds at least one unit. */
  lemma {:induction false} WorkGrows(p: seq<Block>, n: nat)
    requires 1 <= n < |p|
    ensures SumWork(p[..n]) < SumWork(p)
    decreases |p|
  {
    var q := p[..|p| - 1];
    if n < |p| - 1 {
      WorkGrows(q, n);
      assert q[..n] == p[..n];
    } else {
      assert q == p[..n];
    }
  }

  lemma {:induction false} TakeNext(p: seq<Block>, n: nat)
    requires n < |p|
    ensures p[..n + 1] == p[..n] + [p[n]]
  {
  }

  lemma {:induction false} PrefixOfTake(p: seq<Block>, n: nat)
    requires n < |p|
    ensures p[..n + 1][..n] == p[..n] && p[..n + 1][n] == p[n]
  {
  }

  lemma {:induction false} FreshPathAppend(p: seq<Block>, b: Block)
    requires FreshPath(p) && Fresh(Replay(p), b.txs)
    ensures FreshPath(p + [b])
  {
    var q := p + [b];
    forall i | 0 <= i < |q| ensures FreshAt(q, i) {
      if i < |p| {
        assert FreshAt(p, i) && q[..i] == p[..i];
      } else {
        assert q[..i] == p;
      }
    }
  }

  lemma {:induction false} FreshPathPrefix(p: seq<Block>, n: nat)
    requires FreshPath(p) && n <= |p|
    ensures FreshPath(p[..n])
  {
    forall i | 0 <= i < n ensures FreshAt(p[..n], i) {
      assert FreshAt(p, i) && p[..n][..i] == p[..i];
    }
  }

  /** What connecting one more block adds to each sum. */
  lemma {:induction false} SumsAppend(r: Rules, p: seq<Block>, b: Block)
    ensures SumBurn(r, p + [b]) == SumBurn(r, p) + BlockFeeBurn(r, b)
    ensures SumTxs(p + [b]) == SumTxs(p) + |b.txs|
    ensures SumSupply(r, p + [b]) == SumSupply(r, p) + r.reward(b.height)
    ensures Replay(p + [b]) == Connect(Replay(p), b.height, b.txs)
    ensures p != [] ==> SumWork(p + [b]) == SumWork(p) + Work(b)
  {
    assert (p + [b])[..|p|] == p;
  }

  /** Disconnecting the last block of a chain takes back exactly what it added. */
  lemma {:induction false} SumsDrop(r: Rules, p: seq<Block>, n: nat)
    requires n < |p| && FreshPath(p)
    ensures SumBurn(r, p[..n + 1]) == SumBurn(r, p[..n]) + BlockFeeBurn(r, p[n])
    ensures SumTxs(p[..n + 1]) == SumTxs(p[..n]) + |p[n].txs|
    ensures SumSupply(r, p[..n + 1]) == SumSupply(r, p[..n]) + r.reward(p[n].height)
    ensures Replay(p[..n + 1]) == Connect(Replay(p[..n]), p[n].height, p[n].txs)
    ensures Disconnect(Replay(p[..n + 1]), p[n].txs) == Replay(p[..n])
  {
    assert p[..n + 1] == p[..n] + [p[n]];
    SumsAppend(r, p[..n], p[n]);
    assert FreshAt(p, n);
    DisconnectUndoesConnect(Replay(p[..n]), p[n].height, p[n].txs);
  }

  /** A chain with one block per height, from height 0, has the rewards of all its heights. */
  lemma {:induction false} SupplyByHeight(r: Rules, p: seq<Block>)
    requires forall i :: 0 <= i < |p| ==> p[i].height == i
    ensures SumSupply(r, p) == SumReward(r, |p|)
    decreases |p|
  {
    if p != [] {
      SupplyByHeight(r, p[..|p| - 1]);
    }
  }

  /** With 64-bit rewards and burns and 64-bit heights, the supply and burn totals fit their 128-bit counters. */
  lemma {:induction false} TotalsFit(r: Rules, p: seq<Block>)
    requires forall h :: r.reward(h) <= U64_MAX
    requires forall f, c :: r.feeBurn(f, c) <= U64_MAX
    requires |p| <= U64_MAX + 1
    ensures SumReward(r, |p|) <= U128_MAX && SumBurn(r, p) <= U128_MAX
  {
    TotalsBound(r, p);
  }

  lemma {:induction false} TotalsBound(r: Rules, p: seq<Block>)
    requires forall h :: r.reward(h) <= U64_MAX
    requires forall f, c :: r.feeBurn(f, c) <= U64_MAX
    ensures SumReward(r, |p|) <= |p| * U64_MAX && SumBurn(r, p) <= |p| * U64_MAX
    decreases |p|
  {
    if p != [] {
      TotalsBound(r, p[..|p| - 1]);
    }
  }
}
