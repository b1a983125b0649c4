/** The chain as a block tree and a tip, and what delivering one block does to it.

    This is the simple form of the state machine: the active chain is the ancestor path of the tip, and every running
    total, the UTXO set, the height index and the persisted data are functions of that path. Only what the program
    keeps in memory beyond that (which blocks and heights are cached, entries a failed reorganisation leaves behind)
    is state of its own. `Blockchain` implements it step by step, in place. */
module ChainModel {
  import opened Ledger
  import opened Lineage
  import opened ForkChoice
  import opened MedianTime

  const DIFFICULTY_WINDOW: nat := 144
  const MAX_BLOCK_CACHE: nat := 500
  const CACHE_DEPTH: nat := 200
  /** How far below the finality floor the cache always reaches. */
  const CACHE_SLACK: nat := CACHE_DEPTH + 1 - CHECKPOINT_INTERVAL

  /** `cached` are the stored blocks held in memory and `indexed` the active heights held in the in-memory height
      index; `stale` are in-memory height entries that belong to no active block. `base` is the work credited to the
      genesis block: 1, or 0 on a node that created its genesis block and has neither reloaded nor reorganised. */
  datatype State = State(store: map<Hash, Block>, tip: Hash, cached: set<Hash>, indexed: set<nat>,
                         stale: map<nat, Hash>, base: nat, lastCheckpoint: nat)

  datatype Status =
    | AlreadyKnown | Orphan | Rejected | Failed | ReorgTooDeep
    | Accepted | AcceptedFork | AcceptedReorg(orphaned: seq<Tx>)

  ghost predicate Rooted(r: Rules, s: State) {
    StoreOk(r.genesis, s.store) && s.tip in s.store
  }

  /** The active chain, genesis first. */
  ghost function Path(r: Rules, s: State): (p: seq<Block>)
    requires Rooted(r, s)
    ensures IsLineage(r.genesis, s.store, p) && |p| == Height(s) + 1 && p[Height(s)] == s.store[s.tip]
  {
    Ancestry(r.genesis, s.store, s.tip)
  }

  ghost function Height(s: State): nat
    requires s.tip in s.store
  {
    s.store[s.tip].height
  }

  /** Cumulative work of the active chain as the node accounts for it. */
  ghost function TotalWork(r: Rules, s: State): nat
    requires Rooted(r, s)
  {
    s.base + SumWork(Path(r, s))
  }

  /** Cumulative work of a chain counted from genesis, saturating at 128 bits. */
  ghost function ForkWork(c: seq<Block>): nat {
    SatAdd(SumWork(c), 1, U128_MAX)
  }

  // ---------------------------------------------------------------- invariant

  /** Every stored block respects the timestamp rule on its own lineage. */
  ghost predicate TreeTimeOk(g: Block, m: map<Hash, Block>)
    requires StoreOk(g, m)
  {
    forall h {:trigger LineageTimeOk(g, m, h)} :: h in m ==> LineageTimeOk(g, m, h)
  }

  ghost predicate LineageTimeOk(g: Block, m: map<Hash, Block>, h: Hash)
    requires StoreOk(g, m) && h in m
  {
    TimeOk(Ancestry(g, m, h))
  }

  ghost predicate CachedAt(p: seq<Block>, cached: set<Hash>, indexed: set<nat>, h: int)
    requires 0 <= h < |p|
  {
    h in indexed <==> p[h].hash in cached
  }

  ghost predicate MustIndex(p: seq<Block>, h: int) {
    0 <= h < |p| && Floor(|p| - 1) <= h + CACHE_SLACK
  }

  /** An active block is cached exactly when its height is indexed, and everything from a little below the finality
      floor up is cached. */
  ghost predicate CacheOk(p: seq<Block>, cached: set<Hash>, indexed: set<nat>)
  {
    && (forall h :: h in indexed ==> h < |p|)
    && (forall h {:trigger CachedAt(p, cached, indexed, h)} :: 0 <= h < |p| ==> CachedAt(p, cached, indexed, h))
    && (forall h {:trigger MustIndex(p, h)} :: MustIndex(p, h) ==> h in indexed)
  }

  /** Height entries that belong to no active block are above the tip and name stored blocks. */
  ghost predicate StraysAbove(s: State)
    requires s.tip in s.store
  {
    forall h :: h in s.stale ==> h > Height(s) && s.stale[h] in s.store
  }

  /** The chain invariant. */
  ghost predicate Sane(r: Rules, s: State) {
    && Rooted(r, s)
    && FreshPath(Path(r, s))
    && TreeTimeOk(r.genesis, s.store)
    && s.cached <= s.store.Keys
    && CacheOk(Path(r, s), s.cached, s.indexed)
    && StraysAbove(s)
    && s.base <= 1
    && 1 + SumWork(Path(r, s)) <= U128_MAX
    && s.lastCheckpoint == Floor(s.lastCheckpoint) <= Height(s)
  }

  /** The invariant, and no such entries. */
  ghost predicate WellFormed(r: Rules, s: State) {
    Sane(r, s) && s.stale == map[]
  }

  // ---------------------------------------------------------------- the fork point

  /** A stray height entry names block `h` of `q`. */
  ghost predicate StrayNames(stale: map<nat, Hash>, q: seq<Block>, h: int)
    requires 0 <= h < |q|
  {
    h in stale && stale[h] == q[h].hash
  }

  ghost predicate NoStrayOn(stale: map<nat, Hash>, q: seq<Block>) {
    forall h {:trigger StrayNames(stale, q, h)} :: 0 <= h < |q| ==> !StrayNames(stale, q, h)
  }

  /** The highest block of `q` at or below index `k` that the height index names, be it by an entry of the active chain
      `p` or by a stray one: where the search for the fork point ends. */
  ghost function Named(stale: map<nat, Hash>, p: seq<Block>, q: seq<Block>, k: nat): (f: nat)
    requires k < |q| && |p| > 0 && p[0] == q[0]
    ensures f <= k && ((f < |p| && p[f] == q[f]) || StrayNames(stale, q, f))
    ensures forall i :: f < i <= k ==> !(i < |p| && p[i] == q[i]) && !StrayNames(stale, q, i)
  {
    if (k < |p| && p[k] == q[k]) || StrayNames(stale, q, k) then k else Named(stale, p, q, k - 1)
  }

  lemma {:induction false} NamedIsMeet(stale: map<nat, Hash>, p: seq<Block>, q: seq<Block>, k: nat)
    requires k < |q| && |p| > 0 && p[0] == q[0] && NoStrayOn(stale, q)
    ensures Named(stale, p, q, k) == Meet(p, q, k)
  {
    assert !StrayNames(stale, q, Named(stale, p, q, k));
  }

  /** One step of the fork-point search: at index `k` it ends exactly when the index names the block there, and
      otherwise it moves to the parent. */
  lemma {:induction false} NamedStep(g: Block, m: map<Hash, Block>, stale: map<nat, Hash>, p: seq<Block>, q: seq<Block>,
                                     k: nat)
    requires StoreOk(g, m) && IsLineage(g, m, p) && IsLineage(g, m, q) && k < |q|
    ensures q[k].hash in m && m[q[k].hash] == q[k] && q[k].height == k
    ensures if (k < |p| && p[k].hash == q[k].hash) || StrayNames(stale, q, k) then Named(stale, p, q, k) == k
            else k > 0 && Named(stale, p, q, k) == Named(stale, p, q, k - 1) && q[k].prev == q[k - 1].hash
  {
    if k > 0 {
      assert LinkAt(q, k);
    }
  }

  ghost function ForkPoint(r: Rules, s: State, q: seq<Block>): (f: nat)
    requires Rooted(r, s) && IsLineage(r.genesis, s.store, q)
    ensures f < |q|
  {
    Named(s.stale, Path(r, s), q, |q| - 1)
  }

  // ---------------------------------------------------------------- difficulty windows

  function WindowStart(height: nat): nat {
    if height <= DIFFICULTY_WINDOW then 0 else height - DIFFICULTY_WINDOW
  }

  /** The entries of `q` at heights lo..hi-1 that the node can see: those above `fp`, and those whose height is in
      `keep`. */
  ghost function Pick(q: seq<Block>, lo: nat, hi: nat, keep: set<nat>, fp: nat): seq<DifficultyBlock>
    requires hi <= |q|
  {
    if hi <= lo then []
    else Pick(q, lo, hi - 1, keep, fp) +
         (if hi - 1 > fp || hi - 1 in keep then [AsDifficultyBlock(q[hi - 1])] else [])
  }

  /** What the in-memory height index shows of height `h`: an active block, or the block a stray entry names. */
  ghost function Shown(s: State, p: seq<Block>, h: nat): seq<DifficultyBlock> {
    if h < |p| then (if h in s.indexed then [AsDifficultyBlock(p[h])] else [])
    else if h in s.stale && s.stale[h] in s.cached && s.stale[h] in s.store
    then [AsDifficultyBlock(s.store[s.stale[h]]).(height := h)] else []
  }

  /** The history of heights lo..hi-1 for a block with ancestors `q`: what the index shows up to the fork point `fp`,
      the ancestors above it. */
  ghost function Window(s: State, p: seq<Block>, q: seq<Block>, lo: nat, hi: nat, fp: nat): seq<DifficultyBlock>
    requires hi <= |q|
  {
    if hi <= lo then []
    else Window(s, p, q, lo, hi - 1, fp) + (if hi - 1 > fp then [AsDifficultyBlock(q[hi - 1])] else Shown(s, p, hi - 1))
  }

  /** If the fork point is on the active chain, only which of its heights are indexed matters. */
  lemma {:induction false} WindowIsPick(s: State, p: seq<Block>, q: seq<Block>, lo: nat, hi: nat, fp: nat)
    requires hi <= |q| && SharesUpTo(p, q, fp)
    ensures Window(s, p, q, lo, hi, fp) == Pick(q, lo, hi, s.indexed, fp)
    decreases hi
  {
    if lo < hi {
      WindowIsPick(s, p, q, lo, hi - 1, fp);
      assert hi - 1 <= fp ==> p[hi - 1] == p[..fp + 1][hi - 1] == q[..fp + 1][hi - 1] == q[hi - 1];
    }
  }

  ghost predicate SharesUpTo(p: seq<Block>, c: seq<Block>, fp: nat) {
    fp < |p| && fp < |c| && p[..fp + 1] == c[..fp + 1]
  }

  /** Walking down `q[fp..k]` in memory, the first block that is not cached. */
  ghost function WalkStop(q: seq<Block>, cached: set<Hash>, fp: nat, k: nat): (stop: Option<nat>)
    requires fp <= k <= |q|
    ensures stop.None? <==> forall i :: fp <= i < k ==> q[i].hash in cached
    ensures stop.Some? ==> fp <= stop.value < k && q[stop.value].hash !in cached
    ensures stop.Some? ==> forall i :: stop.value < i < k ==> q[i].hash in cached
  {
    if k == fp then None
    else if q[k - 1].hash !in cached then Some(k - 1)
    else WalkStop(q, cached, fp, k - 1)
  }

  /** The window the fork walk assembles when it stops at an uncached block `stop`: the blocks above it are laid out
      as if the fork had started at genesis. */
  ghost function LostWindow(q: seq<Block>, lo: nat, hi: nat, stop: nat, genesisIndexed: bool): seq<DifficultyBlock>
    requires hi <= |q|
  {
    if hi <= lo then []
    else
      var h := hi - 1;
      LostWindow(q, lo, h, stop, genesisIndexed) +
      (if h == 0 then (if genesisIndexed then [AsDifficultyBlock(q[0])] else [])
       else if stop + h < |q| then [AsDifficultyBlock(q[stop + h])] else [])
  }

  /** The history used when a block with ancestors `q` first arrives. */
  ghost function ReceiptWindow(r: Rules, s: State, q: seq<Block>): seq<DifficultyBlock>
    requires Rooted(r, s) && IsLineage(r.genesis, s.store, q)
  {
    var lo := WindowStart(|q|);
    if q[|q| - 1].hash == s.tip then Window(s, Path(r, s), q, lo, |q|, |q| - 1)
    else
      var fp := ForkPoint(r, s, q);
      match WalkStop(q, s.cached, fp, |q|)
      case None => Window(s, Path(r, s), q, lo, |q|, fp)
      case Some(stop) => LostWindow(q, lo, |q|, stop, 0 in s.indexed)
  }

  predicate TargetOk(r: Rules, w: seq<DifficultyBlock>, b: Block) {
    |w| >= 2 ==> b.target == r.targetFor(w, b.height)
  }

  // ---------------------------------------------------------------- receiving a block

  function CheckpointHint(s: State): Option<nat> {
    if s.lastCheckpoint > 0 then Some(s.lastCheckpoint) else None
  }

  ghost predicate TimestampOk(q: seq<Block>, b: Block) {
    b.height >= MTP_WINDOW && |q| >= MTP_WINDOW ==> b.timestamp > MedianTimePast(q)
  }

  /** The state with `b` stored and cached. */
  function Stored(s: State, b: Block): State {
    s.(store := s.store[b.hash := b], cached := s.cached + {b.hash})
  }

  /** The checks of a block that attaches to the tree: validation, timestamp, difficulty target. */
  ghost function ScreenRules(r: Rules, s: State, b: Block, q: seq<Block>): (verdict: Option<Status>)
    requires Sound(r) && Rooted(r, s) && Attaches(s.store, b) && q == Ancestry(r.genesis, s.store, b.prev)
    ensures verdict.None? ==> Fresh(Replay(Path(r, s)), b.txs) && TimestampOk(q, b)
  {
    match r.validate(b, Some(s.store[b.prev]), Replay(Path(r, s)), CheckpointHint(s))
    case Error => Some(Failed)
    case Invalid => Some(Rejected)
    case Valid =>
      assert ValidIsFresh(r, b, Some(s.store[b.prev]), Replay(Path(r, s)), CheckpointHint(s));
      if !TimestampOk(q, b) || !TargetOk(r, ReceiptWindow(r, s, q), b) then Some(Rejected) else None
  }

  /** The receipt checks in order, and the status of the first that fails. */
  ghost function Screen(r: Rules, s: State, b: Block): (verdict: Option<Status>)
    requires Sound(r) && Rooted(r, s)
    ensures verdict.None? ==>
              && Attaches(s.store, b) && Fresh(Replay(Path(r, s)), b.txs)
              && TimestampOk(Ancestry(r.genesis, s.store, b.prev), b)
    ensures verdict.Some? ==> !verdict.value.Accepted? && !verdict.value.AcceptedReorg?
  {
    if b.hash in s.store then Some(AlreadyKnown)
    else if b.prev !in s.store && b.height > 0 then Some(Orphan)
    else if b.height != (if b.height == 0 then 0 else s.store[b.prev].height + 1) then Some(Rejected)
    else if b.height in r.checkpoints && r.checkpoints[b.height] != b.hash then Some(Rejected)
    else
      assert b.height > 0;
      ScreenRules(r, s, b, Ancestry(r.genesis, s.store, b.prev))
  }

  /** Deliver one block, unless that grafts it. */
  ghost function Deliver(r: Rules, s: State, b: Block): (State, Status)
    requires Sound(r) && Sane(r, s) && !Grafts(r, s, b)
  {
    match Screen(r, s, b)
    case Some(status) => (s, status)
    case None =>
      if b.prev == s.tip then (Extended(r, s, b), Accepted)
      else DeliverFork(r, s, b, Ancestry(r.genesis, s.store, b.prev))
  }

  // ---------------------------------------------------------------- extending the active chain

  ghost predicate Receivable(r: Rules, s: State, b: Block) {
    Sane(r, s) && Attaches(s.store, b)
  }

  /** The chain grown by `b`, before the cache is trimmed. */
  ghost function Grown(s: State, b: Block): State {
    Stored(s, b).(tip := b.hash, indexed := s.indexed + {b.height}, stale := s.stale - {b.height},
                  lastCheckpoint := if b.height % CHECKPOINT_INTERVAL == 0 then b.height else s.lastCheckpoint)
  }

  ghost function Extended(r: Rules, s: State, b: Block): State
    requires Rooted(r, s) && Attaches(s.store, b)
  {
    AttachKeepsTree(r.genesis, s.store, b);
    Evict(r, Grown(s, b))
  }

  /** Trim the cache: the lowest indexed heights go first, genesis and the last 200 heights stay. */
  ghost function Evict(r: Rules, s: State): State
    requires Rooted(r, s)
  {
    if |s.cached| <= MAX_BLOCK_CACHE then s
    else
      var (c, i) := EvictFrom(Path(r, s), s.cached, s.indexed, 0, |s.cached| - MAX_BLOCK_CACHE);
      s.(cached := c, indexed := i)
  }

  ghost predicate Evictable(top: int, h: int, indexed: set<nat>) {
    0 < h && h + CACHE_DEPTH < top && h in indexed
  }

  ghost function EvictFrom(p: seq<Block>, cached: set<Hash>, indexed: set<nat>, h: nat, n: nat): (set<Hash>, set<nat>)
    requires h <= |p|
    decreases |p| - h
  {
    if h == |p| || n == 0 then (cached, indexed)
    else if Evictable(|p| - 1, h, indexed) then EvictFrom(p, cached - {p[h].hash}, indexed - {h}, h + 1, n - 1)
    else EvictFrom(p, cached, indexed, h + 1, n)
  }

  // ---------------------------------------------------------------- forks

  /** A block taken off the active chain. */
  datatype Disconnected = Disconnected(height: nat, hash: Hash, txs: seq<Tx>)

  /** The blocks of `p` above `fp`, highest first. */
  ghost function Descending(p: seq<Block>, fp: nat): seq<Disconnected>
    decreases |p| - fp
  {
    if |p| <= fp + 1 then [] else Descending(p, fp + 1) + [Disconnected(fp + 1, p[fp + 1].hash, p[fp + 1].txs)]
  }

  /** The non-coinbase transactions of disconnected blocks, for return to the mempool. */
  function OrphanedTxs(ds: seq<Disconnected>): seq<Tx> {
    if ds == [] then [] else NonCoinbase(ds[0].txs) + OrphanedTxs(ds[1..])
  }

  function NonCoinbase(txs: seq<Tx>): seq<Tx> {
    if txs == [] then []
    else (if txs[0].coinbase then [] else [txs[0]]) + NonCoinbase(txs[1..])
  }

  /** What is left of the active chain `p` once everything above `fp` is disconnected. */
  ghost function Trunk(p: seq<Block>, fp: nat): seq<Block> {
    if fp + 1 < |p| then p[..fp + 1] else p
  }

  /** The blocks connected once the candidate's blocks above `fp` and below `j` follow what is left of the active
      chain. */
  ghost function Joined(p: seq<Block>, c: seq<Block>, fp: nat, j: nat): seq<Block>
    requires fp < j <= |c|
  {
    Trunk(p, fp) + c[fp + 1..j]
  }

  lemma {:induction false} JoinedFirst(p: seq<Block>, c: seq<Block>, fp: nat)
    requires fp < |c|
    ensures Joined(p, c, fp, fp + 1) == Trunk(p, fp)
  {
  }

  lemma {:induction false} JoinedNext(p: seq<Block>, c: seq<Block>, fp: nat, j: nat)
    requires fp < j < |c|
    ensures Joined(p, c, fp, j + 1) == Joined(p, c, fp, j) + [c[j]]
  {
  }

  /** If the fork point is on the active chain, that is the candidate itself. */
  lemma {:induction false} JoinedIs(p: seq<Block>, c: seq<Block>, fp: nat, j: nat)
    requires fp < j <= |c| && SharesUpTo(p, c, fp)
    ensures Joined(p, c, fp, j) == c[..j]
  {
    assert Trunk(p, fp) == c[..fp + 1];
  }

  /** Block `j` of the candidate chain validates against the blocks connected before it. */
  ghost predicate ReplayValid(r: Rules, s: State, p: seq<Block>, c: seq<Block>, fp: nat, j: nat)
    requires fp < j < |c|
  {
    var parent := if c[j - 1].hash in s.cached then Some(c[j - 1]) else None;
    r.validate(c[j], parent, Replay(Joined(p, c, fp, j)), None).Valid?
  }

  ghost predicate ReplayTargetOk(r: Rules, s: State, p: seq<Block>, c: seq<Block>, fp: nat, j: nat)
    requires fp < j < |c|
  {
    TargetOk(r, Window(s, p, c, WindowStart(j), j, fp), c[j])
  }

  /** Block `j` of the candidate chain passes both checks of the replay. */
  ghost predicate Replays(r: Rules, s: State, p: seq<Block>, c: seq<Block>, fp: nat, j: nat)
    requires fp < j < |c|
  {
    ReplayValid(r, s, p, c, fp, j) && ReplayTargetOk(r, s, p, c, fp, j)
  }

  /** So do all blocks from just above the fork point up to `j`, exclusive. */
  ghost predicate ReplaysUpTo(r: Rules, s: State, p: seq<Block>, c: seq<Block>, fp: nat, j: nat)
    requires j <= |c|
  {
    forall i {:trigger Replays(r, s, p, c, fp, i)} :: fp < i < j ==> Replays(r, s, p, c, fp, i)
  }

  lemma {:induction false} ReplaysOneMore(r: Rules, s: State, p: seq<Block>, c: seq<Block>, fp: nat, j: nat)
    requires fp < j < |c| && ReplaysUpTo(r, s, p, c, fp, j) && Replays(r, s, p, c, fp, j)
    ensures ReplaysUpTo(r, s, p, c, fp, j + 1)
  {
  }

  /** The first block of `c` at or above index `j` that does not validate on replay, or `|c|`. */
  ghost function FirstBad(r: Rules, s: State, p: seq<Block>, c: seq<Block>, fp: nat, j: nat): (k: nat)
    requires fp < j <= |c|
    ensures j <= k <= |c|
    ensures ReplaysUpTo(r, s, p, c, fp, j) ==> ReplaysUpTo(r, s, p, c, fp, k)
    ensures k < |c| ==> !Replays(r, s, p, c, fp, k)
    decreases |c| - j
  {
    if j == |c| then j
    else if Replays(r, s, p, c, fp, j) then FirstBad(r, s, p, c, fp, j + 1)
    else j
  }

  /** The first failing block is the one all blocks below which pass. */
  lemma {:induction false} FirstBadIs(r: Rules, s: State, p: seq<Block>, c: seq<Block>, fp: nat, j: nat, k: nat)
    requires fp < j <= k <= |c| && ReplaysUpTo(r, s, p, c, fp, k) && (k < |c| ==> !Replays(r, s, p, c, fp, k))
    ensures FirstBad(r, s, p, c, fp, j) == k
    decreases k - j
  {
    if j < k {
      assert Replays(r, s, p, c, fp, j);
      FirstBadIs(r, s, p, c, fp, j + 1, k);
    }
  }

  ghost function Heights(lo: nat, hi: nat): (hs: set<nat>)
    ensures forall h :: h in hs <==> lo <= h < hi
    decreases hi - lo
  {
    if hi <= lo then {} else {lo} + Heights(lo + 1, hi)
  }

  /** The height entries of `p` for the heights in `keep`. */
  ghost function IndexMap(p: seq<Block>, keep: set<nat>): map<nat, Hash> {
    IndexUpTo(p, keep, |p|)
  }

  ghost function IndexUpTo(p: seq<Block>, keep: set<nat>, n: nat): map<nat, Hash>
    requires n <= |p|
  {
    if n == 0 then map[]
    else if n - 1 in keep then IndexUpTo(p, keep, n - 1)[n - 1 := p[n - 1].hash]
    else IndexUpTo(p, keep, n - 1)
  }

  lemma {:induction false} IndexUpToIs(p: seq<Block>, keep: set<nat>, n: nat)
    requires n <= |p|
    ensures forall h :: h in IndexUpTo(p, keep, n) <==> h in keep && h < n
    ensures forall h :: h in IndexUpTo(p, keep, n) ==> IndexUpTo(p, keep, n)[h] == p[h].hash
  {
    if n > 0 {
      IndexUpToIs(p, keep, n - 1);
    }
  }

  lemma {:induction false} IndexMapIs(p: seq<Block>, keep: set<nat>)
    ensures forall h :: h in IndexMap(p, keep) <==> h in keep && h < |p|
    ensures forall h :: h in IndexMap(p, keep) ==> IndexMap(p, keep)[h] == p[h].hash
  {
    IndexUpToIs(p, keep, |p|);
  }

  lemma {:induction false} IndexMapAt(p: seq<Block>, keep: set<nat>, h: nat)
    ensures h in IndexMap(p, keep) <==> h in keep && h < |p|
    ensures h in IndexMap(p, keep) ==> IndexMap(p, keep)[h] == p[h].hash
  {
    IndexMapIs(p, keep);
  }

  /** The stray height entries after block `bad` of the candidate chain failed: those from before, and the fork blocks
      that were connected above the restored tip. If the last block fails only its difficulty re-check, the clean-up
      reaches up to it and leaves none there. */
  ghost function Leftover(r: Rules, s: State, p: seq<Block>, c: seq<Block>, fp: nat, bad: nat): map<nat, Hash>
    requires fp < bad < |c|
  {
    if bad == |c| - 1 && ReplayValid(r, s, p, c, fp, bad) then s.stale - Heights(fp + 1, |c|)
    else s.stale + IndexMap(c, Heights(if fp < |p| then |p| else fp + 1, bad))
  }

  /** The fork with tip `b` is preferred, and neither too deep, too light for its depth, nor below the floor. */
  ghost predicate Preferred(r: Rules, s: State, b: Block, c: seq<Block>)
    requires Rooted(r, s)
  {
    Beats(ForkWork(c), b.hash, TotalWork(r, s), s.tip)
  }

  ghost predicate DepthOk(r: Rules, s: State, b: Block, c: seq<Block>, fp: nat)
    requires Rooted(r, s) && fp <= b.height
  {
    Acceptable(b.height - fp, ForkWork(c), TotalWork(r, s), Height(s), r.maxDepth)
  }

  ghost predicate BelowFloor(s: State, fp: nat)
    requires s.tip in s.store
  {
    Floor(Height(s)) > 0 && fp < Floor(Height(s))
  }

  ghost function UpTo(keep: set<nat>, top: nat): set<nat> {
    set h | h in keep && h <= top
  }

  lemma {:induction false} HeightsGrow(lo: nat, hi: nat)
    requires lo <= hi
    ensures Heights(lo, hi + 1) == Heights(lo, hi) + {hi}
  {
  }

  /** The active chain switched to the fork ending in `b`. */
  ghost function Reorganised(s: State, b: Block, fp: nat): State {
    Stored(s, b).(tip := b.hash, base := 1, stale := s.stale - Heights(fp + 1, b.height + 1),
                  indexed := UpTo(s.indexed, fp) + Heights(fp + 1, b.height + 1))
  }

  /** The fork wins and its blocks above the fork point replay, but the fork point is a stray entry above the tip: the
      fork is joined to the active chain at a block that is not on it. */
  ghost predicate GraftsOnto(r: Rules, s: State, b: Block, q: seq<Block>)
    requires Rooted(r, s) && Attaches(s.store, b) && q == Ancestry(r.genesis, s.store, b.prev)
  {
    var p, c, fp := Path(r, s), q + [b], ForkPoint(r, s, q);
    && fp > Height(s) && Preferred(r, s, b, c) && DepthOk(r, s, b, c, fp)
    && FirstBad(r, s, p, c, fp, fp + 1) == |c|
  }

  ghost predicate Grafts(r: Rules, s: State, b: Block)
    requires Sound(r) && Rooted(r, s)
  {
    Screen(r, s, b).None? && b.prev != s.tip && GraftsOnto(r, s, b, Ancestry(r.genesis, s.store, b.prev))
  }

  ghost function DeliverFork(r: Rules, s: State, b: Block, q: seq<Block>): (State, Status)
    requires Receivable(r, s, b) && q == Ancestry(r.genesis, s.store, b.prev) && !GraftsOnto(r, s, b, q)
  {
    var p, c, fp := Path(r, s), q + [b], ForkPoint(r, s, q);
    if !Preferred(r, s, b, c) then (Stored(s, b), AcceptedFork)
    else if !DepthOk(r, s, b, c, fp) then (Stored(s, b), ReorgTooDeep)
    else if BelowFloor(s, fp) then (Stored(s, b), Rejected)
    else
      var bad := FirstBad(r, s, p, c, fp, fp + 1);
      if bad == |c| then (Reorganised(s, b, fp), AcceptedReorg(OrphanedTxs(Descending(p, fp))))
      else (Stored(s, b).(stale := Leftover(r, s, p, c, fp, bad)), Rejected)
  }
}
