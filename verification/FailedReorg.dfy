/** What a reorganisation that fails half-way leaves behind. */
module FailedReorg {
  import opened Ledger
  import opened Lineage
  import opened ForkChoice
  import opened MedianTime
  import opened ChainModel
  import opened ChainInvariant
  import opened ChainRuns
  import opened Convergence

  /** Block `bad` of the candidate stopped the attempt, and it did so before the last block's difficulty re-check, the
      one failure whose clean-up reaches up to the candidate's own height. */
  ghost predicate StopsEarly(r: Rules, s: State, p: seq<Block>, c: seq<Block>, fp: nat, bad: nat)
    requires fp < bad < |c|
  {
    bad < |c| - 1 || !ReplayValid(r, s, p, c, fp, bad)
  }

  /** The first block of the fork ending in `b` that fails on replay, or one past `b`. */
  ghost function Failing(r: Rules, s: State, b: Block, q: seq<Block>): (bad: nat)
    requires Rooted(r, s) && IsLineage(r.genesis, s.store, q)
    ensures ForkPoint(r, s, q) < bad <= |q| + 1
  {
    var fp := ForkPoint(r, s, q);
    FirstBad(r, s, Path(r, s), q + [b], fp, fp + 1)
  }

  /** The fork wins and may reorganise the chain, but one of its blocks fails. */
  ghost predicate FailsOnReplay(r: Rules, s: State, b: Block, q: seq<Block>)
    requires Rooted(r, s) && IsLineage(r.genesis, s.store, q) && b.height == |q|
  {
    var fp := ForkPoint(r, s, q);
    && Preferred(r, s, b, q + [b]) && DepthOk(r, s, b, q + [b], fp) && !BelowFloor(s, fp)
    && Failing(r, s, b, q) <= |q|
  }

  /** The first height above both the tip and the fork point. */
  ghost function AboveBoth(s: State, fp: nat): nat
    requires s.tip in s.store
  {
    if fp <= Height(s) then Height(s) + 1 else fp + 1
  }

  /** A failed attempt restores everything but possibly the in-memory height index: the tip, the totals, the UTXO set
      and the database are functions of the tree, the tip, the base credit and the checkpoint, which are those of the
      node with the block merely stored. If the attempt stopped early, the index gains exactly the connected fork blocks
      above the old tip and the fork point, so it is restored exactly when there are none; if only the last difficulty
      re-check failed, it loses exactly the entries earlier failures had left above the fork point and up to the
      block, so it is restored exactly when there were none. */
  lemma {:induction false} FailedReorgRestores(r: Rules, s: State, b: Block, q: seq<Block>, bad: nat)
    requires Receivable(r, s, b) && q == Ancestry(r.genesis, s.store, b.prev)
    requires FailsOnReplay(r, s, b, q) && bad == Failing(r, s, b, q)
    ensures !GraftsOnto(r, s, b, q) && DeliverFork(r, s, b, q).1 == Rejected
    ensures DeliverFork(r, s, b, q).0 == Stored(s, b).(stale := DeliverFork(r, s, b, q).0.stale)
    ensures var fp := ForkPoint(r, s, q);
            var t := DeliverFork(r, s, b, q).0;
            if StopsEarly(r, s, Path(r, s), q + [b], fp, bad) then
              && t.stale == s.stale + IndexMap(q + [b], Heights(AboveBoth(s, fp), bad))
              && (t == Stored(s, b) <==> bad <= AboveBoth(s, fp))
            else
              && t.stale == s.stale - Heights(fp + 1, b.height + 1)
              && (t == Stored(s, b) <==> forall h :: fp < h <= b.height ==> h !in s.stale)
  {
    hide Path, Ancestry, Meet, Named, FirstBad, SumWork, ReplayValid, Acceptable, FreshPath, CacheOk, TreeTimeOk,
         IndexMap, Heights;
    var fp, t := ForkPoint(r, s, q), DeliverFork(r, s, b, q).0;
    var lo := AboveBoth(s, fp);
    assert t.stale == Leftover(r, s, Path(r, s), q + [b], fp, bad);
    if bad > lo {
      NotNamedAbove(r, s, q, lo);
    }
    NamesMore(s.stale, q + [b], lo, bad);
    CutIff(s.stale, fp + 1, b.height + 1);
  }

  /** Naming a block that was not named changes the index. */
  lemma {:induction false} NamesMore(stale: map<nat, Hash>, c: seq<Block>, lo: nat, bad: nat)
    requires bad < |c| && (lo < bad ==> !StrayNames(stale, c, lo))
    ensures stale + IndexMap(c, Heights(lo, bad)) == stale <==> bad <= lo
  {
    hide IndexMap;
    IndexMapIs(c, Heights(lo, bad));
    if lo < bad {
      assert (stale + IndexMap(c, Heights(lo, bad)))[lo] == c[lo].hash;
    }
  }

  lemma {:induction false} CutIff(stale: map<nat, Hash>, lo: nat, hi: nat)
    ensures stale - Heights(lo, hi) == stale <==> forall h :: lo <= h < hi ==> h !in stale
  {
    if h :| lo <= h < hi && h in stale {
      assert h !in stale - Heights(lo, hi);
    }
  }

  lemma {:induction false} NotNamedAbove(r: Rules, s: State, q: seq<Block>, h: nat)
    requires Rooted(r, s) && IsLineage(r.genesis, s.store, q) && ForkPoint(r, s, q) < h < |q|
    ensures !StrayNames(s.stale, q, h)
  {
  }

  /** No block at most one above the tip leaves anything behind. */
  lemma {:induction false} ShortForksLeaveNothing(r: Rules, s: State, b: Block)
    requires Sound(r) && Sane(r, s) && b.height <= Height(s) + 1
    ensures !Grafts(r, s, b)
    ensures forall h :: h in Deliver(r, s, b).0.stale ==> h in s.stale
  {
    hide Path, Ancestry, SumWork, ReplayValid, Acceptable, FreshPath, CacheOk, TreeTimeOk, ScreenRules, IndexMap,
         Leftover, FirstBad, Meet, Named, Evict, Beats, Floor, Descending, OrphanedTxs, StoreOk, IsLineage, Heights;
    if Screen(r, s, b).None? {
      if b.prev == s.tip {
        EvictKeepsStale(r, s, b);
      } else {
        var q := Ancestry(r.genesis, s.store, b.prev);
        ForkShape(r, s, b, q);
        var fp := ForkPoint(r, s, q);
        var bad := FirstBad(r, s, Path(r, s), q + [b], fp, fp + 1);
        if bad < |q| + 1 {
          ShortLeftover(r, s, Path(r, s), q + [b], fp, bad);
        }
      }
    }
  }

  lemma {:induction false} EvictKeepsStale(r: Rules, s: State, b: Block)
    requires Receivable(r, s, b)
    ensures Extended(r, s, b).stale == s.stale - {b.height}
  {
  }

  lemma {:induction false} ShortLeftover(r: Rules, s: State, p: seq<Block>, c: seq<Block>, fp: nat, bad: nat)
    requires fp < bad < |c| <= |p| + 1
    ensures forall h :: h in Leftover(r, s, p, c, fp, bad) ==> h in s.stale
  {
    hide IndexMap;
    IndexMapIs(c, Heights(|p|, bad));
  }

  // ---------------------------------------------------------------- mending the index

  /** Every block of the run extends the tip it finds. */
  ghost predicate Extending(r: Rules, s: State, bs: seq<Block>)
    requires Sound(r) && Sane(r, s) && DeliverableRun(r, s, bs)
    decreases |bs|
  {
    bs != [] ==>
      && bs[0].prev == s.tip && Deliver(r, s, bs[0]).1 == Accepted
      && Extending(r, Next(r, s, bs[0]), bs[1..])
  }

  lemma {:induction false} ExtendingStep(r: Rules, s: State, b: Block)
    requires Sound(r) && Sane(r, s) && Deliverable(r, s, b) && b.prev == s.tip && Deliver(r, s, b).1 == Accepted
    ensures Path(r, Next(r, s, b)) == Path(r, s) + [b] && Height(Next(r, s, b)) == Height(s) + 1
    ensures Next(r, s, b).stale == s.stale - {Height(s) + 1}
  {
    hide FreshPath, TreeTimeOk, CacheOk, Ancestry, SumWork, Evict;
    ExtendedSane(r, s, b);
  }

  lemma {:induction false} RemoveFrom(stale: map<nat, Hash>, lo: nat, k: nat)
    requires lo <= k
    ensures stale - Heights(lo, lo) == stale
    ensures stale - {lo} - Heights(lo + 1, k + 1) == stale - Heights(lo, k + 1)
  {
  }

  lemma {:induction false} OutgrownIff(stale: map<nat, Hash>, lo: nat, k: nat)
    requires forall h :: h in stale ==> h > lo
    ensures stale - Heights(lo + 1, k + 1) == map[] <==> forall h :: h in stale ==> h <= k
  {
    var left := stale - Heights(lo + 1, k + 1);
    assert forall h :: h in left <==> h in stale && h > k;
  }

  /** Growing the chain mends the index: each block overwrites the entry left at its own height and no other, so what
      is left after a run of extensions is what was left above the new tip, and the node is back in the states without
      stray entries exactly when the run has outgrown them all. */
  lemma {:induction false} ExtendingMendsIndex(r: Rules, s: State, bs: seq<Block>)
    requires Sound(r) && Sane(r, s) && DeliverableRun(r, s, bs) && Extending(r, s, bs)
    ensures Path(r, Run(r, s, bs)) == Path(r, s) + bs && Height(Run(r, s, bs)) == Height(s) + |bs|
    ensures Run(r, s, bs).stale == s.stale - Heights(Height(s) + 1, Height(s) + |bs| + 1)
    ensures WellFormed(r, Run(r, s, bs)) <==> forall h :: h in s.stale ==> h <= Height(s) + |bs|
    decreases |bs|
  {
    hide Sound, Deliver, Deliverable, Next, FreshPath, TreeTimeOk, CacheOk, Ancestry, SumWork, Heights, Floor,
         IsLineage;
    OutgrownIff(s.stale, Height(s), Height(s) + |bs|);
    if bs == [] {
      RemoveFrom(s.stale, Height(s) + 1, Height(s) + 1);
      assert Path(r, s) + bs == Path(r, s);
    } else {
      ExtendingStep(r, s, bs[0]);
      RemoveFrom(s.stale, Height(s) + 1, Height(s) + |bs|);
      ExtendingMendsIndex(r, Next(r, s, bs[0]), bs[1..]);
      assert Path(r, s) + [bs[0]] + bs[1..] == Path(r, s) + bs;
    }
  }

  // ---------------------------------------------------------------- an instance

  const LIGHT: Target := U128_MAX * TWO_128
  const HEAVY: Target := 0x5555_5555_5555_5555_5555_5555_5555_5555 * TWO_128

  lemma {:induction false} ExampleWork(t: Target)
    ensures t == LIGHT ==> WorkOfTarget(t) == 1
    ensures t == HEAVY ==> WorkOfTarget(t) == 3
  {
  }

  const G := Block(0, 0, 0, 0, LIGHT, 0, [])
  /** The active block: heavy, no transactions. */
  const A := Block(20, 0, 1, 0, HEAVY, 0, [])
  /** A fork whose first and third block spend the same key image. */
  const F1 := Block(11, 0, 1, 0, LIGHT, 0, [Tx(101, false, 0, 0, 0, [7])])
  const F2 := Block(12, 11, 2, 0, LIGHT, 0, [])
  const F3 := Block(13, 12, 3, 0, LIGHT, 0, [Tx(103, false, 0, 0, 0, [7])])

  function ExampleRules(): Rules {
    Rules(G, map[0 := 0],
          (b: Block, p: Option<Block>, u: Utxo, cp: Option<nat>) =>
            if (p.None? && b.height > 0) || !Fresh(u, b.txs) then Invalid else Valid,
          h => 1, (f, c) => 0, 0, (w, h) => LIGHT, 100)
  }

  function ExampleState(): State {
    State(map[0 := G, 20 := A, 11 := F1, 12 := F2], 20, {0, 20, 11, 12}, {0, 1}, map[], 1, 0)
  }

  lemma {:induction false} ExampleTree()
    ensures StoreOk(G, ExampleState().store)
    ensures Ancestry(G, ExampleState().store, 20) == [G, A] && Ancestry(G, ExampleState().store, 12) == [G, F1, F2]
    ensures Ancestry(G, ExampleState().store, 0) == [G] && Ancestry(G, ExampleState().store, 11) == [G, F1]
    ensures forall h :: h in ExampleState().store ==> ExampleState().store[h].height <= 2
  {
    var m := ExampleState().store;
    assert ParentOk(m, 0) && ParentOk(m, 20) && ParentOk(m, 11) && ParentOk(m, 12);
    assert Ancestry(G, m, 0) == [G];
    assert Ancestry(G, m, 20) == [G] + [A];
    assert Ancestry(G, m, 11) == [G] + [F1];
    assert Ancestry(G, m, 12) == [G] + [F1] + [F2];
  }

  lemma {:induction false} ExampleSums()
    ensures Replay([]) == Replay([G]) == Replay([G, A]) == EMPTY_UTXO && SumWork([G, A]) == 3
    ensures Replay([G, F1]) == Replay([G, F1, F2]) == Utxo(map[], {7}) && SumWork([G, F1, F2, F3]) == 3
    ensures SumWork([G]) == 0 && SumWork([G, F1]) == 1 && SumWork([G, F1, F2]) == 2
  {
    var r := ExampleRules();
    ExampleWork(LIGHT);
    ExampleWork(HEAVY);
    SumsAppend(r, [], G);
    SumsAppend(r, [G], A);
    SumsAppend(r, [G], F1);
    SumsAppend(r, [G, F1], F2);
    SumsAppend(r, [G, F1, F2], F3);
    assert [] + [G] == [G] && [G] + [A] == [G, A] && [G] + [F1] == [G, F1];
    assert [G, F1] + [F2] == [G, F1, F2] && [G, F1, F2] + [F3] == [G, F1, F2, F3];
    assert F1.txs[0] in F1.txs && 7 in F1.txs[0].keyImages;
    assert Spends(F1.txs) == {7} && Outputs(F1.txs) == {};
    assert Connect(EMPTY_UTXO, 1, F1.txs).spent == {7};
  }

  lemma {:induction false} ExampleSound()
    ensures Sound(ExampleRules())
  {
  }

  lemma {:induction false} ExampleFresh()
    ensures FreshPath([G, A]) && CacheOk([G, A], ExampleState().cached, ExampleState().indexed)
  {
    var s, p := ExampleState(), [G, A];
    ExampleSums();
    assert p[..0] == [] && p[..1] == [G];
    assert FreshAt(p, 0) && FreshAt(p, 1);
    assert CachedAt(p, s.cached, s.indexed, 0) && CachedAt(p, s.cached, s.indexed, 1);
  }

  lemma {:induction false} ExampleWellFormed()
    ensures Sound(ExampleRules()) && WellFormed(ExampleRules(), ExampleState())
    ensures Path(ExampleRules(), ExampleState()) == [G, A]
  {
    hide FreshPath, CacheOk, Ancestry, StoreOk, Sound, SumWork;
    var r, s := ExampleRules(), ExampleState();
    ExampleSound();
    ExampleTree();
    ExampleSums();
    ExampleFresh();
    forall h | h in s.store ensures LineageTimeOk(G, s.store, h) {
    }
  }

  lemma {:induction false} ExampleReplays()
    ensures FirstBad(ExampleRules(), ExampleState(), [G, A], [G, F1, F2, F3], 0, 1) == 3
    ensures !ReplayValid(ExampleRules(), ExampleState(), [G, A], [G, F1, F2, F3], 0, 3)
  {
    hide Window;
    var r, s, p, c := ExampleRules(), ExampleState(), [G, A], [G, F1, F2, F3];
    ExampleSums();
    assert p[..1] == [G] && c[..1] == [G] && c[..2] == [G, F1] && c[..3] == [G, F1, F2];
    JoinedIs(p, c, 0, 1);
    JoinedIs(p, c, 0, 2);
    JoinedIs(p, c, 0, 3);
    assert Replays(r, s, p, c, 0, 1) && Replays(r, s, p, c, 0, 2);
    assert F3.txs[0] in F3.txs && 7 in Spends(F3.txs);
    assert !ReplayValid(r, s, p, c, 0, 3);
    FirstBadIs(r, s, p, c, 0, 1, 3);
  }

  /** A failed attempt that does leave an entry: the fork's second block stays in the height index, one above the
      restored tip, although it is not on the active chain. */
  lemma {:induction false} FailedReorgLeavesEntry()
    ensures Sound(ExampleRules()) && WellFormed(ExampleRules(), ExampleState())
    ensures !Grafts(ExampleRules(), ExampleState(), F3)
    ensures Deliver(ExampleRules(), ExampleState(), F3)
            == (Stored(ExampleState(), F3).(stale := map[2 := 12]), Rejected)
  {
    hide IndexMap, FreshPath, TreeTimeOk, CacheOk, Ancestry, FirstBad, SumWork, Replay, ReplayValid;
    var r, s, q := ExampleRules(), ExampleState(), [G, F1, F2];
    ExampleTree();
    ExampleWellFormed();
    ExampleSums();
    ExampleReplays();
    assert q + [F3] == [G, F1, F2, F3];
    assert Named(map[], [G, A], q, 2) == 0;
    assert Fresh(EMPTY_UTXO, F3.txs);
    assert Screen(r, s, F3).None?;
    IndexMapIs([G, F1, F2, F3], Heights(2, 3));
    assert Leftover(r, s, [G, A], [G, F1, F2, F3], 0, 3) == map[2 := 12];
  }

  /** No chain in the tree keeps a block of the tree that is not on it from validating. */
  lemma {:induction false} ExampleValidOn(h: Hash, t: Hash, cp: Option<nat>)
    requires h in ExampleState().store && t in ExampleState().store && ExampleState().store[h].height > 0
    ensures StoreOk(G, ExampleState().store) && ValidOn(ExampleRules(), ExampleState().store, h, t, cp)
  {
    hide Ancestry, Replay, StoreOk, Fresh;
    var m := ExampleState().store;
    ExampleTree();
    ExampleSums();
    assert ParentOk(m, h);
    if h == 11 {
      ExampleFreshSpend();
      assert F1 in [G, F1] && F1 in [G, F1, F2];
    } else {
      NothingSpent(Replay(Ancestry(G, m, t)));
    }
  }

  lemma {:induction false} NothingSpent(u: Utxo)
    ensures Fresh(u, [])
  {
  }

  lemma {:induction false} ExampleFreshSpend()
    ensures Fresh(EMPTY_UTXO, F1.txs)
  {
  }

  /** Forked trees to which convergence applies exist; this is one. */
  lemma {:induction false} ExampleUniverse()
    ensures Universe(ExampleRules(), ExampleState().store)
  {
    hide Ancestry, SumWork, StoreOk, ValidOn, WorkOfTarget;
    var r, m := ExampleRules(), ExampleState().store;
    ExampleTree();
    ExampleSums();
    forall h | h in m ensures Eligible(r, m, h) {
      assert ParentOk(m, h);
      if m[h].height > 0 {
        forall t, cp | t in m ensures ValidOn(r, m, h, t, cp) {
          ExampleValidOn(h, t, cp);
        }
      }
    }
  }
}
