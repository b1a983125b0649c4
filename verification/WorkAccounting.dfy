/** The three accounts of cumulative work, and what a node that has not yet credited its genesis block does. */
module WorkAccounting {
  import opened Ledger
  import opened Lineage
  import opened ForkChoice
  import opened ChainModel
  import opened ChainInvariant
  import opened ChainImage
  import opened ChainRuns
  import opened Convergence
  import opened FailedReorg

  /** Fork choice is the rule "more work, then the smaller hash" exactly when genesis is credited. A node that has not
      credited it prefers every fork with at least as much work, whatever the hashes, and even one with a unit less work
      and a smaller hash. */
  lemma {:induction false} PreferredIs(r: Rules, s: State, b: Block, c: seq<Block>)
    requires Sane(r, s) && 1 + SumWork(c) <= U128_MAX
    ensures s.base == 1 ==> (Preferred(r, s, b, c) <==> Beats(SumWork(c), b.hash, SumWork(Path(r, s)), s.tip))
    ensures s.base == 0 ==>
              (Preferred(r, s, b, c) <==>
                 SumWork(c) >= SumWork(Path(r, s)) || (SumWork(c) + 1 == SumWork(Path(r, s)) && b.hash < s.tip))
  {
    hide SumWork, Path, FreshPath, TreeTimeOk, CacheOk, Ancestry;
  }

  /** The deviation is exactly the ties that the smaller-hash rule decides against the fork, and the forks one unit
      short that have the smaller hash. */
  lemma {:induction false} UncreditedDeviates(r: Rules, s: State, b: Block, c: seq<Block>)
    requires Sane(r, s) && 1 + SumWork(c) <= U128_MAX && s.base == 0
    ensures Preferred(r, s, b, c) != Beats(SumWork(c), b.hash, SumWork(Path(r, s)), s.tip)
            <==> ((SumWork(c) == SumWork(Path(r, s)) && s.tip <= b.hash) ||
                  (SumWork(c) + 1 == SumWork(Path(r, s)) && b.hash < s.tip))
  {
    PreferredIs(r, s, b, c);
  }

  // ---------------------------------------------------------------- arrival order on a fresh node

  /** Two blocks of equal work on top of genesis. */
  ghost predicate Siblings(r: Rules, w: map<Hash, Block>, x: Block, y: Block) {
    && x.hash != y.hash && x.hash in w && y.hash in w && w[x.hash] == x && w[y.hash] == y
    && x.height == 1 && y.height == 1 && x.prev == r.genesis.hash && y.prev == r.genesis.hash
    && Work(x) == Work(y)
  }

  lemma {:induction false} FreshRemembers(r: Rules, w: map<Hash, Block>)
    requires Sound(r) && StoreOk(r.genesis, w)
    ensures Remembers(r, w, GenesisState(r)) && Following(r, w, GenesisState(r).(base := 1))
  {
    GenesisWellFormed(r);
    GenesisRooted(r);
    var s := GenesisState(r);
    assert Path(r, s.(base := 1)) == Path(r, s);
    assert s.indexed == Heights(0, 1);
  }

  /** A fresh node takes the first block on top of genesis. */
  lemma {:induction false} TakesFirst(r: Rules, w: map<Hash, Block>, x: Block)
    requires Sound(r) && Universe(r, w) && x.hash in w && w[x.hash] == x && x.height == 1 && x.prev == r.genesis.hash
    ensures var s := GenesisState(r);
            && WellFormed(r, s) && Deliverable(r, s, x) && Next(r, s, x) == Grown(s, x)
            && Remembers(r, w, Grown(s, x)) && Path(r, Grown(s, x)) == [r.genesis, x]
  {
    hide Sane, Screen, Ancestry, Replay, FreshPath, TreeTimeOk, CacheOk, Evict, SumWork, ParentOk;
    var s := GenesisState(r);
    FreshRemembers(r, w);
    GenesisRooted(r);
    PassesReceipt(r, w, s, x);
    assert Eligible(r, w, x.hash);
    DeliveredExtends(r, s, x);
    GrownSane(r, s, x);
    assert [r.genesis] + [x] == [r.genesis, x];
    HeightsGrow(0, 1);
  }

  /** And then any sibling of equal work. */
  lemma {:induction false} SwitchesToSibling(r: Rules, w: map<Hash, Block>, x: Block, y: Block)
    requires Sound(r) && Universe(r, w) && Siblings(r, w, x, y)
    requires var s := Grown(GenesisState(r), x); Remembers(r, w, s) && Path(r, s) == [r.genesis, x]
    ensures var s := Grown(GenesisState(r), x); Deliverable(r, s, y) && Next(r, s, y).tip == y.hash
  {
    var s, q := Grown(GenesisState(r), x), [r.genesis];
    PassesReceipt(r, w, s, y);
    assert q == Ancestry(r.genesis, s.store, y.prev);
    assert [r.genesis, y][..1] == q && [r.genesis, x][..1] == q && q + [y] == [r.genesis, y];
    DeliveredForks(r, w, s, y, q);
  }

  /** Arrival order decides on fresh nodes: two nodes that have only created their genesis block and receive the same
      two blocks of equal work in opposite orders end on different tips. Crediting genesis is what convergence needs. */
  lemma {:induction false} FreshNodesDiverge(r: Rules, w: map<Hash, Block>, x: Block, y: Block)
    requires Sound(r) && Universe(r, w) && Siblings(r, w, x, y)
    ensures var s := GenesisState(r);
            && WellFormed(r, s) && DeliverableRun(r, s, [x, y]) && DeliverableRun(r, s, [y, x])
            && Run(r, s, [x, y]).tip == y.hash && Run(r, s, [y, x]).tip == x.hash
  {
    hide Sane, WellFormed, Deliver, Grown, Remembers, Universe, Sound, DeliverableRun, Run;
    var s := GenesisState(r);
    GenesisWellFormed(r);
    TakesFirst(r, w, x);
    TakesFirst(r, w, y);
    SwitchesToSibling(r, w, x, y);
    SwitchesToSibling(r, w, y, x);
    RunOfTwo(r, s, x, y);
    RunOfTwo(r, s, y, x);
  }

  // ---------------------------------------------------------------- an instance

  const S1 := Block(31, 0, 1, 0, LIGHT, 0, [])
  const S2 := Block(32, 0, 1, 0, LIGHT, 0, [])

  function SiblingTree(): map<Hash, Block> {
    map[0 := G, 31 := S1, 32 := S2]
  }

  lemma {:induction false} SiblingAncestry()
    ensures StoreOk(G, SiblingTree())
    ensures Ancestry(G, SiblingTree(), 0) == [G] && Ancestry(G, SiblingTree(), 31) == [G, S1]
    ensures Ancestry(G, SiblingTree(), 32) == [G, S2]
  {
    var m := SiblingTree();
    assert ParentOk(m, 0) && ParentOk(m, 31) && ParentOk(m, 32);
    assert Ancestry(G, m, 0) == [G];
    assert Ancestry(G, m, 31) == [G] + [S1] && Ancestry(G, m, 32) == [G] + [S2];
  }

  lemma {:induction false} SiblingEligible(h: Hash)
    requires h in SiblingTree()
    ensures StoreOk(G, SiblingTree()) && Eligible(ExampleRules(), SiblingTree(), h)
  {
    hide Ancestry, StoreOk, Replay, Fresh;
    var r, m := ExampleRules(), SiblingTree();
    SiblingAncestry();
    ExampleWork(LIGHT);
    assert ParentOk(m, h);
    assert [G, S1][..1] == [G] && [G, S2][..1] == [G];
    if m[h].height > 0 {
      forall t, cp | t in m ensures ValidOn(r, m, h, t, cp) {
        NothingSpent(Replay(Ancestry(G, m, t)));
      }
    }
  }

  /** Two nodes, two equal blocks, two tips: the assumptions are met by a tree of three blocks. */
  lemma {:induction false} FreshNodesDivergeInstance()
    ensures var r, s := ExampleRules(), GenesisState(ExampleRules());
            && Sound(r) && Universe(r, SiblingTree()) && Siblings(r, SiblingTree(), S1, S2)
            && WellFormed(r, s) && DeliverableRun(r, s, [S1, S2]) && DeliverableRun(r, s, [S2, S1])
            && Run(r, s, [S1, S2]).tip != Run(r, s, [S2, S1]).tip
  {
    hide Eligible, Sound, WellFormed, DeliverableRun, Run, StoreOk;
    var r := ExampleRules();
    ExampleSound();
    SiblingAncestry();
    forall h | h in SiblingTree() ensures Eligible(r, SiblingTree(), h) {
      SiblingEligible(h);
    }
    FreshNodesDiverge(r, SiblingTree(), S1, S2);
  }
}
