/** What happens to a fork block one of whose ancestors is named by an entry a failed reorganisation left behind. */
module GraftedReorg {
  import opened Ledger
  import opened Lineage
  import opened ForkChoice
  import opened MedianTime
  import opened ChainModel
  import opened ChainInvariant
  import opened ChainRuns
  import opened ChainImage
  import opened FailedReorg

  lemma {:induction false} SupplyConcat(r: Rules, p: seq<Block>, q: seq<Block>)
    ensures SumSupply(r, p + q) == SumSupply(r, p) + SumSupply(r, q)
    decreases |q|
  {
    if q == [] {
      assert p + q == p;
    } else {
      var n := |q| - 1;
      SupplyConcat(r, p, q[..n]);
      assert (p + q)[..|p + q| - 1] == p + q[..n];
    }
  }

  /** A graft pays the rewards of the old chain and of the fork above the fork point, not those of the heights between:
      supply is conserved exactly when these are nil. */
  lemma {:induction false} GraftSkipsRewards(r: Rules, s: State, b: Block, q: seq<Block>)
    requires Rooted(r, s) && StraysAbove(s) && Attaches(s.store, b) && q == Ancestry(r.genesis, s.store, b.prev)
    requires ForkPoint(r, s, q) > Height(s)
    ensures var c, fp := q + [b], ForkPoint(r, s, q);
            var supply := SumSupply(r, Joined(Path(r, s), c, fp, |c|));
            && supply + SumReward(r, fp + 1) == SumReward(r, Height(s) + 1) + SumReward(r, |c|)
            && (supply == SumReward(r, b.height + 1) <==> SumReward(r, fp + 1) == SumReward(r, Height(s) + 1))
  {
    hide Named, Ancestry, SumReward, SumSupply;
    var p, c, fp := Path(r, s), q + [b], ForkPoint(r, s, q);
    SupplyByHeight(r, p);
    SupplyByHeight(r, c);
    SupplyByHeight(r, c[..fp + 1]);
    SupplyConcat(r, p, c[fp + 1..]);
    SupplyConcat(r, c[..fp + 1], c[fp + 1..]);
    assert c[..fp + 1] + c[fp + 1..] == c && c[fp + 1..|c|] == c[fp + 1..];
  }

  // ---------------------------------------------------------------- an instance

  /** A light block on top of the fork block that the failed attempt left in the index. */
  const X := Block(14, 12, 3, 0, LIGHT, 0, [])

  /** The node after the failed attempt of `FailedReorgLeavesEntry`. */
  function LeftState(): State {
    Stored(ExampleState(), F3).(stale := map[2 := 12])
  }

  lemma {:induction false} LeftStateIs()
    ensures Sound(ExampleRules()) && WellFormed(ExampleRules(), ExampleState())
    ensures !Grafts(ExampleRules(), ExampleState(), F3)
    ensures LeftState() == Deliver(ExampleRules(), ExampleState(), F3).0
    ensures Sane(ExampleRules(), LeftState()) && Path(ExampleRules(), LeftState()) == [G, A]
  {
    hide Sane, Sound, Grafts, Deliver, StoreOk, IsLineage, FreshPath, Ancestry, ExampleRules, SumWork;
    var r, s := ExampleRules(), ExampleState();
    ExampleFits();
    FailedReorgLeavesEntry();
    ExampleWellFormed();
    DeliverSane(r, s, F3);
    StoredPath(r, s, F3);
    assert Path(r, LeftState()) == Path(r, Stored(s, F3));
  }

  lemma {:induction false} ExampleFits()
    ensures Rooted(ExampleRules(), ExampleState()) && Attaches(ExampleState().store, F3)
    ensures WorkFits(ExampleRules(), ExampleState(), F3)
  {
    hide Ancestry, StoreOk, SumWork;
    ExampleTree();
    ExampleSums();
    assert [G, F1, F2] + [F3] == [G, F1, F2, F3];
  }

  // ---------------------------------------------------------------- how a node gets there

  /** A node that has only its genesis block, credited with one unit of work as after a restart. */
  function Start(): State {
    State(map[0 := G], 0, {0}, {0}, map[], 1, 0)
  }

  function AfterA(): State {
    State(map[0 := G, 20 := A], 20, {0, 20}, {0, 1}, map[], 1, 0)
  }

  function AfterF1(): State {
    Stored(AfterA(), F1)
  }

  lemma {:induction false} StartSane()
    ensures Sound(ExampleRules()) && Sane(ExampleRules(), Start()) && Path(ExampleRules(), Start()) == [G]
    ensures Start() == GenesisState(ExampleRules()).(base := 1)
  {
    hide FreshPath, TreeTimeOk, CacheOk, Ancestry;
    var r := ExampleRules();
    ExampleSound();
    GenesisWellFormed(r);
    GenesisRooted(r);
    assert Path(r, Start()) == Path(r, GenesisState(r));
  }

  lemma {:induction false} Tree1()
    ensures Attaches(Start().store, A) && StoreOk(G, AfterA().store) && Ancestry(G, Start().store, 0) == [G]
    ensures Ancestry(G, AfterA().store, 20) == [G, A] && Ancestry(G, AfterA().store, 0) == [G]
    ensures Start().store[20 := A] == AfterA().store
  {
    hide Ancestry;
    StartSane();
    AttachKeepsTree(G, Start().store, A);
    AncestrySubmap(G, Start().store, AfterA().store, 0);
    assert [G] + [A] == [G, A];
  }

  lemma {:induction false} Tree2()
    ensures Attaches(AfterA().store, F1) && StoreOk(G, AfterF1().store)
    ensures Ancestry(G, AfterF1().store, 20) == [G, A] && Ancestry(G, AfterF1().store, 11) == [G, F1]
    ensures Attaches(AfterF1().store, F2) && Stored(AfterF1(), F2) == ExampleState()
  {
    hide Ancestry, StoreOk;
    Tree1();
    AttachKeepsTree(G, AfterA().store, F1);
    AncestrySubmap(G, AfterA().store, AfterF1().store, 20);
    assert [G] + [F1] == [G, F1];
    assert Stored(AfterF1(), F2).store == ExampleState().store && Stored(AfterF1(), F2).cached == ExampleState().cached;
  }

  lemma {:induction false} PrefixSums()
    ensures SumWork([G]) == 0 && SumWork([G, A]) == 3 && SumWork([G, F1]) == 1 && SumWork([G, F1, F2]) == 2
  {
    var r := ExampleRules();
    ExampleWork(LIGHT);
    ExampleWork(HEAVY);
    SumsAppend(r, [G], A);
    SumsAppend(r, [G], F1);
    SumsAppend(r, [G, F1], F2);
    assert [G] + [A] == [G, A] && [G] + [F1] == [G, F1] && [G, F1] + [F2] == [G, F1, F2];
  }

  /** The first block extends the chain. */
  lemma {:induction false} DeliverA()
    ensures Sound(ExampleRules()) && Sane(ExampleRules(), Start()) && Deliverable(ExampleRules(), Start(), A)
    ensures Next(ExampleRules(), Start(), A) == AfterA()
  {
    hide FreshPath, TreeTimeOk, CacheOk, Ancestry, StoreOk, SumWork, Replay, Fresh, GraftsOnto, IsLineage;
    var r, s := ExampleRules(), Start();
    StartSane();
    Tree1();
    PrefixSums();
    NothingSpent(Replay([G]));
    assert [G] + [A] == [G, A];
    assert |Window(s, [G], [G], 0, 1, 0)| <= 1;
    assert Screen(r, s, A).None?;
    HonestIsNotGrafted(r, s, A);
    assert Grown(s, A) == AfterA();
  }

  /** A fork block that does not win is only stored. */
  lemma {:induction false} OnlyStored(r: Rules, s: State, b: Block, q: seq<Block>)
    requires Sound(r) && WellFormed(r, s) && Screen(r, s, b).None? && b.prev != s.tip && WorkFits(r, s, b)
    requires q == Ancestry(r.genesis, s.store, b.prev) && !Preferred(r, s, b, q + [b])
    ensures Deliverable(r, s, b) && Next(r, s, b) == Stored(s, b)
  {
    hide FreshPath, TreeTimeOk, CacheOk, Ancestry, SumWork, Preferred, Named;
  }

  lemma {:induction false} DeliverF1()
    ensures Sound(ExampleRules()) && Sane(ExampleRules(), AfterA()) && Deliverable(ExampleRules(), AfterA(), F1)
    ensures Next(ExampleRules(), AfterA(), F1) == AfterF1()
  {
    hide FreshPath, TreeTimeOk, CacheOk, Ancestry, StoreOk, SumWork, Replay, Fresh, Sane, Sound, Grafts, Deliverable,
         Next, ReceiptWindow;
    var r, s := ExampleRules(), AfterA();
    DeliverA();
    Tree1();
    Tree2();
    PrefixSums();
    ExampleSums();
    ExampleFreshSpend();
    assert [G] + [F1] == [G, F1];
    OnlyStored(r, s, F1, [G]);
  }

  lemma {:induction false} DeliverF2()
    ensures Sound(ExampleRules()) && Sane(ExampleRules(), AfterF1()) && Deliverable(ExampleRules(), AfterF1(), F2)
    ensures Next(ExampleRules(), AfterF1(), F2) == ExampleState()
  {
    hide FreshPath, TreeTimeOk, CacheOk, Ancestry, StoreOk, SumWork, Replay, Fresh, Sane, Sound, Grafts, Deliverable,
         Next, ReceiptWindow;
    var r, s := ExampleRules(), AfterF1();
    DeliverF1();
    Tree2();
    PrefixSums();
    ExampleSums();
    NothingSpent(Replay([G, A]));
    assert [G, F1] + [F2] == [G, F1, F2];
    OnlyStored(r, s, F2, [G, F1]);
  }

  /** The node of the instance is one a run reaches: the four blocks, delivered in order to a node with nothing but a
      credited genesis block, leave it there. */
  lemma {:induction false} LeftStateReached()
    ensures var r, s := ExampleRules(), GenesisState(ExampleRules()).(base := 1);
            && Sound(r) && Sane(r, s) && DeliverableRun(r, s, [A, F1, F2, F3])
            && Run(r, s, [A, F1, F2, F3]) == LeftState()
  {
    hide Sound, Sane, Deliverable, Next, DeliverableRun, Run, Deliver, Grafts;
    var r := ExampleRules();
    StartSane();
    DeliverA();
    DeliverF1();
    DeliverF2();
    DeliverF3();
    RunNone(r, LeftState());
    RunFirst(r, ExampleState(), F3, []);
    RunFirst(r, AfterF1(), F2, [F3] + []);
    RunFirst(r, AfterA(), F1, [F2] + ([F3] + []));
    RunFirst(r, Start(), A, [F1] + ([F2] + ([F3] + [])));
    assert [A] + ([F1] + ([F2] + ([F3] + []))) == [A, F1, F2, F3];
  }

  lemma {:induction false} DeliverF3()
    ensures Sound(ExampleRules()) && Sane(ExampleRules(), ExampleState()) && Sane(ExampleRules(), LeftState())
    ensures Deliverable(ExampleRules(), ExampleState(), F3) && Next(ExampleRules(), ExampleState(), F3) == LeftState()
  {
    hide Sane, Sound, Grafts, Deliver;
    ExampleFits();
    LeftStateIs();
  }

  lemma {:induction false} RunNone(r: Rules, s: State)
    requires Sound(r) && Sane(r, s)
    ensures DeliverableRun(r, s, []) && Run(r, s, []) == s
  {
  }

  // ---------------------------------------------------------------- the next block

  lemma {:induction false} XTree()
    ensures var t := LeftState();
            && Rooted(ExampleRules(), t) && Path(ExampleRules(), t) == [G, A] && Attaches(t.store, X)
            && Ancestry(G, t.store, X.prev) == [G, F1, F2]
            && ForkPoint(ExampleRules(), t, [G, F1, F2]) == 2 && Meet([G, A], [G, F1, F2], 2) == 0
  {
    hide Ancestry, Sane, Sound, WellFormed, Grafts, Deliver, IsLineage;
    var m := ExampleState().store;
    ExampleTree();
    LeftStateIs();
    AttachKeepsTree(G, m, F3);
    AncestrySubmap(G, m, LeftState().store, 12);
    XFork();
  }

  lemma {:induction false} XFork()
    ensures Named(map[2 := 12], [G, A], [G, F1, F2], 2) == 2 && Meet([G, A], [G, F1, F2], 2) == 0
  {
    assert StrayNames(map[2 := 12], [G, F1, F2], 2);
  }

  lemma {:induction false} XSums()
    ensures Replay([G, A]) == EMPTY_UTXO && 7 !in Replay([G, A, X]).spent && 7 in Replay([G, F1, F2, X]).spent
    ensures SumWork([G, A]) == 3 && SumWork([G, F1, F2, X]) == 3
    ensures SumSupply(ExampleRules(), [G, A, X]) == 3 && SumReward(ExampleRules(), 4) == 4
  {
    var r := ExampleRules();
    ExampleWork(LIGHT);
    ExampleSums();
    SumsAppend(r, [G, A], X);
    SumsAppend(r, [G], A);
    SumsAppend(r, [], G);
    SumsAppend(r, [G, F1, F2], X);
    SumsAppend(r, [G, F1], F2);
    SumsAppend(r, [G], F1);
    assert [] + [G] == [G] && [G] + [A] == [G, A] && [G, A] + [X] == [G, A, X] && [G] + [F1] == [G, F1];
    assert [G, F1] + [F2] == [G, F1, F2] && [G, F1, F2] + [X] == [G, F1, F2, X];
  }

  lemma {:induction false} XReplays()
    ensures Joined([G, A], [G, F1, F2, X], 2, 3) == [G, A] && Joined([G, A], [G, F1, F2, X], 2, 4) == [G, A, X]
    ensures FirstBad(ExampleRules(), LeftState(), [G, A], [G, F1, F2, X], 2, 3) == 4
  {
    hide Window, Replay;
    var r, t, p, c := ExampleRules(), LeftState(), [G, A], [G, F1, F2, X];
    assert c[3..3] == [] && c[3..4] == [X] && p + [X] == [G, A, X];
    assert Joined(p, c, 2, 3) == p;
    NothingSpent(Replay(p));
    assert c[2].hash in t.cached && Fresh(Replay(p), c[3].txs);
    assert ReplayValid(r, t, p, c, 2, 3) && ReplayTargetOk(r, t, p, c, 2, 3);
    FirstBadIs(r, t, p, c, 2, 3, 4);
  }

  lemma {:induction false} XScreen()
    ensures Sound(ExampleRules()) && Rooted(ExampleRules(), LeftState())
    ensures Screen(ExampleRules(), LeftState(), X).None?
  {
    hide ReceiptWindow, Ancestry, Replay, Path, Fresh, StoreOk;
    ExampleSound();
    XTree();
    NothingSpent(Replay(Path(ExampleRules(), LeftState())));
  }

  /** One block further the fork point found is not the common ancestor: block X is connected on top of the active block
      A although its parent is the fork block F2. The index then holds A below F2, which is no lineage; the UTXO set
      lacks the key image F1 spent; the supply lacks a reward; and the stored index lacks height 2. */
  lemma {:induction false} GraftInstance()
    ensures Sound(ExampleRules()) && Sane(ExampleRules(), LeftState()) && Grafts(ExampleRules(), LeftState(), X)
    ensures IsLineage(G, LeftState().store, [G, F1, F2]) && Path(ExampleRules(), LeftState()) == [G, A]
    ensures ForkPoint(ExampleRules(), LeftState(), [G, F1, F2]) == 2 && Meet([G, A], [G, F1, F2], 2) == 0
    ensures MidIndex(LeftState(), [G, A], [G, F1, F2, X], 2, 4) ==
            map[0 := G.hash, 1 := A.hash, 2 := F2.hash, 3 := X.hash]
    ensures X.prev == F2.hash && F2.prev == F1.hash != A.hash
    ensures Joined([G, A], [G, F1, F2, X], 2, 4) == [G, A, X]
    ensures 7 !in Replay([G, A, X]).spent && 7 in Replay([G, F1, F2, X]).spent
    ensures SumSupply(ExampleRules(), [G, A, X]) == 3 && SumReward(ExampleRules(), X.height + 1) == 4
    ensures 2 !in SplicedHeights([G, A], [G, F1, F2, X], 2)
  {
    hide Screen, Ancestry, Replay, StoreOk, FirstBad, SumWork, SumSupply, SumReward, Named, FreshPath, CacheOk,
         TreeTimeOk, IndexMap, Sound;
    LeftStateIs();
    XTree();
    XSums();
    XReplays();
    XScreen();
    assert [G, F1, F2] + [X] == [G, F1, F2, X];
    XIndex();
  }

  lemma {:induction false} XIndex()
    ensures MidIndex(LeftState(), [G, A], [G, F1, F2, X], 2, 4) ==
            map[0 := G.hash, 1 := A.hash, 2 := F2.hash, 3 := X.hash]
    ensures 2 !in SplicedHeights([G, A], [G, F1, F2, X], 2)
  {
    hide IndexMap;
    var p, c := [G, A], [G, F1, F2, X];
    var a, b := MidIndex(LeftState(), p, c, 2, 4), map[0 := G.hash, 1 := A.hash, 2 := F2.hash, 3 := X.hash];
    forall h: nat ensures AgreeAt(a, b, h) {
      IndexMapAt(p, {0, 1}, h);
      IndexMapAt(c, Heights(3, 4), h);
    }
    SameIndex(a, b);
    IndexMapAt(p, Heights(0, 2), 2);
    IndexMapAt(c, Heights(3, 4), 2);
  }
}
