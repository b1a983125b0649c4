/** The four difficulty windows the node assembles are all the block's own recent ancestors. */
module Windows {
  import opened Ledger
  import opened Lineage
  import opened ChainModel

  /** The reference window: the ancestors at heights lo..hi-1, in ascending order. */
  ghost function Ancestors(q: seq<Block>, lo: nat, hi: nat): (w: seq<DifficultyBlock>)
    requires lo <= hi <= |q|
    ensures |w| == hi - lo
    ensures forall i :: 0 <= i < hi - lo ==> w[i] == AsDifficultyBlock(q[lo + i])
  {
    seq(hi - lo, i requires 0 <= i < hi - lo => AsDifficultyBlock(q[lo + i]))
  }

  lemma {:induction false} AncestorsDown(q: seq<Block>, k: nat)
    requires k < |q|
    ensures [AsDifficultyBlock(q[k])] + Ancestors(q, k + 1, |q|) == Ancestors(q, k, |q|)
  {
  }

  /** The heights lo..hi-1 can all be seen. */
  ghost predicate Visible(lo: nat, hi: nat, keep: set<nat>, fp: nat) {
    forall h :: lo <= h < hi ==> h > fp || h in keep
  }

  lemma {:induction false} PickShort(q: seq<Block>, lo: nat, hi: nat, keep: set<nat>, fp: nat)
    requires lo <= hi <= |q|
    ensures |Pick(q, lo, hi, keep, fp)| <= hi - lo
    ensures !Visible(lo, hi, keep, fp) ==> |Pick(q, lo, hi, keep, fp)| < hi - lo
    decreases hi
  {
    if lo < hi {
      PickShort(q, lo, hi - 1, keep, fp);
    }
  }

  lemma {:induction false} PickAll(q: seq<Block>, lo: nat, hi: nat, keep: set<nat>, fp: nat)
    requires lo <= hi <= |q| && Visible(lo, hi, keep, fp)
    ensures Pick(q, lo, hi, keep, fp) == Ancestors(q, lo, hi)
    decreases hi
  {
    if lo < hi {
      PickAll(q, lo, hi - 1, keep, fp);
      assert Ancestors(q, lo, hi) == Ancestors(q, lo, hi - 1) + [AsDifficultyBlock(q[hi - 1])];
    }
  }

  /** A window equals the block's own ancestors exactly when every height in it can be seen. */
  lemma {:induction false} PickIsAncestors(q: seq<Block>, lo: nat, hi: nat, keep: set<nat>, fp: nat)
    requires lo <= hi <= |q|
    ensures Pick(q, lo, hi, keep, fp) == Ancestors(q, lo, hi) <==> Visible(lo, hi, keep, fp)
  {
    PickShort(q, lo, hi, keep, fp);
    if Visible(lo, hi, keep, fp) {
      PickAll(q, lo, hi, keep, fp);
    }
  }

  /** A block extending the tip is checked against its own ancestors exactly when their heights are all indexed. */
  lemma {:induction false} MainWindow(r: Rules, s: State, q: seq<Block>)
    requires Rooted(r, s) && q == Path(r, s)
    ensures ReceiptWindow(r, s, q) == Ancestors(q, WindowStart(|q|), |q|)
            <==> forall h :: WindowStart(|q|) <= h < |q| ==> h in s.indexed
  {
    WindowIsPick(s, q, q, WindowStart(|q|), |q|, |q| - 1);
    PickIsAncestors(q, WindowStart(|q|), |q|, s.indexed, |q| - 1);
  }

  /** A fork block is checked on arrival against its own ancestors when the fork leaves the active chain where the
      index says, is in memory down to there, and the active heights below are indexed. */
  lemma {:induction false} ForkReceiptWindow(r: Rules, s: State, q: seq<Block>)
    requires Rooted(r, s) && IsLineage(r.genesis, s.store, q) && q[|q| - 1].hash != s.tip
    requires NoStrayOn(s.stale, q)
    requires var fp := Meet(Path(r, s), q, |q| - 1);
             && (forall i :: fp <= i < |q| ==> q[i].hash in s.cached)
             && Visible(WindowStart(|q|), |q|, s.indexed, fp)
    ensures ReceiptWindow(r, s, q) == Ancestors(q, WindowStart(|q|), |q|)
  {
    hide Pick, Window, Ancestors, Meet, Named, Ancestry, LostWindow, NoStrayOn, Visible;
    var p, fp := Path(r, s), Meet(Path(r, s), q, |q| - 1);
    NamedIsMeet(s.stale, p, q, |q| - 1);
    AgreeBelow(r.genesis, s.store, p, q, fp);
    WindowIsPick(s, p, q, WindowStart(|q|), |q|, fp);
    PickAll(q, WindowStart(|q|), |q|, s.indexed, fp);
  }

  /** During a reorganisation block `j` of the candidate chain, the triggering block included, is checked against its
      own ancestors exactly when the active heights at or below the fork point are indexed. */
  lemma {:induction false} ReplayWindow(s: State, p: seq<Block>, c: seq<Block>, fp: nat, j: nat)
    requires j < |c| && SharesUpTo(p, c, fp)
    ensures Window(s, p, c, WindowStart(j), j, fp) == Ancestors(c, WindowStart(j), j)
            <==> Visible(WindowStart(j), j, s.indexed, fp)
  {
    WindowIsPick(s, p, c, WindowStart(j), j, fp);
    PickIsAncestors(c, WindowStart(j), j, s.indexed, fp);
  }

  /** When a fork block arrives and one of its ancestors down to the fork point is not in memory, it is checked against
      the genesis block, if that is in range and indexed, and the ancestors above the highest missing one; as many of
      these are left out as the chain has blocks below the range. */
  lemma {:induction false} CutWindow(r: Rules, s: State, q: seq<Block>, stop: nat)
    requires Rooted(r, s) && IsLineage(r.genesis, s.store, q) && q[|q| - 1].hash != s.tip
    requires ForkPoint(r, s, q) <= stop < |q| && q[stop].hash !in s.cached
    requires forall i :: stop < i < |q| ==> q[i].hash in s.cached
    ensures var first := stop + if |q| <= 144 then 1 else |q| - 144;
            ReceiptWindow(r, s, q) ==
            (if |q| <= 144 && 0 in s.indexed then [AsDifficultyBlock(q[0])] else []) +
            (if first < |q| then Ancestors(q, first, |q|) else [])
  {
    hide LostWindow, Window, Ancestors, Ancestry, StoreOk, IsLineage;
    assert WalkStop(q, s.cached, ForkPoint(r, s, q), |q|) == Some(stop);
    CutUpTo(q, WindowStart(|q|), |q|, stop, 0 in s.indexed);
  }

  lemma {:induction false} CutUpTo(q: seq<Block>, lo: nat, hi: nat, stop: nat, genesisIndexed: bool)
    requires hi <= |q|
    ensures var first, end := stop + if lo == 0 then 1 else lo, if stop + hi < |q| then stop + hi else |q|;
            LostWindow(q, lo, hi, stop, genesisIndexed) ==
            (if lo == 0 < hi && genesisIndexed then [AsDifficultyBlock(q[0])] else []) +
            (if first < end && lo < hi then Ancestors(q, first, end) else [])
    decreases hi
  {
    if lo < hi {
      CutUpTo(q, lo, hi - 1, stop, genesisIndexed);
      var first := stop + if lo == 0 then 1 else lo;
      if hi > 1 && first < stop + hi - 1 < |q| {
        assert Ancestors(q, first, stop + hi) ==
               Ancestors(q, first, stop + hi - 1) + [AsDifficultyBlock(q[stop + hi - 1])];
      } else if hi > 1 && first == stop + hi - 1 < |q| {
        assert Ancestors(q, first, stop + hi) == [AsDifficultyBlock(q[first])];
      }
    }
  }

  /** Stray entries can stand in for the chain: a fork on top of the active chain that leaves the index above the tip,
      at a stray entry, is still checked against its own ancestors if they are indexed up to the tip and each one above
      it is named by a stray entry and in memory. */
  lemma {:induction false} StrayWindow(s: State, p: seq<Block>, q: seq<Block>, lo: nat, hi: nat, fp: nat)
    requires lo <= hi <= |q| && |p| <= fp < |q| && p == q[..|p|]
    requires forall h :: lo <= h < |p| ==> h in s.indexed
    requires forall h :: |p| <= h <= fp ==> StrayNames(s.stale, q, h) && q[h].hash in s.cached
    requires forall h :: |p| <= h <= fp ==> q[h].height == h && q[h].hash in s.store && s.store[q[h].hash] == q[h]
    ensures Window(s, p, q, lo, hi, fp) == Ancestors(q, lo, hi)
    decreases hi
  {
    if lo < hi {
      StrayWindow(s, p, q, lo, hi - 1, fp);
      var h := hi - 1;
      assert h < |p| ==> p[h] == q[..|p|][h] == q[h];
      assert h <= fp ==> Shown(s, p, h) == [AsDifficultyBlock(q[h])];
      assert Ancestors(q, lo, hi) == Ancestors(q, lo, h) + [AsDifficultyBlock(q[h])];
    }
  }

  lemma {:induction false} AncestorsOfPrefix(q: seq<Block>, c: seq<Block>, lo: nat)
    requires lo <= |q| <= |c| && c[..|q|] == q
    ensures Ancestors(c, lo, |q|) == Ancestors(q, lo, |q|)
  {
    assert forall k :: 0 <= k < |q| ==> c[k] == c[..|q|][k];
  }

  /** Path independence: a fork block that is accepted as a fork and later replayed faces the same history both
      times, and it is the history it would have faced as a tip extension. */
  lemma {:induction false} WindowsAgree(r: Rules, s: State, q: seq<Block>, t: State, p: seq<Block>, c: seq<Block>,
                                        fp: nat, u: State)
    requires Rooted(r, s) && IsLineage(r.genesis, s.store, q) && q[|q| - 1].hash != s.tip && NoStrayOn(s.stale, q)
    requires var f := Meet(Path(r, s), q, |q| - 1);
             && (forall i :: f <= i < |q| ==> q[i].hash in s.cached)
             && Visible(WindowStart(|q|), |q|, s.indexed, f)
    requires |q| < |c| && c[..|q|] == q && SharesUpTo(p, c, fp) && Visible(WindowStart(|q|), |q|, t.indexed, fp)
    requires Rooted(r, u) && Path(r, u) == q && forall h :: WindowStart(|q|) <= h < |q| ==> h in u.indexed
    ensures ReceiptWindow(r, s, q) == Window(t, p, c, WindowStart(|q|), |q|, fp) == ReceiptWindow(r, u, q)
  {
    hide Window, Pick, Ancestors, ReceiptWindow, Path, StoreOk, IsLineage;
    ForkReceiptWindow(r, s, q);
    ReplayWindow(t, p, c, fp, |q|);
    MainWindow(r, u, q);
    AncestorsOfPrefix(q, c, WindowStart(|q|));
  }
}
