/** The block tree: ancestor paths, and where two of them meet. */
module Lineage {
  import opened Ledger

  /** The block filed under `h` is the genesis block or has its parent in the store one height below. */
  ghost predicate ParentOk(m: map<Hash, Block>, h: Hash)
    requires h in m
  {
    m[h].height > 0 ==> m[h].prev in m && m[m[h].prev].height + 1 == m[h].height
  }

  /** Block `i` of `p` names the one before it as parent. */
  ghost predicate LinkAt(p: seq<Block>, i: int)
    requires 0 < i < |p|
  {
    p[i].prev == p[i - 1].hash
  }

  /** A block store that is a tree: every block is filed under its own hash, only the genesis block has height 0,
      and every other block has its parent in the store one height below. */
  ghost predicate StoreOk(g: Block, m: map<Hash, Block>) {
    && g.height == 0
    && g.hash in m && m[g.hash] == g
    && (forall h :: h in m ==> m[h].hash == h)
    && (forall h :: h in m && m[h].height == 0 ==> h == g.hash)
    && (forall h {:trigger ParentOk(m, h)} :: h in m ==> ParentOk(m, h))
  }

  /** `p` is a chain of stored blocks from genesis, one per height, each naming the one before it as parent. */
  ghost predicate IsLineage(g: Block, m: map<Hash, Block>, p: seq<Block>) {
    && |p| > 0 && p[0] == g
    && (forall i :: 0 <= i < |p| ==> p[i].height == i && p[i].hash in m && m[p[i].hash] == p[i])
    && (forall i {:trigger LinkAt(p, i)} :: 0 < i < |p| ==> LinkAt(p, i))
  }

  /** The ancestors of block `h`, genesis first, `h` itself last. */
  ghost function Ancestry(g: Block, m: map<Hash, Block>, h: Hash): (p: seq<Block>)
    requires StoreOk(g, m) && h in m
    ensures IsLineage(g, m, p)
    ensures |p| == m[h].height + 1 && p[m[h].height] == m[h]
    decreases m[h].height
  {
    if m[h].height == 0 then [m[h]]
    else
      assert ParentOk(m, h);
      var q := Ancestry(g, m, m[h].prev);
      var p := q + [m[h]];
      assert forall i :: 0 < i < |q| ==> LinkAt(q, i) ==> LinkAt(p, i);
      p
  }

  lemma {:induction false} PrefixIsLineage(g: Block, m: map<Hash, Block>, p: seq<Block>, n: nat)
    requires IsLineage(g, m, p) && 0 < n <= |p|
    ensures IsLineage(g, m, p[..n])
  {
    forall i | 0 < i < n ensures LinkAt(p[..n], i) {
      assert LinkAt(p, i);
    }
  }

  /** A lineage is determined by its last block. */
  lemma {:induction false} LineageUnique(g: Block, m: map<Hash, Block>, p: seq<Block>)
    requires StoreOk(g, m) && IsLineage(g, m, p)
    ensures p == Ancestry(g, m, p[|p| - 1].hash)
    decreases |p|
  {
    var last := p[|p| - 1];
    if |p| > 1 {
      var q := p[..|p| - 1];
      PrefixIsLineage(g, m, p, |p| - 1);
      LineageUnique(g, m, q);
      assert LinkAt(p, |p| - 1) && ParentOk(m, last.hash);
      assert p == q + [last];
    }
  }

  lemma {:induction false} LineagePrefix(g: Block, m: map<Hash, Block>, p: seq<Block>, n: nat)
    requires StoreOk(g, m) && IsLineage(g, m, p) && 0 < n <= |p|
    ensures IsLineage(g, m, p[..n]) && p[..n] == Ancestry(g, m, p[n - 1].hash)
  {
    PrefixIsLineage(g, m, p, n);
    LineageUnique(g, m, p[..n]);
  }

  /** `m` is a sub-tree of `w`. */
  ghost predicate Submap(m: map<Hash, Block>, w: map<Hash, Block>) {
    forall h :: h in m ==> h in w && w[h] == m[h]
  }

  lemma {:induction false} AncestrySubmap(g: Block, m: map<Hash, Block>, w: map<Hash, Block>, h: Hash)
    requires StoreOk(g, m) && StoreOk(g, w) && Submap(m, w) && h in m
    ensures Ancestry(g, w, h) == Ancestry(g, m, h)
  {
    LineageUnique(g, w, Ancestry(g, m, h));
  }

  /** A block may be added to the tree: it is new, and its parent is stored one height below. */
  ghost predicate Attaches(m: map<Hash, Block>, b: Block) {
    b.hash !in m && b.height > 0 && b.prev in m && m[b.prev].height + 1 == b.height
  }

  lemma {:induction false} AttachKeepsTree(g: Block, m: map<Hash, Block>, b: Block)
    requires StoreOk(g, m) && Attaches(m, b)
    ensures StoreOk(g, m[b.hash := b]) && Submap(m, m[b.hash := b])
    ensures Ancestry(g, m[b.hash := b], b.hash) == Ancestry(g, m, b.prev) + [b]
  {
    var w := m[b.hash := b];
    forall h | h in w ensures ParentOk(w, h) {
      if h != b.hash {
        assert ParentOk(m, h);
      }
    }
    assert StoreOk(g, w);
    AncestrySubmap(g, m, w, b.prev);
  }

  /** The highest index at or below `k` where the two chains hold the same block: the walk of the fork-point search,
      started at the block at index `k` of `q`. */
  ghost function Meet(p: seq<Block>, q: seq<Block>, k: nat): (m: nat)
    requires k < |q| && |p| > 0 && p[0] == q[0]
    ensures m <= k && m < |p| && p[m] == q[m]
    ensures forall i :: m < i <= k && i < |p| ==> p[i] != q[i]
  {
    if k < |p| && p[k] == q[k] then k else Meet(p, q, k - 1)
  }

  /** Lineages that agree at one index agree below it. */
  lemma {:induction false} AgreeBelow(g: Block, m: map<Hash, Block>, p: seq<Block>, q: seq<Block>, i: nat)
    requires StoreOk(g, m) && IsLineage(g, m, p) && IsLineage(g, m, q)
    requires i < |p| && i < |q| && p[i] == q[i]
    ensures p[..i + 1] == q[..i + 1]
  {
    LineagePrefix(g, m, p, i + 1);
    LineagePrefix(g, m, q, i + 1);
  }

  /** The fork point is the highest common ancestor: the two chains share exactly the blocks up to it. */
  lemma {:induction false} MeetIsHighestCommonAncestor(g: Block, m: map<Hash, Block>, p: seq<Block>, q: seq<Block>)
    requires StoreOk(g, m) && IsLineage(g, m, p) && IsLineage(g, m, q)
    ensures p[..Meet(p, q, |q| - 1) + 1] == q[..Meet(p, q, |q| - 1) + 1]
    ensures forall b :: b in p && b in q <==> b in p[..Meet(p, q, |q| - 1) + 1]
  {
    var f := Meet(p, q, |q| - 1);
    AgreeBelow(g, m, p, q, f);
    forall b | b in p && b in q ensures b in p[..f + 1] {
      var i :| 0 <= i < |p| && p[i] == b;
      var j :| 0 <= j < |q| && q[j] == b;
      assert i == j == b.height;
      assert i <= f;
      assert p[..f + 1][i] == b;
    }
    forall b | b in p[..f + 1] ensures b in p && b in q {
      var i :| 0 <= i < f + 1 && p[..f + 1][i] == b;
      assert p[i] == b && q[..f + 1][i] == b && q[i] == b;
    }
  }
}
