/** Canonical output locators: outputs of one height are ranked by (transaction hash, output index). */
module Locators {
  import opened OrderedKeys

  const U32_SIZE: nat := 0x1_0000_0000

  datatype Locator = Locator(height: nat, ordinal: nat)

  /** The distinct outputs in ascending order. */
  function SortedSet(outputs: seq<Key>): seq<Key> {
    if outputs == [] then []
    else
      var rest := SortedSet(outputs[1..]);
      if outputs[0] in rest then rest else InsertKey(rest, outputs[0])
  }

  function Enumerate(height: nat, s: seq<Key>, n: nat): map<Key, Locator>
    requires n <= |s|
  {
    if n == 0 then map[] else Enumerate(height, s, n - 1)[s[n - 1] := Locator(height, (n - 1) % U32_SIZE)]
  }

  /** The locator of every output: its height and its rank, kept in 32 bits. */
  function CanonicalLocators(height: nat, outputs: seq<Key>): map<Key, Locator> {
    var s := SortedSet(outputs);
    Enumerate(height, s, |s|)
  }

  lemma {:induction false} SortedSetHolds(outputs: seq<Key>)
    ensures Ordered(SortedSet(outputs)) && forall k :: k in SortedSet(outputs) <==> k in outputs
    decreases |outputs|
  {
    if outputs != [] {
      var rest := SortedSet(outputs[1..]);
      SortedSetHolds(outputs[1..]);
      assert outputs == [outputs[0]] + outputs[1..];
      if outputs[0] !in rest {
        InsertOrdered(rest, outputs[0]);
      }
    }
  }

  lemma {:induction false} EnumerateIs(height: nat, s: seq<Key>, n: nat)
    requires Ordered(s) && n <= |s|
    ensures forall k :: k in Enumerate(height, s, n) <==> k in s[..n]
    ensures forall i :: 0 <= i < n ==>
              s[i] in Enumerate(height, s, n) && Enumerate(height, s, n)[s[i]] == Locator(height, i % U32_SIZE)
  {
    if n > 0 {
      EnumerateIs(height, s, n - 1);
      assert s[..n] == s[..n - 1] + [s[n - 1]];
      forall i | 0 <= i < n - 1 ensures s[i] != s[n - 1] {
        assert Below(s[i], s[n - 1]);
      }
    }
  }

  /** Every listed output, and nothing else, has a locator, and it is the output's rank. */
  lemma {:induction false} LocatorIsRank(height: nat, outputs: seq<Key>)
    ensures var s, m := SortedSet(outputs), CanonicalLocators(height, outputs);
            && Ordered(s) && (forall k :: k in m <==> k in outputs)
            && forall i :: 0 <= i < |s| ==> s[i] in m && m[s[i]] == Locator(height, i % U32_SIZE)
  {
    var s := SortedSet(outputs);
    SortedSetHolds(outputs);
    EnumerateIs(height, s, |s|);
    assert s[..|s|] == s;
  }

  /** Locators depend only on which outputs there are, not on their order or repetition. */
  lemma {:induction false} OrderDoesNotMatter(height: nat, xs: seq<Key>, ys: seq<Key>)
    requires forall k :: k in xs <==> k in ys
    ensures CanonicalLocators(height, xs) == CanonicalLocators(height, ys)
  {
    SortedSetHolds(xs);
    SortedSetHolds(ys);
    OrderedUnique(SortedSet(xs), SortedSet(ys));
  }

  /** Two outputs share a locator. */
  ghost predicate Collide(m: map<Key, Locator>, a: Key, b: Key) {
    a in m && b in m && a != b && m[a] == m[b]
  }

  lemma {:induction false} SmallResidue(i: nat)
    ensures i < U32_SIZE ==> i % U32_SIZE == i
    ensures U32_SIZE % U32_SIZE == 0
  {
  }

  /** Locators identify outputs exactly as long as the ranks fit 32 bits; then they follow the order of the outputs. */
  lemma {:induction false} LocatorsIdentify(height: nat, outputs: seq<Key>)
    ensures var s, m := SortedSet(outputs), CanonicalLocators(height, outputs);
            && ((forall a, b :: !Collide(m, a, b)) <==> |s| <= U32_SIZE)
            && (|s| <= U32_SIZE ==>
                  forall i :: 0 <= i < |s| ==> s[i] in m && m[s[i]] == Locator(height, i))
  {
    var s, m := SortedSet(outputs), CanonicalLocators(height, outputs);
    LocatorIsRank(height, outputs);
    SortedSetHolds(outputs);
    if |s| <= U32_SIZE {
      forall i | 0 <= i < |s| ensures m[s[i]] == Locator(height, i) {
        SmallResidue(i);
      }
      forall a, b ensures !Collide(m, a, b) {
        if a in m && b in m {
          var i :| 0 <= i < |s| && s[i] == a;
          var j :| 0 <= j < |s| && s[j] == b;
        }
      }
    } else {
      SmallResidue(0);
      assert Below(s[0], s[U32_SIZE]);
      assert Collide(m, s[0], s[U32_SIZE]);
    }
  }
}
