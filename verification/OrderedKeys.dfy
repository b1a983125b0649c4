/** Lists of pairs kept in lexicographic order without repetition, as an ordered map keeps its keys. */
module OrderedKeys {

  type Key = (nat, nat)

  /** Lexicographic order. */
  predicate Below(a: Key, b: Key) {
    a.0 < b.0 || (a.0 == b.0 && a.1 < b.1)
  }

  ghost predicate Ordered(s: seq<Key>) {
    forall i, j :: 0 <= i < j < |s| ==> Below(s[i], s[j])
  }

  function InsertKey(s: seq<Key>, k: Key): seq<Key> {
    if s == [] || Below(k, s[0]) then [k] + s else [s[0]] + InsertKey(s[1..], k)
  }

  function DropKey(s: seq<Key>, k: Key): seq<Key> {
    if s == [] then [] else if s[0] == k then s[1..] else [s[0]] + DropKey(s[1..], k)
  }

  lemma {:induction false} PrependOrdered(k: Key, s: seq<Key>)
    requires Ordered(s) && forall x :: x in s ==> Below(k, x)
    ensures Ordered([k] + s)
  {
    forall j | 0 <= j < |s| ensures Below(k, s[j]) {
      assert s[j] in s;
    }
  }

  lemma {:induction false} TailOrdered(s: seq<Key>)
    requires Ordered(s) && s != []
    ensures Ordered(s[1..]) && s[0] !in s[1..] && forall x :: x in s[1..] ==> Below(s[0], x)
  {
    forall x | x in s[1..] ensures Below(s[0], x) {
      var j :| 0 <= j < |s| - 1 && s[1..][j] == x;
      assert s[j + 1] == x;
    }
  }

  lemma {:induction false} InsertOrdered(s: seq<Key>, k: Key)
    requires Ordered(s) && k !in s
    ensures Ordered(InsertKey(s, k)) && forall x :: x in InsertKey(s, k) <==> x == k || x in s
    decreases |s|
  {
    if s == [] {
    } else if Below(k, s[0]) {
      TailOrdered(s);
      assert s == [s[0]] + s[1..];
      PrependOrdered(k, s);
    } else {
      TailOrdered(s);
      InsertOrdered(s[1..], k);
      PrependOrdered(s[0], InsertKey(s[1..], k));
    }
  }

  lemma {:induction false} DropOrdered(s: seq<Key>, k: Key)
    requires Ordered(s)
    ensures Ordered(DropKey(s, k)) && forall x :: x in DropKey(s, k) <==> x != k && x in s
    decreases |s|
  {
    if s != [] {
      TailOrdered(s);
      assert s == [s[0]] + s[1..];
      if s[0] != k {
        DropOrdered(s[1..], k);
        PrependOrdered(s[0], DropKey(s[1..], k));
      }
    }
  }

  /** An ordered listing is determined by its members. */
  lemma {:induction false} OrderedUnique(s: seq<Key>, t: seq<Key>)
    requires Ordered(s) && Ordered(t) && forall x :: x in s <==> x in t
    ensures s == t
    decreases |s|
  {
    assert |t| > 0 ==> t[0] in t;
    if s != [] {
      assert s[0] in s;
      TailOrdered(s);
      TailOrdered(t);
      assert s == [s[0]] + s[1..] && t == [t[0]] + t[1..];
      assert s[0] == t[0];
      forall x ensures x in s[1..] <==> x in t[1..] {
        assert x in s <==> x == s[0] || x in s[1..];
        assert x in t <==> x == t[0] || x in t[1..];
      }
      OrderedUnique(s[1..], t[1..]);
    }
  }
}
