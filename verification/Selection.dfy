/** Choosing transactions for a block template: highest fee rate first, whatever still fits. */
module Selection {
  import opened Ledger
  import opened OrderedKeys
  import opened FeeOrder
  import opened Admission

  /** The transactions chosen from the listing `s`, highest rate first, into `room` bytes and `slots` places. */
  ghost function Pack(s: seq<Key>, m: Contents, room: nat, slots: nat): seq<Hash>
    requires Names(s, m)
  {
    if s == [] || slots == 0 then []
    else
      var h, rest := s[|s| - 1].1, s[..|s| - 1];
      if m[h].size <= room then [h] + Pack(rest, m, room - m[h].size, slots - 1) else Pack(rest, m, room, slots)
  }

  ghost predicate AllIn(hs: seq<Hash>, m: Contents) {
    forall h :: h in hs ==> h in m
  }

  ghost function Bytes(hs: seq<Hash>, m: Contents): nat
    requires AllIn(hs, m)
  {
    if hs == [] then 0 else m[hs[0]].size + Bytes(hs[1..], m)
  }

  /** The choice fits, and is made of listed transactions. */
  lemma {:induction false} PackFits(s: seq<Key>, m: Contents, room: nat, slots: nat)
    requires Names(s, m)
    ensures var p := Pack(s, m, room, slots);
            && AllIn(p, m) && (forall h :: h in p ==> exists i :: 0 <= i < |s| && s[i].1 == h)
            && |p| <= slots && Bytes(p, m) <= room
    decreases |s|
  {
    if s != [] && slots > 0 {
      var h, rest := s[|s| - 1].1, s[..|s| - 1];
      var fits := m[h].size <= room;
      var q := if fits then Pack(rest, m, room - m[h].size, slots - 1) else Pack(rest, m, room, slots);
      if fits {
        PackFits(rest, m, room - m[h].size, slots - 1);
        assert Pack(s, m, room, slots)[1..] == q;
      } else {
        PackFits(rest, m, room, slots);
      }
      forall x | x in q ensures exists i :: 0 <= i < |s| && s[i].1 == x {
        var i :| 0 <= i < |rest| && rest[i].1 == x;
        assert s[i].1 == x;
      }
    }
  }

  lemma {:induction false} PackUnfold(s: seq<Key>, m: Contents, room: nat, slots: nat)
    requires Names(s, m) && s != [] && slots > 0
    ensures Names(s[..|s| - 1], m)
    ensures var h, rest := s[|s| - 1].1, s[..|s| - 1];
            Pack(s, m, room, slots) ==
            if m[h].size <= room then [h] + Pack(rest, m, room - m[h].size, slots - 1) else Pack(rest, m, room, slots)
  {
  }

  lemma {:induction false} PackNothing(s: seq<Key>, m: Contents, room: nat, slots: nat)
    requires Names(s, m) && (s == [] || slots == 0)
    ensures Pack(s, m, room, slots) == []
  {
  }

  lemma {:induction false} BytesCons(h: Hash, hs: seq<Hash>, m: Contents)
    requires h in m && AllIn(hs, m)
    ensures AllIn([h] + hs, m) && Bytes([h] + hs, m) == m[h].size + Bytes(hs, m)
  {
    assert ([h] + hs)[1..] == hs;
  }

  lemma {:induction false} ConsConcat(h: Hash, a: seq<Hash>, b: seq<Hash>)
    ensures [h] + a + b == [h] + (a + b)
  {
  }

  lemma {:induction false} SliceOfRest(s: seq<Key>, i: nat)
    requires i < |s|
    ensures s[i..][..|s[i..]| - 1] == s[..|s| - 1][i..] && s[..|s| - 1][..i] == s[..i]
    ensures s[i..][|s[i..]| - 1] == s[|s| - 1]
  {
  }

  /** The choice is made from the top: first among the keys from `i` up, then below in what is left. */
  lemma {:induction false} PackSplit(s: seq<Key>, m: Contents, i: nat, room: nat, slots: nat)
    requires Names(s, m) && i <= |s|
    ensures Names(s[i..], m) && Names(s[..i], m)
    ensures var top := Pack(s[i..], m, room, slots);
            && AllIn(top, m) && Bytes(top, m) <= room && |top| <= slots
            && Pack(s, m, room, slots) == top + Pack(s[..i], m, room - Bytes(top, m), slots - |top|)
    decreases |s|
  {
    if i == |s| || slots == 0 {
      assert i == |s| ==> s[..i] == s && s[i..] == [];
    } else {
      hide Pack, Bytes, AllIn;
      var h, rest := s[|s| - 1].1, s[..|s| - 1];
      SliceOfRest(s, i);
      PackUnfold(s, m, room, slots);
      PackUnfold(s[i..], m, room, slots);
      if m[h].size <= room {
        PackSplit(rest, m, i, room - m[h].size, slots - 1);
        var top := Pack(rest[i..], m, room - m[h].size, slots - 1);
        BytesCons(h, top, m);
        ConsConcat(h, top, Pack(s[..i], m, room - m[h].size - Bytes(top, m), slots - 1 - |top|));
      } else {
        PackSplit(rest, m, i, room, slots);
      }
    }
  }

  lemma {:induction false} KeyOnce(s: seq<Key>, m: Contents, i: nat, j: nat)
    requires Ordered(s) && Lists(s, m) && i < |s| && j < |s| && s[i].1 == s[j].1
    ensures i == j
  {
    assert ListedAt(s, m, s[i]) && ListedAt(s, m, s[j]);
  }

  /** A transaction is not chosen from a stretch of the listing it is not in. */
  lemma {:induction false} NotElsewhere(s: seq<Key>, m: Contents, lo: nat, hi: nat, i: nat, room: nat, slots: nat)
    requires Ordered(s) && Lists(s, m) && Names(s, m) && lo <= hi <= |s| && i < |s| && !(lo <= i < hi)
    ensures Names(s[lo..hi], m) && s[i].1 !in Pack(s[lo..hi], m, room, slots)
  {
    PackFits(s[lo..hi], m, room, slots);
    forall j | 0 <= j < hi - lo ensures s[lo..hi][j].1 != s[i].1 {
      if s[lo + j].1 == s[i].1 {
        KeyOnce(s, m, i, lo + j);
      }
    }
  }

  /** The greedy rule, exactly: a pending transaction is chosen if and only if it fits in size and number beside
      everything chosen above it. */
  lemma {:induction false} PackIsGreedy(s: seq<Key>, m: Contents, i: nat, room: nat, slots: nat)
    requires Ordered(s) && Lists(s, m) && Names(s, m) && i < |s|
    ensures Names(s[i + 1..], m)
    ensures var above := Pack(s[i + 1..], m, room, slots);
            && AllIn(above, m)
            && (s[i].1 in Pack(s, m, room, slots) <==>
                  |above| < slots && m[s[i].1].size + Bytes(above, m) <= room)
  {
    PackSplit(s, m, i + 1, room, slots);
    var above := Pack(s[i + 1..], m, room, slots);
    var room', slots' := room - Bytes(above, m), slots - |above|;
    NotElsewhere(s, m, i + 1, |s|, i, room, slots);
    assert s[i + 1..|s|] == s[i + 1..] && s[0..i] == s[..i];
    TopOf(s, m, i, room', slots');
  }

  lemma {:induction false} TopOf(s: seq<Key>, m: Contents, i: nat, room: nat, slots: nat)
    requires Ordered(s) && Lists(s, m) && Names(s, m) && i < |s|
    ensures Names(s[..i + 1], m)
    ensures s[i].1 in Pack(s[..i + 1], m, room, slots) <==> slots > 0 && m[s[i].1].size <= room
  {
    var h := s[i].1;
    assert s[..i + 1][..i] == s[0..i];
    if slots > 0 {
      PackUnfold(s[..i + 1], m, room, slots);
      NotElsewhere(s, m, 0, i, i, room, slots);
    }
  }

  /** The choice comes highest rate first, and among equal rates highest hash first. */
  lemma {:induction false} PackDescends(s: seq<Key>, m: Contents, room: nat, slots: nat, i: nat, j: nat)
    requires Ordered(s) && Lists(s, m) && Names(s, m) && i < j < |Pack(s, m, room, slots)|
    ensures var p := Pack(s, m, room, slots);
            && p[i] in m && p[j] in m
            && (m[p[i]].rate > m[p[j]].rate || (m[p[i]].rate == m[p[j]].rate && p[i] > p[j]))
  {
    forall x | 0 <= x < |s| ensures m[s[x].1].rate == s[x].0 {
      assert ListedAt(s, m, s[x]);
    }
    PackBelow(s, m, room, slots, i, j);
  }

  /** The same, for a prefix of the listing. */
  lemma {:induction false} PackBelow(s: seq<Key>, m: Contents, room: nat, slots: nat, i: nat, j: nat)
    requires Ordered(s) && Names(s, m) && i < j < |Pack(s, m, room, slots)|
    requires forall x :: 0 <= x < |s| ==> m[s[x].1].rate == s[x].0
    ensures var p := Pack(s, m, room, slots);
            && p[i] in m && p[j] in m && Below((m[p[j]].rate, p[j]), (m[p[i]].rate, p[i]))
    decreases |s|
  {
    var h, rest := s[|s| - 1].1, s[..|s| - 1];
    assert Ordered(rest);
    if m[h].size > room {
      PackBelow(rest, m, room, slots, i, j);
    } else if i > 0 {
      PackBelow(rest, m, room - m[h].size, slots - 1, i - 1, j - 1);
    } else {
      var q := Pack(rest, m, room - m[h].size, slots - 1);
      PackFits(rest, m, room - m[h].size, slots - 1);
      assert q[j - 1] in q;
      var x :| 0 <= x < |rest| && rest[x].1 == q[j - 1];
      assert Below(s[x], s[|s| - 1]);
    }
  }

  /** No two chosen transactions share a key image: on a valid pool the conflict check never fires. */
  lemma {:induction false} PackExclusive(m: Contents, h: Hash, g: Hash, k: KeyImage)
    requires Exclusive(m) && h in m && g in m && k in m[h].tx.keyImages && k in m[g].tx.keyImages
    ensures h == g
  {
    assert Uses(m, h, k) && Uses(m, g, k);
  }

  /** `h` is listed at index `i` or above. */
  ghost predicate ListedFrom(s: seq<Key>, i: nat, h: Hash) {
    exists j :: i <= j < |s| && s[j].1 == h
  }

  ghost predicate AllFrom(s: seq<Key>, i: nat, hs: seq<Hash>) {
    forall h :: h in hs ==> ListedFrom(s, i, h)
  }

  /** `txs` are the transactions filed under `hs`. */
  ghost predicate Reads(txs: seq<Tx>, hs: seq<Hash>, m: Contents) {
    |txs| == |hs| && forall x :: 0 <= x < |txs| ==> hs[x] in m && txs[x] == m[hs[x]].tx
  }

  /** The bytes of a list of transactions. */
  function BytesOf(txs: seq<Tx>): nat {
    if txs == [] then 0 else txs[0].size + BytesOf(txs[1..])
  }

  /** The transactions themselves take no more bytes than their entries are counted with. */
  lemma {:induction false} ReadFits(txs: seq<Tx>, hs: seq<Hash>, m: Contents)
    requires EntriesOk(m) && AllIn(hs, m) && Reads(txs, hs, m)
    ensures BytesOf(txs) <= Bytes(hs, m)
    decreases |txs|
  {
    if txs != [] {
      assert EntryOk(m, hs[0]);
      ReadFits(txs[1..], hs[1..], m);
    }
  }

  /** No two of them spend the same key image. */
  lemma {:induction false} ReadExclusive(txs: seq<Tx>, hs: seq<Hash>, m: Contents)
    requires Exclusive(m) && Reads(txs, hs, m)
    ensures forall t, u, k :: t in txs && u in txs && k in t.keyImages && k in u.keyImages ==> t == u
  {
    forall t, u, k | t in txs && u in txs && k in t.keyImages && k in u.keyImages ensures t == u {
      var i :| 0 <= i < |txs| && txs[i] == t;
      var j :| 0 <= j < |txs| && txs[j] == u;
      PackExclusive(m, hs[i], hs[j], k);
    }
  }

  /** The transactions of a choice fit the room and the places, and are in no conflict. */
  lemma {:induction false} ChoiceFits(s: seq<Key>, m: Contents, room: nat, slots: nat, txs: seq<Tx>)
    requires EntriesOk(m) && Exclusive(m) && Names(s, m) && Reads(txs, Pack(s, m, room, slots), m)
    ensures BytesOf(txs) <= room && |txs| <= slots
    ensures forall t, u, k :: t in txs && u in txs && k in t.keyImages && k in u.keyImages ==> t == u
  {
    hide Pack, EntriesOk, Exclusive, BytesOf, Bytes;
    PackFits(s, m, room, slots);
    ReadFits(txs, Pack(s, m, room, slots), m);
    ReadExclusive(txs, Pack(s, m, room, slots), m);
  }

  lemma {:induction false} NoneChosen(s: seq<Key>, m: Contents)
    ensures s[..|s|] == s && AllFrom(s, |s|, []) && Reads([], [], m)
    ensures forall p: seq<Hash> :: [] + p == p
  {
  }

  lemma {:induction false} ReadsNext(txs: seq<Tx>, hs: seq<Hash>, m: Contents, h: Hash)
    requires Reads(txs, hs, m) && h in m
    ensures Reads(txs + [m[h].tx], hs + [h], m)
  {
  }

  lemma {:induction false} ConcatCons(a: seq<Hash>, h: Hash, b: seq<Hash>)
    ensures a + ([h] + b) == a + [h] + b
  {
  }

  /** Every selected key image belongs to a chosen transaction. */
  ghost predicate Covered(m: Contents, chosen: seq<Hash>, selected: set<KeyImage>) {
    forall k :: k in selected ==> exists h :: h in chosen && Uses(m, h, k)
  }

  lemma {:induction false} CoveredNext(m: Contents, chosen: seq<Hash>, selected: set<KeyImage>, h: Hash)
    requires Covered(m, chosen, selected) && h in m
    ensures Covered(m, chosen + [h], selected + KeysOf(m[h].tx))
  {
    forall k | k in selected + KeysOf(m[h].tx) ensures exists g :: g in chosen + [h] && Uses(m, g, k) {
      if k in selected {
        var g :| g in chosen && Uses(m, g, k);
        assert g in chosen + [h];
      } else {
        assert h in chosen + [h] && Uses(m, h, k);
      }
    }
  }

  /** Nothing chosen so far shares a key image with the next entry down. */
  lemma {:induction false} NotChosen(s: seq<Key>, m: Contents, i: nat, chosen: seq<Hash>, selected: set<KeyImage>)
    requires Ordered(s) && Lists(s, m) && Names(s, m) && Exclusive(m) && i < |s|
    requires AllFrom(s, i + 1, chosen)
    requires Covered(m, chosen, selected)
    ensures forall k :: k in selected ==> k !in m[s[i].1].tx.keyImages
  {
    forall k | k in selected && k in m[s[i].1].tx.keyImages ensures false {
      var h :| h in chosen && Uses(m, h, k);
      PackExclusive(m, h, s[i].1, k);
      var j :| i + 1 <= j < |s| && s[j].1 == h;
      KeyOnce(s, m, i, j);
    }
  }

  lemma {:induction false} StillListed(s: seq<Key>, i: nat, before: seq<Hash>, after: seq<Hash>)
    requires i < |s| && (after == before || after == before + [s[i].1])
    requires AllFrom(s, i + 1, before)
    ensures AllFrom(s, i, after)
  {
    assert ListedFrom(s, i, s[i].1);
    forall h | h in before ensures ListedFrom(s, i, h) {
      assert ListedFrom(s, i + 1, h);
    }
  }
}
