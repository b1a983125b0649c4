/** Mempool entries, and the fee index that lists them under (fee rate, hash) in ascending order. */
module FeeOrder {
  import opened Ledger
  import opened OrderedKeys

  const FEE_SCALE: nat := 1_000_000

  /** Fee per byte in millionths, rounded down and capped at 64 bits. */
  function Rate(fee: nat, size: nat): (r: nat)
    ensures r <= U64_MAX
    ensures var bytes := if size < 1 then 1 else size;
            bytes * r <= fee * FEE_SCALE && (r < U64_MAX ==> fee * FEE_SCALE < bytes * (r + 1))
  {
    var bytes := if size < 1 then 1 else size;
    var q := fee * FEE_SCALE / bytes;
    assert bytes * q <= fee * FEE_SCALE < bytes * q + bytes;
    if q <= U64_MAX then q else
      ScaledDown(U64_MAX, q, bytes);
      U64_MAX
  }

  /** A transaction with its metadata; an empty transaction counts as one byte. */
  datatype Entry = Entry(tx: Tx, rate: nat, size: nat, heightAdded: nat, addedTime: nat)

  function NewEntry(tx: Tx, height: nat, time: nat): (e: Entry)
    ensures e.tx == tx && e.heightAdded == height && e.addedTime == time
    ensures e.size >= 1 && e.size >= tx.size && (e.size == 1 || e.size == tx.size)
    ensures e.rate <= U64_MAX && e.size * e.rate <= tx.fee * FEE_SCALE
    ensures e.rate < U64_MAX ==> tx.fee * FEE_SCALE < e.size * (e.rate + 1)
  {
    Entry(tx, Rate(tx.fee, tx.size), if tx.size < 1 then 1 else tx.size, height, time)
  }

  /** `s` lists exactly the entries of `m` under their rates. */
  ghost predicate Lists(s: seq<Key>, m: map<Hash, Entry>) {
    forall k: Key {:trigger ListedAt(s, m, k)} :: ListedAt(s, m, k)
  }

  ghost predicate ListedAt(s: seq<Key>, m: map<Hash, Entry>, k: Key) {
    k in s <==> k.1 in m && m[k.1].rate == k.0
  }

  /** Every key of `s` names an entry. */
  ghost predicate Names(s: seq<Key>, m: map<Hash, Entry>) {
    forall i :: 0 <= i < |s| ==> s[i].1 in m
  }

  lemma {:induction false} ListsNames(s: seq<Key>, m: map<Hash, Entry>)
    requires Lists(s, m)
    ensures Names(s, m)
  {
    forall i | 0 <= i < |s| ensures s[i].1 in m {
      assert ListedAt(s, m, s[i]);
    }
  }

  // ---------------------------------------------------------------- bytes

  /** Total size of the listed entries. */
  ghost function TotalSize(s: seq<Key>, m: map<Hash, Entry>): nat
    requires Names(s, m)
  {
    if s == [] then 0 else m[s[0].1].size + TotalSize(s[1..], m)
  }

  lemma {:induction false} TotalSizeSame(s: seq<Key>, m: map<Hash, Entry>, w: map<Hash, Entry>)
    requires Names(s, m) && Names(s, w) && forall i :: 0 <= i < |s| ==> m[s[i].1] == w[s[i].1]
    ensures TotalSize(s, m) == TotalSize(s, w)
    decreases |s|
  {
    if s != [] {
      TotalSizeSame(s[1..], m, w);
    }
  }

  lemma {:induction false} TotalSizeInsert(s: seq<Key>, m: map<Hash, Entry>, k: Key)
    requires Names(s, m) && k.1 in m
    ensures Names(InsertKey(s, k), m) && TotalSize(InsertKey(s, k), m) == TotalSize(s, m) + m[k.1].size
    decreases |s|
  {
    if s == [] || Below(k, s[0]) {
      assert ([k] + s)[1..] == s;
    } else {
      TotalSizeInsert(s[1..], m, k);
      assert ([s[0]] + InsertKey(s[1..], k))[1..] == InsertKey(s[1..], k);
    }
  }

  lemma {:induction false} TotalSizeDrop(s: seq<Key>, m: map<Hash, Entry>, k: Key)
    requires Names(s, m) && k in s
    ensures k.1 in m && Names(DropKey(s, k), m) && TotalSize(s, m) == TotalSize(DropKey(s, k), m) + m[k.1].size
    decreases |s|
  {
    if s[0] != k {
      TotalSizeDrop(s[1..], m, k);
      assert ([s[0]] + DropKey(s[1..], k))[1..] == DropKey(s[1..], k);
    }
  }
}
