/** The mempool: pending transactions with a fee index, a key-image index and a byte count, updated in place. */
module Pool {
  import opened Ledger
  import opened OrderedKeys
  import opened FeeOrder
  import opened Admission
  import opened Selection

  datatype Outcome = Admitted(hash: Hash) | Denied(reason: Reason)

  class Mempool {
    const maxSize: nat
    /** Structural and privacy-policy checks. */
    const wellFormed: Tx -> bool
    /** Range proofs, balance proof and ring signatures, at a chain height. */
    const proofsOk: (Tx, nat) -> bool

    var transactions: Contents
    /** The keys (rate, hash) of all pending transactions, in ascending order. */
    var byFee: seq<Key>
    var keyImages: set<KeyImage>
    var currentSize: nat
    var chainHeight: nat

    /** The three indexes agree with the transactions, no two transactions share a key image, and all of them together
        are no larger than the pool. */
    ghost predicate Valid()
      reads this
    {
      && EntriesOk(transactions) && Exclusive(transactions)
      && Ordered(byFee) && Lists(byFee, transactions) && Names(byFee, transactions)
      && keyImages == KeyImages(transactions)
      && currentSize == TotalSize(byFee, transactions)
      && PendingBytes(transactions) <= maxSize
    }

    constructor (max: nat, structure: Tx -> bool, proofs: (Tx, nat) -> bool)
      ensures Valid() && transactions == map[] && maxSize == max && chainHeight == 0
      ensures wellFormed == structure && proofsOk == proofs
    {
      maxSize := max;
      wellFormed := structure;
      proofsOk := proofs;
      transactions := map[];
      byFee := [];
      keyImages := {};
      currentSize := 0;
      chainHeight := 0;
    }

    // -------------------------------------------------------------- removing

    /** Remove one transaction from all indexes. */
    method Remove(h: Hash) returns (tx: Option<Tx>)
      requires Valid()
      modifies this`transactions, this`byFee, this`keyImages, this`currentSize
      ensures Valid() && transactions == old(transactions) - {h}
      ensures tx == if h in old(transactions) then Some(old(transactions)[h].tx) else None
      ensures h in old(transactions) ==>
                && byFee == DropKey(old(byFee), (old(transactions)[h].rate, h))
                && currentSize == old(currentSize) - old(transactions)[h].size
      ensures h !in old(transactions) ==> unchanged(this)
    {
      if h in transactions {
        var e := transactions[h];
        RemoveKeeps(transactions, h);
        DropLists(byFee, transactions, h);
        PendingPick(transactions, h);
        transactions := transactions - {h};
        keyImages := keyImages - KeysOf(e.tx);
        byFee := DropKey(byFee, (e.rate, h));
        currentSize := SatSub(currentSize, e.size);
        tx := Some(e.tx);
      } else {
        assert transactions - {h} == transactions;
        tx := None;
      }
    }

    /** Remove a list of transactions; absent ones are ignored. */
    method RemoveAll(hs: seq<Hash>)
      requires Valid()
      modifies this`transactions, this`byFee, this`keyImages, this`currentSize
      ensures Valid() && transactions == old(transactions) - ToSet(hs) && currentSize <= old(currentSize)
    {
      assert transactions - ToSet(hs[..0]) == transactions;
      for i := 0 to |hs|
        invariant Valid() && transactions == old(transactions) - ToSet(hs[..i]) && currentSize <= old(currentSize)
      {
        var _ := Remove(hs[i]);
        assert hs[..i + 1] == hs[..i] + [hs[i]];
        ToSetAppend(hs[..i], hs[i]);
      }
      assert hs[..|hs|] == hs;
    }

    /** Evict the transaction with the lowest fee rate. */
    method EvictLowestFee()
      requires Valid()
      modifies this`transactions, this`byFee, this`keyImages, this`currentSize
      ensures Valid()
      ensures old(byFee) == [] ==> unchanged(this)
      ensures old(byFee) != [] ==>
                var h := old(byFee)[0].1;
                && h in old(transactions) && transactions == old(transactions) - {h} && byFee == old(byFee)[1..]
                && currentSize == old(currentSize) - old(transactions)[h].size
    {
      if byFee != [] {
        assert ListedAt(byFee, transactions, byFee[0]);
        var _ := Remove(byFee[0].1);
      }
    }

    // -------------------------------------------------------------- admission

    /** Evict the first transaction of the plan for `size` more bytes. */
    method EvictNext(size: nat, ghost budget: nat) returns (ghost h: Hash)
      requires Valid() && byFee != [] && currentSize + size > maxSize && budget > 0
      modifies this`transactions, this`byFee, this`keyImages, this`currentSize
      ensures Valid() && transactions == old(transactions) - {h} && currentSize < old(currentSize)
      ensures var plan := old(Plan(byFee, transactions, {}, currentSize, size, maxSize, budget));
              && plan.0 != [] && plan.0[0] == h
              && var rest := Plan(byFee, transactions, {}, currentSize, size, maxSize, budget - 1);
              rest.0 == plan.0[1..] && rest.1 == plan.1
    {
      hide Exclusive, Ordered, Lists, KeyImages, TotalSize, EntriesOk, Plan;
      h := byFee[0].1;
      PlanStep(byFee, transactions, currentSize, size, maxSize, budget);
      EntrySize(transactions, h);
      ghost var plan := Plan(byFee, transactions, {}, currentSize, size, maxSize, budget);
      EvictLowestFee();
      assert plan.0[1..] == Plan(byFee, transactions, {}, currentSize, size, maxSize, budget - 1).0;
    }

    /** Evict until `size` more bytes fit. Fails when the eviction budget is used up, even if room was made. */
    method MakeRoom(size: nat) returns (ok: bool)
      requires Valid()
      requires Plan(byFee, transactions, {}, currentSize, size, maxSize, MAX_EVICTION_ATTEMPTS).1 + size <= maxSize
      modifies this`transactions, this`byFee, this`keyImages, this`currentSize
      ensures var (victims, left) :=
                old(Plan(byFee, transactions, {}, currentSize, size, maxSize, MAX_EVICTION_ATTEMPTS));
              && Valid() && transactions == old(transactions) - ToSet(victims)
              && (ok <==> |victims| < MAX_EVICTION_ATTEMPTS) && (ok ==> currentSize + size <= maxSize)
              && currentSize <= old(currentSize)
    {
      hide Exclusive, Ordered, Lists, KeyImages, TotalSize, EntriesOk, ToSet, Names, Plan;
      ghost var m := transactions;
      ghost var victims := Plan(byFee, transactions, {}, currentSize, size, maxSize, MAX_EVICTION_ATTEMPTS).0;
      var attempts := 0;
      FirstVictims(m, victims);
      ListsNonEmpty(byFee, transactions);
      while currentSize + size > maxSize && transactions != map[]
        invariant Valid() && (byFee == [] <==> transactions == map[]) && currentSize <= old(currentSize)
        invariant 0 <= attempts < MAX_EVICTION_ATTEMPTS && attempts <= |victims|
        invariant transactions == m - ToSet(victims[..attempts])
        invariant Plan(byFee, transactions, {}, currentSize, size, maxSize, MAX_EVICTION_ATTEMPTS - attempts).0
                  == victims[attempts..]
        invariant Plan(byFee, transactions, {}, currentSize, size, maxSize, MAX_EVICTION_ATTEMPTS - attempts).1 + size
                  <= maxSize
        decreases MAX_EVICTION_ATTEMPTS - attempts
      {
        var before := currentSize;
        ghost var h := EvictNext(size, MAX_EVICTION_ATTEMPTS - attempts);
        NextVictim(m, victims, attempts);
        attempts := attempts + 1;
        ListsNonEmpty(byFee, transactions);
        if currentSize >= before || attempts >= MAX_EVICTION_ATTEMPTS {
          PlanDone(byFee, transactions, currentSize, size, maxSize, 0);
          assert victims[..attempts] == victims;
          return false;
        }
      }
      PlanDone(byFee, transactions, currentSize, size, maxSize, MAX_EVICTION_ATTEMPTS - attempts);
      assert victims[..attempts] == victims;
      return true;
    }

    /** The pending transactions `tx` would replace, if it may replace all of them. */
    method FindReplacements(tx: Tx, rate: nat) returns (ok: bool, hs: seq<Hash>)
      requires Valid() && rate == Rate(tx.fee, tx.size)
      ensures ok <==> CanReplace(transactions, tx)
      ensures ok ==> ToSet(hs) == Conflicts(transactions, tx.keyImages) && Distinct(hs)
    {
      hide KeyImages, Ordered, Lists, Names, TotalSize, EntriesOk, Rate;
      hs := [];
      ghost var ks: seq<KeyImage> := [];
      assert Conflicts(transactions, []) == ToSet(hs);
      for i := 0 to |tx.keyImages|
        invariant ks == tx.keyImages[..i] && ToSet(hs) == Conflicts(transactions, ks) && Distinct(hs)
        invariant forall h :: h in hs ==> Bumps(rate, transactions[h].rate)
      {
        var k := tx.keyImages[i];
        ConflictsNext(transactions, ks, k);
        ks := ks + [k];
        if k in keyImages {
          ghost var g :| Uses(transactions, g, k);
          var h :| h in transactions && k in transactions[h].tx.keyImages;
          assert Uses(transactions, h, k);
          var replaced := transactions[h].rate;
          if !(rate * RBF_FEE_BUMP_DENOMINATOR >= replaced * RBF_FEE_BUMP_NUMERATOR && rate > replaced) {
            assert Overlap(transactions[h].tx, tx.keyImages);
            return false, [];
          }
          if h !in hs {
            ToSetAppend(hs, h);
            hs := hs + [h];
          } else {
            assert ToSet(hs) + {h} == ToSet(hs);
          }
        }
      }
      assert ks == tx.keyImages;
      ok := true;
    }

    /** Would `size` more bytes fit after replacing `hs` and using up the eviction budget? Nothing is changed. */
    method Simulate(size: nat, hs: seq<Hash>, ghost skip: set<Hash>) returns (fits: bool)
      requires Valid() && Distinct(hs) && skip == ToSet(hs) && forall h :: h in hs ==> h in transactions
      ensures Names(Without(byFee, skip), transactions - skip)
      ensures var rest := Without(byFee, skip);
              fits <==> Plan(rest, transactions - skip, {}, TotalSize(rest, transactions - skip), size, maxSize,
                             MAX_EVICTION_ATTEMPTS).1 + size <= maxSize
    {
      hide KeyImages, Ordered, Lists, TotalSize, EntriesOk, Exclusive, Without;
      FreedIs(byFee, transactions, hs);
      var freed := FreedBy(hs, transactions);
      var simulated: nat := SatSub(currentSize, freed);
      ghost var left := Plan(byFee, transactions, skip, simulated, size, maxSize, MAX_EVICTION_ATTEMPTS).1;
      PlanReduced(byFee, transactions, skip, simulated, size, maxSize);
      var attempts, i := 0, 0;
      assert byFee[0..] == byFee;
      while i < |byFee| && simulated + size > maxSize && attempts < MAX_EVICTION_ATTEMPTS
        invariant 0 <= i <= |byFee| && attempts <= MAX_EVICTION_ATTEMPTS
        invariant left == Plan(byFee[i..], transactions, skip, simulated, size, maxSize,
                               MAX_EVICTION_ATTEMPTS - attempts).1
      {
        var h := byFee[i].1;
        assert byFee[i..][1..] == byFee[i + 1..];
        if h !in hs && h in transactions {
          simulated := SatSub(simulated, transactions[h].size);
          attempts := attempts + 1;
        }
        i := i + 1;
      }
      fits := simulated + size <= maxSize;
    }

    /** File an entry in all indexes. */
    method Insert(e: Entry)
      requires Valid() && e.tx.hash !in transactions && EntryOk(transactions[e.tx.hash := e], e.tx.hash)
      requires forall k :: k in e.tx.keyImages ==> k !in KeyImages(transactions)
      requires currentSize + e.tx.size <= maxSize
      modifies this`transactions, this`byFee, this`keyImages, this`currentSize
      ensures Valid() && transactions == old(transactions)[e.tx.hash := e] && currentSize == old(currentSize) + e.size
    {
      InsertKeeps(transactions, e.tx.hash, e);
      InsertLists(byFee, transactions, e.tx.hash, e);
      PendingCounted(byFee, transactions);
      PendingInsert(transactions, e.tx.hash, e);
      keyImages := keyImages + KeysOf(e.tx);
      byFee := InsertKey(byFee, (e.rate, e.tx.hash));
      currentSize := currentSize + e.size;
      transactions := transactions[e.tx.hash := e];
    }

    /** Size, fee and replacement checks, room-making and insertion. */
    method AdmitAfterChecks(tx: Tx, time: nat) returns (outcome: Outcome)
      requires Valid() && tx.hash !in transactions && !tx.coinbase
      modifies this`transactions, this`byFee, this`keyImages, this`currentSize
      ensures Valid()
      ensures var m, plan := old(transactions), old(AdmissionPlan(transactions, byFee, maxSize, tx));
              var rest := m - Conflicts(m, tx.keyImages) - ToSet(plan.0);
              match old(Decide(transactions, byFee, currentSize, maxSize, tx))
              case Deny(reason) => outcome == Denied(reason) && unchanged(this)
              case Exhausted => outcome == Denied(Full) && transactions == rest
              case Admit =>
                outcome == Admitted(tx.hash) && transactions == rest[tx.hash := NewEntry(tx, chainHeight, time)]
      ensures tx.size >= 1 && old(currentSize) <= maxSize ==> currentSize <= maxSize
    {
      hide KeyImages, Ordered, Lists, TotalSize, EntriesOk, Exclusive, Plan, Names, Without, ToSet;
      if tx.size > MAX_TX_SIZE {
        return Denied(TooLarge);
      }
      if tx.fee < MinFee(tx.size, currentSize, maxSize) {
        return Denied(FeeTooLow);
      }
      var ok, hs := FindReplacements(tx, Rate(tx.fee, tx.size));
      if !ok {
        return Denied(DuplicateKeyImage);
      }
      ghost var m, s, skip := transactions, byFee, Conflicts(transactions, tx.keyImages);
      ReplacedPresent(m, hs, tx.keyImages);
      var fits := Simulate(tx.size, hs, skip);
      if !fits {
        return Denied(Full);
      }
      RemoveAll(hs);
      ListingIsWithout(s, byFee, m, skip);
      PlanVictims(byFee, transactions, {}, currentSize, tx.size, maxSize, MAX_EVICTION_ATTEMPTS);
      var roomy := MakeRoom(tx.size);
      if !roomy {
        return Denied(Full);
      }
      NoConflictLeft(m, tx, transactions);
      AdmittedEntry(transactions, tx, chainHeight, time, old(currentSize), maxSize);
      Insert(NewEntry(tx, chainHeight, time));
      return Admitted(tx.hash);
    }

    /** Submit a transaction: preflight, proofs, then admission. A pending transaction is accepted again as it is. */
    method Add(tx: Tx, time: nat) returns (outcome: Outcome)
      requires Valid()
      modifies this`transactions, this`byFee, this`keyImages, this`currentSize
      ensures Valid()
      ensures var m, plan := old(transactions), old(AdmissionPlan(transactions, byFee, maxSize, tx));
              var rest := m - Conflicts(m, tx.keyImages) - ToSet(plan.0);
              if tx.coinbase then outcome == Denied(Coinbase) && unchanged(this)
              else if !wellFormed(tx) then outcome == Denied(Malformed) && unchanged(this)
              else if tx.hash in m then outcome == Admitted(tx.hash) && unchanged(this)
              else if !proofsOk(tx, chainHeight) then outcome == Denied(BadProof) && unchanged(this)
              else match old(Decide(transactions, byFee, currentSize, maxSize, tx))
                   case Deny(reason) => outcome == Denied(reason) && unchanged(this)
                   case Exhausted => outcome == Denied(Full) && transactions == rest
                   case Admit => outcome == Admitted(tx.hash) &&
                                 transactions == rest[tx.hash := NewEntry(tx, chainHeight, time)]
      ensures tx.size >= 1 && old(currentSize) <= maxSize ==> currentSize <= maxSize
    {
      hide KeyImages, Ordered, Lists, TotalSize, EntriesOk, Exclusive, Plan, Names, Without, ToSet, Decide,
           AdmissionPlan;
      if tx.coinbase {
        return Denied(Coinbase);
      }
      if !wellFormed(tx) {
        return Denied(Malformed);
      }
      if tx.hash in transactions {
        return Admitted(tx.hash);
      }
      if !proofsOk(tx, chainHeight) {
        return Denied(BadProof);
      }
      outcome := AdmitAfterChecks(tx, time);
    }

    // -------------------------------------------------------------- cleaning up

    /** After a block: drop its transactions, and every other one that spends a key image the block spent. */
    method RemoveConfirmed(txs: seq<Tx>)
      requires Valid()
      modifies this`transactions, this`byFee, this`keyImages, this`currentSize
      ensures Valid()
      ensures transactions == old(transactions) - Settled(old(transactions), txs) && currentSize <= old(currentSize)
    {
      hide KeyImages, Ordered, Lists, TotalSize, Names;
      ghost var m := transactions;
      var confirmed := Hashes(txs);
      RemoveAll(confirmed);
      ghost var w := transactions;
      var shadows: seq<Hash> := [];
      ghost var ks: seq<KeyImage> := [];
      assert Conflicts(w, []) == ToSet([]);
      for i := 0 to |txs|
        invariant Valid() && transactions == w && ks == Spent(txs[..i]) && ToSet(shadows) == Conflicts(w, ks)
        invariant currentSize <= old(currentSize)
      {
        SpentNext(txs, i);
        shadows := CollectShadows(txs[i].keyImages, shadows, ks);
        ks := ks + txs[i].keyImages;
      }
      assert txs[..|txs|] == txs;
      RemoveAll(shadows);
      SettledIs(m, txs, w, transactions);
    }

    /** Extend the list of transactions in conflict with `ks` by those in conflict with `more`. */
    method CollectShadows(more: seq<KeyImage>, found: seq<Hash>, ghost ks: seq<KeyImage>)
      returns (shadows: seq<Hash>)
      requires Valid() && ToSet(found) == Conflicts(transactions, ks)
      ensures ToSet(shadows) == Conflicts(transactions, ks + more)
    {
      hide KeyImages, Ordered, Lists, TotalSize, EntriesOk, Names;
      shadows := found;
      ghost var all := ks;
      for i := 0 to |more|
        invariant all == ks + more[..i] && ToSet(shadows) == Conflicts(transactions, all)
      {
        var k := more[i];
        ConflictsNext(transactions, all, k);
        assert ks + more[..i + 1] == all + [k];
        all := all + [k];
        if h :| h in transactions && k in transactions[h].tx.keyImages {
          assert Uses(transactions, h, k);
          if h !in shadows {
            ToSetAppend(shadows, h);
            shadows := shadows + [h];
          } else {
            assert ToSet(shadows) + {h} == ToSet(shadows);
          }
        } else {
          Unused(transactions, k);
        }
      }
      assert ks + more == all;
    }

    /** Drop every transaction that no longer validates against the chain. */
    method ShadowEvictInvalid(valid: Tx -> bool)
      requires Valid()
      modifies this`transactions, this`byFee, this`keyImages, this`currentSize
      ensures Valid()
      ensures forall h :: h in transactions <==> h in old(transactions) && valid(old(transactions)[h].tx)
      ensures forall h :: h in transactions ==> transactions[h] == old(transactions)[h]
      ensures currentSize <= old(currentSize)
    {
      hide KeyImages, Ordered, Lists, TotalSize, EntriesOk, Names, Exclusive;
      var todo, invalid := transactions.Keys, [];
      while todo != {}
        invariant todo <= transactions.Keys
        invariant forall h :: h in invalid <==> h in transactions.Keys - todo && !valid(transactions[h].tx)
        decreases |todo|
      {
        var h :| h in todo;
        todo := todo - {h};
        if !valid(transactions[h].tx) {
          invalid := invalid + [h];
        }
      }
      RemoveAll(invalid);
    }

    /** Follow the chain to a new height and drop transactions that have waited more than 288 blocks. */
    method SetHeight(height: nat)
      requires Valid()
      modifies this`transactions, this`byFee, this`keyImages, this`currentSize, this`chainHeight
      ensures Valid() && chainHeight == height
      ensures forall h :: h in transactions <==>
                h in old(transactions) && height <= old(transactions)[h].heightAdded + 288
      ensures forall h :: h in transactions ==> transactions[h] == old(transactions)[h]
      ensures currentSize <= old(currentSize)
    {
      hide KeyImages, Ordered, Lists, TotalSize, EntriesOk, Names, Exclusive;
      chainHeight := height;
      var todo, expired := transactions.Keys, [];
      while todo != {}
        invariant todo <= transactions.Keys && Valid() && transactions == old(transactions) && chainHeight == height
        invariant currentSize == old(currentSize)
        invariant forall h :: h in expired <==>
          h in transactions.Keys - todo && SatSub(height, transactions[h].heightAdded) > TX_EXPIRY_BLOCKS
        decreases |todo|
      {
        var h :| h in todo;
        todo := todo - {h};
        if SatSub(height, transactions[h].heightAdded) > TX_EXPIRY_BLOCKS {
          expired := expired + [h];
        }
      }
      RemoveAll(expired);
    }

    method Clear()
      modifies this`transactions, this`byFee, this`keyImages, this`currentSize
      ensures Valid() && transactions == map[]
    {
      transactions, byFee, keyImages, currentSize := map[], [], {}, 0;
    }

    // -------------------------------------------------------------- block templates

    /** The transactions for a block template, highest fee rate first; those in conflict with an already chosen one are
        passed over. */
    method GetBlockTransactions(room: nat, slots: nat) returns (txs: seq<Tx>)
      requires Valid()
      ensures Reads(txs, Pack(byFee, transactions, room, slots), transactions)
      ensures BytesOf(txs) <= room && |txs| <= slots
      ensures forall t, u, k :: t in txs && u in txs && k in t.keyImages && k in u.keyImages ==> t == u
    {
      hide KeyImages, Lists, TotalSize, EntriesOk, Exclusive, Ordered, AllFrom, Pack;
      txs := [];
      ghost var chosen: seq<Hash> := [];
      var total: nat, selected: set<KeyImage>, i := 0, {}, |byFee|;
      NoneChosen(byFee, transactions);
      while i > 0 && |txs| < slots
        invariant 0 <= i <= |byFee| && total <= room && |txs| <= slots && Reads(txs, chosen, transactions)
        invariant Pack(byFee, transactions, room, slots)
                  == chosen + Pack(byFee[..i], transactions, room - total, slots - |txs|)
        invariant AllFrom(byFee, i, chosen) && Covered(transactions, chosen, selected)
      {
        i := i - 1;
        assert byFee[..i + 1][..i] == byFee[..i];
        PackUnfold(byFee[..i + 1], transactions, room - total, slots - |txs|);
        ghost var h, before := byFee[i].1, chosen;
        var e := transactions[byFee[i].1];
        if total + e.size <= room {
          NotChosen(byFee, transactions, i, chosen, selected);
          if !exists k :: k in e.tx.keyImages && k in selected {
            CoveredNext(transactions, chosen, selected, h);
            ReadsNext(txs, chosen, transactions, h);
            ConcatCons(chosen, h, Pack(byFee[..i], transactions, room - total - e.size, slots - |txs| - 1));
            txs := txs + [e.tx];
            chosen := chosen + [h];
            total := total + e.size;
            selected := selected + KeysOf(e.tx);
          }
        }
        StillListed(byFee, i, before, chosen);
      }
      PackNothing(byFee[..i], transactions, room - total, slots - |txs|);
      assert chosen + [] == chosen;
      ChoiceFits(byFee, transactions, room, slots, txs);
    }
  }
}
