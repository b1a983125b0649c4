/** The protocol between chain updates and mempool admission, as interleaved atomic steps.

    Any number of updaters change the chain and, if they changed it, clean the mempool; any number of admitters validate
    a transaction against the chain and then insert it, under the mempool lock, only if the generation they started
    from is still current and stable. Each step below is one atomic load, store or critical section of the program. */
module Seqlock {

  type TxId = nat

  /** Where an updater is. The update runs from `Updating` to `Bumped`; `Trying` is a reorganisation that has taken
      blocks off and not yet connected the fork, from canonical state `base`. Afterwards an updater that `changed` the
      chain cleans the mempool: `pending` are the transactions not yet re-validated, `stale` those found invalid. */
  datatype Updater =
    | Updating(changed: bool)
    | Trying(base: nat, changed: bool)
    | Bumped(changed: bool)
    | Waiting(changed: bool)
    | Evicting(pending: set<TxId>, stale: set<TxId>)

  /** Where an admitter is. `g` is the generation it loaded, `tx` its transaction, validated at chain state `v` with
      result `ok`; `now` is the chain state when the second stability check began. */
  datatype Admitter =
    | Quiet1
    | Loaded(g: nat)
    | Stable(g: nat)
    | Validated(g: nat, tx: TxId, v: nat, ok: bool)
    | Locked(g: nat, tx: TxId, v: nat, ok: bool)
    | Quiet2(g: nat, tx: TxId, v: nat, ok: bool, now: nat)
    | Reloaded(g: nat, tx: TxId, v: nat, ok: bool, now: nat)
    | Confirmed(g: nat, tx: TxId, v: nat, ok: bool, now: nat)

  datatype Holder = Nobody | ByUpdater(u: nat) | ByAdmitter(a: nat)

  /** Chain states are numbered: `visible` is what a reader sees, `canon` the last committed one, `next` an unused
      number. `generation` and `inProgress` are the two counters of the chain. */
  datatype System = System(visible: nat, canon: nat, next: nat, generation: nat, inProgress: nat,
                           updaters: map<nat, Updater>, admitters: map<nat, Admitter>,
                           pool: set<TxId>, lock: Holder)

  datatype Event =
    | Begin(u: nat) | Mutate(u: nat) | Try(u: nat) | Commit(u: nat) | Restore(u: nat) | Bump(u: nat) | Finish(u: nat)
    | Leave(u: nat) | StartEviction(u: nat) | Revalidate(u: nat, t: TxId) | EndEviction(u: nat)
    | FirstLoad(a: nat) | LoadGeneration(a: nat) | SecondLoad(a: nat) | Validate(a: nat, t: TxId) | Acquire(a: nat)
    | RecheckLoad(a: nat) | RecheckGeneration(a: nat) | RecheckAgain(a: nat)
    | Insert(a: nat, dropped: set<TxId>, admitted: bool) | GiveUp(a: nat)
    | Remove(ts: set<TxId>)

  type Validity = (nat, TxId) -> bool

  const START := System(0, 0, 1, 0, 0, map[], map[], {}, Nobody)

  predicate HoldsLock(a: Admitter) {
    a.Locked? || a.Quiet2? || a.Reloaded? || a.Confirmed?
  }

  ghost predicate NobodyTrying(s: System) {
    forall u :: u in s.updaters ==> !s.updaters[u].Trying?
  }

  /** The step is possible now. Only one updater at a time changes the chain. */
  ghost predicate Enabled(s: System, e: Event) {
    match e
    case Begin(u) => u !in s.updaters
    case Mutate(u) => u in s.updaters && s.updaters[u].Updating? && NobodyTrying(s)
    case Try(u) => u in s.updaters && s.updaters[u].Updating? && NobodyTrying(s)
    case Commit(u) => u in s.updaters && s.updaters[u].Trying?
    case Restore(u) => u in s.updaters && s.updaters[u].Trying?
    case Bump(u) => u in s.updaters && s.updaters[u].Updating?
    case Finish(u) => u in s.updaters && s.updaters[u].Bumped? && s.inProgress > 0
    case Leave(u) => u in s.updaters && s.updaters[u].Waiting? && !s.updaters[u].changed
    case StartEviction(u) => u in s.updaters && s.updaters[u].Waiting? && s.lock == Nobody
    case Revalidate(u, t) => u in s.updaters && s.updaters[u].Evicting? && t in s.updaters[u].pending
    case EndEviction(u) => u in s.updaters && s.updaters[u].Evicting? && s.updaters[u].pending == {}
    case FirstLoad(a) => a !in s.admitters && s.inProgress == 0
    case LoadGeneration(a) => a in s.admitters && s.admitters[a].Quiet1?
    case SecondLoad(a) => a in s.admitters && s.admitters[a].Loaded? && s.inProgress == 0
    case Validate(a, t) => a in s.admitters && s.admitters[a].Stable?
    case Acquire(a) => a in s.admitters && s.admitters[a].Validated? && s.lock == Nobody
    case RecheckLoad(a) => a in s.admitters && s.admitters[a].Locked? && s.inProgress == 0
    case RecheckGeneration(a) =>
      a in s.admitters && s.admitters[a].Quiet2? && s.generation == s.admitters[a].g
    case RecheckAgain(a) => a in s.admitters && s.admitters[a].Reloaded? && s.inProgress == 0
    case Insert(a, dropped, admitted) =>
      a in s.admitters && s.admitters[a].Confirmed? && (admitted ==> s.admitters[a].ok)
    case GiveUp(a) => a in s.admitters
    case Remove(ts) => s.lock == Nobody
  }

  /** What the step does. A failed stability check is `GiveUp`; submitting to the mempool may also drop others. */
  ghost function Apply(s: System, e: Event, valid: Validity): System
    requires Enabled(s, e)
  {
    match e
    case Begin(u) => s.(inProgress := s.inProgress + 1, updaters := s.updaters[u := Updating(false)])
    case Mutate(u) =>
      s.(visible := s.next, canon := s.next, next := s.next + 1, updaters := s.updaters[u := Updating(true)])
    case Try(u) =>
      s.(visible := s.next, next := s.next + 1, updaters := s.updaters[u := Trying(s.canon, s.updaters[u].changed)])
    case Commit(u) =>
      s.(visible := s.next, canon := s.next, next := s.next + 1, updaters := s.updaters[u := Updating(true)])
    case Restore(u) => s.(visible := s.updaters[u].base, updaters := s.updaters[u := Updating(s.updaters[u].changed)])
    case Bump(u) => s.(generation := s.generation + 1, updaters := s.updaters[u := Bumped(s.updaters[u].changed)])
    case Finish(u) => s.(inProgress := s.inProgress - 1, updaters := s.updaters[u := Waiting(s.updaters[u].changed)])
    case Leave(u) => s.(updaters := s.updaters - {u})
    case StartEviction(u) => s.(lock := ByUpdater(u), updaters := s.updaters[u := Evicting(s.pool, {})])
    case Revalidate(u, t) =>
      var x := s.updaters[u];
      s.(updaters := s.updaters[u := Evicting(x.pending - {t},
                                              if valid(s.visible, t) then x.stale else x.stale + {t})])
    case EndEviction(u) => s.(lock := Nobody, pool := s.pool - s.updaters[u].stale, updaters := s.updaters - {u})
    case FirstLoad(a) => s.(admitters := s.admitters[a := Quiet1])
    case LoadGeneration(a) => s.(admitters := s.admitters[a := Loaded(s.generation)])
    case SecondLoad(a) => s.(admitters := s.admitters[a := Stable(s.admitters[a].g)])
    case Validate(a, t) =>
      s.(admitters := s.admitters[a := Validated(s.admitters[a].g, t, s.visible, valid(s.visible, t))])
    case Acquire(a) =>
      var x := s.admitters[a];
      s.(lock := ByAdmitter(a), admitters := s.admitters[a := Locked(x.g, x.tx, x.v, x.ok)])
    case RecheckLoad(a) =>
      var x := s.admitters[a];
      s.(admitters := s.admitters[a := Quiet2(x.g, x.tx, x.v, x.ok, s.visible)])
    case RecheckGeneration(a) =>
      var x := s.admitters[a];
      s.(admitters := s.admitters[a := Reloaded(x.g, x.tx, x.v, x.ok, x.now)])
    case RecheckAgain(a) =>
      var x := s.admitters[a];
      s.(admitters := s.admitters[a := Confirmed(x.g, x.tx, x.v, x.ok, x.now)])
    case Insert(a, dropped, admitted) =>
      var x := s.admitters[a];
      s.(lock := Nobody, admitters := s.admitters - {a},
         pool := (s.pool - dropped) + (if admitted then {x.tx} else {}))
    case GiveUp(a) =>
      s.(lock := if HoldsLock(s.admitters[a]) then Nobody else s.lock, admitters := s.admitters - {a})
    case Remove(ts) => s.(pool := s.pool - ts)
  }

  // ---------------------------------------------------------------- invariant

  ghost predicate InWindow(us: map<nat, Updater>, u: nat) {
    u in us && (us[u].Updating? || us[u].Trying? || us[u].Bumped?)
  }

  /** The updaters between the two counter changes. */
  ghost function Window(us: map<nat, Updater>): (w: set<nat>)
    ensures forall u :: u in w <==> InWindow(us, u)
  {
    set u | u in us && InWindow(us, u)
  }

  ghost predicate Mutating(s: System, u: nat) {
    u in s.updaters && (s.updaters[u].Updating? || s.updaters[u].Trying?)
  }

  /** Updater `u` has changed the chain and yet to re-validate every pending transaction. */
  ghost predicate Owes(s: System, u: nat) {
    u in s.updaters && !s.updaters[u].Evicting? && s.updaters[u].changed
  }

  /** Updater `u` will still look at transaction `t`, or drop it. */
  ghost predicate WillSettle(s: System, u: nat, t: TxId) {
    Owes(s, u) ||
    (u in s.updaters && s.updaters[u].Evicting? && (t in s.updaters[u].pending || t in s.updaters[u].stale))
  }

  ghost predicate Accounted(s: System, t: TxId, valid: Validity) {
    valid(s.canon, t) || exists u :: WillSettle(s, u, t)
  }

  /** Outside an attempted reorganisation the visible state is the committed one. */
  ghost predicate StatesOk(s: System) {
    && (NobodyTrying(s) ==> s.visible == s.canon)
    && (forall u :: u in s.updaters && s.updaters[u].Trying? ==> s.updaters[u].base == s.canon)
    && (forall u, w :: u in s.updaters && w in s.updaters && s.updaters[u].Trying? && s.updaters[w].Trying? ==> u == w)
  }

  ghost predicate NoneBumped(s: System) {
    forall u :: u in s.updaters ==> !s.updaters[u].Bumped?
  }

  /** What an admitter may rely on at each point. */
  ghost predicate AdmitterOk(s: System, a: nat, valid: Validity)
    requires a in s.admitters
  {
    var x := s.admitters[a];
    && (HoldsLock(x) <==> s.lock == ByAdmitter(a))
    && (!x.Quiet1? ==> x.g <= s.generation)
    && (!x.Quiet1? && !x.Loaded? && s.generation == x.g ==> NoneBumped(s))
    && (x.Validated? || HoldsLock(x) ==> (x.ok <==> valid(x.v, x.tx)))
    && (x.Validated? || x.Locked? ==> (s.generation == x.g ==> s.visible == x.v || exists u :: Mutating(s, u)))
    && (x.Quiet2? && s.generation == x.g ==> x.now == x.v && Current(s, x.v))
    && (x.Reloaded? || x.Confirmed? ==> x.now == x.v && Current(s, x.v))
  }

  /** `v` is the committed state, or somebody still owes a clean-up. */
  ghost predicate Current(s: System, v: nat) {
    s.canon == v || exists u :: Owes(s, u)
  }

  ghost predicate LockOk(s: System) {
    && (forall u :: u in s.updaters && s.updaters[u].Evicting? ==> s.lock == ByUpdater(u))
    && (s.lock.ByAdmitter? ==> s.lock.a in s.admitters)
  }

  /** What holds of the counters, the lock, the chain states and the admitters. */
  ghost predicate Core(s: System, valid: Validity) {
    && s.inProgress == |Window(s.updaters)|
    && LockOk(s) && StatesOk(s)
    && (forall a {:trigger AdmitterOk(s, a, valid)} :: a in s.admitters ==> AdmitterOk(s, a, valid))
  }

  ghost predicate Inv(s: System, valid: Validity) {
    && Core(s, valid)
    && (forall t {:trigger Accounted(s, t, valid)} :: t in s.pool ==> Accounted(s, t, valid))
  }

  /** A re-validation does not pass a transaction that is invalid in the committed state. */
  ghost predicate Honest(s: System, e: Event, valid: Validity) {
    e.Revalidate? && valid(s.visible, e.t) ==> valid(s.canon, e.t)
  }

  // ---------------------------------------------------------------- every step keeps it

  predicate ByAnUpdater(e: Event) {
    || e.Begin? || e.Mutate? || e.Try? || e.Commit? || e.Restore? || e.Bump? || e.Finish? || e.Leave?
    || e.StartEviction? || e.Revalidate? || e.EndEviction?
  }

  lemma {:induction false} WindowMoves(us: map<nat, Updater>, u: nat, x: Updater)
    ensures InWindow(us[u := x], u) ==> Window(us[u := x]) == Window(us) + {u}
    ensures !InWindow(us[u := x], u) ==> Window(us[u := x]) == Window(us) - {u}
    ensures Window(us - {u}) == Window(us) - {u}
  {
    forall w ensures w != u ==> InWindow(us[u := x], w) == InWindow(us, w) == InWindow(us - {u}, w) {
    }
  }

  lemma {:induction false} WindowCount(us: map<nat, Updater>, u: nat, x: Updater)
    ensures var before := |Window(us)| - if InWindow(us, u) then 1 else 0;
            && |Window(us[u := x])| == before + (if InWindow(us[u := x], u) then 1 else 0)
            && |Window(us - {u})| == before
  {
    WindowMoves(us, u, x);
    var w := Window(us);
    assert InWindow(us, u) ==> w + {u} == w;
    assert !InWindow(us, u) ==> w - {u} == w;
  }

  lemma {:induction false} CounterKept(s: System, e: Event, valid: Validity)
    requires s.inProgress == |Window(s.updaters)| && Enabled(s, e)
    ensures Apply(s, e, valid).inProgress == |Window(Apply(s, e, valid).updaters)|
  {
    hide NobodyTrying, Window;
    if ByAnUpdater(e) {
      var x := if e.EndEviction? || e.Leave? then Waiting(false) else Apply(s, e, valid).updaters[e.u];
      WindowCount(s.updaters, e.u, x);
    }
  }

  lemma {:induction false} StatesKept(s: System, e: Event, valid: Validity)
    requires Core(s, valid) && Enabled(s, e)
    ensures StatesOk(Apply(s, e, valid))
  {
    var t := Apply(s, e, valid);
    assert e.Try? ==> t.updaters[e.u].Trying?;
    assert !e.Commit? && !e.Restore? ==>
      forall u :: u in s.updaters && s.updaters[u].Trying? ==> u in t.updaters && t.updaters[u].Trying?;
  }

  lemma {:induction false} LockKept(s: System, e: Event, valid: Validity)
    requires Core(s, valid) && Enabled(s, e)
    ensures LockOk(Apply(s, e, valid))
  {
    if (e.Insert? || e.GiveUp?) && e.a in s.admitters {
      assert AdmitterOk(s, e.a, valid);
    }
  }

  /** An admitter that does not move keeps what it relies on. */
  lemma {:induction false} OtherAdmitterKept(s: System, e: Event, valid: Validity, b: nat)
    requires Core(s, valid) && Enabled(s, e) && !ByAnUpdater(e)
    requires b in s.admitters && b in Apply(s, e, valid).admitters && Apply(s, e, valid).admitters[b] == s.admitters[b]
    requires e.Remove? || e.a != b
    ensures AdmitterOk(Apply(s, e, valid), b, valid)
  {
    var t := Apply(s, e, valid);
    assert AdmitterOk(s, b, valid);
    if e.Insert? || e.GiveUp? || e.Acquire? {
      assert AdmitterOk(s, e.a, valid);
    }
    assert forall u :: Mutating(s, u) == Mutating(t, u) && Owes(s, u) == Owes(t, u);
  }

  /** An updater's step leaves an admitter what it relies on: changes are visible as an update in progress until the
      generation is bumped, and after that the updater owes a clean-up that must wait for the mempool lock. */
  lemma {:induction false} UpdaterKeepsAdmitter(s: System, e: Event, valid: Validity, b: nat)
    requires Core(s, valid) && Enabled(s, e) && ByAnUpdater(e) && b in s.admitters
    ensures AdmitterOk(Apply(s, e, valid), b, valid)
  {
    var t := Apply(s, e, valid);
    var x := s.admitters[b];
    assert AdmitterOk(s, b, valid);
    assert e.Mutate? || e.Commit? ==> Mutating(t, e.u) && Owes(t, e.u);
    assert e.Try? || e.Restore? ==> Mutating(t, e.u);
    assert forall u :: Mutating(s, u) && (e.Bump? ==> u != e.u) ==> Mutating(t, u);
    assert !e.StartEviction? ==> forall u :: Owes(s, u) ==> Owes(t, u);
    if HoldsLock(x) {
      assert !e.StartEviction?;
    }
  }

  /** An admitter's own step gives it what it relies on next. */
  lemma {:induction false} AdmitterAdvances(s: System, e: Event, valid: Validity)
    requires Core(s, valid) && Enabled(s, e) && !ByAnUpdater(e) && !e.Remove? && !e.Insert? && !e.GiveUp?
    ensures e.a in Apply(s, e, valid).admitters && AdmitterOk(Apply(s, e, valid), e.a, valid)
  {
    var t := Apply(s, e, valid);
    if e.a in s.admitters {
      assert AdmitterOk(s, e.a, valid);
    } else {
      assert s.lock != ByAdmitter(e.a);
    }
    assert forall u :: Mutating(s, u) ==> Mutating(t, u) && InWindow(s.updaters, u);
    assert forall u :: Owes(s, u) ==> Owes(t, u);
    if s.inProgress == 0 {
      assert Window(s.updaters) == {};
      assert forall u :: u in s.updaters ==> !InWindow(s.updaters, u);
      assert NoneBumped(t) && NobodyTrying(s);
    }
  }

  lemma {:induction false} AdmittersKept(s: System, e: Event, valid: Validity, b: nat)
    requires Core(s, valid) && Enabled(s, e) && b in Apply(s, e, valid).admitters
    ensures AdmitterOk(Apply(s, e, valid), b, valid)
  {
    if ByAnUpdater(e) {
      UpdaterKeepsAdmitter(s, e, valid, b);
    } else if !e.Remove? && !e.Insert? && !e.GiveUp? && e.a == b {
      AdmitterAdvances(s, e, valid);
    } else {
      OtherAdmitterKept(s, e, valid, b);
    }
  }

  /** Whoever will settle a transaction still will, except an eviction that has passed it, and that was honest, or one
      that has just ended, and that dropped what it had found invalid. */
  lemma {:induction false} StillSettles(s: System, e: Event, valid: Validity, u: nat, t: TxId)
    requires Inv(s, valid) && Enabled(s, e) && Honest(s, e, valid) && t in s.pool && WillSettle(s, u, t)
    ensures t !in Apply(s, e, valid).pool || WillSettle(Apply(s, e, valid), u, t) || valid(s.canon, t)
  {
    hide StatesOk, LockOk, AdmitterOk, NobodyTrying;
  }

  lemma {:induction false} PoolKept(s: System, e: Event, valid: Validity, t: TxId)
    requires Inv(s, valid) && Enabled(s, e) && Honest(s, e, valid) && t in Apply(s, e, valid).pool
    ensures Accounted(Apply(s, e, valid), t, valid)
  {
    var n := Apply(s, e, valid);
    if e.Mutate? || e.Commit? {
      assert WillSettle(n, e.u, t);
    } else if t in s.pool {
      assert Accounted(s, t, valid);
      if !valid(s.canon, t) {
        var u :| WillSettle(s, u, t);
        StillSettles(s, e, valid, u, t);
      }
    } else {
      var x := s.admitters[e.a];
      assert AdmitterOk(s, e.a, valid);
      if s.canon != x.v {
        var u :| Owes(s, u);
        assert WillSettle(n, u, t);
      }
    }
  }

  lemma {:induction false} StepKeepsCore(s: System, e: Event, valid: Validity)
    requires Core(s, valid) && Enabled(s, e)
    ensures Core(Apply(s, e, valid), valid)
  {
    hide Enabled, Apply, AdmitterOk, LockOk, StatesOk;
    CounterKept(s, e, valid);
    StatesKept(s, e, valid);
    LockKept(s, e, valid);
    var n := Apply(s, e, valid);
    forall a | a in n.admitters ensures AdmitterOk(n, a, valid) {
      AdmittersKept(s, e, valid, a);
    }
  }

  lemma {:induction false} StepKeeps(s: System, e: Event, valid: Validity)
    requires Inv(s, valid) && Enabled(s, e) && Honest(s, e, valid)
    ensures Inv(Apply(s, e, valid), valid)
  {
    hide Enabled, Apply, Accounted, Core;
    StepKeepsCore(s, e, valid);
    var n := Apply(s, e, valid);
    forall t | t in n.pool ensures Accounted(n, t, valid) {
      PoolKept(s, e, valid, t);
    }
  }

  // ---------------------------------------------------------------- every run

  /** Each event of the run is possible when it comes. */
  ghost predicate Feasible(s: System, es: seq<Event>, valid: Validity)
    decreases |es|
  {
    es != [] ==> Enabled(s, es[0]) && Feasible(Apply(s, es[0], valid), es[1..], valid)
  }

  ghost function Outcome(s: System, es: seq<Event>, valid: Validity): System
    requires Feasible(s, es, valid)
    decreases |es|
  {
    if es == [] then s else Outcome(Apply(s, es[0], valid), es[1..], valid)
  }

  lemma {:induction false} RunKeepsCore(s: System, es: seq<Event>, valid: Validity)
    requires Core(s, valid) && Feasible(s, es, valid)
    ensures Core(Outcome(s, es, valid), valid)
    decreases |es|
  {
    hide Enabled, Apply, Core;
    if es != [] {
      StepKeepsCore(s, es[0], valid);
      RunKeepsCore(Apply(s, es[0], valid), es[1..], valid);
    }
  }

  // ---------------------------------------------------------------- what two equal reads of the generation mean

  /** The step changes the chain state that readers see. */
  predicate ChangesChain(e: Event) {
    e.Mutate? || e.Try? || e.Commit? || e.Restore?
  }

  /** The generation has moved on from `g`, or an update that will move it is in progress. */
  ghost predicate Disturbed(s: System, g: nat) {
    s.generation > g || exists u :: Mutating(s, u)
  }

  lemma {:induction false} StaysDisturbed(s: System, e: Event, valid: Validity, g: nat)
    requires Enabled(s, e) && s.generation >= g && (Disturbed(s, g) || ChangesChain(e))
    ensures Disturbed(Apply(s, e, valid), g) && Apply(s, e, valid).generation >= g
  {
    var n := Apply(s, e, valid);
    if ChangesChain(e) {
      assert Mutating(n, e.u);
    } else if s.generation == g {
      var u :| Mutating(s, u);
      assert n.generation > g || Mutating(n, u);
    }
  }

  /** A change of the chain during a run shows at its end. */
  lemma {:induction false} ChangeShows(s: System, es: seq<Event>, valid: Validity, g: nat)
    requires Feasible(s, es, valid) && s.generation >= g
    requires Disturbed(s, g) || exists i :: 0 <= i < |es| && ChangesChain(es[i])
    ensures Disturbed(Outcome(s, es, valid), g)
    decreases |es|
  {
    hide Enabled, Apply, Disturbed;
    if es != [] {
      var n := Apply(s, es[0], valid);
      if Disturbed(s, g) || ChangesChain(es[0]) {
        StaysDisturbed(s, es[0], valid, g);
      } else {
        GenerationGrows(s, es[0], valid);
        var i :| 0 <= i < |es| && ChangesChain(es[i]);
        assert es[1..][i - 1] == es[i];
      }
      ChangeShows(n, es[1..], valid, g);
    }
  }

  lemma {:induction false} GenerationGrows(s: System, e: Event, valid: Validity)
    requires Enabled(s, e)
    ensures Apply(s, e, valid).generation >= s.generation
  {
  }

  /** The step ends admitter `a`'s attempt. */
  predicate Ends(e: Event, a: nat) {
    (e.GiveUp? || e.Insert?) && e.a == a
  }

  ghost predicate SameAttempt(es: seq<Event>, a: nat) {
    forall i :: 0 <= i < |es| ==> !Ends(es[i], a)
  }

  /** Within an attempt the generation loaded first is remembered. */
  lemma {:induction false} RemembersGeneration(s: System, es: seq<Event>, valid: Validity, a: nat)
    requires Feasible(s, es, valid) && SameAttempt(es, a) && a in s.admitters && !s.admitters[a].Quiet1?
    ensures var n := Outcome(s, es, valid);
            a in n.admitters && !n.admitters[a].Quiet1? && n.admitters[a].g == s.admitters[a].g
    decreases |es|
  {
    if es != [] {
      assert !Ends(es[0], a);
      RemembersGeneration(Apply(s, es[0], valid), es[1..], valid, a);
    }
  }

  /** Once the generation has moved on, the second check of the attempt cannot pass. */
  lemma {:induction false} NeverReloads(s: System, es: seq<Event>, valid: Validity, a: nat)
    requires Feasible(s, es, valid) && SameAttempt(es, a)
    requires a in s.admitters && s.admitters[a].Quiet2? && s.generation > s.admitters[a].g
    ensures a in Outcome(s, es, valid).admitters && Outcome(s, es, valid).admitters[a].Quiet2?
    decreases |es|
  {
    if es != [] {
      assert !Ends(es[0], a);
      GenerationGrows(s, es[0], valid);
      NeverReloads(Apply(s, es[0], valid), es[1..], valid, a);
    }
  }

  lemma {:induction false} RunJoins(s: System, xs: seq<Event>, ys: seq<Event>, valid: Validity)
    requires Feasible(s, xs, valid) && Feasible(Outcome(s, xs, valid), ys, valid)
    ensures Feasible(s, xs + ys, valid) && Outcome(s, xs + ys, valid) == Outcome(Outcome(s, xs, valid), ys, valid)
    decreases |xs|
  {
    hide Enabled, Apply;
    if xs == [] {
      assert xs + ys == ys;
    } else {
      RunJoins(Apply(s, xs[0], valid), xs[1..], ys, valid);
      assert (xs + ys)[1..] == xs[1..] + ys;
    }
  }

  lemma {:induction false} RunSplits(s: System, xs: seq<Event>, ys: seq<Event>, valid: Validity)
    requires Feasible(s, xs + ys, valid)
    ensures Feasible(s, xs, valid) && Feasible(Outcome(s, xs, valid), ys, valid)
    ensures Outcome(s, xs + ys, valid) == Outcome(Outcome(s, xs, valid), ys, valid)
    decreases |xs|
  {
    hide Enabled, Apply;
    if xs == [] {
      assert xs + ys == ys;
    } else {
      assert (xs + ys)[1..] == xs[1..] + ys;
      RunSplits(Apply(s, xs[0], valid), xs[1..], ys, valid);
    }
  }

  lemma {:induction false} StepSplits(s: System, e: Event, es: seq<Event>, valid: Validity)
    requires Feasible(s, [e] + es, valid)
    ensures Enabled(s, e) && Feasible(Apply(s, e, valid), es, valid)
    ensures Outcome(s, [e] + es, valid) == Outcome(Apply(s, e, valid), es, valid)
  {
    hide Enabled, Apply;
    assert ([e] + es)[1..] == es;
  }

  /** What the generation counter is for. If an admission that loaded the generation, and later passed the first load of
      its second stability check, finds the generation unchanged, then no step in between changed the chain: not for a
      moment, in any interleaving of any number of updates and admissions. */
  lemma {:induction false} UnchangedBetweenReads(pre: seq<Event>, mid: seq<Event>, post: seq<Event>, valid: Validity,
                                                 a: nat)
    requires Feasible(START, pre + ([LoadGeneration(a)] + (mid + ([RecheckLoad(a)] + post))), valid)
    requires SameAttempt(mid, a) && SameAttempt(post, a)
    requires var n := Outcome(START, pre + ([LoadGeneration(a)] + (mid + ([RecheckLoad(a)] + post))), valid);
             a in n.admitters && (n.admitters[a].Reloaded? || n.admitters[a].Confirmed?)
    ensures forall i :: 0 <= i < |mid| ==> !ChangesChain(mid[i])
  {
    hide Feasible, Outcome, Core, SameAttempt;
    StartOk(valid);
    RunSplits(START, pre, [LoadGeneration(a)] + (mid + ([RecheckLoad(a)] + post)), valid);
    var s := Outcome(START, pre, valid);
    RunKeepsCore(START, pre, valid);
    StepSplits(s, LoadGeneration(a), mid + ([RecheckLoad(a)] + post), valid);
    StepKeepsCore(s, LoadGeneration(a), valid);
    var l := Apply(s, LoadGeneration(a), valid);
    RunSplits(l, mid, [RecheckLoad(a)] + post, valid);
    RunKeepsCore(l, mid, valid);
    RemembersGeneration(l, mid, valid, a);
    var m := Outcome(l, mid, valid);
    StepSplits(m, RecheckLoad(a), post, valid);
    if exists i :: 0 <= i < |mid| && ChangesChain(mid[i]) {
      ChangeShows(l, mid, valid, s.generation);
      NoneMutating(m, valid);
      NeverReloads(Apply(m, RecheckLoad(a), valid), post, valid, a);
    }
  }

  lemma {:induction false} NoneMutating(s: System, valid: Validity)
    requires Core(s, valid) && s.inProgress == 0
    ensures forall u :: !Mutating(s, u)
  {
    assert Window(s.updaters) == {};
    forall u ensures !Mutating(s, u) {
      assert !InWindow(s.updaters, u);
    }
  }

  // ---------------------------------------------------------------- from the start

  lemma {:induction false} StartOk(valid: Validity)
    ensures Inv(START, valid)
  {
    assert Window(START.updaters) == {};
  }

  /** Whenever an admission commits, the chain state it validated against was the canonical one when its second
      stability check began: no update took effect in between, in any interleaving. */
  lemma {:induction false} CommitsAgainstCurrentState(es: seq<Event>, valid: Validity, a: nat)
    requires Feasible(START, es, valid)
    ensures var s := Outcome(START, es, valid);
            a in s.admitters && s.admitters[a].Confirmed? ==>
              && s.admitters[a].v == s.admitters[a].now
              && (s.admitters[a].ok <==> valid(s.admitters[a].now, s.admitters[a].tx))
  {
    StartOk(valid);
    RunKeepsCore(START, es, valid);
    var s := Outcome(START, es, valid);
    if a in s.admitters {
      assert AdmitterOk(s, a, valid);
    }
  }

  // ---------------------------------------------------------------- clean-up and half-way reorganisations

  /** Whether a re-validation has run inside the reorganisation attempt that is open, if any. */
  ghost predicate Touch(s: System, e: Event, touched: bool) {
    if e.Try? || e.Commit? || e.Restore? then false else touched || (e.Revalidate? && !NobodyTrying(s))
  }

  ghost predicate TouchedAfter(s: System, es: seq<Event>, touched: bool, valid: Validity)
    requires Feasible(s, es, valid)
    decreases |es|
  {
    if es == [] then touched else TouchedAfter(Apply(s, es[0], valid), es[1..], Touch(s, es[0], touched), valid)
  }

  /** No reorganisation attempt of the run that fails has a re-validation inside it. */
  ghost predicate Settles(s: System, es: seq<Event>, touched: bool, valid: Validity)
    requires Feasible(s, es, valid)
    decreases |es|
  {
    es != [] ==>
      && (es[0].Restore? ==> !touched)
      && Settles(Apply(s, es[0], valid), es[1..], Touch(s, es[0], touched), valid)
  }

  /** The pool is accounted for, unless a re-validation has run inside the open attempt. */
  ghost predicate Settling(s: System, touched: bool, valid: Validity) {
    Core(s, valid) && if touched then !NobodyTrying(s) else Inv(s, valid)
  }

  /** An attempt stays open until it is committed or restored. */
  lemma {:induction false} StaysOpen(s: System, e: Event, valid: Validity)
    requires Enabled(s, e) && !NobodyTrying(s) && !e.Commit? && !e.Restore?
    ensures !NobodyTrying(Apply(s, e, valid))
  {
    var u :| u in s.updaters && s.updaters[u].Trying?;
    assert u in Apply(s, e, valid).updaters && Apply(s, e, valid).updaters[u].Trying?;
  }

  /** A committed attempt owes a re-validation of the whole pool. */
  lemma {:induction false} CommitAccounts(s: System, e: Event, valid: Validity)
    requires Core(s, valid) && Enabled(s, e) && e.Commit?
    ensures Inv(Apply(s, e, valid), valid)
  {
    hide AdmitterOk, LockOk, StatesOk, Window;
    StepKeepsCore(s, e, valid);
    var n := Apply(s, e, valid);
    forall t | t in n.pool ensures Accounted(n, t, valid) {
      assert WillSettle(n, e.u, t);
    }
  }

  lemma {:induction false} StepSettles(s: System, e: Event, touched: bool, valid: Validity)
    requires Settling(s, touched, valid) && Enabled(s, e) && (e.Restore? ==> !touched)
    ensures Settling(Apply(s, e, valid), Touch(s, e, touched), valid)
  {
    hide Enabled, Apply, AdmitterOk, LockOk, Window, Accounted;
    StepKeepsCore(s, e, valid);
    if e.Commit? {
      CommitAccounts(s, e, valid);
    } else if touched {
      TryNeedsNobody(s, e);
      StaysOpen(s, e, valid);
    } else if e.Revalidate? && !NobodyTrying(s) {
      StaysOpen(s, e, valid);
    } else {
      StepKeeps(s, e, valid);
    }
  }

  lemma {:induction false} TryNeedsNobody(s: System, e: Event)
    requires Enabled(s, e)
    ensures e.Try? ==> NobodyTrying(s)
  {
  }

  lemma {:induction false} RunSettles(s: System, es: seq<Event>, touched: bool, valid: Validity)
    requires Settling(s, touched, valid) && Feasible(s, es, valid) && Settles(s, es, touched, valid)
    ensures Settling(Outcome(s, es, valid), TouchedAfter(s, es, touched, valid), valid)
    decreases |es|
  {
    hide Enabled, Apply, Settling, Touch;
    if es != [] {
      StepSettles(s, es[0], touched, valid);
      RunSettles(Apply(s, es[0], valid), es[1..], Touch(s, es[0], touched), valid);
    }
  }

  /** Once all updates have cleaned up, every pending transaction is valid against the committed chain, whatever the
      interleaving was, if no re-validation ran inside a reorganisation attempt that then failed. */
  lemma {:induction false} QuiescentPoolIsValid(es: seq<Event>, valid: Validity)
    requires Feasible(START, es, valid) && Settles(START, es, false, valid)
    requires Outcome(START, es, valid).updaters == map[]
    ensures var s := Outcome(START, es, valid); s.visible == s.canon && forall t :: t in s.pool ==> valid(s.canon, t)
  {
    StartOk(valid);
    RunSettles(START, es, false, valid);
    var s := Outcome(START, es, valid);
    assert NobodyTrying(s);
    forall t | t in s.pool ensures valid(s.canon, t) {
      assert Accounted(s, t, valid);
    }
  }

  /** At any time, under the same condition, an invalid pending transaction is one that an update still in progress or
      still cleaning up will re-validate or drop, or an attempt that a re-validation has run in is still open. */
  lemma {:induction false} InvalidIsAccounted(es: seq<Event>, valid: Validity, t: TxId)
    requires Feasible(START, es, valid) && Settles(START, es, false, valid)
    ensures var s := Outcome(START, es, valid);
            t in s.pool && !valid(s.canon, t) ==>
              (exists u :: WillSettle(s, u, t)) || (TouchedAfter(START, es, false, valid) && !NobodyTrying(s))
  {
    StartOk(valid);
    RunSettles(START, es, false, valid);
    var s := Outcome(START, es, valid);
    if t in s.pool && !TouchedAfter(START, es, false, valid) {
      assert Accounted(s, t, valid);
    }
  }

  /** No re-validation of the run happens while a reorganisation is between its two critical sections. */
  ghost predicate Undisturbed(s: System, es: seq<Event>, valid: Validity)
    requires Feasible(s, es, valid)
    decreases |es|
  {
    es != [] ==>
      && (es[0].Revalidate? ==> NobodyTrying(s))
      && Undisturbed(Apply(s, es[0], valid), es[1..], valid)
  }

  /** Then none runs inside an attempt at all. */
  lemma {:induction false} UndisturbedSettles(s: System, es: seq<Event>, valid: Validity)
    requires Feasible(s, es, valid) && Undisturbed(s, es, valid)
    ensures Settles(s, es, false, valid) && !TouchedAfter(s, es, false, valid)
    decreases |es|
  {
    hide Enabled, Apply, NobodyTrying;
    if es != [] {
      UndisturbedSettles(Apply(s, es[0], valid), es[1..], valid);
    }
  }

  /** Updates are taken one at a time, each with its clean-up. */
  ghost predicate Serialized(s: System, es: seq<Event>, valid: Validity)
    requires Feasible(s, es, valid)
    decreases |es|
  {
    es != [] ==>
      && (es[0].Begin? ==> s.updaters == map[])
      && Serialized(Apply(s, es[0], valid), es[1..], valid)
  }

  ghost predicate AtMostOne(us: map<nat, Updater>) {
    forall u, w :: u in us && w in us ==> u == w
  }

  lemma {:induction false} SerializedIsUndisturbed(s: System, es: seq<Event>, valid: Validity)
    requires AtMostOne(s.updaters) && Feasible(s, es, valid) && Serialized(s, es, valid)
    ensures Undisturbed(s, es, valid)
    decreases |es|
  {
    if es != [] {
      OneStays(s, es[0], valid);
      SerializedIsUndisturbed(Apply(s, es[0], valid), es[1..], valid);
    }
  }

  lemma {:induction false} OneStays(s: System, e: Event, valid: Validity)
    requires AtMostOne(s.updaters) && Enabled(s, e) && (e.Begin? ==> s.updaters == map[])
    ensures AtMostOne(Apply(s, e, valid).updaters) && (e.Revalidate? ==> NobodyTrying(s))
  {
    var n := Apply(s, e, valid);
    assert forall u :: u in n.updaters ==> u in s.updaters || (e.Begin? && u == e.u);
  }

  /** So if updates are serialized, every pending transaction is valid whenever none is under way. */
  lemma {:induction false} SerializedPoolIsValid(es: seq<Event>, valid: Validity)
    requires Feasible(START, es, valid) && Serialized(START, es, valid) && Outcome(START, es, valid).updaters == map[]
    ensures var s := Outcome(START, es, valid); forall t :: t in s.pool ==> valid(s.canon, t)
  {
    SerializedIsUndisturbed(START, es, valid);
    UndisturbedSettles(START, es, valid);
    QuiescentPoolIsValid(es, valid);
  }

  // ---------------------------------------------------------------- a failed reorganisation during clean-up

  lemma {:induction false} RunStep(s: System, e: Event, es: seq<Event>, valid: Validity)
    requires Enabled(s, e) && Feasible(Apply(s, e, valid), es, valid)
    ensures Feasible(s, [e] + es, valid) && Outcome(s, [e] + es, valid) == Outcome(Apply(s, e, valid), es, valid)
  {
    hide Enabled, Apply;
    assert ([e] + es)[1..] == es;
  }

  lemma {:induction false} NoSteps(s: System, valid: Validity)
    ensures Feasible(s, [], valid) && Outcome(s, [], valid) == s
  {
  }

  function FailedTry(w: nat): seq<Event> {
    [Restore(w)] + ([Bump(w)] + ([Finish(w)] + ([Leave(w)] + [])))
  }

  /** A reorganisation that fails leaves as it found the chain, and cleans nothing up. */
  lemma {:induction false} FailedTryRuns(s: System, valid: Validity, w: nat)
    requires s.updaters == map[w := Trying(s.canon, false)] && s.inProgress == 1
    ensures Feasible(s, FailedTry(w), valid)
    ensures Outcome(s, FailedTry(w), valid) ==
            s.(visible := s.canon, updaters := map[], inProgress := 0, generation := s.generation + 1)
  {
    hide Feasible, Outcome, NobodyTrying;
    var a := s.(visible := s.canon, updaters := map[w := Updating(false)]);
    var b := a.(generation := a.generation + 1, updaters := map[w := Bumped(false)]);
    var c := b.(inProgress := 0, updaters := map[w := Waiting(false)]);
    assert s.updaters[w := Updating(false)] == a.updaters && a.updaters[w := Bumped(false)] == b.updaters;
    assert b.updaters[w := Waiting(false)] == c.updaters && c.updaters - {w} == map[];
    var d := c.(updaters := map[]);
    assert Enabled(s, Restore(w)) && Apply(s, Restore(w), valid) == a;
    assert Enabled(a, Bump(w)) && Apply(a, Bump(w), valid) == b;
    assert Enabled(b, Finish(w)) && Apply(b, Finish(w), valid) == c;
    assert Enabled(c, Leave(w)) && Apply(c, Leave(w), valid) == d;
    hide Enabled, Apply;
    NoSteps(d, valid);
    RunStep(c, Leave(w), [], valid);
    RunStep(b, Finish(w), [Leave(w)] + [], valid);
    RunStep(a, Bump(w), [Finish(w)] + ([Leave(w)] + []), valid);
    RunStep(s, Restore(w), [Bump(w)] + ([Finish(w)] + ([Leave(w)] + [])), valid);
  }

  function Overtaken(u: nat, w: nat, t: TxId): seq<Event> {
    [Begin(w)] + ([Try(w)] + ([Revalidate(u, t)] + ([EndEviction(u)] + FailedTry(w))))
  }

  /** Another updater starts a reorganisation. */
  lemma {:induction false} TryStarts(s: System, valid: Validity, u: nat, x: Updater, w: nat)
    requires s.updaters == map[u := x] && !x.Trying? && w != u
    ensures Enabled(s, Begin(w))
    ensures var a := Apply(s, Begin(w), valid);
            && Enabled(a, Try(w))
            && Apply(a, Try(w), valid) == s.(inProgress := s.inProgress + 1, visible := s.next, next := s.next + 1,
                                             updaters := map[u := x, w := Trying(s.canon, false)])
  {
    var a := Apply(s, Begin(w), valid);
    assert a.updaters == map[u := x, w := Updating(false)];
    assert a.updaters[w := Trying(s.canon, false)] == map[u := x, w := Trying(s.canon, false)];
  }

  /** The eviction passes its last transaction and ends. */
  lemma {:induction false} EvictionPasses(s: System, valid: Validity, u: nat, w: nat, x: Updater, t: TxId)
    requires s.updaters == map[u := Evicting({t}, {}), w := x] && w != u && valid(s.visible, t)
    ensures Enabled(s, Revalidate(u, t))
    ensures var a := Apply(s, Revalidate(u, t), valid);
            && Enabled(a, EndEviction(u))
            && Apply(a, EndEviction(u), valid) == s.(lock := Nobody, updaters := map[w := x])
  {
    assert {t} - {t} == {} && s.pool - {} == s.pool;
    var a := Apply(s, Revalidate(u, t), valid);
    assert a.updaters == map[u := Evicting({}, {}), w := x];
    assert a.updaters - {u} == map[w := x];
  }

  /** An eviction about to drop the last invalid transaction, overtaken by another updater's reorganisation that takes
      blocks off, passes the transaction if it is valid in that half-way state. The reorganisation then fails, changes
      nothing and so cleans nothing up, and everybody is done with the invalid transaction still pending. */
  lemma {:induction false} MisledEviction(s: System, valid: Validity, u: nat, w: nat, t: TxId)
    requires s.updaters == map[u := Evicting({t}, {})] && s.inProgress == 0 && t in s.pool && w != u
    requires !valid(s.canon, t) && valid(s.next, t)
    ensures Feasible(s, Overtaken(u, w, t), valid)
    ensures var n := Outcome(s, Overtaken(u, w, t), valid);
            n.updaters == map[] && n.visible == n.canon == s.canon && n.pool == s.pool
  {
    hide FailedTry, Feasible, Outcome, Enabled, Apply;
    TryStarts(s, valid, u, Evicting({t}, {}), w);
    var a := Apply(s, Begin(w), valid);
    var b := Apply(a, Try(w), valid);
    EvictionPasses(b, valid, u, w, Trying(s.canon, false), t);
    var c := Apply(b, Revalidate(u, t), valid);
    FailedTryRuns(Apply(c, EndEviction(u), valid), valid, w);
    var tail := FailedTry(w);
    RunStep(c, EndEviction(u), tail, valid);
    RunStep(b, Revalidate(u, t), [EndEviction(u)] + tail, valid);
    RunStep(a, Try(w), [Revalidate(u, t)] + ([EndEviction(u)] + tail), valid);
    RunStep(s, Begin(w), [Try(w)] + ([Revalidate(u, t)] + ([EndEviction(u)] + tail)), valid);
  }

  function Reading(a: nat): seq<Event> {
    [FirstLoad(a)] + ([LoadGeneration(a)] + ([SecondLoad(a)] + []))
  }

  function Locking(a: nat, t: TxId): seq<Event> {
    [Validate(a, t)] + ([Acquire(a)] + ([RecheckLoad(a)] + []))
  }

  function Committing(a: nat): seq<Event> {
    [RecheckGeneration(a)] + ([RecheckAgain(a)] + ([Insert(a, {}, true)] + []))
  }

  /** An admission that nobody disturbs. */
  function Admission(a: nat, t: TxId): seq<Event> {
    Reading(a) + (Locking(a, t) + Committing(a))
  }

  lemma {:induction false} ReadingRuns(s: System, valid: Validity, a: nat)
    requires s.admitters == map[] && s.inProgress == 0
    ensures Feasible(s, Reading(a), valid)
    ensures Outcome(s, Reading(a), valid) == s.(admitters := map[a := Stable(s.generation)])
  {
    hide Feasible, Outcome, NobodyTrying;
    var b := s.(admitters := map[a := Quiet1]);
    var c := s.(admitters := map[a := Loaded(s.generation)]);
    var d := s.(admitters := map[a := Stable(s.generation)]);
    assert s.admitters[a := Quiet1] == b.admitters && b.admitters[a := Loaded(s.generation)] == c.admitters;
    assert c.admitters[a := Stable(s.generation)] == d.admitters;
    assert Enabled(s, FirstLoad(a)) && Apply(s, FirstLoad(a), valid) == b;
    assert Enabled(b, LoadGeneration(a)) && Apply(b, LoadGeneration(a), valid) == c;
    assert Enabled(c, SecondLoad(a)) && Apply(c, SecondLoad(a), valid) == d;
    hide Enabled, Apply;
    NoSteps(d, valid);
    RunStep(c, SecondLoad(a), [], valid);
    RunStep(b, LoadGeneration(a), [SecondLoad(a)] + [], valid);
    RunStep(s, FirstLoad(a), [LoadGeneration(a)] + ([SecondLoad(a)] + []), valid);
  }

  lemma {:induction false} LockingRuns(s: System, valid: Validity, a: nat, t: TxId)
    requires s.inProgress == 0 && s.lock == Nobody
    requires s.admitters == map[a := Stable(s.generation)] && valid(s.visible, t)
    ensures Feasible(s, Locking(a, t), valid)
    ensures Outcome(s, Locking(a, t), valid) ==
            s.(lock := ByAdmitter(a), admitters := map[a := Quiet2(s.generation, t, s.visible, true, s.visible)])
  {
    hide Feasible, Outcome, NobodyTrying;
    var g, v := s.generation, s.visible;
    var b := s.(admitters := map[a := Validated(g, t, v, true)]);
    var c := s.(lock := ByAdmitter(a), admitters := map[a := Locked(g, t, v, true)]);
    var d := c.(admitters := map[a := Quiet2(g, t, v, true, v)]);
    assert s.admitters[a := b.admitters[a]] == b.admitters && b.admitters[a := c.admitters[a]] == c.admitters;
    assert c.admitters[a := d.admitters[a]] == d.admitters;
    assert Enabled(s, Validate(a, t)) && Apply(s, Validate(a, t), valid) == b;
    assert Enabled(b, Acquire(a)) && Apply(b, Acquire(a), valid) == c;
    assert Enabled(c, RecheckLoad(a)) && Apply(c, RecheckLoad(a), valid) == d;
    hide Enabled, Apply;
    NoSteps(d, valid);
    RunStep(c, RecheckLoad(a), [], valid);
    RunStep(b, Acquire(a), [RecheckLoad(a)] + [], valid);
    RunStep(s, Validate(a, t), [Acquire(a)] + ([RecheckLoad(a)] + []), valid);
  }

  lemma {:induction false} InsertRuns(s: System, valid: Validity, a: nat, t: TxId, v: nat)
    requires s.admitters == map[a := Confirmed(s.generation, t, v, true, v)]
    ensures Feasible(s, [Insert(a, {}, true)] + [], valid)
    ensures Outcome(s, [Insert(a, {}, true)] + [], valid) ==
            s.(lock := Nobody, admitters := map[], pool := s.pool + {t})
  {
    hide Feasible, Outcome, NobodyTrying;
    assert s.admitters - {a} == map[] && (s.pool - {}) + {t} == s.pool + {t};
    NoSteps(s.(lock := Nobody, admitters := map[], pool := s.pool + {t}), valid);
    RunStep(s, Insert(a, {}, true), [], valid);
  }

  lemma {:induction false} CommittingRuns(s: System, valid: Validity, a: nat, t: TxId, v: nat)
    requires s.inProgress == 0 && s.admitters == map[a := Quiet2(s.generation, t, v, true, v)]
    ensures Feasible(s, Committing(a), valid)
    ensures Outcome(s, Committing(a), valid) == s.(lock := Nobody, admitters := map[], pool := s.pool + {t})
  {
    hide Feasible, Outcome, NobodyTrying;
    var d := s.(admitters := map[a := Reloaded(s.generation, t, v, true, v)]);
    var e := s.(admitters := map[a := Confirmed(s.generation, t, v, true, v)]);
    assert s.admitters[a := d.admitters[a]] == d.admitters && d.admitters[a := e.admitters[a]] == e.admitters;
    InsertRuns(e, valid, a, t, v);
    RunStep(d, RecheckAgain(a), [Insert(a, {}, true)] + [], valid);
    RunStep(s, RecheckGeneration(a), [RecheckAgain(a)] + ([Insert(a, {}, true)] + []), valid);
  }

  lemma {:induction false} AdmissionRuns(s: System, valid: Validity, a: nat, t: TxId)
    requires s.admitters == map[] && s.inProgress == 0 && s.lock == Nobody && valid(s.visible, t)
    ensures Feasible(s, Admission(a, t), valid)
    ensures Outcome(s, Admission(a, t), valid) == s.(pool := s.pool + {t})
  {
    hide Feasible, Outcome, Reading, Locking, Committing;
    ReadingRuns(s, valid, a);
    var b := Outcome(s, Reading(a), valid);
    LockingRuns(b, valid, a, t);
    var c := Outcome(b, Locking(a, t), valid);
    CommittingRuns(c, valid, a, t, s.visible);
    RunJoins(b, Locking(a, t), Committing(a), valid);
    RunJoins(s, Reading(a), Locking(a, t) + Committing(a), valid);
  }

  function UpdateAndClean(u: nat): seq<Event> {
    [Begin(u)] + ([Mutate(u)] + ([Bump(u)] + ([Finish(u)] + ([StartEviction(u)] + []))))
  }

  lemma {:induction false} CleanRuns(s: System, valid: Validity, u: nat)
    requires s.updaters == map[u := Updating(true)] && s.inProgress == 1 && s.lock == Nobody
    ensures Feasible(s, [Bump(u)] + ([Finish(u)] + ([StartEviction(u)] + [])), valid)
    ensures Outcome(s, [Bump(u)] + ([Finish(u)] + ([StartEviction(u)] + [])), valid) ==
            s.(generation := s.generation + 1, inProgress := 0, lock := ByUpdater(u),
               updaters := map[u := Evicting(s.pool, {})])
  {
    hide Feasible, Outcome, NobodyTrying;
    var c := s.(generation := s.generation + 1, updaters := map[u := Bumped(true)]);
    var d := c.(inProgress := 0, updaters := map[u := Waiting(true)]);
    var e := d.(lock := ByUpdater(u), updaters := map[u := Evicting(s.pool, {})]);
    assert s.updaters[u := Bumped(true)] == c.updaters && c.updaters[u := Waiting(true)] == d.updaters;
    assert d.updaters[u := Evicting(s.pool, {})] == e.updaters;
    NoSteps(e, valid);
    RunStep(d, StartEviction(u), [], valid);
    RunStep(c, Finish(u), [StartEviction(u)] + [], valid);
    RunStep(s, Bump(u), [Finish(u)] + ([StartEviction(u)] + []), valid);
  }

  /** An update that changes the chain and starts cleaning up. */
  lemma {:induction false} UpdateRuns(s: System, valid: Validity, u: nat)
    requires s.updaters == map[] && s.inProgress == 0 && s.lock == Nobody
    ensures Feasible(s, UpdateAndClean(u), valid)
    ensures Outcome(s, UpdateAndClean(u), valid) ==
            s.(visible := s.next, canon := s.next, next := s.next + 1, generation := s.generation + 1,
               lock := ByUpdater(u), updaters := map[u := Evicting(s.pool, {})])
  {
    hide Feasible, Outcome;
    var a := s.(inProgress := 1, updaters := map[u := Updating(false)]);
    var b := a.(visible := s.next, canon := s.next, next := s.next + 1, updaters := map[u := Updating(true)]);
    assert s.updaters[u := Updating(false)] == a.updaters && a.updaters[u := Updating(true)] == b.updaters;
    CleanRuns(b, valid, u);
    var tail := [Bump(u)] + ([Finish(u)] + ([StartEviction(u)] + []));
    RunStep(a, Mutate(u), tail, valid);
    RunStep(s, Begin(u), [Mutate(u)] + tail, valid);
  }

  function MisledRun(): seq<Event> {
    Admission(0, 0) + (UpdateAndClean(1) + Overtaken(1, 2, 0))
  }

  /** The condition cannot be dropped: a transaction that only the second chain state makes invalid is admitted, an
      update moves the chain to that state, and its clean-up is overtaken by a reorganisation that fails. Then nobody is
      at work any more, and the invalid transaction is still pending. */
  lemma {:induction false} HalfWayRevalidationMisleads(valid: Validity)
    requires valid(0, 0) && !valid(1, 0) && valid(2, 0)
    ensures Feasible(START, MisledRun(), valid) && !Settles(START, MisledRun(), false, valid)
    ensures var n := Outcome(START, MisledRun(), valid);
            n.updaters == map[] && n.pool == {0} && n.canon == 1 && !valid(n.canon, 0)
  {
    hide Feasible, Outcome, Settles, Admission, UpdateAndClean, Overtaken;
    AdmissionRuns(START, valid, 0, 0);
    var b := Outcome(START, Admission(0, 0), valid);
    assert b.pool == {0};
    UpdateRuns(b, valid, 1);
    var c := Outcome(b, UpdateAndClean(1), valid);
    MisledEviction(c, valid, 1, 2, 0);
    RunJoins(b, UpdateAndClean(1), Overtaken(1, 2, 0), valid);
    RunJoins(START, Admission(0, 0), UpdateAndClean(1) + Overtaken(1, 2, 0), valid);
    if Settles(START, MisledRun(), false, valid) {
      QuiescentPoolIsValid(MisledRun(), valid);
    }
  }

  /** There is such a validity. */
  lemma {:induction false} MisledInstance()
    ensures var valid: Validity := (v, t) => v != 1;
            && Feasible(START, MisledRun(), valid) && Outcome(START, MisledRun(), valid).updaters == map[]
            && 0 in Outcome(START, MisledRun(), valid).pool && !valid(Outcome(START, MisledRun(), valid).canon, 0)
  {
    hide Feasible, Outcome, MisledRun;
    HalfWayRevalidationMisleads((v, t) => v != 1);
  }
}
