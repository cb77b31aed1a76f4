// The lock protocol of src/futures/atomic_waker.rs as a state machine: any number
// of threads call `register` and `take`, one access to shared memory at a time.
module AtomicWakerProtocol {
  import opened Wrappers

  type Thread = nat

  // The two bits of `state`.
  const WAITING: bv64 := 0
  const REGISTERING: bv64 := 1
  const WAKING: bv64 := 2

  // A waker as one call of `register` stored it.  Epochs number the calls whose
  // compare-exchange did not lose to another registrar.
  datatype Handle = Handle(waker: nat, epoch: nat)

  // The next shared access of a thread inside `register` or inside `wake`/`take`.
  datatype Pc =
    | RegAcquire(waker: nat)        // compare_exchange(WAITING, REGISTERING)
    | RegWrite(handle: Handle)      // write the cell
    | RegRelease(handle: Handle)    // compare_exchange(REGISTERING, WAITING)
    | RegTakeBack(handle: Handle)   // take the waker it just wrote
    | RegReset(handle: Handle)      // swap(WAITING)
    | RegWake(handle: Handle)       // wake the waker on behalf of someone else
    | TakeSet                       // fetch_or(WAKING)
    | TakeCell                      // take the cell
    | TakeClear(got: Option<Handle>)  // fetch_and(!WAKING)
    | TakeWake(got: Option<Handle>)   // wake what was taken
    | Aborted                       // a debug_assert or the unwrap failed

  // `holder` (who owns the cell), `epoch`, `notified` (epochs in which some
  // fetch_or happened) and `woken` (epochs whose waker was woken) are history.
  datatype State = State(
    bits: bv64,
    cell: Option<Handle>,
    threads: map<Thread, Pc>,
    holder: Option<Thread>,
    epoch: nat,
    notified: set<nat>,
    woken: set<nat>)

  const INITIAL := State(WAITING, None, map[], None, 0, {}, {})

  datatype Action =
    | CallRegister(thread: Thread, waker: nat)
    | CallTake(thread: Thread)
    | Step(thread: Thread)

  predicate Enabled(s: State, a: Action) {
    match a
    case CallRegister(t, _) => t !in s.threads
    case CallTake(t) => t !in s.threads
    case Step(t) => t in s.threads
  }

  function At(s: State, t: Thread, pc: Pc): State {
    s.(threads := s.threads[t := pc])
  }

  function Return(s: State, t: Thread): State {
    s.(threads := s.threads - {t})
  }

  function StepRegister(s: State, t: Thread): State
    requires t in s.threads
  {
    match s.threads[t]
    case RegAcquire(w) =>
      var h := Handle(w, s.epoch + 1);
      if s.bits == WAITING then
        At(s, t, RegWrite(h)).(bits := REGISTERING, holder := Some(t), epoch := s.epoch + 1)
      else if s.bits == WAKING then
        At(s, t, RegWake(h)).(epoch := s.epoch + 1)
      else if s.bits == REGISTERING || s.bits == REGISTERING | WAKING then
        Return(s, t)
      else
        At(s, t, Aborted)
    case RegWrite(h) => At(s, t, RegRelease(h)).(cell := Some(h))
    case RegRelease(h) =>
      if s.bits == REGISTERING then
        Return(s, t).(bits := WAITING, holder := None)
      else if s.bits == REGISTERING | WAKING then
        At(s, t, RegTakeBack(h))
      else
        At(s, t, Aborted)
    case RegTakeBack(_) =>
      if s.cell.Some? then
        At(s, t, RegReset(s.cell.value)).(cell := None)
      else
        At(s, t, Aborted)
    case RegReset(h) => At(s, t, RegWake(h)).(bits := WAITING, holder := None)
    case RegWake(h) => Return(s, t).(woken := s.woken + {h.epoch})
    case _ => s
  }

  function StepTake(s: State, t: Thread): State
    requires t in s.threads
  {
    match s.threads[t]
    case TakeSet =>
      var noted := s.notified + {s.epoch};
      if s.bits == WAITING then
        At(s, t, TakeCell).(bits := s.bits | WAKING, holder := Some(t), notified := noted)
      else if s.bits == REGISTERING || s.bits == REGISTERING | WAKING || s.bits == WAKING then
        Return(s, t).(bits := s.bits | WAKING, notified := noted)
      else
        At(s, t, Aborted)
    case TakeCell => At(s, t, TakeClear(s.cell)).(cell := None)
    case TakeClear(got) => At(s, t, TakeWake(got)).(bits := s.bits & !WAKING, holder := None)
    case TakeWake(got) => Return(s, t).(woken := if got.Some? then s.woken + {got.value.epoch} else s.woken)
    case _ => s
  }

  predicate Registering(pc: Pc) {
    pc.RegAcquire? || pc.RegWrite? || pc.RegRelease? || pc.RegTakeBack? || pc.RegReset? || pc.RegWake?
  }

  function Do(s: State, a: Action): State
    requires Enabled(s, a)
  {
    match a
    case CallRegister(t, w) => At(s, t, RegAcquire(w))
    case CallTake(t) => At(s, t, TakeSet)
    case Step(t) => if Registering(s.threads[t]) then StepRegister(s, t) else StepTake(s, t)
  }

  // ------------------------------------------------------------ exclusion

  // The accesses between acquiring and releasing the cell.
  predicate InCell(pc: Pc) {
    pc.RegWrite? || pc.RegRelease? || pc.RegTakeBack? || pc.RegReset? || pc.TakeCell? || pc.TakeClear?
  }

  ghost predicate Exclusive(s: State) {
    && (s.holder == None ==> s.bits == WAITING)
    && (s.holder.Some? ==> s.holder.value in s.threads && HolderInv(s, s.threads[s.holder.value]))
    && forall t :: t in s.threads ==> s.threads[t] != Aborted && (InCell(s.threads[t]) ==> s.holder == Some(t))
  }

  // What the bits and the cell say about the thread that owns the cell.
  predicate HolderInv(s: State, pc: Pc) {
    match pc
    case RegWrite(_) => s.bits == REGISTERING || s.bits == REGISTERING | WAKING
    case RegRelease(h) => (s.bits == REGISTERING || s.bits == REGISTERING | WAKING) && s.cell == Some(h)
    case RegTakeBack(h) => s.bits == REGISTERING | WAKING && s.cell == Some(h)
    case RegReset(_) => s.bits == REGISTERING | WAKING && s.cell == None
    case TakeCell => s.bits == WAKING
    case TakeClear(_) => s.bits == WAKING && s.cell == None
    case _ => false
  }

  lemma Bits()
    ensures WAITING | WAKING == WAKING && REGISTERING | WAKING == 3 && WAKING | WAKING == WAKING
    ensures (3 as bv64) | WAKING == 3 && WAKING & !WAKING == WAITING
  {
  }

  lemma RegisterExclusive(s: State, t: Thread)
    requires Exclusive(s) && t in s.threads && Registering(s.threads[t])
    ensures Exclusive(StepRegister(s, t))
  {
    Bits();
  }

  lemma TakeExclusive(s: State, t: Thread)
    requires Exclusive(s) && t in s.threads && !Registering(s.threads[t])
    ensures Exclusive(StepTake(s, t))
  {
    Bits();
  }

  lemma StepExclusive(s: State, a: Action)
    requires Exclusive(s) && Enabled(s, a)
    ensures Exclusive(Do(s, a))
  {
    if a.Step? {
      if Registering(s.threads[a.thread]) {
        RegisterExclusive(s, a.thread);
      } else {
        TakeExclusive(s, a.thread);
      }
    }
  }

  // ------------------------------------------------------------- delivery

  ghost predicate OneRegistrar(s: State) {
    forall t, u :: t in s.threads && u in s.threads && Registering(s.threads[t]) && Registering(s.threads[u]) ==> t == u
  }

  ghost predicate MovesOnly(s: State, s': State, t: Thread) {
    forall u :: u != t ==> (u in s'.threads <==> u in s.threads) && (u in s.threads ==> s'.threads[u] == s.threads[u])
  }

  lemma RegisterMoves(s: State, t: Thread)
    requires t in s.threads
    ensures MovesOnly(s, StepRegister(s, t), t)
  {
    var s' := StepRegister(s, t);
    assert s' == s || s'.threads == Return(s, t).threads
        || (t in s'.threads && s'.threads == At(s, t, s'.threads[t]).threads) by {
      match s.threads[t]
      case RegAcquire(w) => assert t in s'.threads ==> s'.threads == At(s, t, s'.threads[t]).threads;
      case RegRelease(h) => assert t in s'.threads ==> s'.threads == At(s, t, s'.threads[t]).threads;
      case RegTakeBack(h) => assert s'.threads == At(s, t, s'.threads[t]).threads;
      case RegReset(h) => assert s'.threads == At(s, t, RegWake(h)).threads;
      case _ =>
    }
  }

  lemma TakeMoves(s: State, t: Thread)
    requires t in s.threads && !Registering(s.threads[t])
    ensures MovesOnly(s, StepTake(s, t), t)
    ensures t in StepTake(s, t).threads ==> !Registering(StepTake(s, t).threads[t])
  {
  }

  lemma OneRegistrarStays(s: State, a: Action)
    requires OneRegistrar(s) && Enabled(s, a)
    requires a.CallRegister? ==> forall t :: t in s.threads ==> !Registering(s.threads[t])
    ensures OneRegistrar(Do(s, a))
  {
    if a.Step? {
      if Registering(s.threads[a.thread]) {
        RegisterMoves(s, a.thread);
      } else {
        TakeMoves(s, a.thread);
      }
    }
    var s' := Do(s, a);
    assert MovesOnly(s, s', a.thread);
  }

  // Thread t will wake the waker of epoch k without any other thread's help.
  predicate CommittedTo(s: State, t: Thread, k: nat) {
    t in s.threads &&
    match s.threads[t]
    case RegWrite(h) => h.epoch == k && s.bits == REGISTERING | WAKING
    case RegRelease(h) => h.epoch == k && s.bits == REGISTERING | WAKING
    case RegTakeBack(h) => h.epoch == k
    case RegReset(h) => h.epoch == k
    case RegWake(h) => h.epoch == k
    case TakeCell => s.cell.Some? && s.cell.value.epoch == k
    case TakeClear(got) => got.Some? && got.value.epoch == k
    case TakeWake(got) => got.Some? && got.value.epoch == k
    case _ => false
  }

  ghost predicate Delivered(s: State, k: nat) {
    k in s.woken || exists t :: CommittedTo(s, t, k)
  }

  // The waker of epoch k is where the next `wake` will find it.
  ghost predicate Armed(s: State, k: nat) {
    || Delivered(s, k)
    || (s.cell.Some? && s.cell.value.epoch == k)
    || exists t :: t in s.threads && s.threads[t].RegWrite? && s.threads[t].handle.epoch == k
  }

  ghost predicate DeliveryInv(s: State) {
    && OneRegistrar(s)
    && (forall t :: t in s.threads && Registering(s.threads[t]) && !s.threads[t].RegAcquire? ==>
          s.threads[t].handle.epoch == s.epoch)
    && (s.epoch > 0 ==> Armed(s, s.epoch))
    && (forall k :: k in s.notified ==> k <= s.epoch && (k > 0 ==> Delivered(s, k)))
  }

  // While one thread is in the cell, all that others do is set the WAKING bit.
  lemma RegisterOutside(s: State, t: Thread)
    requires t in s.threads && Registering(s.threads[t]) && !InCell(s.threads[t]) && s.bits != WAITING
    ensures StepRegister(s, t).cell == s.cell && StepRegister(s, t).bits == s.bits
  {
  }

  lemma TakeOutside(s: State, t: Thread)
    requires t in s.threads && !Registering(s.threads[t]) && !InCell(s.threads[t]) && s.bits != WAITING
    ensures StepTake(s, t).cell == s.cell
    ensures StepTake(s, t).bits == s.bits || StepTake(s, t).bits == s.bits | WAKING
  {
  }

  lemma OthersKeepOut(s: State, a: Action, u: Thread)
    requires Exclusive(s) && Enabled(s, a) && u in s.threads && a.thread != u
    ensures var s' := Do(s, a);
      && u in s'.threads && s'.threads[u] == s.threads[u]
      && (InCell(s.threads[u]) ==> s'.cell == s.cell && (s'.bits == s.bits || s'.bits == s.bits | WAKING))
  {
    Bits();
    if a.Step? {
      var t := a.thread;
      if Registering(s.threads[t]) {
        RegisterMoves(s, t);
        if InCell(s.threads[u]) { RegisterOutside(s, t); }
      } else {
        TakeMoves(s, t);
        if InCell(s.threads[u]) { TakeOutside(s, t); }
      }
    }
  }

  // What one thread is committed to, no step of another thread takes away.
  lemma CommitmentStays(s: State, a: Action, u: Thread, k: nat)
    requires Exclusive(s) && Enabled(s, a) && CommittedTo(s, u, k) && a.thread != u
    ensures CommittedTo(Do(s, a), u, k)
  {
    Bits();
    OthersKeepOut(s, a, u);
  }

  // A committed thread's own step leads to the wake.
  lemma CommitmentAdvances(s: State, u: Thread, k: nat)
    requires Exclusive(s) && CommittedTo(s, u, k)
    ensures CommittedTo(Do(s, Step(u)), u, k) || k in Do(s, Step(u)).woken
  {
    Bits();
  }

  lemma DeliveredStays(s: State, a: Action, k: nat)
    requires Exclusive(s) && Enabled(s, a) && Delivered(s, k)
    ensures Delivered(Do(s, a), k)
  {
    if k in s.woken {
      assert k in Do(s, a).woken;
    } else {
      var u :| CommittedTo(s, u, k);
      if a.thread != u {
        CommitmentStays(s, a, u, k);
      } else {
        CommitmentAdvances(s, u, k);
      }
    }
  }

  // A fetch_or finds the current epoch's waker armed and makes its delivery certain.
  lemma NotifyDelivers(s: State, t: Thread)
    requires Exclusive(s) && DeliveryInv(s) && t in s.threads && s.threads[t] == TakeSet && s.epoch > 0
    ensures Delivered(Do(s, Step(t)), s.epoch)
  {
    Bits();
    var s' := Do(s, Step(t));
    if Delivered(s, s.epoch) {
      DeliveredStays(s, Step(t), s.epoch);
    } else if s.bits == WAITING {
      assert CommittedTo(s', t, s.epoch);
    } else {
      var u := s.holder.value;
      assert CommittedTo(s', u, s.epoch);
    }
  }

  // A stored waker leaves the cell only into the hands of a thread that wakes it.
  lemma StoredStaysArmed(s: State, a: Action)
    requires Exclusive(s) && DeliveryInv(s) && Enabled(s, a) && Do(s, a).epoch == s.epoch
    requires s.cell.Some? && s.cell.value.epoch == s.epoch
    ensures var s' := Do(s, a); CommittedTo(s', a.thread, s.epoch) || (s'.cell.Some? && s'.cell.value.epoch == s.epoch)
  {
  }

  lemma WriterStaysArmed(s: State, a: Action, u: Thread)
    requires Exclusive(s) && Enabled(s, a)
    requires u in s.threads && s.threads[u].RegWrite?
    ensures var s', h := Do(s, a), s.threads[u].handle;
            s'.cell == Some(h) || (u in s'.threads && s'.threads[u] == RegWrite(h))
  {
  }

  lemma ArmedStays(s: State, a: Action)
    requires Exclusive(s) && DeliveryInv(s) && Enabled(s, a) && Do(s, a).epoch == s.epoch > 0
    ensures Armed(Do(s, a), s.epoch)
  {
    if Delivered(s, s.epoch) {
      DeliveredStays(s, a, s.epoch);
    } else if s.cell.Some? && s.cell.value.epoch == s.epoch {
      StoredStaysArmed(s, a);
    } else {
      var u :| u in s.threads && s.threads[u].RegWrite? && s.threads[u].handle.epoch == s.epoch;
      WriterStaysArmed(s, a, u);
    }
  }

  lemma StepDelivery(s: State, a: Action)
    requires Exclusive(s) && DeliveryInv(s) && Enabled(s, a) && OneRegistrar(Do(s, a))
    ensures DeliveryInv(Do(s, a))
  {
    NotifiedDelivered(s, a);
    HandlesAreCurrent(s, a);
    if s.epoch == Do(s, a).epoch > 0 {
      ArmedStays(s, a);
    } else if s.epoch < Do(s, a).epoch {
      RegisterArms(s, a);
    }
  }

  lemma HandlesAreCurrent(s: State, a: Action)
    requires Exclusive(s) && DeliveryInv(s) && Enabled(s, a) && OneRegistrar(Do(s, a))
    ensures var s' := Do(s, a);
      forall t :: t in s'.threads && Registering(s'.threads[t]) && !s'.threads[t].RegAcquire? ==>
        s'.threads[t].handle.epoch == s'.epoch
    ensures s.epoch <= Do(s, a).epoch
  {
  }

  // The access that starts an epoch.
  lemma RegisterArms(s: State, a: Action)
    requires Exclusive(s) && DeliveryInv(s) && Enabled(s, a) && s.epoch < Do(s, a).epoch
    ensures Armed(Do(s, a), Do(s, a).epoch)
  {
    var s', t := Do(s, a), a.thread;
    assert s'.threads[t].RegWrite? || CommittedTo(s', t, s'.epoch);
  }

  lemma NotifiedDelivered(s: State, a: Action)
    requires Exclusive(s) && DeliveryInv(s) && Enabled(s, a)
    ensures var s' := Do(s, a);
      forall k :: k in s'.notified ==> (k in s.notified || k == s.epoch) && (k > 0 ==> Delivered(s', k))
  {
    forall k | k in Do(s, a).notified && k > 0 ensures Delivered(Do(s, a), k) {
      if k in s.notified {
        DeliveredStays(s, a, k);
      } else {
        NotifyDelivers(s, a.thread);
      }
    }
  }

  // Handles are numbered by the registrations that have happened.
  ghost predicate EpochsBounded(s: State) {
    && (forall k :: k in s.woken ==> k <= s.epoch)
    && (s.cell.Some? ==> s.cell.value.epoch <= s.epoch)
    && (forall t :: t in s.threads ==> PcBounded(s.threads[t], s.epoch))
  }

  predicate PcBounded(pc: Pc, e: nat) {
    match pc
    case RegAcquire(_) => true
    case TakeSet => true
    case TakeCell => true
    case Aborted => true
    case TakeClear(got) => got.Some? ==> got.value.epoch <= e
    case TakeWake(got) => got.Some? ==> got.value.epoch <= e
    case _ => pc.handle.epoch <= e
  }

  lemma RegisterEpochs(s: State, t: Thread)
    requires EpochsBounded(s) && t in s.threads && Registering(s.threads[t])
    ensures EpochsBounded(StepRegister(s, t)) && s.epoch <= StepRegister(s, t).epoch
  {
    var s' := StepRegister(s, t);
    forall u | u in s'.threads ensures PcBounded(s'.threads[u], s'.epoch) {
      if u != t {
        assert PcBounded(s.threads[u], s.epoch);
      }
    }
  }

  lemma TakeEpochs(s: State, t: Thread)
    requires EpochsBounded(s) && t in s.threads && !Registering(s.threads[t])
    ensures EpochsBounded(StepTake(s, t)) && s.epoch == StepTake(s, t).epoch
  {
    var s' := StepTake(s, t);
    assert PcBounded(s.threads[t], s.epoch);
    assert t in s'.threads ==> PcBounded(s'.threads[t], s.epoch);
    forall u | u in s'.threads && u != t ensures PcBounded(s'.threads[u], s.epoch) {
      assert s'.threads[u] == s.threads[u];
    }
    assert forall k :: k in s'.woken ==> k in s.woken || (s.threads[t].TakeWake? && k == s.threads[t].got.value.epoch);
  }

  lemma StepEpochs(s: State, a: Action)
    requires EpochsBounded(s) && Enabled(s, a)
    ensures EpochsBounded(Do(s, a)) && s.epoch <= Do(s, a).epoch
  {
    if a.Step? {
      if Registering(s.threads[a.thread]) {
        RegisterEpochs(s, a.thread);
      } else {
        TakeEpochs(s, a.thread);
      }
    }
  }

  // ----------------------------------------------------------------- runs

  ghost predicate Allowed(s: State, acts: seq<Action>)
    decreases |acts|
  {
    acts == [] || (Enabled(s, acts[0]) && Allowed(Do(s, acts[0]), acts[1..]))
  }

  ghost function After(s: State, acts: seq<Action>): State
    requires Allowed(s, acts)
    decreases |acts|
  {
    if acts == [] then s else After(Do(s, acts[0]), acts[1..])
  }

  // No two `register` calls overlap anywhere in the run.
  ghost predicate RegistersInTurn(s: State, acts: seq<Action>)
    requires Allowed(s, acts)
    decreases |acts|
  {
    OneRegistrar(s) && (acts == [] || RegistersInTurn(Do(s, acts[0]), acts[1..]))
  }

  lemma {:induction false} RunExclusive(s: State, acts: seq<Action>)
    requires Exclusive(s) && Allowed(s, acts)
    ensures Exclusive(After(s, acts))
    decreases |acts|
  {
    if acts != [] {
      StepExclusive(s, acts[0]);
      RunExclusive(Do(s, acts[0]), acts[1..]);
    }
  }

  // Mutual exclusion over every run, registrars racing or not: at most one thread
  // is between acquiring and releasing the cell, the bits are WAITING exactly when
  // there is none and tell a registrar from a waker, and no assertion or `unwrap`
  // fails.
  lemma MutualExclusion(acts: seq<Action>)
    requires Allowed(INITIAL, acts)
    ensures var s := After(INITIAL, acts);
      && (forall t, u :: t in s.threads && u in s.threads && InCell(s.threads[t]) && InCell(s.threads[u]) ==> t == u)
      && (s.bits == WAITING <==> forall t :: t in s.threads ==> !InCell(s.threads[t]))
      && (forall t :: t in s.threads && InCell(s.threads[t]) ==>
            if Registering(s.threads[t]) then s.bits == REGISTERING || s.bits == REGISTERING | WAKING
            else s.bits == WAKING)
      && (forall t :: t in s.threads ==> s.threads[t] != Aborted)
  {
    RunExclusive(INITIAL, acts);
    var s := After(INITIAL, acts);
    if s.holder.Some? {
      assert InCell(s.threads[s.holder.value]);
    }
  }

  // The thread that leaves the cell always leaves the state at WAITING.
  lemma ReleaseRestoresWaiting(s: State, t: Thread)
    requires Exclusive(s) && t in s.threads && InCell(s.threads[t])
    ensures var s' := Do(s, Step(t)); (t in s'.threads && InCell(s'.threads[t])) || s'.bits == WAITING
  {
    Bits();
  }

  lemma {:induction false} RunDelivery(s: State, acts: seq<Action>, k: nat)
    requires Exclusive(s) && DeliveryInv(s) && Allowed(s, acts) && RegistersInTurn(s, acts)
    ensures Exclusive(After(s, acts)) && DeliveryInv(After(s, acts))
    ensures Delivered(s, k) ==> Delivered(After(s, acts), k)
    decreases |acts|
  {
    if acts != [] {
      StepExclusive(s, acts[0]);
      StepDelivery(s, acts[0]);
      if Delivered(s, k) {
        DeliveredStays(s, acts[0], k);
      }
      RunDelivery(Do(s, acts[0]), acts[1..], k);
    }
  }

  // No wake is lost.  Take any run with one registrar at a time: a `wake` whose
  // fetch_or comes after the start of the k-th register, and before the next
  // one, guarantees from that access on, for ever, that the waker of that very
  // register has been woken or is about to be by a thread that needs nobody's
  // help; once every call has returned it has been woken.
  lemma WakeIsDelivered(before: seq<Action>, t: Thread, after: seq<Action>)
    requires Allowed(INITIAL, before) && RegistersInTurn(INITIAL, before)
    requires var s := After(INITIAL, before);
      && t in s.threads && s.threads[t] == TakeSet && s.epoch > 0
      && Allowed(Do(s, Step(t)), after) && RegistersInTurn(Do(s, Step(t)), after)
    ensures var k := After(INITIAL, before).epoch;
            var s' := After(Do(After(INITIAL, before), Step(t)), after);
            Delivered(s', k) && (s'.threads == map[] ==> k in s'.woken)
  {
    RunDelivery(INITIAL, before, 0);
    var s := After(INITIAL, before);
    StepExclusive(s, Step(t));
    StepDelivery(s, Step(t));
    NotifyDelivers(s, t);
    RunDelivery(Do(s, Step(t)), after, s.epoch);
  }

  // ------------------------------------------------ which waker is registered

  // A call of `register` takes effect, with an epoch of its own, if and only if no other
  // one is in the cell; so every call does if they do not overlap.
  lemma RegisterTakesEffect(s: State, t: Thread)
    requires Exclusive(s) && t in s.threads && s.threads[t].RegAcquire?
    ensures var s' := Do(s, Step(t));
      && (s'.epoch == s.epoch || s'.epoch == s.epoch + 1)
      && (s'.epoch == s.epoch + 1 <==>
            forall u :: u in s.threads && Registering(s.threads[u]) ==> !InCell(s.threads[u]))
      && (OneRegistrar(s) ==> s'.epoch == s.epoch + 1)
  {
    Bits();
    if s.holder.Some? && Registering(s.threads[s.holder.value]) {
      assert InCell(s.threads[s.holder.value]);
    }
  }

  // The wakers of the registrations that take effect in a run, by their epochs.
  ghost function Registered(s: State, acts: seq<Action>): map<nat, nat>
    requires Allowed(s, acts)
    decreases |acts|
  {
    if acts == [] then map[] else Registers(s, acts[0]) + Registered(Do(s, acts[0]), acts[1..])
  }

  ghost function Registers(s: State, a: Action): map<nat, nat>
    requires Enabled(s, a)
  {
    if a.Step? && s.threads[a.thread].RegAcquire? && Do(s, a).epoch > s.epoch
    then map[Do(s, a).epoch := s.threads[a.thread].waker] else map[]
  }

  // What is in the cell or in a thread's hands is what was registered.
  predicate Carries(h: Handle, registered: map<nat, nat>) {
    h.epoch in registered && registered[h.epoch] == h.waker
  }

  predicate PcCarries(pc: Pc, registered: map<nat, nat>) {
    match pc
    case RegAcquire(_) => true
    case TakeSet => true
    case TakeCell => true
    case Aborted => true
    case TakeClear(got) => got.Some? ==> Carries(got.value, registered)
    case TakeWake(got) => got.Some? ==> Carries(got.value, registered)
    case _ => Carries(pc.handle, registered)
  }

  ghost predicate AllCarry(s: State, registered: map<nat, nat>) {
    && (s.cell.Some? ==> Carries(s.cell.value, registered))
    && (forall t :: t in s.threads ==> PcCarries(s.threads[t], registered))
    && forall k :: k in registered ==> k <= s.epoch
  }

  // What thread t's own access leaves of this.
  ghost predicate OwnCarries(s: State, t: Thread, registered: map<nat, nat>) {
    && (s.cell.Some? ==> Carries(s.cell.value, registered))
    && (t in s.threads ==> PcCarries(s.threads[t], registered))
    && forall k :: k in registered ==> k <= s.epoch
  }

  lemma RegisterCarries(s: State, t: Thread, registered: map<nat, nat>)
    requires OwnCarries(s, t, registered) && t in s.threads && Registering(s.threads[t])
    ensures OwnCarries(StepRegister(s, t), t, registered + Registers(s, Step(t)))
  {
    assert Registers(s, Step(t)) == map[] ==> registered + Registers(s, Step(t)) == registered;
  }

  lemma TakeCarries(s: State, t: Thread, registered: map<nat, nat>)
    requires OwnCarries(s, t, registered) && t in s.threads && !Registering(s.threads[t])
    ensures OwnCarries(StepTake(s, t), t, registered)
  {
  }

  lemma StepCarries(s: State, a: Action, registered: map<nat, nat>)
    requires AllCarry(s, registered) && Enabled(s, a)
    ensures AllCarry(Do(s, a), registered + Registers(s, a))
  {
    var s', m := Do(s, a), registered + Registers(s, a);
    if a.Step? {
      if Registering(s.threads[a.thread]) {
        RegisterCarries(s, a.thread, registered);
        RegisterMoves(s, a.thread);
      } else {
        TakeCarries(s, a.thread, registered);
        TakeMoves(s, a.thread);
        assert m == registered;
      }
      forall t | t in s'.threads ensures PcCarries(s'.threads[t], m) {
        if t != a.thread {
          assert PcCarries(s.threads[t], registered);
        }
      }
    }
  }

  lemma {:induction false} RunCarries(s: State, acts: seq<Action>, registered: map<nat, nat>)
    requires AllCarry(s, registered) && Allowed(s, acts)
    ensures AllCarry(After(s, acts), registered + Registered(s, acts))
    decreases |acts|
  {
    if acts != [] {
      StepCarries(s, acts[0], registered);
      RunCarries(Do(s, acts[0]), acts[1..], registered + Registers(s, acts[0]));
      MergeAssociative(registered, Registers(s, acts[0]), Registered(Do(s, acts[0]), acts[1..]));
    } else {
      assert registered + map[] == registered;
    }
  }

  // Over every run: the waker that a thread holds and is going to wake is the one that was
  // handed to the registration with that epoch.
  lemma WokenIsRegistered(acts: seq<Action>, t: Thread)
    requires Allowed(INITIAL, acts) && t in After(INITIAL, acts).threads
    ensures var pc, registered := After(INITIAL, acts).threads[t], Registered(INITIAL, acts);
      && (pc.RegWake? ==> Carries(pc.handle, registered))
      && (pc.TakeWake? && pc.got.Some? ==> Carries(pc.got.value, registered))
  {
    RunCarries(INITIAL, acts, map[]);
    assert map[] + Registered(INITIAL, acts) == Registered(INITIAL, acts);
    assert PcCarries(After(INITIAL, acts).threads[t], Registered(INITIAL, acts));
  }
}
