// The tasks of src/futures/task.rs and the wakers they reach when they are woken,
// as one thread sees them with no other thread at work.
module Tasks {
  import opened Wrappers
  import opened Programs

  // Who holds the set's own strong reference to a task.
  datatype Owner =
    | Caller      // a local variable of poll_next, or its bomb
    | AllList     // the list of all tasks
    | ReadyQueue  // the ready queue, after release_task found the task queued
    | Freed       // dropped

  class Task {
    var future: Option<Entry>
    var nextAll: Task?     // the queue's stub stands for the reserved pending value
    var prevAll: Task?
    var lenAll: nat
    var nextReady: Task?
    var queued: bool
    var lastPolled: nat
    ghost var owner: Owner

    // The stub of a ready queue.
    constructor Stub()
      ensures future == None && nextAll == null && prevAll == null && nextReady == null && queued
    {
      future, nextAll, prevAll, lenAll, nextReady, queued, lastPolled := None, null, null, 0, null, true, 1;
      owner := Caller;
    }

    // The task that `push` allocates.
    constructor (entry: Entry, pending: Task)
      ensures future == Some(entry) && nextAll == pending && prevAll == null && lenAll == 0
      ensures queued && lastPolled == 0 && owner == Caller
    {
      future, nextAll, prevAll, lenAll, nextReady, queued, lastPolled := Some(entry), pending, null, 0, null, true, 0;
      owner := Caller;
    }

    // Dropping the set's reference.  A future still there would set off the drop
    // bomb, and a reference may be dropped only once.
    ghost method Drop()
      requires future == None && owner != Freed
      modifies this`owner
      ensures owner == Freed
    {
      owner := Freed;
    }
  }

  // What a wake finds and changes: whether one has come already, and the park token.
  datatype Notice = Notice(unparked: bool, token: bool) {
    function Woken(): Notice {
      Notice(true, token || !unparked)
    }

    function WokenTimes(n: nat): Notice
      decreases n
    {
      if n == 0 then this else Woken().WokenTimes(n - 1)
    }
  }

  // Around run_blocking's swap of `unparked`, however many wakes come before it and
  // after it: if one came before, the thread does not park; and otherwise the park that
  // follows finds a token if and only if one came after, or one was there all along.
  lemma {:induction false} EveryWakeCounts(n: Notice, before: nat, after: nat)
    requires !n.unparked
    ensures var swapped := n.WokenTimes(before);
      && (swapped.unparked <==> before > 0)
      && (before == 0 ==> (swapped.(unparked := false).WokenTimes(after).token <==> n.token || after > 0))
  {
    WokenStays(n, before);
    WokenStays(n, after);
  }

  // The first wake does everything.
  lemma {:induction false} WokenStays(n: Notice, times: nat)
    ensures n.WokenTimes(times) == if times == 0 then n else n.Woken()
    decreases times
  {
    if times > 0 {
      WokenStays(n.Woken(), times - 1);
    }
  }

  // The thread inside `run` or `run_blocking` (ThreadNotify), with its park token.
  class ThreadNotify {
    var unparked: bool
    var token: bool

    constructor ()
      ensures !unparked && !token
    {
      unparked, token := false, false;
    }

    function State(): Notice
      reads this
    {
      Notice(unparked, token)
    }

    // Meanwhile the thread has been woken, once or more, or nothing has happened to it.
    twostate predicate Told(woken: bool)
      reads this
    {
      State() == if woken then old(State()).Woken() else old(State())
    }

    method WakeByRef()
      modifies this
      ensures unparked && token == (old(token) || !old(unparked)) && Told(true)
    {
      var prev := unparked;
      unparked := true;
      if !prev {
        token := true;
      }
    }

    // Between two polls of run_blocking: use up the wakeup that came during the
    // first; if there was none, park until there is a token, and use it up.
    method AwaitWakeup() returns (parked: bool)
      modifies this
      ensures !unparked && parked == !old(unparked)
      ensures token == (old(token) && !parked)
    {
      var wakeup := unparked;
      unparked := false;
      parked := !wakeup;
      if parked {
        token := false;
        unparked := false;
      }
    }
  }

  // AtomicWaker as one thread uses it.  The state says who else is inside: nobody, a
  // registrar (1), a waker (2) or both; AtomicWakerProtocol lets them take turns.
  class AtomicWaker {
    var state: bv64
    var waker: Option<ThreadNotify>

    constructor ()
      ensures Idle() && waker == None
    {
      state, waker := 0, None;
    }

    predicate Idle()
      reads this`state
    {
      state == 0
    }

    // Store the waker; while it is being woken, wake it at once; while somebody else
    // is registering, drop the call.
    method Register(w: ThreadNotify)
      modifies this, w
      ensures state == old(state)
      ensures waker == if old(state) == 0 then Some(w) else old(waker)
      ensures w.Told(old(state) == 2)
    {
      if state == 0 {
        state := 1;
        waker := Some(w);
        state := 0;
      } else if state == 2 {
        w.WakeByRef();
      }
    }

    // Take the waker out; while somebody else is inside, leave the WAKING bit for them.
    method Take() returns (taken: Option<ThreadNotify>)
      modifies this
      ensures if old(state) == 0 then state == 0 && taken == old(waker) && waker == None
        else state == old(state) | 2 && taken == None && waker == old(waker)
    {
      var before := state;
      state := state | 2;
      if before == 0 {
        taken := waker;
        waker := None;
        state := state & !2;
      } else {
        taken := None;
      }
    }

    method Wake()
      modifies this, if waker.Some? then {waker.value} else {}
      ensures if old(state) == 0 then state == 0 && waker == None else state == old(state) | 2 && waker == old(waker)
      ensures old(waker).Some? ==> old(waker).value.Told(old(state) == 0)
    {
      var taken := Take();
      match taken
      case Some(w) => w.WakeByRef();
      case None =>
    }
  }
}
