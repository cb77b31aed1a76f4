// Tasks as programs.  The body of an async task is the list of what it still has
// to do; polling it runs it up to the first await that is not ready
// (src/lib.rs: CosyncInput, SleepForTick, Yield, FutureObject).
module Programs {
  import opened Wrappers

  // The parameter handed to `run`, of which nothing is assumed.
  type Param(!new)

  datatype Op =
    | Act(update: Param -> Param)  // code between awaits, through CosyncInput::get
    | Spawn(body: Body)            // CosyncInput::queue
    | Sleep(ticks: nat)            // sleep_ticks(n).await
    | Yield(yielded: bool)         // yield_now().await
    | Wake                         // cx.waker().wake_by_ref(), without suspending
    | Suspend(resumed: bool)       // one Pending that wakes nobody by itself

  type Body = seq<Op>

  // CosyncTaskId wraps a u64.
  const IDS: nat := 0x1_0000_0000_0000_0000

  // FutureObject: what is left of a task, and its id.
  datatype Entry = Entry(id: nat, body: Body)

  datatype Did = Did(id: nat, update: Param -> Param)

  // Everything a poll can reach.  `counter` of IncomingQueue is |born| modulo
  // 2^64.  `born` (the body of every task ever given an id), `polls` (every task
  // polled, as it was), `acts` (every update made) and `completed` are history.
  datatype Env = Env(
    param: Param,
    incoming: seq<Entry>,
    born: seq<Body>,
    polls: seq<Entry>,
    acts: seq<Did>,
    completed: nat)

  function IdOf(n: nat): nat {
    n % IDS
  }

  // The n-th id handed out is n, below 2^64, and after that they come again.
  lemma IdsAreIssueNumbers(n: nat)
    ensures n < 0x1_0000_0000_0000_0000 ==> IdOf(n) == n
    ensures IdOf(n) < 0x1_0000_0000_0000_0000 && IdOf(n + 0x1_0000_0000_0000_0000) == IdOf(n)
  {
  }

  // next_cosync_task_id and create_future_object.
  function NewEntry(env: Env, body: Body): Entry {
    Entry(IdOf(|env.born|), body)
  }

  // raw_queue: give the task an id and put it at the back of `incoming`.
  function Enqueue(env: Env, body: Body): Env {
    env.(incoming := env.incoming + [NewEntry(env, body)], born := env.born + [body])
  }

  function Did1(env: Env, id: nat, update: Param -> Param): Env {
    env.(param := update(env.param), acts := env.acts + [Did(id, update)])
  }

  // The outcome of a poll: what is left (None is `Ready`), and whether the task's
  // own waker was called.
  datatype Polled = Polled(rest: Option<Body>, env: Env, woken: bool)

  function PollBody(id: nat, b: Body, env: Env): Polled
    decreases |b|
  {
    if b == [] then Polled(None, env, false)
    else match b[0]
      case Act(update) => PollBody(id, b[1..], Did1(env, id, update))
      case Spawn(body) => PollBody(id, b[1..], Enqueue(env, body))
      case Sleep(ticks) =>
        if ticks == 0 then PollBody(id, b[1..], env) else Polled(Some([Sleep(ticks - 1)] + b[1..]), env, true)
      case Yield(yielded) =>
        if yielded then PollBody(id, b[1..], env) else Polled(Some([Yield(true)] + b[1..]), env, true)
      case Wake => PollBody(id, b[1..], env).(woken := true)
      case Suspend(resumed) =>
        if resumed then PollBody(id, b[1..], env) else Polled(Some([Suspend(true)] + b[1..]), env, false)
  }

  function Logged(env: Env, e: Entry): Env {
    env.(polls := env.polls + [e])
  }

  // One poll of a task.
  function PollEntry(e: Entry, env: Env): Polled {
    var r := PollBody(e.id, e.body, Logged(env, e));
    r.(env := if r.rest == None then r.env.(completed := r.env.completed + 1) else r.env)
  }

  // The waking contract: whenever a poll of b returns Pending, that poll has called
  // the task's own waker; likewise for every task it spawns.  `woken` says whether
  // the poll under way already has.
  predicate WakesItself(b: Body, woken: bool)
    decreases b
  {
    b == [] ||
    match b[0]
    case Act(_) => WakesItself(b[1..], woken)
    case Spawn(body) => WakesItself(body, false) && WakesItself(b[1..], woken)
    case Sleep(ticks) => WakesItself(b[1..], woken && ticks == 0)
    case Yield(yielded) => WakesItself(b[1..], woken && yielded)
    case Wake => WakesItself(b[1..], true)
    case Suspend(resumed) => (resumed || woken) && WakesItself(b[1..], woken && resumed)
  }

  predicate AllWake(es: seq<Entry>) {
    forall i :: 0 <= i < |es| ==> WakesItself(es[i].body, false)
  }

  // How many polls a task and everything it spawns can still need.
  function Weight(b: Body): nat
    decreases b
  {
    if b == [] then 1 else OpWeight(b[0]) + Weight(b[1..])
  }

  function OpWeight(op: Op): nat
    decreases op
  {
    match op
    case Act(_) => 0
    case Spawn(body) => Weight(body)
    case Sleep(ticks) => ticks
    case Yield(yielded) => if yielded then 0 else 1
    case Wake => 0
    case Suspend(resumed) => if resumed then 0 else 1
  }

  function TotalWeight(es: seq<Entry>): nat {
    if es == [] then 0 else Weight(es[0].body) + TotalWeight(es[1..])
  }

  lemma {:induction false} TotalWeightConcat(a: seq<Entry>, b: seq<Entry>)
    ensures TotalWeight(a + b) == TotalWeight(a) + TotalWeight(b)
  {
    if a == [] {
      assert a + b == b;
    } else {
      assert (a + b)[1..] == a[1..] + b;
      TotalWeightConcat(a[1..], b);
    }
  }

  // The updates a poll makes: those before the first await that is not ready.
  function FirstActs(id: nat, b: Body): seq<Did> {
    if b == [] then []
    else match b[0]
      case Act(update) => [Did(id, update)] + FirstActs(id, b[1..])
      case Spawn(_) => FirstActs(id, b[1..])
      case Wake => FirstActs(id, b[1..])
      case Sleep(ticks) => if ticks == 0 then FirstActs(id, b[1..]) else []
      case Yield(yielded) => if yielded then FirstActs(id, b[1..]) else []
      case Suspend(resumed) => if resumed then FirstActs(id, b[1..]) else []
  }

  function ApplyActs(acts: seq<Did>, p: Param): Param {
    if acts == [] then p else ApplyActs(acts[1..], acts[0].update(p))
  }

  // The entries of the tasks with issue numbers from..|born|.
  function Births(born: seq<Body>, from: nat): seq<Entry>
    requires from <= |born|
    decreases |born| - from
  {
    if from == |born| then [] else [Entry(IdOf(from), born[from])] + Births(born, from + 1)
  }

  // What a poll may do to the environment: spawn at the back of `incoming`, make
  // updates and nothing else.
  ghost predicate Extends(env: Env, env': Env) {
    && env.born <= env'.born
    && env'.incoming == env.incoming + Births(env'.born, |env.born|)
  }

  lemma {:induction false} BirthsSplit(born: seq<Body>, more: seq<Body>, from: nat)
    requires from <= |born|
    ensures Births(born + more, from) == Births(born, from) + Births(born + more, |born|)
    decreases |born| - from
  {
    var all := born + more;
    var tail := Births(all, |born|);
    if from < |born| {
      var e := Entry(IdOf(from), born[from]);
      assert all[from] == born[from];
      BirthsSplit(born, more, from + 1);
      calc {
        Births(all, from);
        [e] + Births(all, from + 1);
        [e] + (Births(born, from + 1) + tail);
        ([e] + Births(born, from + 1)) + tail;
        Births(born, from) + tail;
      }
    } else {
      assert Births(born, from) == [];
    }
  }

  lemma BirthsChain(a: seq<Body>, b: seq<Body>, c: seq<Body>)
    requires a <= b <= c
    ensures a <= c && Births(c, |a|) == Births(b, |a|) + Births(c, |b|)
  {
    assert c == b + c[|b|..];
    BirthsSplit(b, c[|b|..], |a|);
  }

  lemma ExtendsTransitive(a: Env, b: Env, c: Env)
    requires Extends(a, b) && Extends(b, c)
    ensures Extends(a, c)
  {
    BirthsChain(a.born, b.born, c.born);
  }

  lemma EnqueueExtends(env: Env, body: Body)
    ensures Extends(env, Enqueue(env, body))
  {
    var env' := Enqueue(env, body);
    assert Births(env'.born, |env'.born|) == [];
    assert Births(env'.born, |env.born|) == [Entry(IdOf(|env.born|), body)];
  }

  lemma {:induction false} PollBodyExtends(id: nat, b: Body, env: Env)
    ensures Extends(env, PollBody(id, b, env).env)
    decreases |b|
  {
    assert Births(env.born, |env.born|) == [];
    if b != [] {
      match b[0]
      case Act(update) =>
        PollBodyExtends(id, b[1..], Did1(env, id, update));
      case Spawn(body) =>
        EnqueueExtends(env, body);
        PollBodyExtends(id, b[1..], Enqueue(env, body));
        ExtendsTransitive(env, Enqueue(env, body), PollBody(id, b, env).env);
      case _ => PollBodyExtends(id, b[1..], env);
    }
  }

  // What one poll does to the history.
  lemma {:induction false} PollBodyHistory(id: nat, b: Body, env: Env)
    ensures var r := PollBody(id, b, env);
      && Extends(env, r.env)
      && r.env.acts == env.acts + FirstActs(id, b)
      && r.env.param == ApplyActs(FirstActs(id, b), env.param)
      && r.env.polls == env.polls
      && r.env.completed == env.completed
    decreases |b|
  {
    PollBodyExtends(id, b, env);
    if b != [] {
      match b[0]
      case Act(update) => PollBodyHistory(id, b[1..], Did1(env, id, update));
      case Spawn(body) => PollBodyHistory(id, b[1..], Enqueue(env, body));
      case _ => PollBodyHistory(id, b[1..], env);
    }
  }

  // A poll keeps the waking contract, for the task and for what it spawns.
  lemma {:induction false} PollKeepsContract(id: nat, b: Body, env: Env, woken: bool)
    requires WakesItself(b, woken) && AllWake(env.incoming)
    ensures var r := PollBody(id, b, env);
      && AllWake(r.env.incoming)
      && (r.rest.Some? ==> (woken || r.woken) && WakesItself(r.rest.value, false))
    decreases |b|
  {
    if b != [] {
      match b[0]
      case Act(update) => PollKeepsContract(id, b[1..], Did1(env, id, update), woken);
      case Spawn(body) => PollKeepsContract(id, b[1..], Enqueue(env, body), woken);
      case Wake => PollKeepsContract(id, b[1..], env, true);
      case Sleep(ticks) =>
        if ticks == 0 { PollKeepsContract(id, b[1..], env, woken); }
      case Yield(yielded) =>
        if yielded { PollKeepsContract(id, b[1..], env, woken); }
      case Suspend(resumed) =>
        if resumed { PollKeepsContract(id, b[1..], env, woken); }
    }
  }

  // A poll of this body calls its task's own waker.
  function CallsWaker(b: Body): bool {
    if b == [] then false
    else match b[0]
      case Act(_) => CallsWaker(b[1..])
      case Spawn(_) => CallsWaker(b[1..])
      case Sleep(ticks) => ticks > 0 || CallsWaker(b[1..])
      case Yield(yielded) => !yielded || CallsWaker(b[1..])
      case Wake => true
      case Suspend(resumed) => resumed && CallsWaker(b[1..])
  }

  lemma {:induction false} PollCalls(id: nat, b: Body, env: Env)
    ensures PollBody(id, b, env).woken == CallsWaker(b)
    decreases |b|
  {
    if b != [] {
      match b[0]
      case Act(update) => PollCalls(id, b[1..], Did1(env, id, update));
      case Spawn(body) => PollCalls(id, b[1..], Enqueue(env, body));
      case _ => PollCalls(id, b[1..], env);
    }
  }

  // How many of these polls have called their task's own waker.
  function Wakings(polls: seq<Entry>): nat {
    if polls == [] then 0
    else Wakings(polls[..|polls| - 1]) + (if CallsWaker(polls[|polls| - 1].body) then 1 else 0)
  }

  lemma {:induction false} WakingsConcat(a: seq<Entry>, b: seq<Entry>)
    ensures Wakings(a + b) == Wakings(a) + Wakings(b)
    decreases |b|
  {
    if b == [] {
      assert a + b == a;
    } else {
      var most := b[..|b| - 1];
      assert (a + b)[..|a + b| - 1] == a + most;
      WakingsConcat(a, most);
    }
  }

  // Every poll uses up some of the total weight, spawned tasks included.
  lemma {:induction false} PollUsesWeight(id: nat, b: Body, env: Env)
    ensures var r := PollBody(id, b, env);
      (if r.rest.Some? then Weight(r.rest.value) else 0) + TotalWeight(r.env.incoming)
        < Weight(b) + TotalWeight(env.incoming)
    decreases |b|
  {
    if b != [] {
      match b[0]
      case Act(update) => PollUsesWeight(id, b[1..], Did1(env, id, update));
      case Spawn(body) =>
        PollUsesWeight(id, b[1..], Enqueue(env, body));
        TotalWeightConcat(env.incoming, [NewEntry(env, body)]);
        assert TotalWeight([NewEntry(env, body)]) == Weight(body);
      case _ => PollUsesWeight(id, b[1..], env);
    }
  }

  // yield_now is sleep_ticks(1): one poll stops at either, with the same effects, and the
  // next one goes on behind it.
  lemma YieldIsOneTick(id: nat, rest: Body, env: Env, later: Env)
    ensures var y, t := PollBody(id, [Yield(false)] + rest, env), PollBody(id, [Sleep(1)] + rest, env);
      && y.env == t.env == env && y.woken && t.woken && y.rest.Some? && t.rest.Some?
      && PollBody(id, y.rest.value, later) == PollBody(id, rest, later) == PollBody(id, t.rest.value, later)
  {
    assert ([Yield(false)] + rest)[1..] == rest && ([Sleep(1)] + rest)[1..] == rest;
    assert ([Yield(true)] + rest)[1..] == rest && ([Sleep(0)] + rest)[1..] == rest;
  }
}
