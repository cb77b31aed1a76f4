// Whole histories of a `Cosync`: runs and blocking runs with whatever parameter,
// tasks queued from inside and outside, tasks taken back, stopped and cleared
// (src/lib.rs).
module History {
  import opened Wrappers
  import opened Programs
  import opened PollCycle
  import opened Scheduling

  // The scheduler with two tallies.
  datatype World = World(sched: Sched, unqueued: nat, cleared: nat)

  datatype Call =
    | Queue(body: Body)              // Cosync::queue
    | HandleQueue(body: Body)        // CosyncQueueHandle::queue
    | Unqueue(id: nat)               // unqueue_task
    | Stop(id: nat, index: nat)      // stop_running_task, finding the task at this place in the pool
    | ClearRunning
    | ClearQueue
    | Clear
    | RunWith(param: Param)          // run(&mut param)
    | RunBlockingWith(param: Param)  // run_blocking(&mut param)

  // The first place of an id in a list, or the list's length.
  function Position(es: seq<Entry>, id: nat): (i: nat)
    ensures i <= |es| && (i < |es| ==> es[i].id == id) && forall j :: 0 <= j < i ==> es[j].id != id
  {
    if es == [] || es[0].id == id then 0 else 1 + Position(es[1..], id)
  }

  ghost function QueueDirect(s: Sched, body: Body): Sched {
    s.(pool := s.pool + [NewEntry(s.env, body)], env := s.env.(born := s.env.born + [body]))
  }

  ghost function QueueByHandle(s: Sched, body: Body): Sched {
    s.(env := Enqueue(s.env, body))
  }

  ghost function PoolCleared(s: Sched): Sched {
    s.(pool := [])
  }

  ghost function QueueCleared(s: Sched): Sched {
    s.(env := Drained(s.env))
  }

  ghost function UnqueueTask(s: Sched, id: nat): (Sched, bool) {
    var i := Position(s.env.incoming, id);
    if i == |s.env.incoming| then (s, false)
    else (s.(env := s.env.(incoming := s.env.incoming[..i] + s.env.incoming[i + 1..])), true)
  }

  ghost function StopTask(s: Sched, id: nat, index: nat): Sched {
    if index < |s.pool| && s.pool[index].id == id then s.(pool := s.pool[index := Entry(id, [])]) else s
  }

  ghost function Given(s: Sched, p: Param): Sched {
    s.(env := s.env.(param := p))
  }

  ghost function Apply(w: World, c: Call): World {
    var s := w.sched;
    match c
    case Queue(body) => w.(sched := QueueDirect(s, body))
    case HandleQueue(body) => w.(sched := QueueByHandle(s, body))
    case Unqueue(id) =>
      var (s', ok) := UnqueueTask(s, id);
      World(s', if ok then w.unqueued + 1 else w.unqueued, w.cleared)
    case Stop(id, index) => w.(sched := StopTask(s, id, index))
    case ClearRunning => World(PoolCleared(s), w.unqueued, w.cleared + |s.pool|)
    case ClearQueue => World(QueueCleared(s), w.unqueued, w.cleared + |s.env.incoming|)
    case Clear => World(PoolCleared(QueueCleared(s)), w.unqueued, w.cleared + |Todo(s)|)
    case RunWith(p) => w.(sched := Run(Given(s, p)))
    case RunBlockingWith(p) => w.(sched := RunBlocking(Given(s, p)))
  }

  ghost function After(w: World, h: seq<Call>): World
    decreases |h|
  {
    if h == [] then w else After(Apply(w, h[0]), h[1..])
  }

  ghost function Fresh(p: Param): World {
    World(Sched([], Env(p, [], [], [], [], 0)), 0, 0)
  }

  // ----------------------------------------------------------- accounting

  ghost predicate Balanced(w: World) {
    |w.sched.env.born| == w.sched.env.completed + w.unqueued + w.cleared + |Todo(w.sched)|
  }

  lemma ApplyBalanced(w: World, c: Call)
    requires Balanced(w)
    ensures Balanced(Apply(w, c)) && w.sched.env.born <= Apply(w, c).sched.env.born
  {
    if c.RunWith? {
      ExactlyOncePerRun(Given(w.sched, c.param));
    } else if c.RunBlockingWith? {
      RunBlockingCompletes(Given(w.sched, c.param));
    }
  }

  // Every id ever issued is accounted for: over every history, ids issued =
  // tasks completed + taken back + cleared + still there (`Cosync::len`).
  lemma {:induction false} TasksAccountedFor(w: World, h: seq<Call>)
    requires Balanced(w)
    ensures Balanced(After(w, h)) && w.sched.env.born <= After(w, h).sched.env.born
    decreases |h|
  {
    if h != [] {
      ApplyBalanced(w, h[0]);
      TasksAccountedFor(Apply(w, h[0]), h[1..]);
    }
  }

  // --------------------------------------------------------- the parameter

  predicate Running(c: Call) {
    c.RunWith? || c.RunBlockingWith?
  }

  lemma {:induction false} BlockingParam(s: Sched)
    ensures var s' := RunBlocking(s);
      s.env.acts <= s'.env.acts && s'.env.param == ApplyActs(s'.env.acts[|s.env.acts|..], s.env.param)
    decreases TotalWeight(Todo(s))
  {
    RunBlockingStep(s);
    ExactlyOncePerRun(s);
    if Run(s).pool != [] {
      var made, s1, s' := ActsOf(PolledIn(s)), Run(s), RunBlocking(s);
      BlockingParam(s1);
      ApplyConcat(made, s'.env.acts[|s1.env.acts|..], s.env.param);
      assert s'.env.acts[|s.env.acts|..] == made + s'.env.acts[|s1.env.acts|..];
    }
  }

  lemma {:induction false} QuietActs(w: World, h: seq<Call>)
    requires forall i :: 0 <= i < |h| ==> !Running(h[i])
    ensures var env, env' := w.sched.env, After(w, h).sched.env; env'.param == env.param && env'.acts == env.acts
    decreases |h|
  {
    if h != [] {
      QuietActs(Apply(w, h[0]), h[1..]);
    }
  }

  // The parameter handed to a call of run or run_blocking has, until the next such call,
  // been changed by the updates of that call, one after another, and by nothing else.
  lemma ParamAfter(w: World, c: Call, h: seq<Call>)
    requires Running(c) && forall i :: 0 <= i < |h| ==> !Running(h[i])
    ensures var env, env' := w.sched.env, After(Apply(w, c), h).sched.env;
      && env.acts <= env'.acts
      && env'.param == ApplyActs(env'.acts[|env.acts|..], c.param)
  {
    ParamOfCall(w, c);
    QuietActs(Apply(w, c), h);
  }

  lemma ParamOfCall(w: World, c: Call)
    requires Running(c)
    ensures var env, env' := w.sched.env, Apply(w, c).sched.env;
      env.acts <= env'.acts && env'.param == ApplyActs(env'.acts[|env.acts|..], c.param)
  {
    if c.RunWith? {
      RunParam(Given(w.sched, c.param));
    } else {
      BlockingParam(Given(w.sched, c.param));
    }
  }

  lemma RunParam(s: Sched)
    ensures var s' := Run(s);
      s.env.acts <= s'.env.acts && s'.env.param == ApplyActs(s'.env.acts[|s.env.acts|..], s.env.param)
  {
    ExactlyOncePerRun(s);
    assert Run(s).env.acts[|s.env.acts|..] == ActsOf(PolledIn(s));
  }

  // ------------------------------------------------------------------ ids

  function IdCount(es: seq<Entry>, id: nat): nat {
    if es == [] then 0 else (if es[0].id == id then 1 else 0) + IdCount(es[1..], id)
  }

  lemma {:induction false} IdCountConcat(a: seq<Entry>, b: seq<Entry>, id: nat)
    ensures IdCount(a + b, id) == IdCount(a, id) + IdCount(b, id)
  {
    if a == [] {
      assert a + b == b;
    } else {
      assert (a + b)[1..] == a[1..] + b && (a + b)[0] == a[0];
      IdCountConcat(a[1..], b, id);
    }
  }

  lemma {:induction false} IdCountSurvivors(es: seq<Entry>, id: nat)
    ensures IdCount(Survivors(es), id) <= IdCount(es, id)
  {
    if es != [] {
      var s := Survivors(es);
      assert Rest(es[0].body).Some? ==> s[1..] == Survivors(es[1..]);
      assert Rest(es[0].body) == None ==> s == Survivors(es[1..]);
      IdCountSurvivors(es[1..], id);
    }
  }

  lemma IdCountRotate(es: seq<Entry>, id: nat)
    ensures IdCount(RotateLeft(es), id) == IdCount(es, id)
  {
    if es != [] {
      IdCountConcat(es[1..], [es[0]], id);
      assert [es[0]][1..] == [];
      assert IdCount([es[0]][1..], id) == 0;
    }
  }

  // While fewer than 2^64 ids have been issued, the n-th task has id n.
  lemma {:induction false} IdCountBirths(born: seq<Body>, from: nat, id: nat)
    requires from <= |born| <= IDS
    ensures IdCount(Births(born, from), id) == (if from <= id < |born| then 1 else 0)
    decreases |born| - from
  {
    if from < |born| {
      var bs := Births(born, from);
      assert bs[1..] == Births(born, from + 1);
      IdCountBirths(born, from + 1, id);
    }
  }

  lemma {:induction false} IdCountCycle(carried: seq<Entry>, batch: seq<Entry>, env: Env, id: nat)
    requires env.incoming == []
    ensures var s := Cycle(carried, batch, env);
      && env.born <= s.env.born
      && IdCount(s.pool, id) <= IdCount(carried, id) + IdCount(batch, id) + IdCount(Births(s.env.born, |env.born|), id)
    decreases TotalWeight(batch)
  {
    var r := PollAll(batch, env);
    PollAllSpawns(batch, env);
    PollAllKeepsSurvivors(batch, env);
    IdCountSurvivors(batch, id);
    IdCountConcat(carried, r.kept, id);
    IdCountRotate(carried + r.kept, id);
    if r.env.incoming != [] {
      var pool := RotateLeft(carried + r.kept);
      PollAllUsesWeight(batch, env);
      NoTasksNoSpawns(batch, env);
      IdCountCycle(pool, r.env.incoming, Drained(r.env), id);
      var s := Cycle(pool, r.env.incoming, Drained(r.env));
      BirthsChain(env.born, r.env.born, s.env.born);
      IdCountConcat(r.env.incoming, Births(s.env.born, |r.env.born|), id);
    }
  }

  // Live ids are distinct, and were issued.
  ghost predicate IdsDistinct(s: Sched) {
    forall id: nat :: IdCount(Todo(s), id) <= (if id < |s.env.born| then 1 else 0)
  }

  lemma IdCountRemove(es: seq<Entry>, i: nat, id: nat)
    requires i < |es|
    ensures IdCount(es[..i] + es[i + 1..], id) == IdCount(es, id) - (if es[i].id == id then 1 else 0)
    ensures es[i].id == id ==> IdCount(es, id) > 0
  {
    assert es == es[..i] + ([es[i]] + es[i + 1..]);
    IdCountConcat(es[..i], [es[i]] + es[i + 1..], id);
    IdCountConcat(es[..i], es[i + 1..], id);
    assert ([es[i]] + es[i + 1..])[1..] == es[i + 1..];
  }

  lemma IdCountReplace(es: seq<Entry>, i: nat, e: Entry, id: nat)
    requires i < |es| && es[i].id == e.id
    ensures IdCount(es[i := e], id) == IdCount(es, id)
  {
    var es' := es[i := e];
    assert es'[..i] == es[..i] && es'[i + 1..] == es[i + 1..];
    IdCountRemove(es, i, id);
    IdCountRemove(es', i, id);
  }

  lemma RunIdCount(s: Sched, id: nat)
    requires |Run(s).env.born| <= IDS && s.env.born <= Run(s).env.born
    ensures var s' := Run(s);
      IdCount(Todo(s'), id) <= IdCount(Todo(s), id) + (if |s.env.born| <= id < |s'.env.born| then 1 else 0)
  {
    var s' := Run(s);
    CycleExactly([], Todo(s), Drained(s.env));
    IdCountCycle([], Todo(s), Drained(s.env), id);
    IdCountBirths(s'.env.born, |s.env.born|, id);
    assert Todo(s') == s'.pool;
  }

  // How a call changes the count of one id.
  lemma ApplyIdCount(w: World, c: Call, id: nat)
    requires |Apply(w, c).sched.env.born| <= IDS && w.sched.env.born <= Apply(w, c).sched.env.born
    ensures var s, s' := w.sched, Apply(w, c).sched;
      IdCount(Todo(s'), id) <= IdCount(Todo(s), id) + (if |s.env.born| <= id < |s'.env.born| then 1 else 0)
  {
    if c.RunWith? {
      RunIdCount(Given(w.sched, c.param), id);
    } else if c.RunBlockingWith? {
      RunBlockingCompletes(Given(w.sched, c.param));
    } else {
      CallIdCount(w, c, id);
    }
  }

  lemma NewIdCount(es: seq<Entry>, env: Env, body: Body, id: nat)
    requires |env.born| < IDS
    ensures IdCount(es + [NewEntry(env, body)], id) == IdCount(es, id) + (if id == |env.born| then 1 else 0)
  {
    var e := NewEntry(env, body);
    assert e.id == |env.born|;
    IdCountConcat(es, [e], id);
    assert IdCount([e][1..], id) == 0;
  }

  lemma CallIdCount(w: World, c: Call, id: nat)
    requires !c.RunWith? && !c.RunBlockingWith? && |Apply(w, c).sched.env.born| <= IDS
    ensures var s, s' := w.sched, Apply(w, c).sched;
      IdCount(Todo(s'), id) <= IdCount(Todo(s), id) + (if |s.env.born| <= id < |s'.env.born| then 1 else 0)
  {
    var s, s' := w.sched, Apply(w, c).sched;
    IdCountConcat(s.pool, s.env.incoming, id);
    IdCountConcat(s'.pool, s'.env.incoming, id);
    if c.Queue? {
      NewIdCount(s.pool, s.env, c.body, id);
    } else if c.HandleQueue? {
      NewIdCount(s.env.incoming, s.env, c.body, id);
    } else if c.Unqueue? {
      var i := Position(s.env.incoming, c.id);
      if i < |s.env.incoming| {
        IdCountRemove(s.env.incoming, i, id);
      }
    } else if c.Stop? {
      if c.index < |s.pool| && s.pool[c.index].id == c.id {
        IdCountReplace(s.pool, c.index, Entry(c.id, []), id);
      }
    }
  }

  lemma ApplyIdsDistinct(w: World, c: Call)
    requires Balanced(w) && IdsDistinct(w.sched) && |Apply(w, c).sched.env.born| <= IDS
    ensures IdsDistinct(Apply(w, c).sched)
  {
    ApplyBalanced(w, c);
    var s' := Apply(w, c).sched;
    forall id: nat ensures IdCount(Todo(s'), id) <= (if id < |s'.env.born| then 1 else 0) {
      ApplyIdCount(w, c, id);
    }
  }

  // Live ids stay distinct over every history in which at most 2^64 are issued.
  lemma {:induction false} IdsStayDistinct(w: World, h: seq<Call>)
    requires Balanced(w) && IdsDistinct(w.sched) && |After(w, h).sched.env.born| <= IDS
    ensures IdsDistinct(After(w, h).sched)
    decreases |h|
  {
    if h != [] {
      ApplyBalanced(w, h[0]);
      TasksAccountedFor(Apply(w, h[0]), h[1..]);
      ApplyIdsDistinct(w, h[0]);
      IdsStayDistinct(Apply(w, h[0]), h[1..]);
    }
  }

  // ------------------------------------------------------ polls of one task

  // The polls of one task, in order.
  function PollsBy(polls: seq<Entry>, id: nat): seq<Entry> {
    if polls == [] then [] else (if polls[0].id == id then [polls[0]] else []) + PollsBy(polls[1..], id)
  }

  function ActsBy(acts: seq<Did>, id: nat): seq<Did> {
    if acts == [] then [] else (if acts[0].id == id then [acts[0]] else []) + ActsBy(acts[1..], id)
  }

  lemma {:induction false} PollsByConcat(a: seq<Entry>, b: seq<Entry>, id: nat)
    ensures PollsBy(a + b, id) == PollsBy(a, id) + PollsBy(b, id)
  {
    if a == [] {
      assert a + b == b;
    } else {
      assert (a + b)[1..] == a[1..] + b && (a + b)[0] == a[0];
      PollsByConcat(a[1..], b, id);
      Associative(if a[0].id == id then [a[0]] else [], PollsBy(a[1..], id), PollsBy(b, id));
    }
  }

  lemma {:induction false} ActsByConcat(a: seq<Did>, b: seq<Did>, id: nat)
    ensures ActsBy(a + b, id) == ActsBy(a, id) + ActsBy(b, id)
  {
    if a == [] {
      assert a + b == b;
    } else {
      assert (a + b)[1..] == a[1..] + b && (a + b)[0] == a[0];
      ActsByConcat(a[1..], b, id);
      Associative(if a[0].id == id then [a[0]] else [], ActsBy(a[1..], id), ActsBy(b, id));
    }
  }

  lemma {:induction false} FirstActsBy(owner: nat, b: Body, id: nat)
    ensures ActsBy(FirstActs(owner, b), id) == (if owner == id then FirstActs(owner, b) else [])
    decreases |b|
  {
    if b != [] {
      FirstActsBy(owner, b[1..], id);
      if b[0].Act? {
        var all := FirstActs(owner, b);
        assert all[1..] == FirstActs(owner, b[1..]);
      }
    }
  }

  // A task's updates are those of its own polls.
  lemma {:induction false} ActsByPolls(polls: seq<Entry>, id: nat)
    ensures ActsBy(ActsOf(polls), id) == ActsOf(PollsBy(polls, id))
  {
    if polls != [] {
      var e := polls[0];
      ActsByConcat(FirstActs(e.id, e.body), ActsOf(polls[1..]), id);
      FirstActsBy(e.id, e.body, id);
      ActsByPolls(polls[1..], id);
      var mine, rest := PollsBy(polls, id), PollsBy(polls[1..], id);
      if e.id == id {
        assert mine[0] == e && mine[1..] == rest;
      } else {
        assert mine == rest;
      }
    }
  }

  lemma {:induction false} PollsByCount(es: seq<Entry>, id: nat)
    ensures |PollsBy(es, id)| == IdCount(es, id)
    ensures forall e :: e in es && e.id == id ==> e in PollsBy(es, id)
  {
    if es != [] {
      PollsByCount(es[1..], id);
    }
  }

  // Everything a run polls.
  ghost function PolledIn(s: Sched): seq<Entry> {
    ExactlyOncePerRun(s);
    Todo(s) + Births(Run(s).env.born, |s.env.born|)
  }

  // The polls of one task in one run.
  lemma RunPollsBy(s: Sched, id: nat)
    ensures var s' := Run(s);
      && s.env.born <= s'.env.born && |s.env.polls| <= |s'.env.polls|
      && PollsBy(s'.env.polls, id) == PollsBy(s.env.polls, id) + PollsBy(PolledIn(s), id)
      && ActsBy(s'.env.acts, id) == ActsBy(s.env.acts, id) + ActsOf(PollsBy(PolledIn(s), id))
  {
    ExactlyOncePerRun(s);
    var polls := PolledIn(s);
    PollsByConcat(s.env.polls, polls, id);
    ActsByConcat(s.env.acts, ActsOf(polls), id);
    ActsByPolls(polls, id);
  }

  // A task that was there before the run is polled only as what it was.
  lemma OldPollsBy(s: Sched, id: nat)
    requires |Run(s).env.born| <= IDS && id < |s.env.born|
    ensures PollsBy(PolledIn(s), id) == PollsBy(Todo(s), id)
  {
    ExactlyOncePerRun(s);
    var births := Births(Run(s).env.born, |s.env.born|);
    PollsByConcat(Todo(s), births, id);
    IdCountBirths(Run(s).env.born, |s.env.born|, id);
    PollsByCount(births, id);
  }

  // --------------------------------------------------------- taking back

  lemma UnqueueRemoves(s: Sched, id: nat)
    requires IdsDistinct(s) && UnqueueTask(s, id).1
    ensures IdCount(Todo(UnqueueTask(s, id).0), id) == 0 && id < |s.env.born|
  {
    var s', i := UnqueueTask(s, id).0, Position(s.env.incoming, id);
    IdCountConcat(s.pool, s.env.incoming, id);
    IdCountConcat(s'.pool, s'.env.incoming, id);
    IdCountRemove(s.env.incoming, i, id);
    assert IdCount(Todo(s), id) <= (if id < |s.env.born| then 1 else 0);
  }

  lemma RunGone(s: Sched, id: nat)
    requires IdCount(Todo(s), id) == 0 && id < |s.env.born| && |Run(s).env.born| <= IDS
    ensures s.env.born <= Run(s).env.born && IdCount(Todo(Run(s)), id) == 0
    ensures PollsBy(Run(s).env.polls, id) == PollsBy(s.env.polls, id)
  {
    RunPollsBy(s, id);
    OldPollsBy(s, id);
    PollsByCount(Todo(s), id);
    RunIdCount(s, id);
  }

  lemma {:induction false} BlockingGone(s: Sched, id: nat)
    requires IdCount(Todo(s), id) == 0 && id < |s.env.born| && |RunBlocking(s).env.born| <= IDS
    ensures PollsBy(RunBlocking(s).env.polls, id) == PollsBy(s.env.polls, id)
    decreases TotalWeight(Todo(s))
  {
    RunBlockingStep(s);
    RunBlockingCompletes(Run(s));
    if Run(s).pool == [] {
      RunGone(s, id);
    } else {
      RunGone(s, id);
      BlockingGone(Run(s), id);
    }
  }

  lemma ApplyGone(w: World, c: Call, id: nat)
    requires Balanced(w) && IdCount(Todo(w.sched), id) == 0 && id < |w.sched.env.born|
    requires |Apply(w, c).sched.env.born| <= IDS
    ensures IdCount(Todo(Apply(w, c).sched), id) == 0
    ensures PollsBy(Apply(w, c).sched.env.polls, id) == PollsBy(w.sched.env.polls, id)
  {
    ApplyBalanced(w, c);
    ApplyIdCount(w, c, id);
    if c.RunWith? {
      RunGone(Given(w.sched, c.param), id);
    } else if c.RunBlockingWith? {
      BlockingGone(Given(w.sched, c.param), id);
    }
  }

  lemma {:induction false} GoneStaysGone(w: World, h: seq<Call>, id: nat)
    requires Balanced(w) && IdCount(Todo(w.sched), id) == 0 && id < |w.sched.env.born|
    requires |After(w, h).sched.env.born| <= IDS
    ensures PollsBy(After(w, h).sched.env.polls, id) == PollsBy(w.sched.env.polls, id)
    decreases |h|
  {
    if h != [] {
      ApplyBalanced(w, h[0]);
      TasksAccountedFor(Apply(w, h[0]), h[1..]);
      ApplyGone(w, h[0], id);
      GoneStaysGone(Apply(w, h[0]), h[1..], id);
    }
  }

  // A task that unqueue_task took back is never polled, whatever happens later.
  lemma UnqueuedNeverPolled(w: World, id: nat, h: seq<Call>)
    requires Balanced(w) && IdsDistinct(w.sched) && UnqueueTask(w.sched, id).1
    requires |After(Apply(w, Unqueue(id)), h).sched.env.born| <= IDS
    ensures PollsBy(After(Apply(w, Unqueue(id)), h).sched.env.polls, id) == PollsBy(w.sched.env.polls, id)
  {
    ApplyBalanced(w, Unqueue(id));
    UnqueueRemoves(w.sched, id);
    GoneStaysGone(Apply(w, Unqueue(id)), h, id);
  }

  // --------------------------------------------------------------- stopping

  // Whatever goes by this id has at most n operations left.
  ghost predicate Shorter(es: seq<Entry>, id: nat, n: nat) {
    forall e :: e in es && e.id == id ==> |e.body| <= n
  }

  // ... or none at all.
  ghost predicate Hollow(es: seq<Entry>, id: nat) {
    Shorter(es, id, 0)
  }

  lemma {:induction false} SurvivorsFrom(es: seq<Entry>, e: Entry)
    ensures e in Survivors(es) <==> exists f :: f in es && f.id == e.id && Rest(f.body) == Some(e.body)
  {
    if es != [] {
      SurvivorsFrom(es[1..], e);
      var s := Survivors(es);
      if e in Survivors(es[1..]) {
        assert e in s;
      }
    }
  }

  lemma {:induction false} RestShorter(b: Body)
    ensures Rest(b).Some? ==> |Rest(b).value| <= |b|
  {
    if b != [] {
      RestShorter(b[1..]);
    }
  }

  // A run makes no task longer.
  lemma RunShorter(s: Sched, id: nat, n: nat)
    requires Shorter(Todo(s), id, n) && id < |s.env.born| && |Run(s).env.born| <= IDS
    ensures s.env.born <= Run(s).env.born && Shorter(Todo(Run(s)), id, n)
  {
    PoolAfterRun(s);
    ExactlyOncePerRun(s);
    var s' := Run(s);
    var births := Births(s'.env.born, |s.env.born|);
    IdCountBirths(s'.env.born, |s.env.born|, id);
    CountZero(births, id);
    forall e | e in Todo(s') && e.id == id ensures |e.body| <= n {
      assert e in multiset(s'.pool);
      assert e in Survivors(Todo(s) + births);
      SurvivorsFrom(Todo(s) + births, e);
      var f :| f in Todo(s) + births && f.id == e.id && Rest(f.body) == Some(e.body);
      assert f in Todo(s);
      RestShorter(f.body);
    }
  }

  // Between two moments a task was polled only with nothing left to do.
  ghost predicate OnlyHollowPolls(from: Sched, to: Sched, id: nat) {
    var before, after := PollsBy(from.env.polls, id), PollsBy(to.env.polls, id);
    before <= after && Hollow(after[|before|..], id)
  }

  lemma OnlyHollowTransitive(a: Sched, b: Sched, c: Sched, id: nat)
    requires OnlyHollowPolls(a, b, id) && OnlyHollowPolls(b, c, id)
    ensures OnlyHollowPolls(a, c, id)
  {
    var pa, pb, pc := PollsBy(a.env.polls, id), PollsBy(b.env.polls, id), PollsBy(c.env.polls, id);
    assert pc[|pa|..] == pb[|pa|..] + pc[|pb|..];
  }

  lemma RunHollowPolls(s: Sched, id: nat)
    requires Hollow(Todo(s), id) && id < |s.env.born| && |Run(s).env.born| <= IDS
    ensures OnlyHollowPolls(s, Run(s), id)
  {
    RunPollsBy(s, id);
    OldPollsBy(s, id);
    PollsByMembers(Todo(s), id);
    var before, after := PollsBy(s.env.polls, id), PollsBy(Run(s).env.polls, id);
    assert after[|before|..] == PollsBy(Todo(s), id);
  }

  lemma {:induction false} BlockingHollowPolls(s: Sched, id: nat)
    requires Hollow(Todo(s), id) && id < |s.env.born| && |RunBlocking(s).env.born| <= IDS
    ensures OnlyHollowPolls(s, RunBlocking(s), id)
    decreases TotalWeight(Todo(s))
  {
    RunBlockingStep(s);
    RunBlockingCompletes(Run(s));
    RunHollowPolls(s, id);
    if Run(s).pool != [] {
      RunShorter(s, id, 0);
      BlockingHollowPolls(Run(s), id);
      OnlyHollowTransitive(s, Run(s), RunBlocking(s), id);
    }
  }

  // No call makes a task longer.
  lemma ApplyShorter(w: World, c: Call, id: nat, n: nat)
    requires Shorter(Todo(w.sched), id, n) && id < |w.sched.env.born|
    requires |Apply(w, c).sched.env.born| <= IDS
    ensures Shorter(Todo(Apply(w, c).sched), id, n)
  {
    if c.RunWith? {
      RunShorter(Given(w.sched, c.param), id, n);
    } else if c.RunBlockingWith? {
      RunBlockingCompletes(Given(w.sched, c.param));
    }
  }

  lemma ApplyHollow(w: World, c: Call, id: nat)
    requires Hollow(Todo(w.sched), id) && id < |w.sched.env.born|
    requires |Apply(w, c).sched.env.born| <= IDS
    ensures OnlyHollowPolls(w.sched, Apply(w, c).sched, id)
  {
    if c.RunWith? {
      RunHollowPolls(Given(w.sched, c.param), id);
    } else if c.RunBlockingWith? {
      BlockingHollowPolls(Given(w.sched, c.param), id);
    }
  }

  lemma {:induction false} PollsByMembers(es: seq<Entry>, id: nat)
    ensures forall e :: e in PollsBy(es, id) ==> e in es
  {
    if es != [] {
      PollsByMembers(es[1..], id);
    }
  }

  lemma {:induction false} HollowStaysHollow(w: World, h: seq<Call>, id: nat)
    requires Balanced(w) && Hollow(Todo(w.sched), id) && id < |w.sched.env.born|
    requires |After(w, h).sched.env.born| <= IDS
    ensures OnlyHollowPolls(w.sched, After(w, h).sched, id)
    decreases |h|
  {
    if h != [] {
      var w1 := Apply(w, h[0]);
      ApplyBalanced(w, h[0]);
      TasksAccountedFor(w1, h[1..]);
      ApplyShorter(w, h[0], id, 0);
      ApplyHollow(w, h[0], id);
      HollowStaysHollow(w1, h[1..], id);
      OnlyHollowTransitive(w.sched, w1.sched, After(w, h).sched, id);
    }
  }

  // A stopped task's body is never polled again: every later poll by its id is of
  // the empty body put in its place.  The other tasks keep place and body.
  lemma StoppedNeverPolled(w: World, id: nat, index: nat, h: seq<Call>)
    requires Balanced(w) && IdsDistinct(w.sched) && index < |w.sched.pool| && w.sched.pool[index].id == id
    requires |After(Apply(w, Stop(id, index)), h).sched.env.born| <= IDS
    ensures var w1 := Apply(w, Stop(id, index));
      && w1.sched == w.sched.(pool := w1.sched.pool) && |w1.sched.pool| == |w.sched.pool|
      && (forall i :: 0 <= i < |w.sched.pool| && i != index ==> w1.sched.pool[i] == w.sched.pool[i])
      && OnlyHollowPolls(w.sched, After(w1, h).sched, id)
  {
    var w1 := Apply(w, Stop(id, index));
    ApplyBalanced(w, Stop(id, index));
    OnlyOne(w.sched, id, index);
    HollowStaysHollow(w1, h, id);
  }

  lemma CountZero(es: seq<Entry>, id: nat)
    requires IdCount(es, id) == 0
    ensures forall e :: e in es ==> e.id != id
  {
    PollsByCount(es, id);
  }

  lemma OnlyOne(s: Sched, id: nat, index: nat)
    requires IdsDistinct(s) && index < |s.pool| && s.pool[index].id == id
    ensures Hollow(Todo(StopTask(s, id, index)), id) && id < |s.env.born|
  {
    var rest := s.pool[..index] + s.pool[index + 1..];
    IdCountConcat(s.pool, s.env.incoming, id);
    IdCountRemove(s.pool, index, id);
    assert IdCount(Todo(s), id) <= (if id < |s.env.born| then 1 else 0);
    CountZero(rest, id);
    CountZero(s.env.incoming, id);
    forall i | 0 <= i < |s.pool| && i != index ensures s.pool[i].id != id {
      assert rest[if i < index then i else i - 1] == s.pool[i];
    }
  }

  // ------------------------------------------------------------ sleep timing

  // The call does not take away, stop or clear this task.
  predicate Spares(c: Call, id: nat) {
    match c
    case Unqueue(t) => t != id
    case Stop(t, _) => t != id
    case ClearRunning => false
    case ClearQueue => false
    case Clear => false
    case _ => true
  }

  predicate SparesAll(h: seq<Call>, id: nat) {
    forall i :: 0 <= i < |h| ==> Spares(h[i], id)
  }

  predicate NoBlocking(h: seq<Call>) {
    forall i :: 0 <= i < |h| ==> !h[i].RunBlockingWith?
  }

  function Runs(h: seq<Call>): nat {
    if h == [] then 0 else (if h[0].RunWith? then 1 else 0) + Runs(h[1..])
  }

  lemma FirstCall(h: seq<Call>, id: nat)
    requires h != []
    ensures SparesAll(h, id) <==> Spares(h[0], id) && SparesAll(h[1..], id)
    ensures NoBlocking(h) <==> !h[0].RunBlockingWith? && NoBlocking(h[1..])
  {
    assert forall i :: 1 <= i < |h| ==> h[i] == h[1..][i - 1];
  }

  // While ids are distinct, a task is polled once in a run.
  lemma OnePollInRun(s: Sched, e: Entry)
    requires IdsDistinct(s) && e in PolledIn(s) && |Run(s).env.born| <= IDS
    ensures PollsBy(PolledIn(s), e.id) == [e]
  {
    PolledIdCount(s, e.id);
    PollsByCount(PolledIn(s), e.id);
  }

  lemma PolledIdCount(s: Sched, id: nat)
    requires IdsDistinct(s) && |Run(s).env.born| <= IDS
    ensures IdCount(PolledIn(s), id) <= 1
  {
    ExactlyOncePerRun(s);
    var births := Births(Run(s).env.born, |s.env.born|);
    IdCountConcat(Todo(s), births, id);
    IdCountBirths(Run(s).env.born, |s.env.born|, id);
    assert IdCount(Todo(s), id) <= (if id < |s.env.born| then 1 else 0);
  }

  // One run, for one of the tasks it polls: its updates, and what is left of it.
  lemma RunOneTask(s: Sched, e: Entry)
    requires IdsDistinct(s) && e in PolledIn(s) && |Run(s).env.born| <= IDS
    ensures var s' := Run(s);
      && s.env.born <= s'.env.born
      && ActsBy(s'.env.acts, e.id) == ActsBy(s.env.acts, e.id) + FirstActs(e.id, e.body)
      && (Rest(e.body).Some? ==> Entry(e.id, Rest(e.body).value) in Todo(s'))
  {
    OnePollInRun(s, e);
    RunPollsBy(s, e.id);
    assert ActsOf([e]) == FirstActs(e.id, e.body) by {
      assert [e][1..] == [];
      assert ActsOf([e][1..]) == [];
    }
    if Rest(e.body).Some? {
      PoolAfterRun(s);
      var left := Entry(e.id, Rest(e.body).value);
      SurvivorsFrom(PolledIn(s), left);
      assert left in multiset(Survivors(PolledIn(s)));
      assert left in multiset(Run(s).pool);
    }
  }

  lemma ApplyKeepsTask(w: World, c: Call, e: Entry)
    requires e in Todo(w.sched) && Spares(c, e.id) && !c.RunWith? && !c.RunBlockingWith?
    ensures e in Todo(Apply(w, c).sched) && Apply(w, c).sched.env.acts == w.sched.env.acts
  {
    var s, s' := w.sched, Apply(w, c).sched;
    if c.Unqueue? && Position(s.env.incoming, c.id) < |s.env.incoming| && e in s.env.incoming {
      var i := Position(s.env.incoming, c.id);
      var k := IndexOfEntry(s.env.incoming, e);
      assert s'.env.incoming[if k < i then k else k - 1] == e;
    } else if c.Stop? && e in s.pool {
      var k := IndexOfEntry(s.pool, e);
      assert s'.pool[k] == e;
    } else if c.Queue? && e in s.env.incoming {
      assert e in s'.env.incoming;
    }
  }

  lemma IndexOfEntry(es: seq<Entry>, e: Entry) returns (k: nat)
    requires e in es
    ensures k < |es| && es[k] == e
  {
    k :| 0 <= k < |es| && es[k] == e;
  }

  // One run takes one tick off.
  lemma OneTick(s: Sched, id: nat, left: nat, rest: Body)
    requires IdsDistinct(s) && Entry(id, [Sleep(left)] + rest) in Todo(s) && left > 0 && |Run(s).env.born| <= IDS
    ensures Entry(id, [Sleep(left - 1)] + rest) in Todo(Run(s)) && ActsBy(Run(s).env.acts, id) == ActsBy(s.env.acts, id)
  {
    var e := Entry(id, [Sleep(left)] + rest);
    RunOneTask(s, e);
    SleepFirst(id, left, rest);
    assert ActsBy(s.env.acts, id) + [] == ActsBy(s.env.acts, id);
  }

  // What the next poll of a body that begins with a sleep does.
  lemma SleepFirst(id: nat, n: nat, rest: Body)
    ensures var b := [Sleep(n)] + rest;
      && Rest(b) == (if n == 0 then Rest(rest) else Some([Sleep(n - 1)] + rest))
      && FirstActs(id, b) == (if n == 0 then FirstActs(id, rest) else [])
  {
    var b := [Sleep(n)] + rest;
    assert b[0] == Sleep(n) && b[1..] == rest;
  }

  // One call that spares the task takes a tick off if it is a run.
  lemma SleepsOn(w: World, c: Call, id: nat, left: nat, rest: Body)
    requires Balanced(w) && IdsDistinct(w.sched) && Entry(id, [Sleep(left)] + rest) in Todo(w.sched)
    requires Spares(c, id) && !c.RunBlockingWith? && !(c.RunWith? && left == 0)
    requires |Apply(w, c).sched.env.born| <= IDS
    ensures var w1 := Apply(w, c);
      && IdsDistinct(w1.sched)
      && Entry(id, [Sleep(if c.RunWith? then left - 1 else left)] + rest) in Todo(w1.sched)
      && ActsBy(w1.sched.env.acts, id) == ActsBy(w.sched.env.acts, id)
  {
    ApplyIdsDistinct(w, c);
    if c.RunWith? {
      OneTick(Given(w.sched, c.param), id, left, rest);
    } else {
      ApplyKeepsTask(w, c, Entry(id, [Sleep(left)] + rest));
    }
  }

  // A sleeping task sleeps: with `left` ticks to go, the next `left` runs, with
  // whatever else is queued, spawned, stopped or run meanwhile, each count one
  // tick off and make none of its updates.
  lemma {:induction false} SleepCountsDown(w: World, h: seq<Call>, id: nat, left: nat, rest: Body)
    requires Balanced(w) && IdsDistinct(w.sched) && Entry(id, [Sleep(left)] + rest) in Todo(w.sched)
    requires SparesAll(h, id) && NoBlocking(h) && Runs(h) <= left && |After(w, h).sched.env.born| <= IDS
    ensures Entry(id, [Sleep(left - Runs(h))] + rest) in Todo(After(w, h).sched)
    ensures ActsBy(After(w, h).sched.env.acts, id) == ActsBy(w.sched.env.acts, id)
    decreases |h|
  {
    if h != [] {
      var c, w1 := h[0], Apply(w, h[0]);
      FirstCall(h, id);
      ApplyBalanced(w, c);
      TasksAccountedFor(w1, h[1..]);
      SleepsOn(w, c, id, left, rest);
      SleepCountsDown(w1, h[1..], id, if c.RunWith? then left - 1 else left, rest);
    }
  }

  lemma {:induction false} StaysShorter(w: World, h: seq<Call>, id: nat, n: nat)
    requires Balanced(w) && Shorter(Todo(w.sched), id, n) && id < |w.sched.env.born|
    requires |After(w, h).sched.env.born| <= IDS
    ensures Shorter(Todo(After(w, h).sched), id, n)
    decreases |h|
  {
    if h != [] {
      ApplyBalanced(w, h[0]);
      TasksAccountedFor(Apply(w, h[0]), h[1..]);
      ApplyShorter(w, h[0], id, n);
      StaysShorter(Apply(w, h[0]), h[1..], id, n);
    }
  }

  // The run after the last tick makes the updates behind the sleep ...
  lemma LastTickActs(s: Sched, id: nat, rest: Body)
    requires IdsDistinct(s) && Entry(id, [Sleep(0)] + rest) in Todo(s) && |Run(s).env.born| <= IDS
    ensures ActsBy(Run(s).env.acts, id) == ActsBy(s.env.acts, id) + FirstActs(id, rest)
  {
    var e := Entry(id, [Sleep(0)] + rest);
    RunOneTask(s, e);
    SleepFirst(id, 0, rest);
  }

  // ... and leaves at most what is behind it.
  lemma LastTick(s: Sched, id: nat, rest: Body)
    requires IdsDistinct(s) && Entry(id, [Sleep(0)] + rest) in Todo(s) && |Run(s).env.born| <= IDS
    ensures id < |s.env.born| <= |Run(s).env.born| && Shorter(Todo(Run(s)), id, |rest|)
  {
    var e := Entry(id, [Sleep(0)] + rest);
    PoolAfterRun(s);
    ExactlyOncePerRun(s);
    LiveIdIsIssued(s, e);
    SleepFirst(id, 0, rest);
    RestShorter(rest);
    forall f | f in Todo(Run(s)) && f.id == id ensures |f.body| <= |rest| {
      assert f in multiset(Run(s).pool);
      LeftOfOnePoll(s, e, f);
    }
  }

  // What is left of a task after a run is what its one poll left.
  lemma LeftOfOnePoll(s: Sched, e: Entry, f: Entry)
    requires IdsDistinct(s) && e in PolledIn(s) && |Run(s).env.born| <= IDS
    requires f in multiset(Survivors(PolledIn(s))) && f.id == e.id
    ensures Rest(e.body) == Some(f.body)
  {
    OnePollInRun(s, e);
    SurvivorsFrom(PolledIn(s), f);
    var g :| g in PolledIn(s) && g.id == e.id && Rest(g.body) == Some(f.body);
    PollsByCount(PolledIn(s), e.id);
    assert g in PollsBy(PolledIn(s), e.id);
  }

  lemma LiveIdIsIssued(s: Sched, e: Entry)
    requires IdsDistinct(s) && e in Todo(s)
    ensures e.id < |s.env.born|
  {
    PollsByCount(Todo(s), e.id);
    assert e in PollsBy(Todo(s), e.id);
    assert IdCount(Todo(s), e.id) <= (if e.id < |s.env.born| then 1 else 0);
  }

  lemma {:induction false} SleepEnds(w: World, h: seq<Call>, id: nat, left: nat, rest: Body)
    requires Balanced(w) && IdsDistinct(w.sched) && Entry(id, [Sleep(left)] + rest) in Todo(w.sched)
    requires SparesAll(h, id) && !(NoBlocking(h) && Runs(h) <= left) && |After(w, h).sched.env.born| <= IDS
    ensures Shorter(Todo(After(w, h).sched), id, |rest|)
    decreases |h|
  {
    var c, w1 := h[0], Apply(w, h[0]);
    FirstCall(h, id);
    ApplyBalanced(w, c);
    TasksAccountedFor(w1, h[1..]);
    if c.RunBlockingWith? || (c.RunWith? && left == 0) {
      SleepEndsIn(w, c, id, left, rest);
      StaysShorter(w1, h[1..], id, |rest|);
    } else {
      SleepsOn(w, c, id, left, rest);
      SleepEnds(w1, h[1..], id, if c.RunWith? then left - 1 else left, rest);
    }
  }

  // The call in which the sleep ends.
  lemma SleepEndsIn(w: World, c: Call, id: nat, left: nat, rest: Body)
    requires Balanced(w) && IdsDistinct(w.sched) && Entry(id, [Sleep(left)] + rest) in Todo(w.sched)
    requires c.RunBlockingWith? || (c.RunWith? && left == 0)
    requires |Apply(w, c).sched.env.born| <= IDS
    ensures id < |Apply(w, c).sched.env.born| && Shorter(Todo(Apply(w, c).sched), id, |rest|)
  {
    var s0 := Given(w.sched, c.param);
    if c.RunWith? {
      LastTick(s0, id, rest);
    } else {
      ApplyBalanced(w, c);
      LiveIdIsIssued(w.sched, Entry(id, [Sleep(left)] + rest));
      RunBlockingCompletes(s0);
    }
  }

  // The task has not got past this sleep.
  ghost predicate Asleep(s: Sched, id: nat, rest: Body) {
    exists ticks :: Entry(id, [Sleep(ticks)] + rest) in Todo(s)
  }

  // A tick is one run.  A task with `left` ticks to go is still asleep after a history
  // that spares it if and only if the history holds at most `left` runs and no
  // blocking run, in which any number of ticks go by.
  lemma SleepsExactly(w: World, h: seq<Call>, id: nat, left: nat, rest: Body)
    requires Balanced(w) && IdsDistinct(w.sched) && Entry(id, [Sleep(left)] + rest) in Todo(w.sched)
    requires SparesAll(h, id) && |After(w, h).sched.env.born| <= IDS
    ensures Asleep(After(w, h).sched, id, rest) <==> NoBlocking(h) && Runs(h) <= left
  {
    if NoBlocking(h) && Runs(h) <= left {
      SleepCountsDown(w, h, id, left, rest);
    } else {
      SleepEnds(w, h, id, left, rest);
      forall ticks ensures Entry(id, [Sleep(ticks)] + rest) !in Todo(After(w, h).sched) {
        assert |Entry(id, [Sleep(ticks)] + rest).body| == |rest| + 1;
      }
    }
  }

  // All polls of a task that does nothing but sleep.
  function Countdown(id: nat, n: nat): seq<Entry> {
    [Entry(id, [Sleep(n)])] + if n == 0 then [] else Countdown(id, n - 1)
  }

  // However long it sleeps, one blocking run sees it through.
  lemma {:induction false} BlockingSleepsThrough(id: nat, n: nat, env: Env)
    requires env.incoming == []
    ensures var s' := RunBlocking(Sched([Entry(id, [Sleep(n)])], env));
      s'.env.polls == env.polls + Countdown(id, n) && s'.env.completed == env.completed + 1 && Todo(s') == []
  {
    var e := Entry(id, [Sleep(n)]);
    var s := Sched([e], env);
    RunSleeper(id, n, env);
    if n == 0 {
      assert Countdown(id, 0) == [e];
    } else {
      var env1 := Logged(env, e);
      assert Run(s).pool != [];
      RunBlockingStep(s);
      BlockingSleepsThrough(id, n - 1, env1);
      Associative(env.polls, [e], Countdown(id, n - 1));
    }
  }

  lemma RunSleeper(id: nat, n: nat, env: Env)
    requires env.incoming == []
    ensures var e := Entry(id, [Sleep(n)]);
      Run(Sched([e], env)) ==
        if n == 0 then Sched([], Logged(env, e).(completed := env.completed + 1))
        else Sched([Entry(id, [Sleep(n - 1)])], Logged(env, e))
  {
    var e := Entry(id, [Sleep(n)]);
    assert e.body[1..] == [] && [e][1..] == [];
    var p := PollEntry(e, env);
    assert PollAll([e][1..], p.env) == Pass([], p.env);
    assert Todo(Sched([e], env)) == [e] && Drained(env) == env;
    assert n > 0 ==> [Sleep(n - 1)] + e.body[1..] == [Sleep(n - 1)];
    assert PollBody(id, e.body[1..], Logged(env, e)) == Polled(None, Logged(env, e), false);
    assert e.body[0] == Sleep(n);
    assert p.rest == if n == 0 then None else Some([Sleep(n - 1)]);
    assert n > 0 ==> [Entry(id, [Sleep(n - 1)])] + [] == [Entry(id, [Sleep(n - 1)])];
    var kept := PollAll([e], env).kept;
    assert [] + kept == kept && kept == if n == 0 then [] else [Entry(id, [Sleep(n - 1)])];
    assert n > 0 ==> kept[1..] == [];
  }

  // A call of `run` is one tick, a call of `run_blocking` is not: two ticks, and the
  // poll behind them, go by in one call.
  lemma TicksInOneBlockingRun(p: Param)
    ensures var s := After(Fresh(p), [Queue([Sleep(2)]), RunBlockingWith(p)]).sched;
      s.env.polls == [Entry(0, [Sleep(2)]), Entry(0, [Sleep(1)]), Entry(0, [Sleep(0)])] && Todo(s) == []
  {
    var h := [Queue([Sleep(2)]), RunBlockingWith(p)];
    assert h[1..] == [RunBlockingWith(p)] && h[1..][1..] == [];
    var w1 := Apply(Fresh(p), h[0]);
    assert [] + [Entry(0, [Sleep(2)])] == [Entry(0, [Sleep(2)])];
    assert Given(w1.sched, p) == Sched([Entry(0, [Sleep(2)])], w1.sched.env);
    BlockingSleepsThrough(0, 2, w1.sched.env);
    assert Countdown(0, 0) == [Entry(0, [Sleep(0)])];
    assert Countdown(0, 1) == [Entry(0, [Sleep(1)]), Entry(0, [Sleep(0)])];
    assert After(w1, h[1..]) == Apply(w1, h[1]);
  }

  // A poll goes through these operations without stopping.
  predicate Passes(op: Op) {
    match op
    case Act(_) => true
    case Spawn(_) => true
    case Sleep(ticks) => ticks == 0
    case Yield(yielded) => yielded
    case Wake => true
    case Suspend(resumed) => resumed
  }

  predicate AllPass(b: Body) {
    forall i :: 0 <= i < |b| ==> Passes(b[i])
  }

  // sleep_ticks(0) does not stop a poll; sleep_ticks(n) stops it and leaves n - 1.
  lemma {:induction false} SleepStops(id: nat, before: Body, n: nat, rest: Body)
    requires AllPass(before)
    ensures n >= 1 ==> Rest(before + [Sleep(n)] + rest) == Some([Sleep(n - 1)] + rest)
    ensures FirstActs(id, before + [Sleep(n)] + rest)
         == FirstActs(id, before) + (if n == 0 then FirstActs(id, rest) else [])
    decreases |before|
  {
    var b := before + [Sleep(n)] + rest;
    if before == [] {
      assert b[0] == Sleep(n) && b[1..] == rest;
    } else {
      assert b[0] == before[0] && b[1..] == before[1..] + [Sleep(n)] + rest;
      assert Passes(before[0]);
      SleepStops(id, before[1..], n, rest);
      if before[0].Act? {
        Associative([Did(id, before[0].update)], FirstActs(id, before[1..]),
                    if n == 0 then FirstActs(id, rest) else []);
      }
    }
  }

  // sleep_ticks(n), for every n >= 1 and every task, old or spawned in that very run:
  // if it reaches the sleep in run k, then run k makes its updates up to there; the
  // next n - 1 runs, whatever else happens, make none; and run k + n goes on behind
  // the sleep.
  lemma SleepTiming(w: World, pk: Param, e: Entry, before: Body, n: nat, rest: Body, h: seq<Call>, p: Param)
    requires Balanced(w) && IdsDistinct(w.sched) && e in PolledIn(Given(w.sched, pk))
    requires n >= 1 && AllPass(before) && e.body == before + [Sleep(n)] + rest
    requires SparesAll(h, e.id) && NoBlocking(h) && Runs(h) == n - 1
    requires |Apply(After(Apply(w, RunWith(pk)), h), RunWith(p)).sched.env.born| <= IDS
    ensures var w1 := Apply(w, RunWith(pk));
            var w2 := After(w1, h);
            var w3 := Apply(w2, RunWith(p));
      && ActsBy(w1.sched.env.acts, e.id) == ActsBy(w.sched.env.acts, e.id) + FirstActs(e.id, before)
      && ActsBy(w2.sched.env.acts, e.id) == ActsBy(w1.sched.env.acts, e.id)
      && ActsBy(w3.sched.env.acts, e.id) == ActsBy(w2.sched.env.acts, e.id) + FirstActs(e.id, rest)
  {
    RunsBetween(w, pk, h, p);
    SleepReached(w, pk, e, before, n, rest);
    SleptOut(Apply(w, RunWith(pk)), e.id, n - 1, rest, h, p);
  }

  // The ticks that are left, and the run after the last of them.
  lemma SleptOut(w: World, id: nat, left: nat, rest: Body, h: seq<Call>, p: Param)
    requires Balanced(w) && IdsDistinct(w.sched) && Entry(id, [Sleep(left)] + rest) in Todo(w.sched)
    requires SparesAll(h, id) && NoBlocking(h) && Runs(h) == left
    requires |After(w, h).sched.env.born| <= |Apply(After(w, h), RunWith(p)).sched.env.born| <= IDS
    requires IdsDistinct(After(w, h).sched)
    ensures var w2 := After(w, h);
            var w3 := Apply(w2, RunWith(p));
      && ActsBy(w2.sched.env.acts, id) == ActsBy(w.sched.env.acts, id)
      && ActsBy(w3.sched.env.acts, id) == ActsBy(w2.sched.env.acts, id) + FirstActs(id, rest)
  {
    SleepCountsDown(w, h, id, left, rest);
    LastTickActs(Given(After(w, h).sched, p), id, rest);
  }

  lemma RunsBetween(w: World, pk: Param, h: seq<Call>, p: Param)
    requires Balanced(w) && IdsDistinct(w.sched)
    requires |Apply(After(Apply(w, RunWith(pk)), h), RunWith(p)).sched.env.born| <= IDS
    ensures var w1 := Apply(w, RunWith(pk));
            var w2 := After(w1, h);
      && Balanced(w1) && IdsDistinct(w1.sched) && IdsDistinct(w2.sched)
      && |w1.sched.env.born| <= |w2.sched.env.born| <= |Apply(w2, RunWith(p)).sched.env.born|
  {
    var w1 := Apply(w, RunWith(pk));
    ApplyBalanced(w, RunWith(pk));
    TasksAccountedFor(w1, h);
    ApplyBalanced(After(w1, h), RunWith(p));
    ApplyIdsDistinct(w, RunWith(pk));
    IdsStayDistinct(w1, h);
  }

  lemma SleepReached(w: World, pk: Param, e: Entry, before: Body, n: nat, rest: Body)
    requires Balanced(w) && IdsDistinct(w.sched) && e in PolledIn(Given(w.sched, pk))
    requires |Apply(w, RunWith(pk)).sched.env.born| <= IDS
    requires n >= 1 && AllPass(before) && e.body == before + [Sleep(n)] + rest
    ensures var w1 := Apply(w, RunWith(pk));
      && Entry(e.id, [Sleep(n - 1)] + rest) in Todo(w1.sched)
      && ActsBy(w1.sched.env.acts, e.id) == ActsBy(w.sched.env.acts, e.id) + FirstActs(e.id, before)
  {
    RunOneTask(Given(w.sched, pk), e);
    SleepStops(e.id, before, n, rest);
    assert FirstActs(e.id, before) + [] == FirstActs(e.id, before);
  }

  // With n = 0 the same run goes on.
  lemma NoSleepAtAll(w: World, pk: Param, e: Entry, before: Body, rest: Body)
    requires Balanced(w) && IdsDistinct(w.sched) && e in PolledIn(Given(w.sched, pk))
    requires AllPass(before) && e.body == before + [Sleep(0)] + rest
    requires |Apply(w, RunWith(pk)).sched.env.born| <= IDS
    ensures ActsBy(Apply(w, RunWith(pk)).sched.env.acts, e.id)
         == ActsBy(w.sched.env.acts, e.id) + (FirstActs(e.id, before) + FirstActs(e.id, rest))
  {
    RunOneTask(Given(w.sched, pk), e);
    SleepStops(e.id, before, 0, rest);
  }

  // ----------------------------------------------------- order between runs

  // The task left over that was polled first is first again in the next run if and
  // only if the rotations, one for each generation, bring it back to the front.
  lemma FirstAgainExactly(s: Sched)
    requires IdsDistinct(s) && |Run(s).env.born| <= IDS && Run(s).pool != []
    ensures var left := Survivors(PolledIn(s));
      left != [] && (Run(s).pool[0] == left[0] <==> PlaceOfFirst(s) == 0)
  {
    FirstLeftOver(s);
    var pool, x := Run(s).pool, PlaceOfFirst(s);
    var id := pool[0].id;
    ExactlyOncePerRun(s);
    RunIdCount(s, id);
    assert Todo(Run(s)) == pool;
    assert IdCount(Todo(s), id) <= (if id < |s.env.born| then 1 else 0);
    if x > 0 {
      SameIdTwice(pool, x);
    }
  }

  lemma SameIdTwice(es: seq<Entry>, x: nat)
    requires 0 < x < |es| && IdCount(es, es[0].id) <= 1
    ensures es[x].id != es[0].id
  {
    assert es[x] in es[1..];
    CountZero(es[1..], es[0].id);
  }

  lemma {:induction false} SameIdCounts(es: seq<Entry>, i: nat, j: nat)
    requires i < j < |es| && es[i].id == es[j].id
    ensures IdCount(es, es[i].id) >= 2
  {
    if i > 0 {
      SameIdCounts(es[1..], i - 1, j - 1);
    } else if IdCount(es, es[0].id) <= 1 {
      SameIdTwice(es, j);
    }
  }

  // The tasks left over have different ids.
  lemma LeftIdsDiffer(s: Sched, i: nat, j: nat)
    requires IdsDistinct(s) && |Run(s).env.born| <= IDS
    requires i < |Survivors(PolledIn(s))| && j < |Survivors(PolledIn(s))|
    requires Survivors(PolledIn(s))[i] == Survivors(PolledIn(s))[j]
    ensures i == j
  {
    var left := Survivors(PolledIn(s));
    if i != j {
      SameIdCounts(left, if i < j then i else j, if i < j then j else i);
      IdCountSurvivors(PolledIn(s), left[i].id);
      PolledIdCount(s, left[i].id);
    }
  }

  // The whole pool is in the order of the polls again if and only if the rotations, one
  // for each generation, bring every task left over back to its place.
  lemma OrderKeptExactly(s: Sched)
    requires IdsDistinct(s) && |Run(s).env.born| <= IDS
    ensures var left := Survivors(PolledIn(s));
      Run(s).pool == left <==> PoolPlaces(s) == Upto(0, |left|)
  {
    PoolByPlaces(s);
    var left, pool, places := Survivors(PolledIn(s)), Run(s).pool, PoolPlaces(s);
    UptoAt(0, |left|);
    if pool == left {
      forall i | 0 <= i < |left| ensures places[i] == i {
        LeftIdsDiffer(s, places[i], i);
      }
    }
  }

  // If no poll spawns, they do so if and only if at most one task is left.
  lemma OrderKeptWithoutSpawns(s: Sched)
    requires IdsDistinct(s) && Offspring(Todo(s)) == []
    ensures Run(s).pool == Survivors(Todo(s)) <==> |Survivors(Todo(s))| <= 1
  {
    RotationLaw(s);
    var left := Survivors(Todo(s));
    if |left| > 1 {
      var id := left[0].id;
      IdCountSurvivors(Todo(s), id);
      assert IdCount(Todo(s), id) <= (if id < |s.env.born| then 1 else 0);
      SameIdTwice(left, 1);
    }
  }

  // Two tasks that yield change places.
  lemma FirstQueuedIsNotFirstNextRun(p: Param)
    ensures var a, b := Entry(0, [Yield(false)]), Entry(1, [Yield(false)]);
            var s := Sched([a, b], Env(p, [], [a.body, b.body], [], [], 0));
      Run(s).pool == [Entry(1, [Yield(true)]), Entry(0, [Yield(true)])]
  {
    var a, b := Entry(0, [Yield(false)]), Entry(1, [Yield(false)]);
    var s := Sched([a, b], Env(p, [], [a.body, b.body], [], [], 0));
    var env1 := PollEntry(a, s.env).env;
    var env2 := PollEntry(b, env1).env;
    assert a.body[1..] == [] && [Yield(true)] + [] == [Yield(true)];
    assert PollEntry(a, s.env).rest == Some([Yield(true)]) && PollEntry(b, env1).rest == Some([Yield(true)]);
    assert Todo(s) == [a, b] && Drained(s.env) == s.env;
    assert [a, b][1..] == [b] && [b][1..] == [];
    assert PollAll([], env2) == Pass([], env2);
    assert PollAll([b], env1) == Pass([Entry(1, [Yield(true)])], env2);
    assert PollAll([a, b], s.env) == Pass([Entry(0, [Yield(true)]), Entry(1, [Yield(true)])], env2);
    var kept := [Entry(0, [Yield(true)]), Entry(1, [Yield(true)])];
    assert [] + kept == kept && kept[1..] + [kept[0]] == [Entry(1, [Yield(true)]), Entry(0, [Yield(true)])];
  }

  // If the first of them spawns a task that is done at once, the run rotates twice and
  // they do not.
  lemma SpawnTurnsBack(p: Param)
    ensures var a, b := Entry(0, [Spawn([]), Yield(false)]), Entry(1, [Yield(false)]);
            var s := Sched([a, b], Env(p, [], [a.body, b.body], [], [], 0));
      Run(s).pool == [Entry(0, [Yield(true)]), Entry(1, [Yield(true)])]
  {
    var a, b := Entry(0, [Spawn([]), Yield(false)]), Entry(1, [Yield(false)]);
    TurnedTwice(Sched([a, b], Env(p, [], [a.body, b.body], [], [], 0)), a, b);
  }

  lemma TurnedTwice(s: Sched, a: Entry, b: Entry)
    requires s.pool == [a, b] && s.env.incoming == [] && |s.env.born| == 2
    requires a.body == [Spawn([]), Yield(false)] && b.body == [Yield(false)]
    ensures Run(s).pool == [Entry(a.id, [Yield(true)]), Entry(b.id, [Yield(true)])]
  {
    RotationLaw(s);
    assert Todo(s) == [a, b];
    SpawnsOnce(a, b);
    YieldsTwice(a, b);
    TwoCycles([a, b], [Entry(2, [])], Entry(a.id, [Yield(true)]), Entry(b.id, [Yield(true)]));
  }

  lemma TwoCycles(first: seq<Entry>, second: seq<Entry>, x: Entry, y: Entry)
    requires Survivors(first) == [x, y] && Survivors(second) == []
    ensures PoolOrder([], [first, second]) == [x, y]
  {
    var generations := [first, second];
    assert generations[1..] == [second] && [second][1..] == [];
    assert [] + [x, y] == [x, y] && RotateLeft([x, y]) == [y, x];
    assert [y, x] + [] == [y, x] && RotateLeft([y, x]) == [x, y];
    assert PoolOrder([y, x], [second]) == PoolOrder([x, y], []);
  }

  // Of these two tasks the first spawns one that does nothing, ...
  lemma SpawnsOnce(a: Entry, b: Entry)
    requires a.body == [Spawn([]), Yield(false)] && b.body == [Yield(false)]
    ensures var c := Entry(2, []); Generations([a, b], 2) == [[a, b], [c]] && Survivors([c]) == []
  {
    var c := Entry(2, []);
    var bodies: seq<Body> := [[]];
    TwoYields(a.body, b.body);
    assert [a, b][1..] == [b] && [b][1..] == [] && bodies[1..] == [];
    assert Offspring([]) == [] && Offspring([b]) == [] + [] && Offspring([a, b]) == [[]] + [];
    assert NextGeneration([a, b], 2) == [c] + Numbered([], 3) == [c];
    assert [c][1..] == [] && Offspring([c]) == [] + Offspring([]) == [];
    assert NextGeneration([c], 3) == [];
    assert Generations([c], 3) == [[c]] && Generations([a, b], 2) == [[a, b]] + [[c]];
    assert Survivors([c]) == [] + Survivors([]) == [];
  }

  // ... and both are left over.
  lemma YieldsTwice(a: Entry, b: Entry)
    requires a.body == [Spawn([]), Yield(false)] && b.body == [Yield(false)]
    ensures Survivors([a, b]) == [Entry(a.id, [Yield(true)]), Entry(b.id, [Yield(true)])]
  {
    TwoYields(a.body, b.body);
    assert [a, b][1..] == [b] && [b][1..] == [];
    assert Survivors([b]) == [Entry(b.id, [Yield(true)])] + Survivors([]);
  }

  lemma TwoYields(a: Body, b: Body)
    requires a == [Spawn([]), Yield(false)] && b == [Yield(false)]
    ensures FirstSpawns(a) == [[]] && FirstSpawns(b) == [] && Rest(a) == Some([Yield(true)]) == Rest(b)
  {
    assert a[1..] == b && b[1..] == [];
    assert [Yield(true)] + [] == [Yield(true)];
    assert FirstSpawns(a) == [[]] + FirstSpawns(b);
  }

  // ------------------------------------------------------ order of queueing

  predicate OnlyQueues(h: seq<Call>) {
    forall i :: 0 <= i < |h| ==> h[i].Queue? || h[i].HandleQueue?
  }

  // The tasks queued by some calls when n ids have been issued: all of them, those
  // that go straight to the pool, and those that go to `incoming`.
  function Queued(h: seq<Call>, n: nat): seq<Entry>
    requires OnlyQueues(h)
  {
    if h == [] then [] else [Entry(IdOf(n), h[0].body)] + Queued(h[1..], n + 1)
  }

  function ToPool(h: seq<Call>, n: nat): seq<Entry>
    requires OnlyQueues(h)
  {
    if h == [] then []
    else (if h[0].Queue? then [Entry(IdOf(n), h[0].body)] else []) + ToPool(h[1..], n + 1)
  }

  function ToIncoming(h: seq<Call>, n: nat): seq<Entry>
    requires OnlyQueues(h)
  {
    if h == [] then []
    else (if h[0].HandleQueue? then [Entry(IdOf(n), h[0].body)] else []) + ToIncoming(h[1..], n + 1)
  }

  lemma {:induction false} QueuesApart(w: World, h: seq<Call>)
    requires OnlyQueues(h)
    ensures var s, s' := w.sched, After(w, h).sched;
      && s'.pool == s.pool + ToPool(h, |s.env.born|)
      && s'.env.incoming == s.env.incoming + ToIncoming(h, |s.env.born|)
      && s'.env.polls == s.env.polls
    decreases |h|
  {
    if h != [] {
      var s, n := w.sched, |w.sched.env.born|;
      QueuesApart(Apply(w, h[0]), h[1..]);
      var e := Entry(IdOf(n), h[0].body);
      Associative(s.pool, if h[0].Queue? then [e] else [], ToPool(h[1..], n + 1));
      Associative(s.env.incoming, if h[0].HandleQueue? then [e] else [], ToIncoming(h[1..], n + 1));
      if h[0].Queue? {
        assert s.env.incoming + ([] + ToIncoming(h[1..], n + 1)) == s.env.incoming + ToIncoming(h[1..], n + 1);
      } else {
        assert s.pool + ([] + ToPool(h[1..], n + 1)) == s.pool + ToPool(h[1..], n + 1);
      }
    }
  }

  ghost predicate Overtakes(h: seq<Call>) {
    exists i, j :: 0 <= i < j < |h| && h[i].HandleQueue? && h[j].Queue?
  }

  lemma {:induction false} ToPoolIds(h: seq<Call>, n: nat)
    requires OnlyQueues(h) && n + |h| <= IDS
    ensures forall e :: e in ToPool(h, n) ==> n <= e.id < n + |h|
  {
    if h != [] {
      ToPoolIds(h[1..], n + 1);
      assert IdOf(n) == n;
    }
  }

  lemma {:induction false} NothingDirect(h: seq<Call>, n: nat)
    requires OnlyQueues(h)
    ensures ToPool(h, n) == [] <==> forall j :: 0 <= j < |h| ==> h[j].HandleQueue?
  {
    if h != [] {
      NothingDirect(h[1..], n + 1);
      assert forall j :: 1 <= j < |h| ==> h[j] == h[1..][j - 1];
      if ToPool(h[1..], n + 1) != [] {
        var j :| 0 <= j < |h[1..]| && !h[1..][j].HandleQueue?;
        assert h[j + 1] == h[1..][j];
      }
    }
  }

  // The tasks to poll stand in the order in which they were queued.
  ghost predicate InOrder(h: seq<Call>, n: nat)
    requires OnlyQueues(h)
  {
    ToPool(h, n) + ToIncoming(h, n) == Queued(h, n)
  }

  lemma {:induction false} InOrderExactly(h: seq<Call>, n: nat)
    requires OnlyQueues(h) && n + |h| <= IDS
    ensures InOrder(h, n) <==> !Overtakes(h)
    decreases |h|
  {
    if h != [] {
      InOrderExactly(h[1..], n + 1);
      InOrderStep(h, n);
    }
  }

  lemma InOrderStep(h: seq<Call>, n: nat)
    requires h != [] && OnlyQueues(h) && n + |h| <= IDS
    ensures var t := h[1..]; (InOrder(t, n + 1) <==> !Overtakes(t)) ==> (InOrder(h, n) <==> !Overtakes(h))
  {
    OvertakesTail(h, n + 1);
    InOrderWhen(h, n);
  }

  lemma InOrderWhen(h: seq<Call>, n: nat)
    requires h != [] && OnlyQueues(h) && n + |h| <= IDS
    ensures InOrder(h, n) <==> InOrder(h[1..], n + 1) && (h[0].HandleQueue? ==> ToPool(h[1..], n + 1) == [])
  {
    var t, e := h[1..], Entry(IdOf(n), h[0].body);
    ToPoolIds(t, n + 1);
    OneMore(h[0].HandleQueue?, e, ToPool(t, n + 1), ToIncoming(t, n + 1), Queued(t, n + 1));
    OnePlace(h, n);
  }

  // Where the first of some calls puts its task.
  lemma OnePlace(h: seq<Call>, n: nat)
    requires h != [] && OnlyQueues(h)
    ensures var t, e: seq<Entry> := h[1..], [Entry(IdOf(n), h[0].body)];
      && Queued(h, n) == e + Queued(t, n + 1)
      && ToPool(h, n) == (if h[0].HandleQueue? then ToPool(t, n + 1) else e + ToPool(t, n + 1))
      && ToIncoming(h, n) == (if h[0].HandleQueue? then e + ToIncoming(t, n + 1) else ToIncoming(t, n + 1))
  {
  }

  // One more task in front: it keeps its place unless it has to wait for the pool.
  lemma OneMore(waits: bool, e: Entry, pool: seq<Entry>, incoming: seq<Entry>, rest: seq<Entry>)
    requires e !in pool
    ensures var first: seq<Entry> := [e];
      if waits then pool + (first + incoming) == first + rest <==> pool == [] && pool + incoming == rest
      else (first + pool) + incoming == first + rest <==> pool + incoming == rest
  {
    var first: seq<Entry> := [e];
    if waits && pool != [] {
      assert (pool + (first + incoming))[0] == pool[0] && pool[0] in pool;
    } else if waits {
      assert pool + (first + incoming) == first + incoming && pool + incoming == incoming;
      SameHead(e, incoming, rest);
    } else {
      Associative(first, pool, incoming);
      SameHead(e, pool + incoming, rest);
    }
  }

  lemma OvertakesTail(h: seq<Call>, n: nat)
    requires h != [] && OnlyQueues(h)
    ensures Overtakes(h) <==> Overtakes(h[1..]) || (h[0].HandleQueue? && ToPool(h[1..], n) != [])
  {
    var t := h[1..];
    NothingDirect(t, n);
    if h[0].HandleQueue? && ToPool(t, n) != [] {
      var j :| 0 <= j < |t| && !t[j].HandleQueue?;
      assert h[0].HandleQueue? && h[j + 1].Queue?;
    }
    if Overtakes(t) {
      var i, j :| 0 <= i < j < |t| && t[i].HandleQueue? && t[j].Queue?;
      assert h[i + 1].HandleQueue? && h[j + 1].Queue?;
    }
    if Overtakes(h) {
      var i, j :| 0 <= i < j < |h| && h[i].HandleQueue? && h[j].Queue?;
      if i > 0 {
        assert t[i - 1].HandleQueue? && t[j - 1].Queue?;
      } else {
        assert t[j - 1].Queue?;
      }
    }
  }

  lemma {:induction false} QueuedLength(h: seq<Call>, n: nat)
    requires OnlyQueues(h)
    ensures |ToPool(h, n)| + |ToIncoming(h, n)| == |Queued(h, n)|
  {
    if h != [] {
      QueuedLength(h[1..], n + 1);
    }
  }

  // The first run of a new Cosync polls the tasks queued on it in the order in which
  // they were queued if and only if no direct `queue` comes after a `queue` through a
  // handle, which it overtakes.
  lemma QueuedOrderExactly(p: Param, h: seq<Call>)
    requires OnlyQueues(h) && |h| <= IDS
    ensures Queued(h, 0) <= Run(After(Fresh(p), h).sched).env.polls <==> !Overtakes(h)
  {
    InOrderExactly(h, 0);
    QueuedLength(h, 0);
    FirstPolls(p, h);
    SameLengthPrefix(Queued(h, 0), ToPool(h, 0) + ToIncoming(h, 0), Run(After(Fresh(p), h).sched).env.polls);
  }

  lemma FirstPolls(p: Param, h: seq<Call>)
    requires OnlyQueues(h) && |h| <= IDS
    ensures ToPool(h, 0) + ToIncoming(h, 0) <= Run(After(Fresh(p), h).sched).env.polls
  {
    QueuesApart(Fresh(p), h);
    var s := After(Fresh(p), h).sched;
    assert Todo(s) == ToPool(h, 0) + ToIncoming(h, 0) by {
      assert [] + ToPool(h, 0) == ToPool(h, 0) && [] + ToIncoming(h, 0) == ToIncoming(h, 0);
    }
    ExactlyOncePerRun(s);
    assert Run(s).env.polls == s.env.polls + PolledIn(s) == PolledIn(s);
  }

  lemma SameLengthPrefix<T>(a: seq<T>, b: seq<T>, s: seq<T>)
    requires |a| == |b| && b <= s
    ensures a <= s <==> b == a
  {
    assert s[..|b|] == b;
  }

  // Two calls are enough.
  lemma QueueOvertakesHandle(p: Param)
    ensures Todo(After(Fresh(p), [HandleQueue([]), Queue([])]).sched) == [Entry(1, []), Entry(0, [])]
  {
    var h := [HandleQueue([]), Queue([])];
    assert h[1..] == [Queue([])] && h[1..][1..] == [];
    QueuesApart(Fresh(p), h);
    assert ToPool(h[1..][1..], 2) == [] && ToIncoming(h[1..][1..], 2) == [];
  }
}
