// What `Cosync::run` and `run_blocking` do, on lists (src/lib.rs).  Tasks obey the
// waking contract throughout: a pending poll has called its own waker.
module Scheduling {
  import opened Wrappers
  import opened Programs
  import opened PollCycle

  // The pool's tasks in ready-queue order, and everything polls can reach.
  datatype Sched = Sched(pool: seq<Entry>, env: Env)

  datatype Pass = Pass(kept: seq<Entry>, env: Env)

  // Poll each task once, in order; keep those that are pending.
  ghost function PollAll(es: seq<Entry>, env: Env): Pass {
    if es == [] then Pass([], env)
    else
      var p := PollEntry(es[0], env);
      var r := PollAll(es[1..], p.env);
      if p.rest == None then r else r.(kept := [Entry(es[0].id, p.rest.value)] + r.kept)
  }

  lemma {:induction false} PollAllUsesWeight(es: seq<Entry>, env: Env)
    ensures var r := PollAll(es, env);
      TotalWeight(r.kept) + TotalWeight(r.env.incoming) + |es| <= TotalWeight(es) + TotalWeight(env.incoming)
  {
    if es != [] {
      var e := es[0];
      PollUsesWeight(e.id, e.body, Logged(env, e));
      var p := PollEntry(e, env);
      PollAllUsesWeight(es[1..], p.env);
    }
  }

  // poll_pool after its first drain: poll the new batch, put the survivors behind
  // those carried over and rotate, and go on with what was spawned meanwhile.
  ghost function Cycle(carried: seq<Entry>, batch: seq<Entry>, env: Env): Sched
    requires env.incoming == []
    decreases TotalWeight(batch)
  {
    var r := PollAll(batch, env);
    var pool := RotateLeft(carried + r.kept);
    if r.env.incoming == [] then Sched(pool, r.env)
    else
      PollAllUsesWeight(batch, env);
      NoTasksNoSpawns(batch, env);
      Cycle(pool, r.env.incoming, r.env.(incoming := []))
  }

  lemma NoTasksNoSpawns(batch: seq<Entry>, env: Env)
    requires PollAll(batch, env).env.incoming != env.incoming
    ensures batch != []
  {
  }

  ghost function Drained(env: Env): Env {
    env.(incoming := [])
  }

  // Cosync::run.
  ghost function Run(s: Sched): Sched {
    Cycle([], s.pool + s.env.incoming, Drained(s.env))
  }

  ghost function Todo(s: Sched): seq<Entry> {
    s.pool + s.env.incoming
  }

  ghost predicate Obeying(s: Sched) {
    AllWake(s.pool) && AllWake(s.env.incoming)
  }

  // ---------------------------------------------------- one run, completely

  // The updates of a list of polls.
  ghost function ActsOf(polls: seq<Entry>): seq<Did> {
    if polls == [] then [] else FirstActs(polls[0].id, polls[0].body) + ActsOf(polls[1..])
  }

  lemma {:induction false} ActsOfConcat(a: seq<Entry>, b: seq<Entry>)
    ensures ActsOf(a + b) == ActsOf(a) + ActsOf(b)
  {
    if a == [] {
      assert a + b == b;
    } else {
      assert (a + b)[1..] == a[1..] + b;
      ActsOfConcat(a[1..], b);
      Associative(FirstActs(a[0].id, a[0].body), ActsOf(a[1..]), ActsOf(b));
    }
  }

  lemma {:induction false} ApplyConcat(a: seq<Did>, b: seq<Did>, p: Param)
    ensures ApplyActs(a + b, p) == ApplyActs(b, ApplyActs(a, p))
  {
    if a == [] {
      assert a + b == b;
    } else {
      assert (a + b)[1..] == a[1..] + b;
      ApplyConcat(a[1..], b, a[0].update(p));
    }
  }

  // env' comes from env by exactly the polls listed: their updates, in order, are
  // the only updates.
  ghost predicate PollsMade(env: Env, env': Env, polls: seq<Entry>) {
    && env'.polls == env.polls + polls
    && env'.acts == env.acts + ActsOf(polls)
    && env'.param == ApplyActs(ActsOf(polls), env.param)
  }

  lemma PollsMadeTransitive(a: Env, b: Env, c: Env, p: seq<Entry>, q: seq<Entry>)
    requires PollsMade(a, b, p) && PollsMade(b, c, q)
    ensures PollsMade(a, c, p + q)
  {
    ActsOfConcat(p, q);
    ApplyConcat(ActsOf(p), ActsOf(q), a.param);
    Associative(a.polls, p, q);
    Associative(a.acts, ActsOf(p), ActsOf(q));
  }

  // ... and every task spawned meanwhile went to the back of `incoming`.
  ghost predicate PolledExactly(env: Env, env': Env, polls: seq<Entry>) {
    Extends(env, env') && PollsMade(env, env', polls)
  }

  lemma PolledExactlyTransitive(a: Env, b: Env, c: Env, p: seq<Entry>, q: seq<Entry>)
    requires PolledExactly(a, b, p) && PolledExactly(b, c, q)
    ensures PolledExactly(a, c, p + q)
  {
    ExtendsTransitive(a, b, c);
    PollsMadeTransitive(a, b, c, p, q);
  }

  lemma OnePollExactly(e: Entry, env: Env)
    ensures var p := PollEntry(e, env);
      PolledExactly(env, p.env, [e]) && p.env.completed == env.completed + (if p.rest == None then 1 else 0)
  {
    PollBodyHistory(e.id, e.body, Logged(env, e));
    assert ActsOf([e]) == FirstActs(e.id, e.body) by {
      assert [e][1..] == [];
      assert ActsOf([e][1..]) == [];
    }
  }

  lemma {:induction false} PollAllExactly(es: seq<Entry>, env: Env)
    ensures var r := PollAll(es, env);
      PolledExactly(env, r.env, es) && r.env.completed + |r.kept| == env.completed + |es|
  {
    if es == [] {
      assert Births(env.born, |env.born|) == [];
    } else {
      var p := PollEntry(es[0], env);
      OnePollExactly(es[0], env);
      PollAllExactly(es[1..], p.env);
      PolledExactlyTransitive(env, p.env, PollAll(es, env).env, [es[0]], es[1..]);
      assert [es[0]] + es[1..] == es;
    }
  }

  // s is reached from env, with `carried` tasks already polled, by polling the batch
  // and then every task spawned meanwhile, in the order they were spawned.
  ghost predicate RanExactly(env: Env, carried: nat, batch: seq<Entry>, s: Sched) {
    && s.env.incoming == []
    && env.born <= s.env.born
    && var polls := batch + Births(s.env.born, |env.born|);
    && PollsMade(env, s.env, polls)
    && s.env.completed + |s.pool| == env.completed + carried + |polls|
  }

  lemma RanOn(env: Env, carried: nat, batch: seq<Entry>, r: Pass, s: Sched)
    requires env.incoming == [] && PolledExactly(env, r.env, batch)
    requires r.env.completed + |r.kept| == env.completed + |batch|
    requires RanExactly(Drained(r.env), carried + |r.kept|, r.env.incoming, s)
    ensures RanExactly(env, carried, batch, s)
  {
    BirthsChain(env.born, r.env.born, s.env.born);
    var rest := r.env.incoming + Births(s.env.born, |r.env.born|);
    assert Births(s.env.born, |env.born|) == rest;
    PollsMadeTransitive(env, Drained(r.env), s.env, batch, rest);
  }

  lemma RanAlready(env: Env, carried: nat, batch: seq<Entry>, r: Pass, s: Sched)
    requires env.incoming == [] && PolledExactly(env, r.env, batch) && r.env.incoming == []
    requires r.env.completed + |r.kept| == env.completed + |batch|
    requires s.env == r.env && |s.pool| == carried + |r.kept|
    ensures RanExactly(env, carried, batch, s)
  {
    assert batch + [] == batch;
    assert Births(r.env.born, |env.born|) == [];
  }

  lemma {:induction false} CycleExactly(carried: seq<Entry>, batch: seq<Entry>, env: Env)
    requires env.incoming == []
    ensures RanExactly(env, |carried|, batch, Cycle(carried, batch, env))
    decreases TotalWeight(batch)
  {
    var r := PollAll(batch, env);
    var pool := RotateLeft(carried + r.kept);
    PollAllExactly(batch, env);
    if r.env.incoming == [] {
      RanAlready(env, |carried|, batch, r, Sched(pool, r.env));
    } else {
      PollAllUsesWeight(batch, env);
      NoTasksNoSpawns(batch, env);
      CycleExactly(pool, r.env.incoming, Drained(r.env));
      RanOn(env, |carried|, batch, r, Cycle(pool, r.env.incoming, Drained(r.env)));
    }
  }

  lemma {:induction false} BirthsLength(born: seq<Body>, from: nat)
    requires from <= |born|
    ensures |Births(born, from)| == |born| - from
    decreases |born| - from
  {
    if from < |born| {
      BirthsLength(born, from + 1);
    }
  }

  // Exactly once per run: one call of run polls every task of the pool, then every
  // task of `incoming`, then every task spawned during the run in the order of
  // their spawns, each exactly once and nothing else; `incoming` ends empty; and
  // every task polled either completed or is in the pool.
  lemma ExactlyOncePerRun(s: Sched)
    ensures var s' := Run(s);
      && s.env.born <= s'.env.born
      && PollsMade(s.env, s'.env, s.pool + s.env.incoming + Births(s'.env.born, |s.env.born|))
      && s'.env.incoming == []
      && s'.env.completed + |s'.pool| + |s.env.born| == s.env.completed + |s.pool| + |s.env.incoming| + |s'.env.born|
  {
    CycleExactly([], Todo(s), Drained(s.env));
    BirthsLength(Run(s).env.born, |s.env.born|);
  }

  // ------------------------------------------------------ who is in the pool

  // What a poll leaves of a task does not depend on the environment.
  function Rest(b: Body): Option<Body> {
    if b == [] then None
    else match b[0]
      case Act(_) => Rest(b[1..])
      case Spawn(_) => Rest(b[1..])
      case Wake => Rest(b[1..])
      case Sleep(ticks) => if ticks == 0 then Rest(b[1..]) else Some([Sleep(ticks - 1)] + b[1..])
      case Yield(yielded) => if yielded then Rest(b[1..]) else Some([Yield(true)] + b[1..])
      case Suspend(resumed) => if resumed then Rest(b[1..]) else Some([Suspend(true)] + b[1..])
  }

  lemma {:induction false} PollLeavesRest(id: nat, b: Body, env: Env)
    ensures PollBody(id, b, env).rest == Rest(b)
    decreases |b|
  {
    if b != [] {
      match b[0]
      case Act(update) => PollLeavesRest(id, b[1..], Did1(env, id, update));
      case Spawn(body) => PollLeavesRest(id, b[1..], Enqueue(env, body));
      case _ => PollLeavesRest(id, b[1..], env);
    }
  }

  // The survivors of a list of polls, in order.
  function Survivors(es: seq<Entry>): seq<Entry> {
    if es == [] then []
    else
      var r := Rest(es[0].body);
      (if r == None then [] else [Entry(es[0].id, r.value)]) + Survivors(es[1..])
  }

  lemma PollEntryRest(e: Entry, env: Env)
    ensures PollEntry(e, env).rest == Rest(e.body)
  {
    PollLeavesRest(e.id, e.body, Logged(env, e));
  }

  lemma {:induction false} PollAllKeepsSurvivors(es: seq<Entry>, env: Env)
    ensures PollAll(es, env).kept == Survivors(es)
  {
    if es != [] {
      PollEntryRest(es[0], env);
      PollAllKeepsSurvivors(es[1..], PollEntry(es[0], env).env);
    }
  }

  // ------------------------------------------------------- the rotation law

  // The bodies a poll spawns: those before the first await that is not ready.
  function FirstSpawns(b: Body): seq<Body> {
    if b == [] then []
    else match b[0]
      case Act(_) => FirstSpawns(b[1..])
      case Spawn(body) => [body] + FirstSpawns(b[1..])
      case Wake => FirstSpawns(b[1..])
      case Sleep(ticks) => if ticks == 0 then FirstSpawns(b[1..]) else []
      case Yield(yielded) => if yielded then FirstSpawns(b[1..]) else []
      case Suspend(resumed) => if resumed then FirstSpawns(b[1..]) else []
  }

  // What one poll of each of some tasks spawns, in order.
  function Offspring(es: seq<Entry>): seq<Body> {
    if es == [] then [] else FirstSpawns(es[0].body) + Offspring(es[1..])
  }

  // The entries of some bodies that get their ids when n have been issued.
  function Numbered(bodies: seq<Body>, n: nat): seq<Entry> {
    if bodies == [] then [] else [Entry(IdOf(n), bodies[0])] + Numbered(bodies[1..], n + 1)
  }

  function NextGeneration(es: seq<Entry>, n: nat): seq<Entry> {
    Numbered(Offspring(es), n)
  }

  lemma {:induction false} PollSpawns(id: nat, b: Body, env: Env)
    ensures PollBody(id, b, env).env.born == env.born + FirstSpawns(b)
    decreases |b|
  {
    if b != [] {
      match b[0]
      case Act(update) => PollSpawns(id, b[1..], Did1(env, id, update));
      case Spawn(body) =>
        PollSpawns(id, b[1..], Enqueue(env, body));
        Associative(env.born, [body], FirstSpawns(b[1..]));
      case _ => PollSpawns(id, b[1..], env);
    }
  }

  lemma {:induction false} PollAllOffspring(es: seq<Entry>, env: Env)
    ensures PollAll(es, env).env.born == env.born + Offspring(es)
  {
    if es != [] {
      PollSpawns(es[0].id, es[0].body, Logged(env, es[0]));
      PollAllOffspring(es[1..], PollEntry(es[0], env).env);
      Associative(env.born, FirstSpawns(es[0].body), Offspring(es[1..]));
    }
  }

  lemma {:induction false} BirthsNumbered(born: seq<Body>, from: nat)
    requires from <= |born|
    ensures Births(born, from) == Numbered(born[from..], from)
    decreases |born| - from
  {
    if from < |born| {
      BirthsNumbered(born, from + 1);
      assert born[from..][1..] == born[from + 1..];
    }
  }

  // What comes in while a batch is polled depends on its bodies only.
  lemma PollAllNext(batch: seq<Entry>, env: Env)
    requires env.incoming == []
    ensures PollAll(batch, env).env.incoming == NextGeneration(batch, |env.born|)
    ensures |PollAll(batch, env).env.born| == |env.born| + |NextGeneration(batch, |env.born|)|
  {
    PollAllSpawns(batch, env);
    PollAllOffspring(batch, env);
    BirthsNumbered(PollAll(batch, env).env.born, |env.born|);
    assert (env.born + Offspring(batch))[|env.born|..] == Offspring(batch);
    NumberedLength(Offspring(batch), |env.born|);
  }

  lemma {:induction false} NumberedLength(bodies: seq<Body>, n: nat)
    ensures |Numbered(bodies, n)| == |bodies|
  {
    if bodies != [] {
      NumberedLength(bodies[1..], n + 1);
    }
  }

  lemma {:induction false} NumberedConcat(a: seq<Body>, b: seq<Body>, n: nat)
    ensures Numbered(a + b, n) == Numbered(a, n) + Numbered(b, n + |a|)
  {
    if a == [] {
      assert a + b == b;
    } else {
      assert (a + b)[1..] == a[1..] + b && (a + b)[0] == a[0];
      NumberedConcat(a[1..], b, n + 1);
      Associative([Entry(IdOf(n), a[0])], Numbered(a[1..], n + 1), Numbered(b, n + |a|));
    }
  }

  lemma {:induction false} FirstSpawnsWeight(b: Body, n: nat)
    ensures TotalWeight(Numbered(FirstSpawns(b), n)) < Weight(b)
    decreases |b|
  {
    if b != [] {
      FirstSpawnsWeight(b[1..], if b[0].Spawn? then n + 1 else n);
      if b[0].Spawn? {
        var es := Numbered(FirstSpawns(b), n);
        assert FirstSpawns(b)[1..] == FirstSpawns(b[1..]);
        assert es[1..] == Numbered(FirstSpawns(b[1..]), n + 1);
      }
    }
  }

  lemma {:induction false} OffspringWeight(es: seq<Entry>, n: nat)
    ensures TotalWeight(NextGeneration(es, n)) + |es| <= TotalWeight(es)
  {
    if es != [] {
      var first := FirstSpawns(es[0].body);
      FirstSpawnsWeight(es[0].body, n);
      OffspringWeight(es[1..], n + |first|);
      NumberedConcat(first, Offspring(es[1..]), n);
      TotalWeightConcat(Numbered(first, n), Numbered(Offspring(es[1..]), n + |first|));
    }
  }

  lemma NextGenerationSmaller(batch: seq<Entry>, n: nat)
    requires NextGeneration(batch, n) != []
    ensures TotalWeight(NextGeneration(batch, n)) < TotalWeight(batch)
  {
    OffspringWeight(batch, n);
  }

  // What a run polls, from the bodies alone: the batch, then what it spawns, and so on.
  function Generations(batch: seq<Entry>, n: nat): seq<seq<Entry>>
    decreases TotalWeight(batch)
  {
    var next := NextGeneration(batch, n);
    if next == [] then [batch]
    else
      NextGenerationSmaller(batch, n);
      [batch] + Generations(next, n + |next|)
  }

  function Flat(generations: seq<seq<Entry>>): seq<Entry> {
    if generations == [] then [] else generations[0] + Flat(generations[1..])
  }

  lemma FlatCons(first: seq<Entry>, rest: seq<seq<Entry>>)
    ensures Flat([first] + rest) == first + Flat(rest)
  {
    assert ([first] + rest)[1..] == rest;
  }

  // One call of poll_next for each generation, and one rotation for each call: its
  // survivors join those carried over at the back, and the whole rotates left by one.
  function PoolOrder(carried: seq<Entry>, generations: seq<seq<Entry>>): seq<Entry>
    decreases |generations|
  {
    if generations == [] then carried
    else PoolOrder(RotateLeft(carried + Survivors(generations[0])), generations[1..])
  }

  lemma {:induction false} CycleOrder(carried: seq<Entry>, batch: seq<Entry>, env: Env)
    requires env.incoming == []
    ensures Cycle(carried, batch, env).pool == PoolOrder(carried, Generations(batch, |env.born|))
    decreases TotalWeight(batch)
  {
    var r := PollAll(batch, env);
    var generations := Generations(batch, |env.born|);
    PollAllKeepsSurvivors(batch, env);
    PollAllNext(batch, env);
    if r.env.incoming == [] {
      assert generations[1..] == [];
    } else {
      PollAllUsesWeight(batch, env);
      NoTasksNoSpawns(batch, env);
      CycleOrder(RotateLeft(carried + r.kept), r.env.incoming, Drained(r.env));
      assert generations[1..] == Generations(r.env.incoming, |r.env.born|);
    }
  }

  lemma {:induction false} GenerationsBirths(carried: seq<Entry>, batch: seq<Entry>, env: Env)
    requires env.incoming == []
    ensures var s := Cycle(carried, batch, env);
      env.born <= s.env.born && Flat(Generations(batch, |env.born|)) == batch + Births(s.env.born, |env.born|)
    decreases TotalWeight(batch)
  {
    var r := PollAll(batch, env);
    PollAllNext(batch, env);
    PollAllSpawns(batch, env);
    if r.env.incoming == [] {
      FlatCons(batch, []);
      assert [batch] + [] == [batch];
    } else {
      var pool := RotateLeft(carried + r.kept);
      PollAllUsesWeight(batch, env);
      NoTasksNoSpawns(batch, env);
      GenerationsBirths(pool, r.env.incoming, Drained(r.env));
      BirthsChain(env.born, r.env.born, Cycle(pool, r.env.incoming, Drained(r.env)).env.born);
      FlatCons(batch, Generations(r.env.incoming, |r.env.born|));
    }
  }

  // The rotation law, for every run.
  lemma RotationLaw(s: Sched)
    ensures Run(s).pool == PoolOrder([], Generations(Todo(s), |s.env.born|))
    ensures Offspring(Todo(s)) == [] ==> Run(s).pool == RotateLeft(Survivors(Todo(s)))
  {
    CycleOrder([], Todo(s), Drained(s.env));
    assert [] + Survivors(Todo(s)) == Survivors(Todo(s));
    if Offspring(Todo(s)) == [] {
      var generations := Generations(Todo(s), |s.env.born|);
      assert generations == [Todo(s)] && generations[1..] == [];
    }
  }

  // Where a rotation by one takes place x of n.
  function Place(x: nat, n: nat): nat {
    if x > 0 then x - 1 else if n == 0 then 0 else n - 1
  }

  // Where the first task left over ends up, from the numbers of tasks that each
  // generation leaves.
  function FirstPlace(x: nat, count: nat, left: seq<nat>): nat
    decreases |left|
  {
    if left == [] then x else FirstPlace(Place(x, count + left[0]), count + left[0], left[1..])
  }

  function Sizes(generations: seq<seq<Entry>>): seq<nat> {
    if generations == [] then [] else [|Survivors(generations[0])|] + Sizes(generations[1..])
  }

  ghost predicate AtPlace(es: seq<Entry>, x: nat, first: Entry) {
    es != [] ==> x < |es| && es[x] == first
  }

  lemma OneRotation(all: seq<Entry>, first: Entry, x: nat)
    requires AtPlace(all, x, first) && (all == [] ==> x == 0)
    ensures AtPlace(RotateLeft(all), Place(x, |all|), first) && (all == [] ==> Place(x, |all|) == 0)
    ensures |RotateLeft(all)| == |all|
  {
  }

  lemma FirstJoins(carried: seq<Entry>, left: seq<Entry>, later: seq<Entry>, first: Entry, x: nat)
    requires AtPlace(carried, x, first) && (carried == [] ==> x == 0 && AtPlace(left + later, 0, first))
    ensures AtPlace(carried + left, x, first)
    ensures carried + left == [] ==> x == 0 && AtPlace(later, 0, first)
  {
    assert left == [] ==> left + later == later;
  }

  lemma NextPlace(carried: seq<Entry>, generations: seq<seq<Entry>>, x: nat)
    requires generations != []
    ensures var all := carried + Survivors(generations[0]);
      && PoolOrder(carried, generations) == PoolOrder(RotateLeft(all), generations[1..])
      && FirstPlace(x, |carried|, Sizes(generations)) == FirstPlace(Place(x, |all|), |all|, Sizes(generations[1..]))
      && Survivors(Flat(generations)) == Survivors(generations[0]) + Survivors(Flat(generations[1..]))
  {
    assert Sizes(generations)[1..] == Sizes(generations[1..]);
    SurvivorsConcat(generations[0], Flat(generations[1..]));
  }

  lemma {:induction false} FirstMoves(carried: seq<Entry>, generations: seq<seq<Entry>>, first: Entry, x: nat)
    requires AtPlace(carried, x, first)
    requires carried == [] ==> x == 0 && AtPlace(Survivors(Flat(generations)), 0, first)
    ensures AtPlace(PoolOrder(carried, generations), FirstPlace(x, |carried|, Sizes(generations)), first)
    decreases |generations|
  {
    if generations != [] {
      NextPlace(carried, generations, x);
      var left, rest := Survivors(generations[0]), generations[1..];
      FirstJoins(carried, left, Survivors(Flat(rest)), first, x);
      OneRotation(carried + left, first, x);
      FirstMoves(RotateLeft(carried + left), rest, first, Place(x, |carried + left|));
    }
  }

  // The first task left over, in the order of the polls, is in this place of the pool.
  ghost function PlaceOfFirst(s: Sched): nat {
    FirstPlace(0, 0, Sizes(Generations(Todo(s), |s.env.born|)))
  }

  lemma FirstLeftOver(s: Sched)
    requires Run(s).pool != []
    ensures s.env.born <= Run(s).env.born
    ensures var left := Survivors(Todo(s) + Births(Run(s).env.born, |s.env.born|));
      left != [] && PlaceOfFirst(s) < |Run(s).pool| && Run(s).pool[PlaceOfFirst(s)] == left[0]
  {
    PoolAfterRun(s);
    RotationLaw(s);
    GenerationsBirths([], Todo(s), Drained(s.env));
    var left := Survivors(Todo(s) + Births(Run(s).env.born, |s.env.born|));
    assert Run(s).pool[0] in multiset(left);
    FirstMoves([], Generations(Todo(s), |s.env.born|), left[0], 0);
  }

  function Upto(from: nat, n: nat): seq<nat>
    decreases n
  {
    if n == 0 then [] else [from] + Upto(from + 1, n - 1)
  }

  lemma {:induction false} UptoAt(from: nat, n: nat)
    ensures |Upto(from, n)| == n && forall i :: 0 <= i < n ==> Upto(from, n)[i] == from + i
    decreases n
  {
    if n > 0 {
      UptoAt(from + 1, n - 1);
    }
  }

  // The same rotations, of the places that the tasks left over have in the order of
  // their polls, from the numbers of tasks that each generation leaves.
  function Places(places: seq<nat>, next: nat, left: seq<nat>): seq<nat>
    decreases |left|
  {
    if left == [] then places
    else Places(RotateLeft(places + Upto(next, left[0])), next + left[0], left[1..])
  }

  // The entries of `all` at some places, in the order of the places.
  function Pick(places: seq<nat>, all: seq<Entry>): seq<Entry> {
    if places == [] then []
    else (if places[0] < |all| then [all[places[0]]] else []) + Pick(places[1..], all)
  }

  lemma {:induction false} PickConcat(a: seq<nat>, b: seq<nat>, all: seq<Entry>)
    ensures Pick(a + b, all) == Pick(a, all) + Pick(b, all)
  {
    if a == [] {
      assert a + b == b;
    } else {
      assert (a + b)[1..] == a[1..] + b && (a + b)[0] == a[0];
      PickConcat(a[1..], b, all);
      Associative(if a[0] < |all| then [all[a[0]]] else [], Pick(a[1..], all), Pick(b, all));
    }
  }

  // All places are in the list: then nothing is left out.
  predicate Within(places: seq<nat>, n: nat) {
    places == [] || (places[0] < n && Within(places[1..], n))
  }

  lemma {:induction false} WithinConcat(a: seq<nat>, b: seq<nat>, n: nat)
    ensures Within(a + b, n) <==> Within(a, n) && Within(b, n)
  {
    if a == [] {
      assert a + b == b;
    } else {
      assert (a + b)[1..] == a[1..] + b && (a + b)[0] == a[0];
      WithinConcat(a[1..], b, n);
    }
  }

  lemma {:induction false} PickAt(places: seq<nat>, all: seq<Entry>)
    requires Within(places, |all|)
    ensures |Pick(places, all)| == |places|
    ensures forall i :: 0 <= i < |places| ==> places[i] < |all| && Pick(places, all)[i] == all[places[i]]
  {
    if places != [] {
      PickAt(places[1..], all);
    }
  }

  lemma PickRotated(places: seq<nat>, all: seq<Entry>)
    requires Within(places, |all|)
    ensures Within(RotateLeft(places), |all|) && Pick(RotateLeft(places), all) == RotateLeft(Pick(places, all))
  {
    if places != [] {
      PickConcat(places[1..], [places[0]], all);
      WithinConcat(places[1..], [places[0]], |all|);
      assert Pick([places[0]][1..], all) == [];
      assert Pick(places, all)[1..] == Pick(places[1..], all);
    }
  }

  lemma {:induction false} PickUpto(done: seq<Entry>, more: seq<Entry>, later: seq<Entry>)
    ensures var places, all := Upto(|done|, |more|), done + more + later;
      Within(places, |all|) && Pick(places, all) == more
    decreases |more|
  {
    if more != [] {
      assert done + [more[0]] + more[1..] + later == done + more + later;
      PickUpto(done + [more[0]], more[1..], later);
      assert Upto(|done|, |more|)[1..] == Upto(|done| + 1, |more| - 1);
    }
  }

  // What each generation leaves.
  function Lefts(generations: seq<seq<Entry>>): seq<seq<Entry>> {
    if generations == [] then [] else [Survivors(generations[0])] + Lefts(generations[1..])
  }

  function Rotations(carried: seq<Entry>, lefts: seq<seq<Entry>>): seq<Entry>
    decreases |lefts|
  {
    if lefts == [] then carried else Rotations(RotateLeft(carried + lefts[0]), lefts[1..])
  }

  function Lengths(lefts: seq<seq<Entry>>): seq<nat> {
    if lefts == [] then [] else [|lefts[0]|] + Lengths(lefts[1..])
  }

  lemma {:induction false} LeftsOf(generations: seq<seq<Entry>>)
    ensures Flat(Lefts(generations)) == Survivors(Flat(generations))
    ensures Lengths(Lefts(generations)) == Sizes(generations)
  {
    if generations != [] {
      LeftsOf(generations[1..]);
      FlatCons(Survivors(generations[0]), Lefts(generations[1..]));
      SurvivorsConcat(generations[0], Flat(generations[1..]));
      assert Lefts(generations)[1..] == Lefts(generations[1..]);
    }
  }

  lemma {:induction false} PoolRotations(carried: seq<Entry>, generations: seq<seq<Entry>>)
    ensures PoolOrder(carried, generations) == Rotations(carried, Lefts(generations))
    decreases |generations|
  {
    if generations != [] {
      PoolRotations(RotateLeft(carried + Survivors(generations[0])), generations[1..]);
      assert Lefts(generations)[1..] == Lefts(generations[1..]);
    }
  }

  // One generation on: its survivors are the next ones in the order of the polls.
  lemma GenerationPicked(places: seq<nat>, done: seq<Entry>, left: seq<Entry>, later: seq<Entry>)
    requires Within(places, |done + left + later|)
    ensures var places', all := RotateLeft(places + Upto(|done|, |left|)), done + left + later;
      Within(places', |all|) && Pick(places', all) == RotateLeft(Pick(places, all) + left)
  {
    var all := done + left + later;
    PickUpto(done, left, later);
    PickConcat(places, Upto(|done|, |left|), all);
    WithinConcat(places, Upto(|done|, |left|), |all|);
    PickRotated(places + Upto(|done|, |left|), all);
  }

  lemma {:induction false} PoolPicked(places: seq<nat>, done: seq<Entry>, lefts: seq<seq<Entry>>, all: seq<Entry>)
    requires all == done + Flat(lefts) && Within(places, |all|)
    ensures EndPicked(places, |done|, Pick(places, all), lefts, all)
    decreases |lefts|
  {
    if lefts != [] {
      Associative(done, lefts[0], Flat(lefts[1..]));
      GenerationPicked(places, done, lefts[0], Flat(lefts[1..]));
      PoolPicked(RotateLeft(places + Upto(|done|, |lefts[0]|)), done + lefts[0], lefts[1..], all);
      EndPickedOn(places, |done|, Pick(places, all), lefts, all);
    }
  }

  ghost predicate EndPicked(places: seq<nat>, next: nat, carried: seq<Entry>, lefts: seq<seq<Entry>>, all: seq<Entry>) {
    var ends := Places(places, next, Lengths(lefts));
    Within(ends, |all|) && Pick(ends, all) == Rotations(carried, lefts)
  }

  lemma EndPickedOn(places: seq<nat>, next: nat, carried: seq<Entry>, lefts: seq<seq<Entry>>, all: seq<Entry>)
    requires lefts != []
    requires EndPicked(RotateLeft(places + Upto(next, |lefts[0]|)), next + |lefts[0]|, RotateLeft(carried + lefts[0]),
                       lefts[1..], all)
    ensures EndPicked(places, next, carried, lefts, all)
  {
    assert Lengths(lefts)[1..] == Lengths(lefts[1..]);
  }

  // For every entry of the pool, its place among the tasks left over in the order of
  // their polls.
  ghost function PoolPlaces(s: Sched): seq<nat> {
    Places([], 0, Sizes(Generations(Todo(s), |s.env.born|)))
  }

  lemma PoolByPlaces(s: Sched)
    ensures s.env.born <= Run(s).env.born
    ensures var left := Survivors(Todo(s) + Births(Run(s).env.born, |s.env.born|));
      && |PoolPlaces(s)| == |Run(s).pool| == |left|
      && forall i :: 0 <= i < |PoolPlaces(s)| ==> PoolPlaces(s)[i] < |left| && Run(s).pool[i] == left[PoolPlaces(s)[i]]
  {
    RotationLaw(s);
    GenerationsBirths([], Todo(s), Drained(s.env));
    var left := Survivors(Todo(s) + Births(Run(s).env.born, |s.env.born|));
    var generations := Generations(Todo(s), |s.env.born|);
    LeftsOf(generations);
    PoolRotations([], generations);
    assert [] + left == left;
    PoolPicked([], [], Lefts(generations), left);
    PickAt(PoolPlaces(s), left);
    PoolAfterRun(s);
    assert |multiset(Run(s).pool)| == |multiset(left)|;
  }

  // In general the pool after a run holds the survivors of all its polls.
  lemma {:induction false} CyclePool(carried: seq<Entry>, batch: seq<Entry>, env: Env)
    requires env.incoming == []
    ensures var s := Cycle(carried, batch, env);
      env.born <= s.env.born &&
      multiset(s.pool) == multiset(carried) + multiset(Survivors(batch + Births(s.env.born, |env.born|)))
    decreases TotalWeight(batch)
  {
    var r := PollAll(batch, env);
    var pool := RotateLeft(carried + r.kept);
    PollAllSpawns(batch, env);
    PollAllKeepsSurvivors(batch, env);
    RotateMultiset(carried + r.kept);
    if r.env.incoming == [] {
      assert batch + [] == batch;
    } else {
      PollAllUsesWeight(batch, env);
      NoTasksNoSpawns(batch, env);
      CyclePool(pool, r.env.incoming, Drained(r.env));
      var s := Cycle(pool, r.env.incoming, Drained(r.env));
      BirthsChain(env.born, r.env.born, s.env.born);
      PoolOn(carried, batch, pool, s.pool, r.env.incoming + Births(s.env.born, |r.env.born|));
    }
  }

  lemma PollAllSpawns(batch: seq<Entry>, env: Env)
    requires env.incoming == []
    ensures var r := PollAll(batch, env);
      && env.born <= r.env.born
      && r.env.incoming == Births(r.env.born, |env.born|)
      && (r.env.incoming == [] <==> r.env.born == env.born)
  {
    PollAllExactly(batch, env);
    BirthsLength(PollAll(batch, env).env.born, |env.born|);
  }

  lemma PoolOn(carried: seq<Entry>, batch: seq<Entry>, mid: seq<Entry>, pool: seq<Entry>, more: seq<Entry>)
    requires multiset(mid) == multiset(carried + Survivors(batch))
    requires multiset(pool) == multiset(mid) + multiset(Survivors(more))
    ensures multiset(pool) == multiset(carried) + multiset(Survivors(batch + more))
  {
    SurvivorsConcat(batch, more);
  }

  lemma RotateMultiset<T>(s: seq<T>)
    ensures multiset(RotateLeft(s)) == multiset(s)
  {
    if s != [] {
      assert s == [s[0]] + s[1..];
    }
  }

  lemma {:induction false} SurvivorsConcat(a: seq<Entry>, b: seq<Entry>)
    ensures Survivors(a + b) == Survivors(a) + Survivors(b)
  {
    if a == [] {
      assert a + b == b;
    } else {
      assert (a + b)[1..] == a[1..] + b && (a + b)[0] == a[0];
      SurvivorsConcat(a[1..], b);
      var r := Rest(a[0].body);
      Associative(if r == None then [] else [Entry(a[0].id, r.value)], Survivors(a[1..]), Survivors(b));
    }
  }

  lemma PoolAfterRun(s: Sched)
    ensures var s' := Run(s);
      s.env.born <= s'.env.born &&
      multiset(s'.pool) == multiset(Survivors(Todo(s) + Births(s'.env.born, |s.env.born|)))
  {
    CyclePool([], Todo(s), Drained(s.env));
  }

  // ---------------------------------------------------------- run_blocking

  lemma {:induction false} CycleUsesWeight(carried: seq<Entry>, batch: seq<Entry>, env: Env)
    requires env.incoming == []
    ensures TotalWeight(Cycle(carried, batch, env).pool) + |batch| <= TotalWeight(carried) + TotalWeight(batch)
    decreases TotalWeight(batch)
  {
    var r := PollAll(batch, env);
    PollAllUsesWeight(batch, env);
    TotalWeightConcat(carried, r.kept);
    RotateWeight(carried + r.kept);
    if r.env.incoming != [] {
      NoTasksNoSpawns(batch, env);
      CycleUsesWeight(RotateLeft(carried + r.kept), r.env.incoming, Drained(r.env));
    }
  }

  lemma RotateWeight(es: seq<Entry>)
    ensures TotalWeight(RotateLeft(es)) == TotalWeight(es)
  {
    if es != [] {
      TotalWeightConcat(es[1..], [es[0]]);
      assert TotalWeight([es[0]][1..]) == 0;
    }
  }

  lemma RunUsesWeight(s: Sched)
    ensures TotalWeight(Run(s).pool) + |Todo(s)| <= TotalWeight(Todo(s))
    ensures Run(s).pool != [] ==> Todo(s) != [] && TotalWeight(Todo(Run(s))) < TotalWeight(Todo(s))
  {
    CycleUsesWeight([], Todo(s), Drained(s.env));
    ExactlyOncePerRun(s);
    assert Todo(Run(s)) == Run(s).pool;
    if Todo(s) == [] {
      assert PollAll([], Drained(s.env)) == Pass([], Drained(s.env));
    }
  }

  // Cosync::run_blocking: poll_pool until it returns `Ready`.
  ghost function RunBlocking(s: Sched): Sched
    decreases TotalWeight(Todo(s))
  {
    var s' := Run(s);
    if s'.pool == [] then s'
    else
      RunUsesWeight(s);
      RunBlocking(s')
  }

  lemma RunBlockingStep(s: Sched)
    ensures Run(s).pool == [] ==> RunBlocking(s) == Run(s)
    ensures Run(s).pool != [] ==>
      RunBlocking(s) == RunBlocking(Run(s)) && TotalWeight(Todo(Run(s))) < TotalWeight(Todo(s))
  {
    RunUsesWeight(s);
  }

  // run_blocking as a whole: nothing is left, and every task that was there or was
  // spawned has completed.
  lemma {:induction false} RunBlockingCompletes(s: Sched)
    ensures var s' := RunBlocking(s);
      && Todo(s') == [] && s.env.born <= s'.env.born
      && s'.env.completed + |s.env.born| == s.env.completed + |Todo(s)| + |s'.env.born|
    decreases TotalWeight(Todo(s))
  {
    ExactlyOncePerRun(s);
    RunBlockingStep(s);
    if Run(s).pool != [] {
      RunBlockingCompletes(Run(s));
    }
  }

  ghost function RunTimes(s: Sched, n: nat): Sched
    decreases n
  {
    if n == 0 then s else RunTimes(Run(s), n - 1)
  }

  // run_blocking always ends, with pool and `incoming` empty, and is the same as
  // calling run again and again until is_empty: same parameter, same history.  It
  // takes no more calls than the total weight.
  lemma {:induction false} RunBlockingIsIteratedRun(s: Sched) returns (n: nat)
    ensures 1 <= n <= TotalWeight(Todo(s)) + 1
    ensures RunBlocking(s) == RunTimes(s, n) && Todo(RunBlocking(s)) == []
    ensures forall m :: 1 <= m < n ==> Todo(RunTimes(s, m)) != []
    decreases TotalWeight(Todo(s))
  {
    var s' := Run(s);
    ExactlyOncePerRun(s);
    n := 1;
    if s'.pool == [] {
      assert RunTimes(s', 0) == s';
    } else {
      RunUsesWeight(s);
      var k := RunBlockingIsIteratedRun(s');
      n := k + 1;
      forall m | 1 <= m < n ensures Todo(RunTimes(s, m)) != [] {
        assert RunTimes(s, m) == RunTimes(s', m - 1);
        if m == 1 {
          assert RunTimes(s', 0) == s';
        }
      }
    }
  }

  // -------------------------------------------------------- the contract

  lemma {:induction false} PollAllObeys(es: seq<Entry>, env: Env)
    requires AllWake(es) && AllWake(env.incoming)
    ensures var r := PollAll(es, env); AllWake(r.kept) && AllWake(r.env.incoming)
  {
    if es != [] {
      PollKeepsContract(es[0].id, es[0].body, Logged(env, es[0]), false);
      PollAllObeys(es[1..], PollEntry(es[0], env).env);
    }
  }

  lemma {:induction false} CycleObeys(carried: seq<Entry>, batch: seq<Entry>, env: Env)
    requires env.incoming == [] && AllWake(carried) && AllWake(batch)
    ensures Obeying(Cycle(carried, batch, env))
    decreases TotalWeight(batch)
  {
    var r := PollAll(batch, env);
    PollAllObeys(batch, env);
    if r.env.incoming != [] {
      PollAllUsesWeight(batch, env);
      NoTasksNoSpawns(batch, env);
      CycleObeys(RotateLeft(carried + r.kept), r.env.incoming, Drained(r.env));
    }
  }

  // A run keeps the contract.
  lemma RunObeys(s: Sched)
    requires Obeying(s)
    ensures Obeying(Run(s))
  {
    CycleObeys([], Todo(s), Drained(s.env));
  }
}
