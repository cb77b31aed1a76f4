// Runs of any tasks, also of those that break the waking contract: a task whose poll
// returns `Pending` without a wake falls asleep, and stays in the set, unpolled, until
// somebody wakes it (src/lib.rs, src/futures/futures_unordered.rs).
module Sleeping {
  import opened Wrappers
  import opened Programs
  import opened PollCycle
  import opened Scheduling

  function LeftBy(e: Entry): seq<Entry> {
    if Rest(e.body).Some? then [Entry(e.id, Rest(e.body).value)] else []
  }

  // What one poll of each of some tasks leaves: the tasks that are pending and woken ...
  function Awake(es: seq<Entry>): seq<Entry> {
    if es == [] then [] else (if CallsWaker(es[0].body) then LeftBy(es[0]) else []) + Awake(es[1..])
  }

  // ... and those that are pending and asleep.
  function Dozing(es: seq<Entry>): seq<Entry> {
    if es == [] then [] else (if CallsWaker(es[0].body) then [] else LeftBy(es[0])) + Dozing(es[1..])
  }

  // With nothing carried over, poll_next comes back from these tasks: none of them is
  // pending and woken, or the first pending one is.
  predicate ComesBack(es: seq<Entry>) {
    || Awake(es) == []
    || (es != [] && if Rest(es[0].body) == None then ComesBack(es[1..]) else CallsWaker(es[0].body))
  }

  // What a run leaves, and the tasks that fall asleep in it.
  datatype Left = Left(sched: Sched, slept: seq<Entry>)

  ghost function MixedCycle(carried: seq<Entry>, batch: seq<Entry>, env: Env): Left
    requires env.incoming == []
    decreases TotalWeight(batch)
  {
    var r := PollAll(batch, env);
    var pool := RotateLeft(carried + Awake(batch));
    if r.env.incoming == [] then Left(Sched(pool, r.env), Dozing(batch))
    else
      PollAllUsesWeight(batch, env);
      NoTasksNoSpawns(batch, env);
      var later := MixedCycle(pool, r.env.incoming, Drained(r.env));
      later.(slept := Dozing(batch) + later.slept)
  }

  // Every poll_next of the run comes back.
  ghost predicate CycleReturns(carried: seq<Entry>, batch: seq<Entry>, env: Env)
    requires env.incoming == []
    decreases TotalWeight(batch)
  {
    var r := PollAll(batch, env);
    && (carried != [] || ComesBack(batch))
    && if r.env.incoming == [] then true
       else
         PollAllUsesWeight(batch, env);
         NoTasksNoSpawns(batch, env);
         CycleReturns(RotateLeft(carried + Awake(batch)), r.env.incoming, Drained(r.env))
  }

  // Cosync::run.
  ghost function MixedRun(s: Sched): Left {
    MixedCycle([], Todo(s), Drained(s.env))
  }

  ghost predicate RunReturns(s: Sched) {
    CycleReturns([], Todo(s), Drained(s.env))
  }

  // ------------------------------------------------- what is polled, and what is left

  // Who is polled does not depend on who is asleep afterwards.
  lemma {:induction false} SamePolls(carried: seq<Entry>, carried': seq<Entry>, batch: seq<Entry>, env: Env)
    requires env.incoming == []
    ensures MixedCycle(carried, batch, env).sched.env == Cycle(carried', batch, env).env
    decreases TotalWeight(batch)
  {
    var r := PollAll(batch, env);
    if r.env.incoming != [] {
      PollAllUsesWeight(batch, env);
      NoTasksNoSpawns(batch, env);
      SamePolls(RotateLeft(carried + Awake(batch)), RotateLeft(carried' + r.kept), r.env.incoming, Drained(r.env));
    }
  }

  lemma {:induction false} SplitSurvivors(es: seq<Entry>)
    ensures multiset(Awake(es)) + multiset(Dozing(es)) == multiset(Survivors(es))
  {
    if es != [] {
      SplitSurvivors(es[1..]);
    }
  }

  lemma {:induction false} MixedSurvivors(carried: seq<Entry>, batch: seq<Entry>, env: Env)
    requires env.incoming == []
    ensures var l := MixedCycle(carried, batch, env);
      && env.born <= l.sched.env.born
      && multiset(l.sched.pool) + multiset(l.slept)
         == multiset(carried) + multiset(Survivors(batch + Births(l.sched.env.born, |env.born|)))
    decreases TotalWeight(batch)
  {
    var r := PollAll(batch, env);
    var pool := RotateLeft(carried + Awake(batch));
    PollAllSpawns(batch, env);
    SplitSurvivors(batch);
    RotateMultiset(carried + Awake(batch));
    if r.env.incoming == [] {
      assert batch + [] == batch;
    } else {
      PollAllUsesWeight(batch, env);
      NoTasksNoSpawns(batch, env);
      MixedSurvivors(pool, r.env.incoming, Drained(r.env));
      var later := MixedCycle(pool, r.env.incoming, Drained(r.env));
      BirthsChain(env.born, r.env.born, later.sched.env.born);
      LaterSurvivors(carried, batch, later, r.env.incoming + Births(later.sched.env.born, |r.env.born|));
    }
  }

  lemma LaterSurvivors(carried: seq<Entry>, batch: seq<Entry>, later: Left, polled: seq<Entry>)
    requires multiset(later.sched.pool) + multiset(later.slept)
          == multiset(RotateLeft(carried + Awake(batch))) + multiset(Survivors(polled))
    ensures multiset(later.sched.pool) + multiset(Dozing(batch) + later.slept)
         == multiset(carried) + multiset(Survivors(batch + polled))
  {
    SplitSurvivors(batch);
    RotateMultiset(carried + Awake(batch));
    SurvivorsConcat(batch, polled);
    Sums(multiset(later.sched.pool), multiset(later.slept), multiset(carried), multiset(Awake(batch)),
         multiset(Dozing(batch)), multiset(Survivors(polled)));
  }

  lemma Sums<T>(pool: multiset<T>, slept: multiset<T>, carried: multiset<T>, awake: multiset<T>, dozing: multiset<T>,
                polled: multiset<T>)
    requires pool + slept == (carried + awake) + polled
    ensures pool + (dozing + slept) == carried + ((awake + dozing) + polled)
  {
    assert pool + (dozing + slept) == (pool + slept) + dozing;
    assert ((carried + awake) + polled) + dozing == carried + ((awake + dozing) + polled);
  }

  // A run of any tasks at all, if it returns: it polls every task of the pool, then
  // every incoming task, then every task spawned meanwhile, each exactly once and
  // nothing else; every task polled has completed, is in the pool, or is asleep.
  lemma MixedRunPolls(s: Sched)
    ensures var l := MixedRun(s);
            var s' := l.sched;
      && s.env.born <= s'.env.born && s'.env.incoming == []
      && PollsMade(s.env, s'.env, Todo(s) + Births(s'.env.born, |s.env.born|))
      && multiset(s'.pool) + multiset(l.slept) == multiset(Survivors(Todo(s) + Births(s'.env.born, |s.env.born|)))
      && s'.env.completed + |s'.pool| + |l.slept| == s.env.completed + |Todo(s)| + |s'.env.born| - |s.env.born|
  {
    SamePolls([], [], Todo(s), Drained(s.env));
    ExactlyOncePerRun(s);
    MixedSurvivors([], Todo(s), Drained(s.env));
    PoolAfterRun(s);
    var l := MixedRun(s);
    assert |multiset(l.sched.pool) + multiset(l.slept)| == |multiset(Run(s).pool)|;
  }

  lemma {:induction false} DozingConcat(a: seq<Entry>, b: seq<Entry>)
    ensures Dozing(a + b) == Dozing(a) + Dozing(b)
  {
    if a == [] {
      assert a + b == b;
    } else {
      assert (a + b)[1..] == a[1..] + b && (a + b)[0] == a[0];
      DozingConcat(a[1..], b);
      Associative(if CallsWaker(a[0].body) then [] else LeftBy(a[0]), Dozing(a[1..]), Dozing(b));
    }
  }

  lemma {:induction false} CycleSlept(carried: seq<Entry>, batch: seq<Entry>, env: Env)
    requires env.incoming == []
    ensures var l := MixedCycle(carried, batch, env);
      env.born <= l.sched.env.born && l.slept == Dozing(batch + Births(l.sched.env.born, |env.born|))
    decreases TotalWeight(batch)
  {
    var r := PollAll(batch, env);
    PollAllSpawns(batch, env);
    if r.env.incoming == [] {
      assert batch + [] == batch;
    } else {
      PollAllUsesWeight(batch, env);
      NoTasksNoSpawns(batch, env);
      var pool := RotateLeft(carried + Awake(batch));
      CycleSlept(pool, r.env.incoming, Drained(r.env));
      var later := MixedCycle(pool, r.env.incoming, Drained(r.env));
      BirthsChain(env.born, r.env.born, later.sched.env.born);
      DozingConcat(batch, r.env.incoming + Births(later.sched.env.born, |r.env.born|));
    }
  }

  // Those that fall asleep in a run are the tasks polled whose poll is pending without a
  // wake, in the order of the polls.
  lemma SleptInOrder(s: Sched)
    ensures var l := MixedRun(s);
      s.env.born <= l.sched.env.born && l.slept == Dozing(Todo(s) + Births(l.sched.env.born, |s.env.born|))
  {
    CycleSlept([], Todo(s), Drained(s.env));
  }

  // Who is left awake has called its waker in the run.
  lemma {:induction false} AwakeWakings(es: seq<Entry>)
    ensures |Awake(es)| <= Wakings(es)
  {
    if es != [] {
      AwakeWakings(es[1..]);
      WakingsConcat([es[0]], es[1..]);
      assert [es[0]] + es[1..] == es && [es[0]][..0] == [];
    }
  }

  lemma {:induction false} CycleWakings(carried: seq<Entry>, batch: seq<Entry>, env: Env)
    requires env.incoming == []
    ensures var l := MixedCycle(carried, batch, env);
      |l.sched.pool| + Wakings(env.polls) <= |carried| + Wakings(l.sched.env.polls)
    decreases TotalWeight(batch)
  {
    var r := PollAll(batch, env);
    PollAllExactly(batch, env);
    WakingsConcat(env.polls, batch);
    AwakeWakings(batch);
    if r.env.incoming != [] {
      PollAllUsesWeight(batch, env);
      NoTasksNoSpawns(batch, env);
      CycleWakings(RotateLeft(carried + Awake(batch)), r.env.incoming, Drained(r.env));
    }
  }

  lemma RunWakings(s: Sched)
    ensures var s' := MixedRun(s).sched; |s'.pool| + Wakings(s.env.polls) <= Wakings(s'.env.polls)
  {
    CycleWakings([], Todo(s), Drained(s.env));
  }

  // --------------------------------------------------- when every poll_next comes back

  // The same, from the bodies alone: in the first generation that leaves a task awake,
  // the first task left over is awake.
  predicate Returns(carrying: bool, generations: seq<seq<Entry>>)
    decreases |generations|
  {
    generations == [] ||
    ((carrying || ComesBack(generations[0])) && Returns(carrying || Awake(generations[0]) != [], generations[1..]))
  }

  lemma {:induction false} CycleReturnsExactly(carried: seq<Entry>, batch: seq<Entry>, env: Env)
    requires env.incoming == []
    ensures CycleReturns(carried, batch, env) <==> Returns(carried != [], Generations(batch, |env.born|))
    decreases TotalWeight(batch)
  {
    var r := PollAll(batch, env);
    var generations := Generations(batch, |env.born|);
    PollAllNext(batch, env);
    if r.env.incoming == [] {
      assert generations[1..] == [];
    } else {
      PollAllUsesWeight(batch, env);
      NoTasksNoSpawns(batch, env);
      CycleReturnsExactly(RotateLeft(carried + Awake(batch)), r.env.incoming, Drained(r.env));
      assert generations[1..] == Generations(r.env.incoming, |r.env.born|);
    }
  }

  // A run returns if and only if, in the first of its generations that leaves a task
  // awake, the first task left over is awake.
  lemma RunReturnsExactly(s: Sched)
    ensures RunReturns(s) <==> Returns(false, Generations(Todo(s), |s.env.born|))
  {
    CycleReturnsExactly([], Todo(s), Drained(s.env));
  }

  // ------------------------------------------------------------ under the contract

  predicate BodiesWake(bodies: seq<Body>) {
    forall i :: 0 <= i < |bodies| ==> WakesItself(bodies[i], false)
  }

  lemma BodiesWakeConcat(a: seq<Body>, b: seq<Body>)
    ensures BodiesWake(a + b) <==> BodiesWake(a) && BodiesWake(b)
  {
    if BodiesWake(a + b) {
      assert forall i :: 0 <= i < |a| ==> (a + b)[i] == a[i];
      assert forall i :: 0 <= i < |b| ==> (a + b)[|a| + i] == b[i];
    }
  }

  lemma AllWakeConcat(a: seq<Entry>, b: seq<Entry>)
    ensures AllWake(a + b) <==> AllWake(a) && AllWake(b)
  {
    if AllWake(a + b) {
      assert forall i :: 0 <= i < |a| ==> (a + b)[i] == a[i];
      assert forall i :: 0 <= i < |b| ==> (a + b)[|a| + i] == b[i];
    }
  }

  // The contract, poll by poll: if a poll pends it has woken its task, and what it
  // leaves and what it spawns keep the contract again.
  lemma {:induction false} ContractOfPoll(b: Body, woken: bool)
    ensures WakesItself(b, woken) <==>
      && (Rest(b).Some? ==> (woken || CallsWaker(b)) && WakesItself(Rest(b).value, false))
      && BodiesWake(FirstSpawns(b))
    decreases |b|
  {
    if b != [] {
      match b[0]
      case Act(_) => ContractOfPoll(b[1..], woken);
      case Spawn(body) =>
        ContractOfPoll(b[1..], woken);
        BodiesWakeConcat([body], FirstSpawns(b[1..]));
        assert BodiesWake([body]) <==> WakesItself([body][0], false);
      case Wake => ContractOfPoll(b[1..], true);
      case Sleep(ticks) =>
        if ticks == 0 { ContractOfPoll(b[1..], woken); } else { assert ([Sleep(ticks - 1)] + b[1..])[1..] == b[1..]; }
      case Yield(yielded) =>
        if yielded { ContractOfPoll(b[1..], woken); } else { assert ([Yield(true)] + b[1..])[1..] == b[1..]; }
      case Suspend(resumed) =>
        if resumed { ContractOfPoll(b[1..], woken); } else { assert ([Suspend(true)] + b[1..])[1..] == b[1..]; }
    }
  }

  // ... and task by task.
  lemma {:induction false} ContractOfPolls(es: seq<Entry>)
    ensures AllWake(es) <==> Dozing(es) == [] && AllWake(Awake(es)) && BodiesWake(Offspring(es))
  {
    if es != [] {
      var e, t := es[0], es[1..];
      assert es == [e] + t;
      AllWakeConcat([e], t);
      assert AllWake([e]) <==> WakesItself([e][0].body, false);
      ContractOfPoll(e.body, false);
      ContractOfPolls(t);
      AllWakeConcat(if CallsWaker(e.body) then LeftBy(e) else [], Awake(t));
      BodiesWakeConcat(FirstSpawns(e.body), Offspring(t));
      assert Rest(e.body).Some? ==> (AllWake(LeftBy(e)) <==> WakesItself(LeftBy(e)[0].body, false));
    }
  }

  lemma {:induction false} NumberedWake(bodies: seq<Body>, n: nat)
    ensures AllWake(Numbered(bodies, n)) <==> BodiesWake(bodies)
  {
    if bodies != [] {
      NumberedWake(bodies[1..], n + 1);
      BodiesWakeConcat([bodies[0]], bodies[1..]);
      assert bodies == [bodies[0]] + bodies[1..];
      assert BodiesWake([bodies[0]]) <==> WakesItself([bodies[0]][0], false);
      var first := [Entry(IdOf(n), bodies[0])];
      AllWakeConcat(first, Numbered(bodies[1..], n + 1));
      assert AllWake(first) <==> WakesItself(first[0].body, false);
    }
  }

  lemma RotatedWake(es: seq<Entry>)
    ensures AllWake(RotateLeft(es)) <==> AllWake(es)
  {
    if es != [] {
      assert es == [es[0]] + es[1..];
      AllWakeConcat([es[0]], es[1..]);
      AllWakeConcat(es[1..], [es[0]]);
    }
  }

  // A run leaves nobody asleep and only tasks that keep the contract, if and only if it
  // began with such tasks only.
  lemma {:induction false} CycleContract(carried: seq<Entry>, batch: seq<Entry>, env: Env)
    requires env.incoming == []
    ensures var l := MixedCycle(carried, batch, env);
      AllWake(carried) && AllWake(batch) <==> l.slept == [] && AllWake(l.sched.pool)
    decreases TotalWeight(batch)
  {
    var r := PollAll(batch, env);
    PollAllNext(batch, env);
    NumberedWake(Offspring(batch), |env.born|);
    ContractOfPolls(batch);
    RotatedWake(carried + Awake(batch));
    AllWakeConcat(carried, Awake(batch));
    if r.env.incoming != [] {
      PollAllUsesWeight(batch, env);
      NoTasksNoSpawns(batch, env);
      CycleContract(RotateLeft(carried + Awake(batch)), r.env.incoming, Drained(r.env));
    }
  }

  lemma {:induction false} NobodyDozes(es: seq<Entry>)
    requires Dozing(es) == []
    ensures Awake(es) == Survivors(es) && ComesBack(es)
  {
    if es != [] {
      assert (if CallsWaker(es[0].body) then [] else LeftBy(es[0])) == [] && Dozing(es[1..]) == [];
      NobodyDozes(es[1..]);
    }
  }

  // A run in which nobody falls asleep returns, and is the run of Scheduling.
  lemma {:induction false} CycleAwake(carried: seq<Entry>, batch: seq<Entry>, env: Env)
    requires env.incoming == [] && MixedCycle(carried, batch, env).slept == []
    ensures MixedCycle(carried, batch, env).sched == Cycle(carried, batch, env) && CycleReturns(carried, batch, env)
    decreases TotalWeight(batch)
  {
    var r := PollAll(batch, env);
    if r.env.incoming != [] {
      PollAllUsesWeight(batch, env);
      NoTasksNoSpawns(batch, env);
      NobodyDozes(batch);
      PollAllKeepsSurvivors(batch, env);
      CycleAwake(RotateLeft(carried + Awake(batch)), r.env.incoming, Drained(r.env));
    } else {
      NobodyDozes(batch);
      PollAllKeepsSurvivors(batch, env);
    }
  }

  lemma ContractRun(s: Sched)
    ensures var l := MixedRun(s);
      && (AllWake(Todo(s)) <==> l.slept == [] && AllWake(Todo(l.sched)))
      && (l.slept == [] ==> l.sched == Run(s) && RunReturns(s))
  {
    CycleContract([], Todo(s), Drained(s.env));
    MixedRunPolls(s);
    assert Todo(MixedRun(s).sched) == MixedRun(s).sched.pool;
    if MixedRun(s).slept == [] {
      CycleAwake([], Todo(s), Drained(s.env));
    }
  }

  // ----------------------------------------------------------------- run_blocking

  // run_blocking comes to its end within n + 1 runs, beginning with these tasks asleep.
  ghost predicate BlockingEnds(s: Sched, asleep: seq<Entry>, n: nat)
    decreases n
  {
    RunReturns(s) &&
    var l := MixedRun(s);
    || (l.sched.pool == [] && asleep + l.slept == [])
    || (n > 0 && BlockingEnds(l.sched, asleep + l.slept, n - 1))
  }

  // With nobody else to wake tasks, run_blocking returns if and only if all tasks keep
  // the waking contract and none is asleep.
  lemma BlockingReturnsExactly(s: Sched, asleep: seq<Entry>)
    ensures (exists n :: BlockingEnds(s, asleep, n)) <==> asleep == [] && AllWake(Todo(s))
  {
    if asleep == [] && AllWake(Todo(s)) {
      var n := ContractEnds(s);
      assert exists m :: BlockingEnds(s, [], m);
    } else {
      forall n ensures !BlockingEnds(s, asleep, n) {
        if BlockingEnds(s, asleep, n) {
          EndsUnderContract(s, asleep, n);
        }
      }
    }
  }

  lemma {:induction false} EndsUnderContract(s: Sched, asleep: seq<Entry>, n: nat)
    requires BlockingEnds(s, asleep, n)
    ensures asleep == [] && AllWake(Todo(s))
    decreases n
  {
    var l := MixedRun(s);
    ContractRun(s);
    MixedRunPolls(s);
    if l.sched.pool == [] && asleep + l.slept == [] {
      assert asleep == [] && l.slept == [];
    } else {
      EndsUnderContract(l.sched, asleep + l.slept, n - 1);
      assert asleep == [] && l.slept == [];
    }
  }

  lemma {:induction false} ContractEnds(s: Sched) returns (n: nat)
    requires AllWake(Todo(s))
    ensures BlockingEnds(s, [], n)
    decreases TotalWeight(Todo(s))
  {
    var l := MixedRun(s);
    ContractRun(s);
    assert [] + l.slept == [];
    n := 0;
    if l.sched.pool != [] {
      RunUsesWeight(s);
      var m := ContractEnds(l.sched);
      n := m + 1;
    }
  }
}
