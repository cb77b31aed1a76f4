// What `SerialCosync` does, on lists (src/serial.rs): one task at a time, each to
// its end before the next one starts.
module SerialScheduling {
  import opened Wrappers
  import opened Programs
  import opened Scheduling
  import opened Sleeping

  // SerialCosync::run.  The pool holds at most one task.
  ghost function SerialRun(s: Sched): Sched
    decreases TotalWeight(Todo(s)), |s.env.incoming|
  {
    var r := PollAll(s.pool, s.env);
    if r.kept != [] then Sched(r.kept, r.env)
    else if r.env.incoming == [] then Sched([], r.env)
    else
      var next := Sched([r.env.incoming[0]], r.env.(incoming := r.env.incoming[1..]));
      PollAllUsesWeight(s.pool, s.env);
      TotalWeightConcat(s.pool, s.env.incoming);
      assert Todo(next) == r.env.incoming;
      SerialRun(next)
  }

  // A task that is done makes room for the next one.
  lemma SerialRunStep(s: Sched)
    requires |s.pool| <= 1
    ensures var r := PollAll(s.pool, s.env);
      && |r.kept| <= 1
      && (r.kept != [] || r.env.incoming == [] ==> SerialRun(s) == Sched(r.kept, r.env))
      && (r.kept == [] && r.env.incoming != [] ==>
            var next := Sched([r.env.incoming[0]], r.env.(incoming := r.env.incoming[1..]));
            && SerialRun(s) == SerialRun(next)
            && (TotalWeight(Todo(next)) < TotalWeight(Todo(s))
                || (TotalWeight(Todo(next)) == TotalWeight(Todo(s)) && |next.env.incoming| < |s.env.incoming|)))
  {
    var r := PollAll(s.pool, s.env);
    EntryPassesPlan(s);
    PollAllUsesWeight(s.pool, s.env);
    TotalWeightConcat(s.pool, s.env.incoming);
    if r.kept == [] && r.env.incoming != [] {
      assert [r.env.incoming[0]] + r.env.incoming[1..] == r.env.incoming;
    }
  }

  // ------------------------------------------ the reference: one body after another

  // All updates of a body, awaits ignored.
  function AllActs(id: nat, b: Body): seq<Did> {
    if b == [] then []
    else (if b[0].Act? then [Did(id, b[0].update)] else []) + AllActs(id, b[1..])
  }

  // All tasks a body spawns, with the ids they get when `n` have been issued.
  function AllSpawns(b: Body, n: nat): seq<Entry> {
    if b == [] then []
    else if b[0].Spawn? then [Entry(IdOf(n), b[0].body)] + AllSpawns(b[1..], n + 1)
    else AllSpawns(b[1..], n)
  }

  lemma {:induction false} SpawnsWeight(b: Body, n: nat)
    ensures TotalWeight(AllSpawns(b, n)) < Weight(b)
    decreases |b|
  {
    if b != [] {
      SpawnsWeight(b[1..], if b[0].Spawn? then n + 1 else n);
      if b[0].Spawn? {
        var es := AllSpawns(b, n);
        assert es[1..] == AllSpawns(b[1..], n + 1);
      }
    }
  }

  // First come, first served: run the first body whole, put what it spawns at the
  // end of the line, go on with the next.
  ghost function Sequentially(line: seq<Entry>, n: nat): seq<Did>
    decreases TotalWeight(line)
  {
    if line == [] then []
    else
      var e := line[0];
      var spawned := AllSpawns(e.body, n);
      SpawnsWeight(e.body, n);
      TotalWeightConcat(line[1..], spawned);
      AllActs(e.id, e.body) + Sequentially(line[1..] + spawned, n + |spawned|)
  }

  // What is done and what is left to do.
  ghost function Plan(s: Sched): seq<Did> {
    s.env.acts + Sequentially(Todo(s), |s.env.born|)
  }

  // ------------------------------------------------------------ refinement

  function LeftOf(p: Polled): Body {
    if p.rest.Some? then p.rest.value else []
  }

  // One poll does the first part of its body and leaves the rest: its updates ...
  lemma {:induction false} PollSplitsActs(id: nat, b: Body, env: Env)
    ensures AllActs(id, b) == FirstActs(id, b) + AllActs(id, LeftOf(PollBody(id, b, env)))
    decreases |b|
  {
    if b != [] {
      match b[0]
      case Act(update) => PollSplitsActs(id, b[1..], Did1(env, id, update));
      case Spawn(body) => PollSplitsActs(id, b[1..], Enqueue(env, body));
      case Wake => PollSplitsActs(id, b[1..], env);
      case _ =>
        if PollBody(id, b, env) == PollBody(id, b[1..], env) {
          PollSplitsActs(id, b[1..], env);
        } else {
          AwaitLeft(id, b, LeftOf(PollBody(id, b, env))[0], 0);
        }
    }
  }

  // ... and its spawns.
  ghost predicate SpawnsSplit(b: Body, env: Env, p: Polled) {
    && |env.born| <= |p.env.born|
    && env.incoming + AllSpawns(b, |env.born|) == p.env.incoming + AllSpawns(LeftOf(p), |p.env.born|)
    && |env.born| + |AllSpawns(b, |env.born|)| == |p.env.born| + |AllSpawns(LeftOf(p), |p.env.born|)|
  }

  lemma {:induction false} PollSplitsSpawns(id: nat, b: Body, env: Env)
    ensures SpawnsSplit(b, env, PollBody(id, b, env))
    decreases |b|
  {
    if b != [] {
      match b[0]
      case Act(update) => PollSplitsSpawns(id, b[1..], Did1(env, id, update));
      case Spawn(body) =>
        var env1 := Enqueue(env, body);
        PollSplitsSpawns(id, b[1..], env1);
        assert env.incoming + AllSpawns(b, |env.born|) == env1.incoming + AllSpawns(b[1..], |env1.born|);
      case Wake => PollSplitsSpawns(id, b[1..], env);
      case _ =>
        if PollBody(id, b, env) == PollBody(id, b[1..], env) {
          PollSplitsSpawns(id, b[1..], env);
        } else {
          AwaitLeft(id, b, LeftOf(PollBody(id, b, env))[0], |env.born|);
        }
    }
  }

  lemma AwaitLeft(id: nat, b: Body, op: Op, n: nat)
    requires b != [] && !b[0].Act? && !b[0].Spawn? && !op.Act? && !op.Spawn?
    ensures AllActs(id, [op] + b[1..]) == AllActs(id, b) && AllSpawns([op] + b[1..], n) == AllSpawns(b, n)
  {
    assert ([op] + b[1..])[1..] == b[1..];
  }

  // A poll of the only task of the pool moves updates from the plan to the record.
  lemma PollKeepsPlan(e: Entry, env: Env)
    ensures var p := PollEntry(e, env);
            var left: seq<Entry> := if p.rest.Some? then [Entry(e.id, p.rest.value)] else [];
      Plan(Sched([e], env)) == Plan(Sched(left, p.env))
  {
    var env0 := Logged(env, e);
    var p := PollBody(e.id, e.body, env0);
    PollSplitsActs(e.id, e.body, env0);
    PollSplitsSpawns(e.id, e.body, env0);
    PollBodyHistory(e.id, e.body, env0);
    var n := |p.env.born| + |AllSpawns(LeftOf(p), |p.env.born|)|;
    var rest := Sequentially(p.env.incoming + AllSpawns(LeftOf(p), |p.env.born|), n);
    FirstInLine(e, env.incoming, |env.born|);
    Regroup(env.acts, FirstActs(e.id, e.body), AllActs(e.id, LeftOf(p)), rest);
    LeftInLine(e.id, p);
  }

  lemma Regroup<T>(a: seq<T>, b: seq<T>, c: seq<T>, d: seq<T>)
    ensures a + ((b + c) + d) == (a + b) + (c + d)
  {
  }

  // What a poll leaves stands at the head of the line.
  lemma LeftInLine(id: nat, p: Polled)
    ensures var left: seq<Entry> := if p.rest.Some? then [Entry(id, p.rest.value)] else [];
            var spawned := AllSpawns(LeftOf(p), |p.env.born|);
      Sequentially(left + p.env.incoming, |p.env.born|)
      == AllActs(id, LeftOf(p)) + Sequentially(p.env.incoming + spawned, |p.env.born| + |spawned|)
  {
    if p.rest.Some? {
      FirstInLine(Entry(id, p.rest.value), p.env.incoming, |p.env.born|);
    } else {
      assert p.env.incoming + [] == p.env.incoming && [] + p.env.incoming == p.env.incoming;
      var rest := Sequentially(p.env.incoming, |p.env.born|);
      assert [] + rest == rest;
    }
  }

  lemma FirstInLine(e: Entry, line: seq<Entry>, n: nat)
    ensures var spawned := AllSpawns(e.body, n);
      Sequentially([e] + line, n) == AllActs(e.id, e.body) + Sequentially(line + spawned, n + |spawned|)
  {
    assert ([e] + line)[1..] == line;
  }

  lemma EntryPassesPlan(s: Sched)
    requires |s.pool| <= 1
    ensures var r := PollAll(s.pool, s.env); |r.kept| <= 1 && Plan(s) == Plan(Sched(r.kept, r.env))
  {
    if s.pool != [] {
      var e := s.pool[0];
      assert s.pool == [e] && s.pool[1..] == [];
      PollKeepsPlan(e, s.env);
      var p := PollEntry(e, s.env);
      assert PollAll([], p.env) == Pass([], p.env);
      assert p.rest.Some? ==> [Entry(e.id, p.rest.value)] + [] == [Entry(e.id, p.rest.value)];
    }
  }

  // SerialCosync refines running whole bodies one after another: every run keeps
  // the plan (updates made so far, then those of the first-come-first-served
  // sequence of what is left), leaves at most one task in the pool, and leaves the
  // pool empty only when nothing is left at all.
  lemma {:induction false} SerialRefinesSequence(s: Sched)
    requires |s.pool| <= 1
    ensures var s' := SerialRun(s);
      && |s'.pool| <= 1
      && Plan(s') == Plan(s)
      && (s'.pool == [] ==> Todo(s') == [] && s'.env.acts == Plan(s))
    decreases TotalWeight(Todo(s)), |s.env.incoming|
  {
    var r := PollAll(s.pool, s.env);
    EntryPassesPlan(s);
    if r.kept == [] && r.env.incoming != [] {
      var next := Sched([r.env.incoming[0]], r.env.(incoming := r.env.incoming[1..]));
      PollAllUsesWeight(s.pool, s.env);
      TotalWeightConcat(s.pool, s.env.incoming);
      assert Todo(next) == r.env.incoming == Todo(Sched([], r.env));
      SerialRefinesSequence(next);
    }
  }

  // Every poll completes but the last one, and that one does exactly if `empty`.
  ghost predicate LastPends(polls: seq<Entry>, empty: bool) {
    forall i :: 0 <= i < |polls| ==> (Rest(polls[i].body).Some? <==> !empty && i == |polls| - 1)
  }

  lemma LastPendsOn(polls: seq<Entry>, more: seq<Entry>, empty: bool)
    requires LastPends(polls, true) && LastPends(more, empty) && (!empty ==> more != [])
    ensures LastPends(polls + more, empty)
  {
  }

  lemma {:induction false} AllDone(polls: seq<Entry>)
    requires Survivors(polls) == []
    ensures LastPends(polls, true)
  {
    if polls != [] {
      AllDone(polls[1..]);
      assert forall i :: 1 <= i < |polls| ==> polls[i] == polls[1..][i - 1];
    }
  }

  // Each run polls one task after another, each once; all but the last complete,
  // and the last one does exactly if the pool ends empty.
  lemma {:induction false} OnePendingPerRun(s: Sched) returns (polls: seq<Entry>)
    requires |s.pool| <= 1
    ensures var s' := SerialRun(s);
      && PollsMade(s.env, s'.env, polls)
      && s'.env.completed + |s'.pool| == s.env.completed + |polls|
      && s.env.born <= s'.env.born
      && LastPends(polls, s'.pool == [])
      && (s'.pool != [] ==> polls != [] && s'.pool == Survivors(polls))
    decreases TotalWeight(Todo(s)), |s.env.incoming|
  {
    var r := PollAll(s.pool, s.env);
    PollAllExactly(s.pool, s.env);
    PollAllKeepsSurvivors(s.pool, s.env);
    polls := s.pool;
    assert s.pool != [] ==> Survivors(s.pool[1..]) == [];
    if r.kept == [] {
      AllDone(s.pool);
      if r.env.incoming != [] {
        var next := Sched([r.env.incoming[0]], r.env.(incoming := r.env.incoming[1..]));
        SerialRunStep(s);
        var more := OnePendingPerRun(next);
        PollsMadeTransitive(s.env, next.env, SerialRun(s).env, polls, more);
        SurvivorsConcat(polls, more);
        LastPendsOn(polls, more, SerialRun(s).pool == []);
        polls := polls + more;
      }
    }
  }

  lemma {:induction false} SerialUsesWeight(s: Sched)
    requires |s.pool| <= 1
    ensures SerialRun(s).pool != [] ==> TotalWeight(Todo(SerialRun(s))) < TotalWeight(Todo(s))
    decreases TotalWeight(Todo(s)), |s.env.incoming|
  {
    var r := PollAll(s.pool, s.env);
    EntryPassesPlan(s);
    PollAllUsesWeight(s.pool, s.env);
    TotalWeightConcat(s.pool, s.env.incoming);
    TotalWeightConcat(r.kept, r.env.incoming);
    if r.kept == [] && r.env.incoming != [] {
      var next := Sched([r.env.incoming[0]], r.env.(incoming := r.env.incoming[1..]));
      assert Todo(next) == r.env.incoming;
      SerialUsesWeight(next);
    }
  }

  // ------------------------------------------- tasks that break the waking contract

  // SerialCosync::run for any tasks, with none asleep: the task that is pending at the
  // end is in the pool, or has fallen asleep.
  ghost function SerialMixed(s: Sched): Left
    decreases TotalWeight(Todo(s)), |s.env.incoming|
  {
    var r := PollAll(s.pool, s.env);
    if r.kept != [] then Left(Sched(Awake(s.pool), r.env), Dozing(s.pool))
    else if r.env.incoming == [] then Left(Sched([], r.env), [])
    else
      var next := Sched([r.env.incoming[0]], r.env.(incoming := r.env.incoming[1..]));
      PollAllUsesWeight(s.pool, s.env);
      TotalWeightConcat(s.pool, s.env.incoming);
      assert Todo(next) == r.env.incoming;
      SerialMixed(next)
  }

  // Whether the pending task is asleep makes no difference to the run.
  lemma {:induction false} SerialMixedIsRun(s: Sched)
    requires |s.pool| <= 1
    ensures var l := SerialMixed(s);
      && l.sched.env == SerialRun(s).env && l.sched.pool + l.slept == SerialRun(s).pool
      && (l.sched.pool == [] && l.slept == [] ==> l.sched.env.incoming == [])
    decreases TotalWeight(Todo(s)), |s.env.incoming|
  {
    var r := PollAll(s.pool, s.env);
    OneSplits(s.pool, s.env);
    if r.kept == [] && r.env.incoming != [] {
      SerialRunStep(s);
      SerialMixedIsRun(Sched([r.env.incoming[0]], r.env.(incoming := r.env.incoming[1..])));
    }
  }

  lemma OneSplits(es: seq<Entry>, env: Env)
    requires |es| <= 1
    ensures Awake(es) + Dozing(es) == PollAll(es, env).kept && |PollAll(es, env).kept| <= 1 && ComesBack(es)
  {
    PollAllKeepsSurvivors(es, env);
    if es != [] {
      assert es[1..] == [] && Awake(es[1..]) == Dozing(es[1..]) == Survivors(es[1..]) == [];
    }
  }

  lemma SerialMixedStep(s: Sched)
    requires |s.pool| <= 1
    ensures var r := PollAll(s.pool, s.env);
      && (r.kept != [] || r.env.incoming == [] ==> SerialMixed(s) == Left(Sched(Awake(s.pool), r.env), Dozing(s.pool)))
      && (r.kept == [] && r.env.incoming != [] ==>
            SerialMixed(s) == SerialMixed(Sched([r.env.incoming[0]], r.env.(incoming := r.env.incoming[1..]))))
  {
    OneSplits(s.pool, s.env);
  }

  // A task left awake has called its waker in the run.
  lemma {:induction false} SerialWakings(s: Sched)
    requires |s.pool| <= 1
    ensures var s' := SerialMixed(s).sched; |s'.pool| + Wakings(s.env.polls) <= Wakings(s'.env.polls)
    decreases TotalWeight(Todo(s)), |s.env.incoming|
  {
    var r := PollAll(s.pool, s.env);
    PollAllExactly(s.pool, s.env);
    WakingsConcat(s.env.polls, s.pool);
    AwakeWakings(s.pool);
    SerialMixedStep(s);
    if r.kept == [] && r.env.incoming != [] {
      SerialRunStep(s);
      SerialWakings(Sched([r.env.incoming[0]], r.env.(incoming := r.env.incoming[1..])));
    }
  }

  // It leaves nobody asleep and only tasks that keep the contract, if and only if it
  // began with such tasks only; and then it is SerialRun.
  lemma {:induction false} SerialContract(s: Sched)
    requires |s.pool| <= 1
    ensures var l := SerialMixed(s);
      && (AllWake(Todo(s)) <==> l.slept == [] && AllWake(Todo(l.sched)))
      && (l.slept == [] ==> l.sched == SerialRun(s))
    decreases TotalWeight(Todo(s)), |s.env.incoming|
  {
    SerialMixedIsRun(s);
    var r := PollAll(s.pool, s.env);
    SpawnedWake(s.pool, s.env);
    ContractOfPolls(s.pool);
    AllWakeConcat(s.pool, s.env.incoming);
    OneSplits(s.pool, s.env);
    AllWakeConcat(Awake(s.pool), r.env.incoming);
    SerialRunStep(s);
    if r.kept == [] && r.env.incoming != [] {
      var next := Sched([r.env.incoming[0]], r.env.(incoming := r.env.incoming[1..]));
      assert Todo(next) == r.env.incoming;
      SerialContract(next);
    }
  }

  // What some polls spawn keeps the contract if their bodies' spawns do.
  lemma SpawnedWake(batch: seq<Entry>, env: Env)
    ensures AllWake(PollAll(batch, env).env.incoming) <==> AllWake(env.incoming) && BodiesWake(Offspring(batch))
  {
    PollAllExactly(batch, env);
    PollAllOffspring(batch, env);
    BirthsNumbered(env.born + Offspring(batch), |env.born|);
    assert (env.born + Offspring(batch))[|env.born|..] == Offspring(batch);
    NumberedWake(Offspring(batch), |env.born|);
    AllWakeConcat(env.incoming, Numbered(Offspring(batch), |env.born|));
  }

  // run_blocking comes to its end within n + 1 runs.
  ghost predicate SerialEnds(s: Sched, sleeping: bool, n: nat)
    decreases n
  {
    !sleeping &&
    var l := SerialMixed(s);
    || (l.sched.pool == [] && l.slept == [])
    || (n > 0 && SerialEnds(l.sched, l.slept != [], n - 1))
  }

  // With nobody else to wake tasks, SerialCosync::run_blocking returns if and only if
  // all tasks keep the waking contract and the running one, if any, is not asleep.
  lemma SerialReturnsExactly(s: Sched, sleeping: bool)
    requires |s.pool| <= 1
    ensures (exists n :: SerialEnds(s, sleeping, n)) <==> !sleeping && AllWake(Todo(s))
  {
    if !sleeping && AllWake(Todo(s)) {
      var n := SerialContractEnds(s);
      assert exists m :: SerialEnds(s, false, m);
    } else {
      forall n ensures !SerialEnds(s, sleeping, n) {
        if SerialEnds(s, sleeping, n) {
          SerialEndsUnderContract(s, sleeping, n);
        }
      }
    }
  }

  lemma {:induction false} SerialEndsUnderContract(s: Sched, sleeping: bool, n: nat)
    requires |s.pool| <= 1 && SerialEnds(s, sleeping, n)
    ensures !sleeping && AllWake(Todo(s))
    decreases n
  {
    var l := SerialMixed(s);
    SerialContract(s);
    SerialMixedIsRun(s);
    SerialRefinesSequence(s);
    if l.sched.pool != [] || l.slept != [] {
      SerialEndsUnderContract(l.sched, l.slept != [], n - 1);
    }
  }

  lemma {:induction false} SerialContractEnds(s: Sched) returns (n: nat)
    requires |s.pool| <= 1 && AllWake(Todo(s))
    ensures SerialEnds(s, false, n)
    decreases TotalWeight(Todo(s))
  {
    SerialContract(s);
    SerialRefinesSequence(s);
    n := 0;
    if SerialRun(s).pool != [] {
      SerialUsesWeight(s);
      var m := SerialContractEnds(SerialRun(s));
      n := m + 1;
    }
  }

  // SerialCosync::run_blocking.
  ghost function SerialBlocking(s: Sched): Sched
    requires |s.pool| <= 1
    decreases TotalWeight(Todo(s))
  {
    var s' := SerialRun(s);
    SerialRefinesSequence(s);
    if s'.pool == [] then s'
    else
      SerialUsesWeight(s);
      SerialBlocking(s')
  }

  lemma SerialBlockingStep(s: Sched)
    requires |s.pool| <= 1
    ensures |SerialRun(s).pool| <= 1
    ensures SerialRun(s).pool == [] ==> SerialBlocking(s) == SerialRun(s)
    ensures SerialRun(s).pool != [] ==>
      SerialBlocking(s) == SerialBlocking(SerialRun(s)) && TotalWeight(Todo(SerialRun(s))) < TotalWeight(Todo(s))
  {
    SerialRefinesSequence(s);
    SerialUsesWeight(s);
  }

  // run_blocking of a SerialCosync ends with nothing left, having made exactly the
  // updates of the bodies taken whole, first come, first served.
  lemma {:induction false} SerialBlockingIsSequence(s: Sched)
    requires |s.pool| <= 1
    ensures var s' := SerialBlocking(s);
      && Todo(s') == []
      && s'.env.acts == s.env.acts + Sequentially(Todo(s), |s.env.born|)
      && s'.env.param == ApplyActs(Sequentially(Todo(s), |s.env.born|), s.env.param)
    decreases TotalWeight(Todo(s))
  {
    var s' := SerialRun(s);
    SerialRefinesSequence(s);
    var polls := OnePendingPerRun(s);
    if s'.pool != [] {
      SerialUsesWeight(s);
      SerialBlockingIsSequence(s');
    }
    var made, left := ActsOf(polls), Sequentially(Todo(s'), |s'.env.born|);
    Associative(s.env.acts, made, left);
    SamePrefix(s.env.acts, Sequentially(Todo(s), |s.env.born|), made + left);
    ApplyConcat(made, left, s.env.param);
  }

  // -------------------------------------------------------- whole histories

  datatype SerialCall =
    | Queue(body: Body)              // SerialCosync::queue, or a handle's
    | RunWith(param: Param)
    | RunBlockingWith(param: Param)

  ghost function Apply(s: Sched, c: SerialCall): (s': Sched)
    requires |s.pool| <= 1
    ensures |s'.pool| <= 1
  {
    match c
    case Queue(body) => s.(env := Enqueue(s.env, body))
    case RunWith(p) =>
      SerialRefinesSequence(s.(env := s.env.(param := p)));
      SerialRun(s.(env := s.env.(param := p)))
    case RunBlockingWith(p) =>
      SerialBlockingIsSequence(s.(env := s.env.(param := p)));
      SerialBlocking(s.(env := s.env.(param := p)))
  }

  ghost function After(s: Sched, h: seq<SerialCall>): (s': Sched)
    requires |s.pool| <= 1
    ensures |s'.pool| <= 1
    decreases |h|
  {
    if h == [] then s else After(Apply(s, h[0]), h[1..])
  }

  // The updates of the first k tasks, each task's in one piece.
  function Whole(born: seq<Body>, k: nat): seq<Did>
    requires k <= |born|
  {
    if k == 0 then [] else Whole(born, k - 1) + AllActs(IdOf(k - 1), born[k - 1])
  }

  // What the running task has still to do.
  function Unfinished(pool: seq<Entry>): seq<Did> {
    if pool == [] then [] else AllActs(pool[0].id, pool[0].body)
  }

  // The first k tasks have had their turn, all others wait in the order of their ids;
  // the running task, if there is one, is the k-th.
  ghost predicate InLine(s: Sched, k: nat) {
    && |s.pool| <= 1 && k <= |s.env.born|
    && s.env.incoming == Births(s.env.born, k)
    && s.env.acts + Unfinished(s.pool) == Whole(s.env.born, k)
  }

  lemma {:induction false} WholePrefix(born: seq<Body>, more: seq<Body>, k: nat)
    requires k <= |born|
    ensures Whole(born + more, k) == Whole(born, k)
  {
    if k > 0 {
      WholePrefix(born, more, k - 1);
      assert (born + more)[k - 1] == born[k - 1];
    }
  }

  // More tasks at the end of the line change nothing for those who had their turn.
  lemma LineGrows(born: seq<Body>, born': seq<Body>, k: nat)
    requires k <= |born| && born <= born'
    ensures Whole(born', k) == Whole(born, k) && Births(born', k) == Births(born, k) + Births(born', |born|)
  {
    var more := born'[|born|..];
    assert born' == born + more;
    WholePrefix(born, more, k);
    BirthsSplit(born, more, k);
  }

  lemma PollInLine(s: Sched, k: nat)
    requires InLine(s, k)
    ensures var r := PollAll(s.pool, s.env); InLine(Sched(r.kept, r.env), k)
  {
    if s.pool != [] {
      var e := s.pool[0];
      var env0 := Logged(s.env, e);
      var p := PollBody(e.id, e.body, env0);
      assert s.pool == [e] && s.pool[1..] == [];
      assert PollAll([], PollEntry(e, s.env).env) == Pass([], PollEntry(e, s.env).env);
      PollBodyHistory(e.id, e.body, env0);
      PollSplitsActs(e.id, e.body, env0);
      LineGrows(s.env.born, p.env.born, k);
      Associative(s.env.acts, FirstActs(e.id, e.body), AllActs(e.id, LeftOf(p)));
      var left: seq<Entry> := if p.rest == None then [] else [Entry(e.id, p.rest.value)];
      assert left + [] == left && Unfinished(left) == AllActs(e.id, LeftOf(p));
    }
  }

  lemma PopInLine(s: Sched, k: nat)
    requires InLine(s, k) && s.pool == [] && s.env.incoming != []
    ensures InLine(Sched([s.env.incoming[0]], s.env.(incoming := s.env.incoming[1..])), k + 1)
  {
    var e := Entry(IdOf(k), s.env.born[k]);
    assert s.env.incoming == [e] + Births(s.env.born, k + 1);
    assert s.env.acts + [] == s.env.acts;
  }

  lemma {:induction false} SerialRunInLine(s: Sched, k: nat) returns (k': nat)
    requires InLine(s, k)
    ensures k <= k' && InLine(SerialRun(s), k')
    decreases TotalWeight(Todo(s)), |s.env.incoming|
  {
    var r := PollAll(s.pool, s.env);
    PollInLine(s, k);
    SerialRunStep(s);
    k' := k;
    if r.kept == [] && r.env.incoming != [] {
      PopInLine(Sched([], r.env), k);
      k' := SerialRunInLine(Sched([r.env.incoming[0]], r.env.(incoming := r.env.incoming[1..])), k + 1);
    }
  }

  lemma {:induction false} SerialBlockingInLine(s: Sched, k: nat) returns (k': nat)
    requires InLine(s, k)
    ensures k <= k' && InLine(SerialBlocking(s), k')
    decreases TotalWeight(Todo(s))
  {
    SerialBlockingStep(s);
    k' := SerialRunInLine(s, k);
    if SerialRun(s).pool != [] {
      k' := SerialBlockingInLine(SerialRun(s), k');
    }
  }

  // Over every sequence of runs, blocking runs and queueing, with spawns in between:
  // the updates made, with what the running task has still to do, are those of the
  // first k tasks taken whole, in the order in which they were queued or spawned; and
  // every other task waits in that order.
  lemma {:induction false} SerialHistory(s: Sched, k: nat, h: seq<SerialCall>) returns (k': nat)
    requires InLine(s, k)
    ensures k <= k' && InLine(After(s, h), k')
    decreases |h|
  {
    k' := k;
    if h != [] {
      var s0 := if h[0].Queue? then s else s.(env := s.env.(param := h[0].param));
      match h[0] {
        case Queue(body) => LineGrows(s.env.born, s.env.born + [body], k); EnqueueExtends(s.env, body);
        case RunWith(p) => k' := SerialRunInLine(s0, k);
        case RunBlockingWith(p) => k' := SerialBlockingInLine(s0, k);
      }
      k' := SerialHistory(Apply(s, h[0]), k', h[1..]);
    }
  }

  // From a new SerialCosync on: whenever nothing is left to do, the updates made are
  // those of all tasks ever queued or spawned, taken whole, one after another.
  lemma SerialOrder(p: Param, h: seq<SerialCall>)
    ensures var s := After(Sched([], Env(p, [], [], [], [], 0)), h);
      && (Todo(s) == [] ==> s.env.acts == Whole(s.env.born, |s.env.born|))
      && (h != [] && h[|h| - 1].RunBlockingWith? ==> Todo(s) == [])
  {
    var s0 := Sched([], Env(p, [], [], [], [], 0));
    var k := SerialHistory(s0, 0, h);
    var s := After(s0, h);
    if Todo(s) == [] {
      assert s.env.acts + [] == s.env.acts;
    }
    if h != [] && h[|h| - 1].RunBlockingWith? {
      AfterLast(s0, h);
    }
  }

  lemma {:induction false} AfterLast(s: Sched, h: seq<SerialCall>)
    requires |s.pool| <= 1 && h != [] && h[|h| - 1].RunBlockingWith?
    ensures Todo(After(s, h)) == []
    decreases |h|
  {
    if |h| == 1 {
      assert h[1..] == [];
      SerialBlockingIsSequence(s.(env := s.env.(param := h[0].param)));
    } else {
      AfterLast(Apply(s, h[0]), h[1..]);
    }
  }
}
