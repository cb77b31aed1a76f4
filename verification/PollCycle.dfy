// The loop of FuturesUnordered::poll_next on lists: what it returns, what it
// leaves in the ready queue, and exactly when it stops
// (src/futures/futures_unordered.rs).
module PollCycle {
  import opened Wrappers
  import opened Programs
  import opened Tasks

  // One entry of the ready queue.  `future` is None for a released task, `last` is
  // last_polled, and the key is the task's address.
  datatype Slot = Slot(key: Task, future: Option<Entry>, last: nat)

  // The linked tasks that are not in the ready queue, with what they have left to do.
  type Sleepers = map<Task, Option<Entry>>

  // The loop's state: the ready queue, the tasks asleep, initial_task_id, poll_counter,
  // and what polls can reach.
  datatype Conf = Conf(queue: seq<Slot>, asleep: Sleepers, initial: Option<Task>, counter: nat, env: Env)

  datatype Outcome = More(conf: Conf) | Done(conf: Conf, ready: bool)

  // One round of the loop.
  ghost function Step(c: Conf): Outcome {
    if c.queue == [] then
      Done(c, c.asleep == map[])
    else
      var h, t := c.queue[0], c.queue[1..];
      match h.future
      case None => More(c.(queue := t))
      case Some(e) =>
        if h.last >= c.counter then
          var c' := c.(queue := t + [h]);
          if c.initial == Some(h.key) then Done(c', false)
          else More(c'.(initial := if c.initial == None then Some(h.key) else c.initial))
        else
          var p := PollEntry(e, c.env);
          More(AfterPoll(c.(queue := t), h.key, e.id, p))
  }

  // The round's end after a poll: a task that woke itself is back at the tail, as
  // a released entry if it is done; one that did not is linked but not queued.
  ghost function AfterPoll(c: Conf, key: Task, id: nat, p: Polled): Conf {
    match p.rest
    case None =>
      c.(queue := if p.woken then c.queue + [Slot(key, None, c.counter)] else c.queue, env := p.env)
    case Some(b) =>
      c.(queue := if p.woken then c.queue + [Slot(key, Some(Entry(id, b)), c.counter)] else c.queue,
         asleep := if p.woken then c.asleep else c.asleep[key := Some(Entry(id, b))],
         initial := if c.initial == None then Some(key) else c.initial,
         env := p.env)
  }

  // The round polls a task that calls its own waker.
  ghost predicate Wakes(c: Conf) {
    c.queue != [] && !Settled(c.queue[0], c.counter) && PollEntry(c.queue[0].future.value, c.env).woken
  }

  // That poll is the one that the round adds to the history.
  lemma RoundWakings(c: Conf)
    ensures Wakings(Step(c).conf.env.polls) == Wakings(c.env.polls) + (if Wakes(c) then 1 else 0)
  {
    if c.queue != [] && !Settled(c.queue[0], c.counter) {
      var e := c.queue[0].future.value;
      PollBodyHistory(e.id, e.body, Logged(c.env, e));
      PollCalls(e.id, e.body, Logged(c.env, e));
      assert (c.env.polls + [e])[..|c.env.polls|] == c.env.polls;
    }
  }

  // ------------------------------------------------- the list-level meaning

  predicate Settled(s: Slot, counter: nat) {
    s.future == None || s.last >= counter
  }

  // One pass over a queue: every task not polled in this cycle is polled once, in
  // queue order.  `kept` are the pending tasks that are woken, `slept` those that
  // are not, `first` the first pending task and whether it is woken.
  datatype Sweep = Sweep(kept: seq<Slot>, slept: seq<Slot>, first: Option<(Task, bool)>, env: Env)

  ghost function SweepQueue(q: seq<Slot>, counter: nat, env: Env): Sweep {
    if q == [] then Sweep([], [], None, env)
    else
      var h, t := q[0], q[1..];
      match h.future
      case None => SweepQueue(t, counter, env)
      case Some(e) =>
        if h.last >= counter then
          var r := SweepQueue(t, counter, env);
          r.(kept := [h] + r.kept, first := Some((h.key, true)))
        else
          var p := PollEntry(e, env);
          var r := SweepQueue(t, counter, p.env);
          match p.rest
          case None => r
          case Some(b) =>
            var left := [Slot(h.key, Some(Entry(e.id, b)), counter)];
            if p.woken then r.(kept := left + r.kept, first := Some((h.key, true)))
            else r.(slept := left + r.slept, first := Some((h.key, false)))
  }

  ghost function AsMap(slept: seq<Slot>): Sleepers {
    if slept == [] then map[] else map[slept[0].key := slept[0].future] + AsMap(slept[1..])
  }

  ghost function SweepOf(c: Conf): Sweep {
    SweepQueue(c.queue, c.counter, c.env)
  }

  // The live entries of a queue, in order.
  ghost function Live(q: seq<Slot>): seq<Slot> {
    if q == [] then [] else (if q[0].future == None then [] else [q[0]]) + Live(q[1..])
  }

  function RotateLeft<T>(s: seq<T>): seq<T> {
    if s == [] then [] else s[1..] + [s[0]]
  }

  ghost function IndexOf(q: seq<Slot>, key: Task): (i: nat)
    ensures i <= |q| && (i < |q| ==> q[i].key == key) && forall j :: 0 <= j < i ==> q[j].key != key
  {
    if q == [] || q[0].key == key then 0 else 1 + IndexOf(q[1..], key)
  }

  // What the loop will leave as the live part of the queue.
  ghost function Target(c: Conf): seq<Slot> {
    match c.initial
    case None => RotateLeft(SweepOf(c).kept)
    case Some(k) =>
      var i := IndexOf(c.queue, k);
      if i == |c.queue| then []
      else Live(c.queue[i + 1..]) + SweepQueue(c.queue[..i], c.counter, c.env).kept + [c.queue[i]]
  }

  // The loop will stop: nothing pending is woken, so the queue runs empty; or the
  // first pending task is woken, so it comes round again.
  ghost predicate Stops(c: Conf) {
    var w := SweepOf(c);
    w.kept == [] ||
    match c.initial
    case None => w.first.Some? && w.first.value.1
    case Some(k) => IndexOf(c.queue, k) < |c.queue|
  }

  ghost predicate DistinctKeys(q: seq<Slot>) {
    forall i, j :: 0 <= i < j < |q| ==> q[i].key != q[j].key
  }

  // The initial task, while it is in the queue, is pending and has been polled;
  // what is behind it has been dealt with.
  ghost predicate Inv(c: Conf) {
    && DistinctKeys(c.queue)
    && (c.initial.Some? ==>
          var i := IndexOf(c.queue, c.initial.value);
          i < |c.queue| ==>
            && c.queue[i].future.Some?
            && forall j :: i <= j < |c.queue| ==> Settled(c.queue[j], c.counter))
  }

  // ---------------------------------------------------------------- facts

  lemma {:induction false} SweepSettled(q: seq<Slot>, counter: nat, env: Env)
    requires forall j :: 0 <= j < |q| ==> Settled(q[j], counter)
    ensures var w := SweepQueue(q, counter, env); w.kept == Live(q) && w.slept == [] && w.env == env
  {
    if q != [] {
      SweepSettled(q[1..], counter, env);
    }
  }

  lemma {:induction false} SweepConcat(a: seq<Slot>, b: seq<Slot>, counter: nat, env: Env)
    ensures var wa := SweepQueue(a, counter, env);
            var wb := SweepQueue(b, counter, wa.env);
            SweepQueue(a + b, counter, env) ==
              Sweep(wa.kept + wb.kept, wa.slept + wb.slept, if wa.first == None then wb.first else wa.first, wb.env)
  {
    if a == [] {
      assert a + b == b;
    } else {
      assert (a + b)[1..] == a[1..] + b && (a + b)[0] == a[0];
      var env' := if a[0].future == None || a[0].last >= counter then env else PollEntry(a[0].future.value, env).env;
      SweepConcat(a[1..], b, counter, env');
    }
  }

  lemma {:induction false} AsMapConcat(a: seq<Slot>, b: seq<Slot>)
    ensures AsMap(a + b) == AsMap(a) + AsMap(b)
  {
    if a == [] {
      assert a + b == b;
    } else {
      assert (a + b)[1..] == a[1..] + b && (a + b)[0] == a[0];
      AsMapConcat(a[1..], b);
      MergeAssociative(map[a[0].key := a[0].future], AsMap(a[1..]), AsMap(b));
    }
  }

  lemma {:induction false} LiveConcat(a: seq<Slot>, b: seq<Slot>)
    ensures Live(a + b) == Live(a) + Live(b)
  {
    if a == [] {
      assert a + b == b;
    } else {
      assert (a + b)[1..] == a[1..] + b && (a + b)[0] == a[0];
      LiveConcat(a[1..], b);
      Associative(if a[0].future == None then [] else [a[0]], Live(a[1..]), Live(b));
    }
  }

  // What a round that does not end the loop does to the queue: the head goes, and
  // at most one entry, already dealt with, comes in at the tail.
  ghost function Appended(c: Conf): seq<Slot>
    requires c.queue != []
  {
    var h := c.queue[0];
    if h.future == None then []
    else if h.last >= c.counter then [h]
    else
      var p := PollEntry(h.future.value, c.env);
      if !p.woken then []
      else [Slot(h.key, if p.rest == None then None else Some(Entry(h.future.value.id, p.rest.value)), c.counter)]
  }

  // The environment after the round's poll, if it polls.
  ghost function EnvAfter(c: Conf): Env
    requires c.queue != []
  {
    var h := c.queue[0];
    if h.future == None || h.last >= c.counter then c.env else PollEntry(h.future.value, c.env).env
  }

  lemma RoundShape(c: Conf)
    requires c.queue != [] && Step(c).More?
    ensures var c', w := Step(c).conf, SweepQueue([c.queue[0]], c.counter, c.env);
      && c'.queue == c.queue[1..] + Appended(c) && c'.counter == c.counter && c'.env == EnvAfter(c) == w.env
      && w.kept == Live(Appended(c))
      && c'.asleep == c.asleep + AsMap(w.slept)
      && c'.initial == (if c.initial == None && w.first.Some? then Some(w.first.value.0) else c.initial)
      && (w.first.Some? ==> w.first.value == (c.queue[0].key, w.kept != []) && |w.kept| <= 1)
      && (w.first == None ==> w.kept == [])
      && (forall s :: s in Appended(c) ==> s.key == c.queue[0].key && Settled(s, c.counter))
      && |Appended(c)| <= 1
  {
    var q := [c.queue[0]];
    assert q[1..] == [];
    assert SweepQueue(q[1..], c.counter, c.env) == Sweep([], [], None, c.env);
    if c.queue[0].future.Some? {
      var p := PollEntry(c.queue[0].future.value, c.env);
      assert SweepQueue(q[1..], c.counter, p.env) == Sweep([], [], None, p.env);
    }
    assert Appended(c) == [] || Live(Appended(c)[1..]) == [];
  }

  lemma RoundSweep(c: Conf)
    requires c.queue != [] && Step(c).More?
    ensures var c', w := Step(c).conf, SweepQueue([c.queue[0]], c.counter, c.env);
            var rest := SweepQueue(c.queue[1..], c.counter, w.env);
      && SweepOf(c) == Sweep(w.kept + rest.kept, w.slept + rest.slept,
                             if w.first == None then rest.first else w.first, rest.env)
      && SweepOf(c').kept == rest.kept + w.kept
      && SweepOf(c').slept == rest.slept
      && SweepOf(c').env == rest.env
      && (Appended(c) == [] || w.kept == [] ==> SweepOf(c').first == rest.first)
  {
    RoundShape(c);
    var h := [c.queue[0]];
    assert c.queue == h + c.queue[1..];
    SweepConcat(h, c.queue[1..], c.counter, c.env);
    var app := Appended(c);
    var rest := SweepQueue(c.queue[1..], c.counter, EnvAfter(c));
    SweepConcat(c.queue[1..], app, c.counter, EnvAfter(c));
    SweepSettled(app, c.counter, rest.env);
    if app == [] {
    } else if Live(app) == [] {
      assert app == [app[0]] && app[0].future == None;
      assert SweepQueue(app[1..], c.counter, rest.env).first == None;
    }
  }

  lemma RoundIndex(c: Conf, k: Task)
    requires c.queue != [] && Step(c).More? && c.queue[0].key != k
    ensures (IndexOf(Step(c).conf.queue, k) < |Step(c).conf.queue|) <==> (IndexOf(c.queue, k) < |c.queue|)
    ensures IndexOf(c.queue, k) < |c.queue| ==> IndexOf(Step(c).conf.queue, k) == IndexOf(c.queue, k) - 1
  {
    RoundShape(c);
    var c', i := Step(c).conf, IndexOf(c.queue, k);
    var i' := IndexOf(c'.queue, k);
    if i < |c.queue| {
      assert c'.queue[i - 1] == c.queue[i];
      assert forall j :: 0 <= j < i - 1 ==> c'.queue[j] == c.queue[j + 1];
    } else {
      assert forall j :: 0 <= j < |c.queue| - 1 ==> c'.queue[j] == c.queue[j + 1];
    }
  }

  lemma RoundInv(c: Conf)
    requires Inv(c) && c.queue != [] && Step(c).More?
    ensures Inv(Step(c).conf)
  {
    RoundShape(c);
    var c' := Step(c).conf;
    BackDistinct(c.queue, Appended(c));
    if c'.initial.Some? {
      if c.initial == None {
        if Appended(c) == [] {
          HeadGone(c.queue);
        } else {
          BackAtTail(c.queue, Appended(c)[0]);
        }
      } else {
        InitialGoesOn(c);
      }
    }
  }

  lemma BackDistinct(q: seq<Slot>, app: seq<Slot>)
    requires DistinctKeys(q) && q != [] && |app| <= 1 && forall s :: s in app ==> s.key == q[0].key
    ensures DistinctKeys(q[1..] + app)
  {
    var q' := q[1..] + app;
    forall i, j | 0 <= i < j < |q'| ensures q'[i].key != q'[j].key {
      assert q'[i] == q[i + 1];
      assert j == |q| - 1 || q'[j] == q[j + 1];
    }
  }

  // The queue once its head has gone for good, ...
  lemma HeadGone(q: seq<Slot>)
    requires DistinctKeys(q) && q != []
    ensures IndexOf(q[1..], q[0].key) == |q[1..]| && q[1..] + [] == q[1..]
  {
    assert forall j :: 0 <= j < |q| - 1 ==> q[1..][j] == q[j + 1];
  }

  // ... or to the tail.
  lemma BackAtTail(q: seq<Slot>, last: Slot)
    requires DistinctKeys(q) && q != [] && last.key == q[0].key
    ensures var q', n := q[1..] + [last], |q| - 1;
      IndexOf(q', q[0].key) == n && q'[..n] == q[1..] && q'[n + 1..] == [] && q'[n] == last
  {
    var q' := q[1..] + [last];
    assert forall j :: 0 <= j < |q| - 1 ==> q'[j] == q[j + 1];
    assert q'[|q| - 1].key == q[0].key;
  }

  lemma InitialGoesOn(c: Conf)
    requires Inv(c) && c.queue != [] && Step(c).More? && c.initial.Some?
    ensures var c' := Step(c).conf;
            var i' := IndexOf(c'.queue, c.initial.value);
      i' < |c'.queue| ==>
        c'.queue[i'].future.Some? && forall j :: i' <= j < |c'.queue| ==> Settled(c'.queue[j], c.counter)
  {
    RoundShape(c);
    RoundIndexOfInitial(c);
    var c', k := Step(c).conf, c.initial.value;
    var i' := IndexOf(c'.queue, k);
    if i' < |c'.queue| {
      assert c'.queue[i'] == c.queue[i' + 1];
      forall j | i' <= j < |c'.queue| ensures Settled(c'.queue[j], c.counter) {
        if j < |c.queue| - 1 {
          assert c'.queue[j] == c.queue[j + 1];
        }
      }
    }
  }

  // A round that does not end the loop never has the initial task at the head.
  lemma RoundIndexOfInitial(c: Conf)
    requires Inv(c) && c.queue != [] && Step(c).More? && c.initial.Some?
    ensures c.queue[0].key != c.initial.value
    ensures var k := c.initial.value;
      && ((IndexOf(Step(c).conf.queue, k) < |Step(c).conf.queue|) <==> (IndexOf(c.queue, k) < |c.queue|))
      && (IndexOf(c.queue, k) < |c.queue| ==> IndexOf(Step(c).conf.queue, k) == IndexOf(c.queue, k) - 1)
  {
    RoundIndex(c, c.initial.value);
  }

  // Where the loop stands relative to its end: polls and releases still to come,
  // then the way of the initial task to the head.
  ghost function ToHandle(c: Conf): nat {
    Handles(c.queue, c.counter)
  }

  ghost function Handles(q: seq<Slot>, counter: nat): nat {
    if q == [] then 0
    else (if q[0].future == None then 1 else if q[0].last >= counter then 0 else 2) + Handles(q[1..], counter)
  }

  ghost function ToWalk(c: Conf): nat {
    match c.initial
    case None => |c.queue| + 1
    case Some(k) => IndexOf(c.queue, k)
  }

  lemma {:induction false} HandlesConcat(a: seq<Slot>, b: seq<Slot>, counter: nat)
    ensures Handles(a + b, counter) == Handles(a, counter) + Handles(b, counter)
  {
    if a == [] {
      assert a + b == b;
    } else {
      assert (a + b)[1..] == a[1..] + b && (a + b)[0] == a[0];
      HandlesConcat(a[1..], b, counter);
    }
  }

  // A round either handles an entry for good or moves the initial task on.
  lemma RoundDecreases(c: Conf)
    requires Inv(c) && Stops(c) && c.queue != [] && Step(c).More?
    ensures var c' := Step(c).conf;
      ToHandle(c') < ToHandle(c) || (ToHandle(c') == ToHandle(c) && ToWalk(c') < ToWalk(c))
  {
    RoundShape(c);
    RoundSweep(c);
    var c', h, app := Step(c).conf, c.queue[0], Appended(c);
    HandlesConcat(c.queue[1..], app, c.counter);
    assert app == [] || Handles(app[1..], c.counter) == 0;
    if h.future.Some? && h.last >= c.counter {
      if c.initial.Some? {
        RoundIndexOfInitial(c);
      }
    }
  }

  // A round preserves what the loop is going to leave behind, and whether it is
  // going to stop at all.
  lemma RoundKeeps(c: Conf)
    requires Inv(c) && c.queue != [] && Step(c).More?
    ensures var c' := Step(c).conf;
      && (Stops(c') <==> Stops(c))
      && (Stops(c) ==> Target(c') == Target(c))
      && SweepOf(c').env == SweepOf(c).env
      && c'.asleep + AsMap(SweepOf(c').slept) == c.asleep + AsMap(SweepOf(c).slept)
  {
    RoundSleepers(c);
    if c.initial.Some? {
      WalkTarget(c);
    } else if Step(c).conf.initial.Some? {
      StartTarget(c);
    } else {
      WaitTarget(c);
    }
  }

  lemma RoundSleepers(c: Conf)
    requires c.queue != [] && Step(c).More?
    ensures var c' := Step(c).conf;
      && SweepOf(c').env == SweepOf(c).env
      && c'.asleep + AsMap(SweepOf(c').slept) == c.asleep + AsMap(SweepOf(c).slept)
  {
    RoundShape(c);
    RoundSweep(c);
    var first, rest := SweepQueue([c.queue[0]], c.counter, c.env).slept, SweepOf(Step(c).conf).slept;
    AsMapConcat(first, rest);
    MergeAssociative(c.asleep, AsMap(first), AsMap(rest));
    assert SweepOf(c).slept == first + rest && Step(c).conf.asleep == c.asleep + AsMap(first);
  }

  // Target while no pending task has been met, ...
  lemma WaitTarget(c: Conf)
    requires c.queue != [] && Step(c).More? && c.initial == None && Step(c).conf.initial == None
    ensures Stops(Step(c).conf) <==> Stops(c)
    ensures Target(Step(c).conf) == Target(c)
  {
    RoundShape(c);
    RoundSweep(c);
    var rest := SweepQueue(c.queue[1..], c.counter, EnvAfter(c));
    assert rest.kept + [] == [] + rest.kept == rest.kept;
  }

  // ... once one has, ...
  lemma WalkTarget(c: Conf)
    requires Inv(c) && c.queue != [] && Step(c).More? && c.initial.Some?
    ensures Stops(Step(c).conf) <==> Stops(c)
    ensures Target(Step(c).conf) == Target(c)
  {
    RoundSweep(c);
    RoundShape(c);
    RoundIndexOfInitial(c);
    if IndexOf(c.queue, c.initial.value) < |c.queue| {
      RoundTarget(c);
    }
  }

  // Target in the rounds after the first pending task has been met, while that one is queued ...
  lemma RoundTarget(c: Conf)
    requires Inv(c) && c.queue != [] && Step(c).More?
    requires c.initial.Some? && IndexOf(c.queue, c.initial.value) < |c.queue|
    ensures Target(Step(c).conf) == Target(c)
  {
    RoundShape(c);
    RoundIndexOfInitial(c);
    TargetMoves(c.queue, Appended(c), Step(c).conf.queue, IndexOf(c.queue, c.initial.value), c.counter, c.env);
  }

  lemma TargetMoves(q: seq<Slot>, app: seq<Slot>, q': seq<Slot>, i: nat, counter: nat, env: Env)
    requires 1 <= i < |q| && q' == q[1..] + app
    requires SweepQueue([q[0]], counter, env).kept == Live(app)
    ensures Live(q'[i..]) + SweepQueue(q'[..i - 1], counter, SweepQueue([q[0]], counter, env).env).kept + [q'[i - 1]]
         == Live(q[i + 1..]) + SweepQueue(q[..i], counter, env).kept + [q[i]]
  {
    var behind, before := q[i + 1..], q[1..i];
    MovedOn(q, app, q', i);
    LiveConcat(behind, app);
    SweepConcat([q[0]], before, counter, env);
    Associative(Live(behind), Live(app), SweepQueue(before, counter, SweepQueue([q[0]], counter, env).env).kept);
  }

  // The queue around entry i, before and after the head has gone.
  lemma MovedOn<T>(q: seq<T>, app: seq<T>, q': seq<T>, i: nat)
    requires 1 <= i < |q| && q' == q[1..] + app
    ensures q'[i..] == q[i + 1..] + app && q[..i] == [q[0]] + q[1..i]
    ensures q'[..i - 1] == q[1..i] && q'[i - 1] == q[i]
  {
  }

  // ... and in the round that meets it, asleep ...
  lemma SleeperStarts(c: Conf)
    requires Inv(c) && c.queue != [] && Step(c).More? && c.initial == None && Step(c).conf.initial.Some?
    requires Appended(c) == []
    ensures Stops(Step(c).conf) <==> Stops(c)
    ensures Stops(c) ==> Target(Step(c).conf) == Target(c)
  {
    RoundShape(c);
    RoundSweep(c);
    var c', t := Step(c).conf, c.queue[1..];
    var k := c.queue[0].key;
    var rest := SweepQueue(t, c.counter, EnvAfter(c));
    HeadGone(c.queue);
    assert c'.queue == t && IndexOf(t, k) == |t|;
    assert SweepOf(c).kept == rest.kept == SweepOf(c').kept;
  }

  // ... or woken.
  lemma WokenStarts(c: Conf)
    requires Inv(c) && c.queue != [] && Step(c).More? && c.initial == None && Step(c).conf.initial.Some?
    requires Appended(c) != []
    ensures Stops(Step(c).conf) && Stops(c)
    ensures Target(Step(c).conf) == Target(c)
  {
    RoundShape(c);
    var app := Appended(c);
    var rest := SweepQueue(c.queue[1..], c.counter, EnvAfter(c)).kept;
    WokenSweep(c);
    LiveOne(app);
    BackAtTail(c.queue, app[0]);
    RotateOne(app[0], rest);
    assert Live([]) + rest == rest;
  }

  lemma LiveOne(app: seq<Slot>)
    requires |app| == 1 && app[0].future.Some?
    ensures app == [app[0]] && Live(app) == app
  {
    assert Live(app[1..]) == [];
  }

  lemma RotateOne<T>(x: T, s: seq<T>)
    ensures RotateLeft([x] + s) == s + [x]
  {
    assert ([x] + s)[1..] == s;
  }

  lemma WokenSweep(c: Conf)
    requires c.queue != [] && Step(c).More? && c.initial == None && Step(c).conf.initial.Some?
    requires Appended(c) != []
    ensures Appended(c)[0].future.Some? && SweepOf(c).first.Some? && SweepOf(c).first.value.1
    ensures SweepOf(c).kept == Live(Appended(c)) + SweepQueue(c.queue[1..], c.counter, EnvAfter(c)).kept
  {
    RoundShape(c);
    RoundSweep(c);
  }

  lemma StartTarget(c: Conf)
    requires Inv(c) && c.queue != [] && Step(c).More? && c.initial == None && Step(c).conf.initial.Some?
    ensures Stops(Step(c).conf) <==> Stops(c)
    ensures Stops(c) ==> Target(Step(c).conf) == Target(c)
  {
    if Appended(c) == [] {
      SleeperStarts(c);
    } else {
      WokenStarts(c);
    }
  }

  // ------------------------------------------------------------- the loop

  // The loop run to its end.
  ghost function Finish(c: Conf): (Conf, bool)
    requires Inv(c) && Stops(c)
    decreases ToHandle(c), ToWalk(c)
  {
    match Step(c)
    case Done(c', ready) => (c', ready)
    case More(c') =>
      RoundInv(c);
      RoundKeeps(c);
      RoundDecreases(c);
      Finish(c')
  }

  // The loop has come from c0 to c.
  ghost predicate Underway(c0: Conf, c: Conf) {
    && Inv(c0) && Stops(c0) && Inv(c) && Stops(c)
    && Finish(c) == Finish(c0)
    && c.counter == c0.counter
  }

  // Every round either leads on, nearer to the end, or is the end.
  lemma UnderwayRound(c0: Conf, c: Conf)
    requires Underway(c0, c)
    ensures Step(c).Done? ==> (Step(c).conf, Step(c).ready) == Finish(c0)
    ensures Step(c).More? ==>
      var c' := Step(c).conf;
      && Underway(c0, c')
      && (ToHandle(c') < ToHandle(c) || (ToHandle(c') == ToHandle(c) && ToWalk(c') < ToWalk(c)))
  {
    if Step(c).More? {
      RoundShape(c);
      RoundInv(c);
      RoundKeeps(c);
      RoundDecreases(c);
    }
  }

  // The loop, at c, is going to end in c': the live part of the final queue is Target,
  // the polls and their effects are those of one pass, and `Ready` means that no task
  // is left.
  ghost predicate EndsAs(c: Conf, c': Conf, ready: bool) {
    && Live(c'.queue) == Target(c)
    && AllSettled(c'.queue, c.counter) && c'.counter == c.counter
    && c'.env == SweepOf(c).env
    && c'.asleep == c.asleep + AsMap(SweepOf(c).slept)
    && (ready <==> Target(c) == [] && c'.asleep == map[])
  }

  ghost predicate AllSettled(q: seq<Slot>, counter: nat) {
    forall i :: 0 <= i < |q| ==> Settled(q[i], counter)
  }

  lemma EndsOn(c: Conf, c': Conf, ready: bool)
    requires Inv(c) && Stops(c) && c.queue != [] && Step(c).More? && EndsAs(Step(c).conf, c', ready)
    ensures EndsAs(c, c', ready)
  {
    RoundShape(c);
    RoundKeeps(c);
  }

  // What poll_next does, for any ready queue and any mix of tasks polled, not
  // polled and released, and any tasks asleep.
  lemma {:induction false} FinishMeaning(c: Conf)
    requires Inv(c) && Stops(c)
    ensures EndsAs(c, Finish(c).0, Finish(c).1)
    decreases ToHandle(c), ToWalk(c)
  {
    if Step(c).More? {
      RoundInv(c);
      RoundKeeps(c);
      RoundDecreases(c);
      FinishMeaning(Step(c).conf);
      EndsOn(c, Finish(c).0, Finish(c).1);
    } else if c.queue == [] {
      EmptyMeaning(c);
    } else {
      InitialMeaning(c);
    }
  }

  lemma EmptyMeaning(c: Conf)
    requires c.queue == []
    ensures EndsAs(c, c, Step(c).ready)
  {
    assert c.initial.Some? ==> IndexOf(c.queue, c.initial.value) == 0;
  }

  // The round that comes upon the initial task.
  lemma InitialMeaning(c: Conf)
    requires Inv(c) && c.queue != [] && Step(c).Done?
    ensures EndsAs(c, Step(c).conf, Step(c).ready)
  {
    var h, t := c.queue[0], c.queue[1..];
    assert IndexOf(c.queue, h.key) == 0 && c.queue[..0] == [];
    SweepSettled(c.queue, c.counter, c.env);
    LiveConcat(t, [h]);
    LiveOne([h]);
  }

  // The loop for n more rounds.
  ghost function Rounds(c: Conf, n: nat): Outcome
    decreases n
  {
    match Step(c)
    case Done(c', ready) => Done(c', ready)
    case More(c') => if n == 0 then More(c') else Rounds(c', n - 1)
  }

  // poll_next returns exactly when the first pending task is woken in time or no
  // pending task is: in every other case it spins for ever.
  lemma StopsExactly(c: Conf)
    requires Inv(c)
    ensures Stops(c) <==> exists n :: Rounds(c, n).Done?
  {
    if Stops(c) {
      var n := RoundsNeeded(c);
    } else {
      forall n ensures Rounds(c, n).More? {
        SpinsOn(c, n);
      }
    }
  }

  lemma {:induction false} RoundsNeeded(c: Conf) returns (n: nat)
    requires Inv(c) && Stops(c)
    ensures Rounds(c, n) == Done(Finish(c).0, Finish(c).1)
    decreases ToHandle(c), ToWalk(c)
  {
    n := 0;
    if Step(c).More? {
      RoundInv(c);
      RoundKeeps(c);
      RoundDecreases(c);
      var m := RoundsNeeded(Step(c).conf);
      n := m + 1;
    }
  }

  lemma {:induction false} SpinsOn(c: Conf, n: nat)
    requires Inv(c) && !Stops(c)
    ensures Rounds(c, n).More?
    decreases n
  {
    assert c.queue != [];
    assert IndexOf(c.queue, c.queue[0].key) == 0;
    RoundInv(c);
    RoundKeeps(c);
    if n > 0 {
      SpinsOn(Step(c).conf, n - 1);
    }
  }

  // Two tasks are enough: one that returns Pending without waking anybody, and
  // behind it one that yields.
  lemma SpinsForever(a: Task, b: Task, env: Env, n: nat)
    requires a != b
    ensures Rounds(Conf([Slot(a, Some(Entry(0, [Suspend(false)])), 0), Slot(b, Some(Entry(1, [Yield(false)])), 0)],
                        map[], None, 1, env), n).More?
  {
    var q := [Slot(a, Some(Entry(0, [Suspend(false)])), 0), Slot(b, Some(Entry(1, [Yield(false)])), 0)];
    var c := Conf(q, map[], None, 1, env);
    assert q[1..] == [q[1]] && q[1..][1..] == [];
    var env1 := PollEntry(q[0].future.value, env).env;
    var w := SweepQueue(q[1..], 1, env1);
    assert w.kept != [] && w.first == Some((b, true));
    assert SweepOf(c).kept == w.kept && SweepOf(c).first == Some((a, false));
    SpinsOn(c, n);
  }

  // -------------------------------------------------- the waking contract

  ghost predicate Obeys(q: seq<Slot>) {
    forall i :: 0 <= i < |q| && q[i].future.Some? ==> WakesItself(q[i].future.value.body, false)
  }

  // Under the contract every pending task is woken, so poll_next always returns.
  lemma {:induction false} ContractStops(q: seq<Slot>, counter: nat, env: Env)
    requires Obeys(q) && AllWake(env.incoming)
    ensures var w := SweepQueue(q, counter, env);
      && w.slept == [] && Obeys(w.kept) && AllWake(w.env.incoming)
      && (w.kept == [] <==> w.first == None) && (w.first.Some? ==> w.first.value.1)
  {
    if q != [] {
      var h := q[0];
      if h.future == None || h.last >= counter {
        ContractStops(q[1..], counter, env);
      } else {
        var e := h.future.value;
        PollKeepsContract(e.id, e.body, Logged(env, e), false);
        ContractStops(q[1..], counter, PollEntry(e, env).env);
      }
    }
  }

  // The tasks of a queue that have not been polled in this cycle, in order.
  ghost function Unpolled(q: seq<Slot>, counter: nat): seq<Entry> {
    if q == [] then []
    else (if Settled(q[0], counter) then [] else [q[0].future.value]) + Unpolled(q[1..], counter)
  }

  // One pass polls every such task exactly once, in queue order, and no other.
  lemma {:induction false} SweepPolls(q: seq<Slot>, counter: nat, env: Env)
    ensures SweepQueue(q, counter, env).env.polls == env.polls + Unpolled(q, counter)
  {
    if q != [] {
      if Settled(q[0], counter) {
        SweepPolls(q[1..], counter, env);
      } else {
        var e := q[0].future.value;
        PollBodyHistory(e.id, e.body, Logged(env, e));
        SweepPolls(q[1..], counter, PollEntry(e, env).env);
      }
    }
  }

  // poll_next on any queue of distinct tasks that obey the contract, all linked
  // tasks being queued: it returns; every task not yet polled in this cycle is
  // polled once, in queue order; the tasks left in the queue are the survivors in
  // queue order rotated left by one; the result is `Ready` iff none is left.
  lemma PollNextMeaning(c: Conf)
    requires c.initial == None && c.asleep == map[] && DistinctKeys(c.queue)
    requires Obeys(c.queue) && AllWake(c.env.incoming)
    ensures Inv(c) && Stops(c)
    ensures var (c', ready) := Finish(c);
      && Live(c'.queue) == RotateLeft(SweepOf(c).kept)
      && c'.env == SweepOf(c).env && c'.env.polls == c.env.polls + Unpolled(c.queue, c.counter)
      && c'.asleep == map[]
      && (ready <==> SweepOf(c).kept == [])
  {
    ContractStops(c.queue, c.counter, c.env);
    FinishMeaning(c);
    SweepPolls(c.queue, c.counter, c.env);
  }
}
