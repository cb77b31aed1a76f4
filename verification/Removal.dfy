// What unqueue_task and the three clears take away, and what they leave as it was
// (src/lib.rs).
module Removals {
  import opened Wrappers
  import opened Programs
  import opened Scheduling
  import opened History

  // ------------------------------------------------------- unqueue_task

  // All entries but those of one id, in order.
  function Others(es: seq<Entry>, id: nat): seq<Entry> {
    if es == [] then [] else (if es[0].id == id then [] else [es[0]]) + Others(es[1..], id)
  }

  lemma {:induction false} OthersConcat(a: seq<Entry>, b: seq<Entry>, id: nat)
    ensures Others(a + b, id) == Others(a, id) + Others(b, id)
  {
    if a == [] {
      assert a + b == b;
    } else {
      assert (a + b)[1..] == a[1..] + b && (a + b)[0] == a[0];
      OthersConcat(a[1..], b, id);
      Associative(if a[0].id == id then [] else [a[0]], Others(a[1..], id), Others(b, id));
    }
  }

  lemma {:induction false} NoneToLeaveOut(es: seq<Entry>, id: nat)
    requires IdCount(es, id) == 0
    ensures Others(es, id) == es
  {
    if es != [] {
      NoneToLeaveOut(es[1..], id);
    }
  }

  lemma {:induction false} CountUpTo(es: seq<Entry>, i: nat, id: nat)
    requires i <= |es| && forall j :: 0 <= j < i ==> es[j].id != id
    ensures IdCount(es[..i], id) == 0
  {
    if i > 0 {
      CountUpTo(es[1..], i - 1, id);
      assert es[..i][1..] == es[1..][..i - 1];
    }
  }

  // `es` is `rest` with one entry of this id put in, before any other of that id.
  ghost predicate PutBack(rest: seq<Entry>, i: nat, e: Entry, id: nat, es: seq<Entry>) {
    && i <= |rest| && es == rest[..i] + [e] + rest[i..]
    && e.id == id && IdCount(rest[..i], id) == 0
  }

  lemma TakenOut(es: seq<Entry>, i: nat, id: nat)
    requires i < |es| && es[i].id == id && IdCount(es[..i], id) == 0
    ensures var rest := es[..i] + es[i + 1..];
      && PutBack(rest, i, es[i], id, es) && Others(rest, id) == Others(es, id)
      && (IdCount(es, id) <= 1 ==> rest == Others(es, id))
  {
    var rest, tail := es[..i] + es[i + 1..], [es[i]] + es[i + 1..];
    assert rest[..i] == es[..i] && rest[i..] == es[i + 1..];
    assert es == es[..i] + tail && tail[1..] == es[i + 1..];
    Associative(es[..i], [es[i]], es[i + 1..]);
    OthersConcat(es[..i], tail, id);
    OthersConcat(es[..i], es[i + 1..], id);
    assert [] + Others(es[i + 1..], id) == Others(es[i + 1..], id);
    IdCountRemove(es, i, id);
    if IdCount(es, id) <= 1 {
      NoneToLeaveOut(rest, id);
    }
  }

  // unqueue_task succeeds if and only if a task of this id is incoming; it takes out one
  // task, the first of that id; everything else stays, and in its order.
  lemma UnqueueKeepsOrder(s: Sched, id: nat)
    ensures var (s', found) := UnqueueTask(s, id);
            var es, es' := s.env.incoming, s'.env.incoming;
      && s' == s.(env := s.env.(incoming := es')) && (found <==> IdCount(es, id) > 0)
      && (if found then exists i, e :: PutBack(es', i, e, id, es) else es' == es)
      && Others(es', id) == Others(es, id) && (IdCount(es, id) <= 1 ==> es' == Others(es, id))
  {
    var es := s.env.incoming;
    var i := Position(es, id);
    CountUpTo(es, i, id);
    if i < |es| {
      IdCountRemove(es, i, id);
      TakenOut(es, i, id);
      assert PutBack(UnqueueTask(s, id).0.env.incoming, i, es[i], id, es);
    } else {
      assert es[..i] == es;
      NoneToLeaveOut(es, id);
    }
  }

  // --------------------------------------------- a run without the task taken back

  function Bodies(es: seq<Entry>): seq<Body> {
    if es == [] then [] else [es[0].body] + Bodies(es[1..])
  }

  function Children(bodies: seq<Body>): seq<Body> {
    if bodies == [] then [] else FirstSpawns(bodies[0]) + Children(bodies[1..])
  }

  // What these tasks have spawned, k generations later, if each is polled once.
  function Descendants(bodies: seq<Body>, k: nat): seq<Body>
    decreases k
  {
    if k == 0 then bodies else Descendants(Children(bodies), k - 1)
  }

  lemma {:induction false} ChildrenConcat(a: seq<Body>, b: seq<Body>)
    ensures Children(a + b) == Children(a) + Children(b)
  {
    if a == [] {
      assert a + b == b;
    } else {
      assert (a + b)[1..] == a[1..] + b && (a + b)[0] == a[0];
      ChildrenConcat(a[1..], b);
      Associative(FirstSpawns(a[0]), Children(a[1..]), Children(b));
    }
  }

  lemma {:induction false} DescendantsConcat(a: seq<Body>, b: seq<Body>, k: nat)
    ensures Descendants(a + b, k) == Descendants(a, k) + Descendants(b, k)
    decreases k
  {
    if k > 0 {
      ChildrenConcat(a, b);
      DescendantsConcat(Children(a), Children(b), k - 1);
    }
  }

  lemma {:induction false} BodiesConcat(a: seq<Entry>, b: seq<Entry>)
    ensures Bodies(a + b) == Bodies(a) + Bodies(b)
  {
    if a == [] {
      assert a + b == b;
    } else {
      assert (a + b)[1..] == a[1..] + b && (a + b)[0] == a[0];
      BodiesConcat(a[1..], b);
      Associative([a[0].body], Bodies(a[1..]), Bodies(b));
    }
  }

  lemma {:induction false} ChildrenOf(es: seq<Entry>)
    ensures Offspring(es) == Children(Bodies(es))
  {
    if es != [] {
      ChildrenOf(es[1..]);
      assert Bodies(es)[1..] == Bodies(es[1..]);
    }
  }

  lemma {:induction false} BodiesNumbered(bodies: seq<Body>, n: nat)
    ensures Bodies(Numbered(bodies, n)) == bodies
  {
    if bodies != [] {
      BodiesNumbered(bodies[1..], n + 1);
      var es := Numbered(bodies, n);
      assert es[1..] == Numbered(bodies[1..], n + 1);
    }
  }

  lemma {:induction false} NoDescendants(k: nat)
    ensures Descendants([], k) == []
    decreases k
  {
    if k > 0 {
      NoDescendants(k - 1);
    }
  }

  lemma FirstGeneration(batch: seq<Entry>, n: nat)
    ensures var g, next := Generations(batch, n), NextGeneration(batch, n);
      && g != [] && g[0] == batch && Bodies(next) == Children(Bodies(batch))
      && g[1..] == if next == [] then [] else Generations(next, n + |next|)
  {
    ChildrenOf(batch);
    BodiesNumbered(Offspring(batch), n);
    if NextGeneration(batch, n) != [] {
      NextGenerationSmaller(batch, n);
    }
  }

  // The generations that a run polls one after another are the tasks it finds and their
  // descendants.
  lemma {:induction false} GenerationIs(batch: seq<Entry>, n: nat, k: nat)
    ensures var g := Generations(batch, n);
      Descendants(Bodies(batch), k) == if k < |g| then Bodies(g[k]) else []
    decreases k
  {
    FirstGeneration(batch, n);
    var g, next := Generations(batch, n), NextGeneration(batch, n);
    if k > 0 && next == [] {
      NoDescendants(k - 1);
    } else if k > 0 {
      GenerationIs(next, n + |next|, k - 1);
      assert k < |g| ==> g[k] == g[1..][k - 1];
    }
  }

  // Everything that a run polls, in the order of the polls.
  lemma RunByGeneration(s: Sched)
    ensures PolledIn(s) == Flat(Generations(Todo(s), |s.env.born|))
    ensures Run(s).env.polls == s.env.polls + PolledIn(s)
  {
    ExactlyOncePerRun(s);
    GenerationsBirths([], Todo(s), Drained(s.env));
  }

  // The bodies that a run polls in its k-th generation.
  ghost function PolledAt(s: Sched, k: nat): seq<Body> {
    var g := Generations(Todo(s), |s.env.born|);
    if k < |g| then Bodies(g[k]) else []
  }

  // The run after a successful unqueue_task polls, generation by generation, what the run
  // without it would have polled, in the same order, but for one task of this id and
  // those descended from it.
  lemma UnqueuedRun(s: Sched, id: nat, k: nat) returns (e: Entry, before: seq<Body>, after: seq<Body>)
    requires UnqueueTask(s, id).1
    ensures e in s.env.incoming && e.id == id
    ensures PolledAt(s, k) == before + Descendants([e.body], k) + after
    ensures PolledAt(UnqueueTask(s, id).0, k) == before + after
  {
    UnqueueKeepsOrder(s, id);
    var rest := UnqueueTask(s, id).0.env.incoming;
    var i: nat, d :| PutBack(rest, i, d, id, s.env.incoming);
    e := d;
    assert (rest[..i] + [e] + rest[i..])[i] == e;
    before, after := OneLess(s, s.(env := s.env.(incoming := rest)), i, e, k);
  }

  lemma OneLess(s: Sched, s': Sched, i: nat, e: Entry, k: nat) returns (before: seq<Body>, after: seq<Body>)
    requires i <= |s'.env.incoming| && s.env.incoming == s'.env.incoming[..i] + [e] + s'.env.incoming[i..]
    requires s'.pool == s.pool && s'.env.born == s.env.born
    ensures PolledAt(s, k) == before + Descendants([e.body], k) + after && PolledAt(s', k) == before + after
  {
    var rest := s'.env.incoming;
    var front, back := s.pool + rest[..i], rest[i..];
    Regroup(s.pool, rest[..i], [e], back);
    assert rest == rest[..i] + back;
    Associative(s.pool, rest[..i], back);
    OneFamilyLess(front, e, back, k);
    GenerationIs(Todo(s), |s.env.born|, k);
    GenerationIs(Todo(s'), |s'.env.born|, k);
    before, after := Descendants(Bodies(front), k), Descendants(Bodies(back), k);
  }

  lemma Regroup<T>(a: seq<T>, b: seq<T>, c: seq<T>, d: seq<T>)
    ensures a + (b + c + d) == a + b + c + d
  {
    Associative(a, b + c, d);
    Associative(a, b, c);
  }

  lemma OneFamilyLess(front: seq<Entry>, e: Entry, back: seq<Entry>, k: nat)
    ensures var before, after := Descendants(Bodies(front), k), Descendants(Bodies(back), k);
      && Descendants(Bodies(front + [e] + back), k) == before + Descendants([e.body], k) + after
      && Descendants(Bodies(front + back), k) == before + after
  {
    BodiesConcat(front, [e]);
    BodiesConcat(front + [e], back);
    BodiesConcat(front, back);
    assert Bodies([e]) == [e.body] by {
      assert [e][1..] == [];
    }
    DescendantsConcat(Bodies(front), [e.body], k);
    DescendantsConcat(Bodies(front) + [e.body], Bodies(back), k);
    DescendantsConcat(Bodies(front), Bodies(back), k);
  }

  // ---------------------------------------------------------------- clears

  // The tasks that a call clears away.
  ghost function ClearedBy(s: Sched, c: Call): seq<Entry> {
    match c
    case ClearRunning => s.pool
    case ClearQueue => s.env.incoming
    case Clear => Todo(s)
    case _ => []
  }

  // A cleared task is never polled, whatever happens later; the others stay, in order,
  // and nothing else changes.
  lemma ClearedNeverPolled(w: World, c: Call, e: Entry, h: seq<Call>)
    requires Balanced(w) && IdsDistinct(w.sched) && e in ClearedBy(w.sched, c)
    requires |After(Apply(w, c), h).sched.env.born| <= IDS
    ensures var s, s' := w.sched, Apply(w, c).sched;
      && s'.pool == (if c.ClearQueue? then s.pool else [])
      && s'.env == s.env.(incoming := if c.ClearRunning? then s.env.incoming else [])
      && PollsBy(After(Apply(w, c), h).sched.env.polls, e.id) == PollsBy(s.env.polls, e.id)
  {
    var s := w.sched;
    IdCountConcat(s.pool, s.env.incoming, e.id);
    PollsByCount(ClearedBy(s, c), e.id);
    assert e in PollsBy(ClearedBy(s, c), e.id);
    assert IdCount(Todo(s), e.id) <= (if e.id < |s.env.born| then 1 else 0);
    var s' := Apply(w, c).sched;
    IdCountConcat(s'.pool, s'.env.incoming, e.id);
    ApplyBalanced(w, c);
    GoneStaysGone(Apply(w, c), h, e.id);
  }
}
