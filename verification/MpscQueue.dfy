// The intrusive multi-producer, single-consumer ready queue of
// src/futures/ready_to_run_queue.rs as a state machine.  One action is one
// access to shared memory; any number of enqueues interleave with one consumer.
module MpscQueue {
  import opened Wrappers

  type Node = nat

  const STUB: Node := 0

  // Where one enqueue call stands.  A call is named by the node it inserts: a
  // node may not be enqueued while it is still inside.
  datatype Stage =
    | Begun                // about to null the node's own next pointer
    | Cleared              // about to swap itself into `head`
    | Swapped(prev: Node)  // about to link its predecessor to itself

  // The next shared access of the consumer.  The last seven belong to one
  // call of `dequeue`; ClearStub, SwapStub and LinkStub are its enqueue of the stub.
  datatype Consumer =
    | Idle
    | ReadTail
    | ReadAgain
    | ReadHead
    | ClearStub
    | SwapStub
    | LinkStub(prev: Node)
    | Recheck

  datatype Result = Data(node: Node) | Empty | Inconsistent

  // `next` holds the non-null next pointers.  The last four fields are history:
  // the nodes from `tail` to `head` in swap order, every node swapped in so far,
  // every node handed to the consumer so far, and whether some enqueue has
  // linked since the current dequeue began.
  datatype State = State(
    next: map<Node, Node>,
    head: Node,
    tail: Node,
    inflight: map<Node, Stage>,
    consumer: Consumer,
    chain: seq<Node>,
    swapped: seq<Node>,
    delivered: seq<Node>,
    linkedSince: bool)

  datatype Action =
    | Begin(node: Node)
    | Clear(node: Node)
    | Swap(node: Node)
    | Link(node: Node)
    | Start
    | Consume

  const INITIAL := State(map[], STUB, STUB, map[], Idle, [STUB], [], [], false)

  predicate Inside(s: State, n: Node) {
    n in s.inflight || n in s.chain
  }

  predicate Enabled(s: State, a: Action) {
    match a
    case Begin(n) => n != STUB && !Inside(s, n)
    case Clear(n) => n in s.inflight && s.inflight[n] == Begun
    case Swap(n) => n in s.inflight && s.inflight[n] == Cleared
    case Link(n) => n in s.inflight && s.inflight[n].Swapped?
    case Start => s.consumer == Idle
    case Consume => s.consumer != Idle
  }

  function Behead(chain: seq<Node>): seq<Node> {
    if chain == [] then [] else chain[1..]
  }

  // `Dequeue::Data(tail)`: the consumer has seen a successor of the tail.
  function Deliver(s: State): (State, Option<Result>)
    requires s.tail in s.next
  {
    (s.(tail := s.next[s.tail], consumer := Idle, chain := Behead(s.chain), delivered := s.delivered + [s.tail]),
     Some(Data(s.tail)))
  }

  // One shared access of the consumer, with the result if the call returns.
  function ConsumerStep(s: State): (State, Option<Result>)
    requires s.consumer != Idle
  {
    match s.consumer
    case ReadTail =>
      if s.tail == STUB then
        if STUB !in s.next then
          (s.(consumer := Idle), Some(Empty))
        else
          (s.(tail := s.next[STUB], consumer := ReadAgain, chain := Behead(s.chain)), None)
      else if s.tail in s.next then
        Deliver(s)
      else
        (s.(consumer := ReadHead), None)
    case ReadAgain =>
      if s.tail in s.next then Deliver(s) else (s.(consumer := ReadHead), None)
    case ReadHead =>
      if s.head != s.tail then (s.(consumer := Idle), Some(Inconsistent)) else (s.(consumer := ClearStub), None)
    case ClearStub =>
      (s.(next := s.next - {STUB}, consumer := SwapStub), None)
    case SwapStub =>
      (s.(head := STUB, chain := s.chain + [STUB], consumer := LinkStub(s.head)), None)
    case LinkStub(p) =>
      (s.(next := s.next[p := STUB], consumer := Recheck), None)
    case Recheck =>
      if s.tail in s.next then Deliver(s) else (s.(consumer := Idle), Some(Inconsistent))
  }

  function Do(s: State, a: Action): State
    requires Enabled(s, a)
  {
    match a
    case Begin(n) => s.(inflight := s.inflight[n := Begun])
    case Clear(n) => s.(next := s.next - {n}, inflight := s.inflight[n := Cleared])
    case Swap(n) =>
      s.(head := n, inflight := s.inflight[n := Swapped(s.head)], chain := s.chain + [n], swapped := s.swapped + [n])
    case Link(n) =>
      s.(next := s.next[s.inflight[n].prev := n], inflight := s.inflight - {n}, linkedSince := true)
    case Start => s.(consumer := ReadTail, linkedSince := false)
    case Consume => ConsumerStep(s).0
  }

  function ResultOf(s: State, a: Action): Option<Result>
    requires Enabled(s, a)
  {
    if a == Consume then ConsumerStep(s).1 else None
  }

  // The nodes of a chain that carry tasks.
  function Tasks(chain: seq<Node>): seq<Node> {
    if chain == [] then []
    else (if chain[0] == STUB then [] else [chain[0]]) + Tasks(chain[1..])
  }

  ghost predicate Adjacent(chain: seq<Node>, p: Node, n: Node) {
    exists i :: 0 <= i < |chain| - 1 && chain[i] == p && chain[i + 1] == n
  }

  // The enqueue of n has swapped itself in behind p and has not linked p yet.
  predicate InGap(s: State, p: Node, n: Node) {
    if n == STUB then s.consumer == LinkStub(p) else n in s.inflight && s.inflight[n] == Swapped(p)
  }

  ghost predicate ChainInv(s: State) {
    && |s.chain| > 0
    && s.chain[0] == s.tail
    && s.chain[|s.chain| - 1] == s.head
    && Distinct(s.chain)
    && s.head !in s.next
    && forall i :: 0 <= i < |s.chain| - 1 ==>
         if s.chain[i] in s.next then s.next[s.chain[i]] == s.chain[i + 1] else InGap(s, s.chain[i], s.chain[i + 1])
  }

  ghost predicate ProducersInv(s: State) {
    forall n :: n in s.inflight ==>
      && n != STUB
      && match s.inflight[n]
         case Begun => n !in s.chain
         case Cleared => n !in s.chain && n !in s.next
         case Swapped(p) => Adjacent(s.chain, p, n) && p !in s.next
  }

  ghost predicate ConsumerInv(s: State) {
    && (s.consumer != Idle && s.consumer != ReadTail ==> s.tail != STUB)
    && (s.consumer.ReadHead? ==> s.tail !in s.next || s.linkedSince)
    && (s.consumer.ClearStub? || s.consumer.SwapStub? ==> STUB !in s.chain)
    && (s.consumer.SwapStub? ==> STUB !in s.next)
    && (s.consumer.LinkStub? ==> Adjacent(s.chain, s.consumer.prev, STUB) && s.consumer.prev !in s.next)
    && (s.consumer.Recheck? ==> STUB in s.chain)
  }

  ghost predicate Inv(s: State) {
    && ChainInv(s)
    && ProducersInv(s)
    && ConsumerInv(s)
    && STUB !in s.delivered
    && s.swapped == s.delivered + Tasks(s.chain)
  }

  lemma TasksAppend(chain: seq<Node>, n: Node)
    ensures Tasks(chain + [n]) == Tasks(chain) + (if n == STUB then [] else [n])
  {
    if chain == [] {
      assert (chain + [n])[1..] == [];
    } else {
      assert (chain + [n])[1..] == chain[1..] + [n] && (chain + [n])[0] == chain[0];
      TasksAppend(chain[1..], n);
      Associative(if chain[0] == STUB then [] else [chain[0]], Tasks(chain[1..]), if n == STUB then [] else [n]);
    }
  }

  lemma {:induction false} TasksMembers(chain: seq<Node>, n: Node)
    requires n != STUB
    ensures n in Tasks(chain) <==> n in chain
  {
    if chain != [] {
      TasksMembers(chain[1..], n);
    }
  }

  lemma AdjacentGrows(chain: seq<Node>, m: Node, p: Node, n: Node)
    requires Adjacent(chain, p, n)
    ensures Adjacent(chain + [m], p, n)
  {
    var i :| 0 <= i < |chain| - 1 && chain[i] == p && chain[i + 1] == n;
    assert (chain + [m])[i] == p && (chain + [m])[i + 1] == n;
  }

  lemma AdjacentLast(chain: seq<Node>, n: Node)
    requires chain != []
    ensures Adjacent(chain + [n], chain[|chain| - 1], n)
  {
    assert (chain + [n])[|chain| - 1] == chain[|chain| - 1] && (chain + [n])[|chain|] == n;
  }

  lemma AdjacentUnique(chain: seq<Node>, p: Node, n: Node, m: Node)
    requires Distinct(chain) && Adjacent(chain, p, n) && Adjacent(chain, p, m)
    ensures n == m
  {
  }

  lemma AdjacentIn(chain: seq<Node>, p: Node, n: Node)
    requires Adjacent(chain, p, n)
    ensures p in chain && n in chain
  {
  }

  lemma AdjacentBehead(chain: seq<Node>, p: Node, n: Node)
    requires Adjacent(chain, p, n) && Distinct(chain) && p != chain[0]
    ensures Adjacent(chain[1..], p, n)
  {
    var i :| 0 <= i < |chain| - 1 && chain[i] == p && chain[i + 1] == n;
    assert chain[1..][i - 1] == p && chain[1..][i] == n;
  }

  // Extending the chain behind `head` disturbs no enqueue that waits to link.
  lemma AppendKeepsAdjacency(s: State, m: Node)
    requires ProducersInv(s)
    ensures forall n :: n in s.inflight && s.inflight[n].Swapped? ==> Adjacent(s.chain + [m], s.inflight[n].prev, n)
  {
    forall n | n in s.inflight && s.inflight[n].Swapped? ensures Adjacent(s.chain + [m], s.inflight[n].prev, n) {
      AdjacentGrows(s.chain, m, s.inflight[n].prev, n);
    }
  }

  // Swapping a node into `head` opens one gap, behind the old head.
  lemma SwapChain(s: State, s': State, n: Node)
    requires ChainInv(s) && n !in s.chain && n !in s.next
    requires s' == s.(head := n, chain := s.chain + [n], inflight := s'.inflight, consumer := s'.consumer,
                      swapped := s'.swapped)
    requires if n == STUB then s'.inflight == s.inflight && s'.consumer == LinkStub(s.head)
             else s'.inflight == s.inflight[n := Swapped(s.head)] && s'.consumer == s.consumer
    ensures ChainInv(s')
  {
    var last := |s.chain| - 1;
    assert s'.chain[..last + 1] == s.chain;
    forall i | 0 <= i < |s'.chain| - 1
      ensures if s'.chain[i] in s'.next then s'.next[s'.chain[i]] == s'.chain[i + 1]
              else InGap(s', s'.chain[i], s'.chain[i + 1])
    {
      if i < last {
        assert s'.chain[i] == s.chain[i] && s'.chain[i + 1] == s.chain[i + 1] != n;
      }
    }
  }

  lemma SwapInv(s: State, n: Node)
    requires Inv(s) && Enabled(s, Swap(n))
    ensures Inv(Do(s, Swap(n)))
  {
    var s' := Do(s, Swap(n));
    TasksAppend(s.chain, n);
    Associative(s.delivered, Tasks(s.chain), [n]);
    SwapChain(s, s', n);
    AdjacentLast(s.chain, n);
    AppendKeepsAdjacency(s, n);
    assert ProducersInv(s');
    if s.consumer.LinkStub? {
      AdjacentGrows(s.chain, n, s.consumer.prev, STUB);
    }
    assert ConsumerInv(s');
  }

  // Linking a predecessor writes the one null pointer that stands for the gap.
  lemma LinkChain(s: State, s': State, p: Node, n: Node)
    requires ChainInv(s) && Adjacent(s.chain, p, n) && p !in s.next
    requires s' == s.(next := s.next[p := n], inflight := s.inflight - {n}, linkedSince := s'.linkedSince,
                      consumer := s'.consumer)
    requires n != STUB ==> s'.consumer == s.consumer
    requires n == STUB ==> s.inflight == s'.inflight && s.consumer == LinkStub(p)
    ensures ChainInv(s')
  {
    var k :| 0 <= k < |s.chain| - 1 && s.chain[k] == p && s.chain[k + 1] == n;
    forall i | 0 <= i < |s'.chain| - 1
      ensures if s'.chain[i] in s'.next then s'.next[s'.chain[i]] == s'.chain[i + 1]
              else InGap(s', s'.chain[i], s'.chain[i + 1])
    {
      if i != k {
        assert s.chain[i] != p && s.chain[i + 1] != n;
      }
    }
  }

  lemma LinkInv(s: State, n: Node)
    requires Inv(s) && Enabled(s, Link(n))
    ensures Inv(Do(s, Link(n)))
  {
    var s' := Do(s, Link(n));
    var p := s.inflight[n].prev;
    LinkChain(s, s', p, n);
    forall m | m in s'.inflight && s'.inflight[m].Swapped? ensures s'.inflight[m].prev !in s'.next {
      if s.inflight[m].prev == p {
        AdjacentUnique(s.chain, p, n, m);
      }
    }
    if s.consumer.LinkStub? && s.consumer.prev == p {
      AdjacentUnique(s.chain, p, n, STUB);
    }
    AdjacentIn(s.chain, p, n);
  }

  lemma AdvanceInv(s: State, s': State)
    requires Inv(s) && s.tail in s.next
    requires s' == s.(tail := s.next[s.tail], consumer := s'.consumer, chain := s.chain[1..],
                      delivered := if s.tail == STUB then s.delivered else s.delivered + [s.tail])
    requires s'.consumer == Idle || (s'.consumer == ReadAgain && s.tail == STUB)
    requires !s.consumer.LinkStub?
    ensures Inv(s')
  {
    AdvanceChain(s, s');
    Beheaded(s.chain);
    forall n | n in s.inflight && s.inflight[n].Swapped? ensures Adjacent(s'.chain, s.inflight[n].prev, n) {
      AdjacentBehead(s.chain, s.inflight[n].prev, n);
    }
    Associative(s.delivered, [s.tail], Tasks(s'.chain));
  }

  lemma AdvanceChain(s: State, s': State)
    requires ChainInv(s) && s.tail in s.next
    requires s'.tail == s.next[s.tail] && s'.head == s.head && s'.next == s.next && s'.inflight == s.inflight
    requires s'.chain == s.chain[1..]
    requires s'.consumer == Idle || s'.consumer == ReadAgain
    requires !s.consumer.LinkStub?
    ensures ChainInv(s')
  {
    forall i | 0 <= i < |s'.chain| - 1
      ensures if s'.chain[i] in s'.next then s'.next[s'.chain[i]] == s'.chain[i + 1]
              else InGap(s', s'.chain[i], s'.chain[i + 1])
    {
      assert s'.chain[i] == s.chain[i + 1] && s'.chain[i + 1] == s.chain[i + 2];
    }
  }

  // A chain without its oldest node.
  lemma Beheaded(chain: seq<Node>)
    requires chain != [] && Distinct(chain)
    ensures chain[0] !in chain[1..] && forall m :: m in chain <==> m == chain[0] || m in chain[1..]
    ensures Tasks(chain) == (if chain[0] == STUB then [] else [chain[0]]) + Tasks(chain[1..])
  {
    assert chain == [chain[0]] + chain[1..];
  }

  lemma SwapStubInv(s: State)
    requires Inv(s) && s.consumer == SwapStub
    ensures Inv(ConsumerStep(s).0)
  {
    var s' := ConsumerStep(s).0;
    TasksAppend(s.chain, STUB);
    SwapChain(s, s', STUB);
    AdjacentLast(s.chain, STUB);
    AppendKeepsAdjacency(s, STUB);
  }

  lemma LinkStubInv(s: State)
    requires Inv(s) && s.consumer.LinkStub?
    ensures Inv(ConsumerStep(s).0)
  {
    var s' := ConsumerStep(s).0;
    var p := s.consumer.prev;
    AdjacentIn(s.chain, p, STUB);
    assert s.inflight - {STUB} == s.inflight;
    LinkChain(s, s', p, STUB);
    forall m | m in s'.inflight && s'.inflight[m].Swapped? ensures s'.inflight[m].prev !in s'.next {
      if s.inflight[m].prev == p {
        AdjacentUnique(s.chain, p, STUB, m);
      }
    }
  }

  lemma ClearStubInv(s: State)
    requires Inv(s) && s.consumer == ClearStub
    ensures Inv(ConsumerStep(s).0)
  {
    var s' := ConsumerStep(s).0;
    assert forall i :: 0 <= i < |s.chain| ==> s.chain[i] != STUB && (s.chain[i] in s'.next <==> s.chain[i] in s.next);
  }

  // The accesses that only read.
  lemma ReadInv(s: State)
    requires Inv(s) && s.consumer != Idle
    requires ConsumerStep(s).0 == s.(consumer := ConsumerStep(s).0.consumer)
    ensures Inv(ConsumerStep(s).0)
  {
    var s' := ConsumerStep(s).0;
    assert ChainInv(s');
    assert ProducersInv(s');
  }

  lemma ConsumerStepInv(s: State)
    requires Inv(s) && s.consumer != Idle
    ensures Inv(ConsumerStep(s).0)
  {
    if s.consumer.ClearStub? {
      ClearStubInv(s);
    } else if s.consumer.SwapStub? {
      SwapStubInv(s);
    } else if s.consumer.LinkStub? {
      LinkStubInv(s);
    } else if s.consumer.ReadHead? || s.tail !in s.next {
      ReadInv(s);
    } else {
      AdvanceInv(s, ConsumerStep(s).0);
    }
  }

  lemma StepInv(s: State, a: Action)
    requires Inv(s) && Enabled(s, a)
    ensures Inv(Do(s, a))
  {
    match a
    case Swap(n) => SwapInv(s, n);
    case Link(n) => LinkInv(s, n);
    case Consume => ConsumerStepInv(s);
    case _ =>
  }

  // ---------------------------------------------------------------- runs

  ghost predicate Allowed(s: State, acts: seq<Action>)
    decreases |acts|
  {
    acts == [] || (Enabled(s, acts[0]) && Allowed(Do(s, acts[0]), acts[1..]))
  }

  ghost function After(s: State, acts: seq<Action>): State
    requires Allowed(s, acts)
    decreases |acts|
  {
    if acts == [] then s else After(Do(s, acts[0]), acts[1..])
  }

  // The nodes of a run's enqueues, in the order in which they swapped `head`.
  function Swaps(acts: seq<Action>): seq<Node> {
    if acts == [] then [] else (if acts[0].Swap? then [acts[0].node] else []) + Swaps(acts[1..])
  }

  // The nodes returned by a run's dequeues, in order.
  ghost function DataResults(s: State, acts: seq<Action>): seq<Node>
    requires Allowed(s, acts)
    decreases |acts|
  {
    if acts == [] then []
    else
      var r := ResultOf(s, acts[0]);
      (if r.Some? && r.value.Data? then [r.value.node] else []) + DataResults(Do(s, acts[0]), acts[1..])
  }

  lemma StepHistory(s: State, a: Action)
    requires Enabled(s, a)
    ensures Do(s, a).swapped == s.swapped + (if a.Swap? then [a.node] else [])
    ensures var r := ResultOf(s, a);
            Do(s, a).delivered == s.delivered + (if r.Some? && r.value.Data? then [r.value.node] else [])
  {
  }

  lemma {:induction false} RunHistory(s: State, acts: seq<Action>)
    requires Allowed(s, acts)
    ensures After(s, acts).swapped == s.swapped + Swaps(acts)
    ensures After(s, acts).delivered == s.delivered + DataResults(s, acts)
    decreases |acts|
  {
    if acts != [] {
      var s', r := Do(s, acts[0]), ResultOf(s, acts[0]);
      StepHistory(s, acts[0]);
      RunHistory(s', acts[1..]);
      Associative(s.swapped, if acts[0].Swap? then [acts[0].node] else [], Swaps(acts[1..]));
      Associative(s.delivered, if r.Some? && r.value.Data? then [r.value.node] else [], DataResults(s', acts[1..]));
    }
  }

  lemma {:induction false} RunInv(s: State, acts: seq<Action>)
    requires Inv(s) && Allowed(s, acts)
    ensures Inv(After(s, acts))
    decreases |acts|
  {
    if acts != [] {
      StepInv(s, acts[0]);
      RunInv(Do(s, acts[0]), acts[1..]);
    }
  }

  ghost predicate Reachable(s: State) {
    exists acts :: Allowed(INITIAL, acts) && After(INITIAL, acts) == s
  }

  lemma ReachableInv(s: State)
    requires Reachable(s)
    ensures Inv(s)
  {
    var acts :| Allowed(INITIAL, acts) && After(INITIAL, acts) == s;
    RunInv(INITIAL, acts);
  }

  // Refinement of a first-in first-out list: over every run, with any number of
  // producers interleaved at any access, the nodes returned are a prefix of the
  // nodes swapped in; what is still missing is exactly what the chain holds, each
  // node (the stub too) at most once.
  lemma FifoRefinement(acts: seq<Action>)
    requires Allowed(INITIAL, acts)
    ensures DataResults(INITIAL, acts) <= Swaps(acts)
    ensures Swaps(acts) == DataResults(INITIAL, acts) + Tasks(After(INITIAL, acts).chain)
    ensures STUB !in DataResults(INITIAL, acts) && Distinct(After(INITIAL, acts).chain)
  {
    RunInv(INITIAL, acts);
    RunHistory(INITIAL, acts);
    assert After(INITIAL, acts).swapped == Swaps(acts);
    assert After(INITIAL, acts).delivered == DataResults(INITIAL, acts);
  }

  // A returned node is the oldest one not yet returned, is never the stub, has
  // left the queue, and no enqueue can still write its next pointer.
  lemma DataIsSafe(s: State, n: Node)
    requires Reachable(s) && Enabled(s, Consume) && ResultOf(s, Consume) == Some(Data(n))
    ensures n != STUB
    ensures |s.swapped| > |s.delivered| && s.swapped[|s.delivered|] == n
    ensures var s' := Do(s, Consume);
            !Inside(s', n) && s'.consumer == Idle && forall m :: m in s'.inflight ==> s'.inflight[m] != Swapped(n)
  {
    ReachableInv(s);
    ConsumeEffect(s);
    var s' := Do(s, Consume);
    forall m | m in s'.inflight ensures s'.inflight[m] != Swapped(n) {
      if s'.inflight[m] == Swapped(n) {
        AdjacentIn(s'.chain, n, m);
      }
    }
  }

  lemma ConsumerLeavesInflight(s: State)
    requires s.consumer != Idle
    ensures ConsumerStep(s).0.inflight == s.inflight
  {
  }

  // What one access of the consumer does to the chain.
  lemma ConsumeShape(s: State)
    requires ChainInv(s) && ConsumerInv(s) && s.consumer != Idle
    ensures var (s', r) := ConsumerStep(s);
      && (r == None <==> s'.consumer != Idle)
      && (if r.Some? && r.value.Data? then r.value.node == s.tail != STUB && s'.chain == s.chain[1..]
          else s'.chain == s.chain || (s.tail == STUB && s'.chain == s.chain[1..])
               || s'.chain == s.chain + [STUB])
  {
  }

  lemma OldestHasSwapped(s: State)
    requires ChainInv(s) && ProducersInv(s)
    ensures s.tail !in s.inflight
  {
    if s.tail in s.inflight && s.inflight[s.tail].Swapped? {
      AdjacentIn(s.chain, s.inflight[s.tail].prev, s.tail);
    }
  }

  // One access of the consumer, seen from outside: it removes exactly what it returns.
  lemma ConsumeEffect(s: State)
    requires Inv(s) && s.consumer != Idle
    ensures var (s', r) := ConsumerStep(s);
      && Inv(s') && s'.inflight == s.inflight
      && (r == None <==> s'.consumer != Idle)
      && (if r.Some? && r.value.Data? then
            var n := r.value.node;
            && n != STUB && Inside(s, n) && !Inside(s', n)
            && Tasks(s.chain) == [n] + Tasks(s'.chain)
            && (forall m :: m != STUB && m != n ==> (m in s'.chain <==> m in s.chain))
          else
            Tasks(s'.chain) == Tasks(s.chain) && forall m :: m != STUB ==> (m in s'.chain <==> m in s.chain))
  {
    ConsumerLeavesInflight(s);
    ConsumerStepInv(s);
    ConsumeShape(s);
    OldestHasSwapped(s);
    Beheaded(s.chain);
    TasksAppend(s.chain, STUB);
  }

  // `Empty` means that nothing is queued, or that the oldest enqueue has swapped
  // itself in but not linked yet.
  lemma EmptyMeans(s: State)
    requires Reachable(s) && Enabled(s, Consume) && ResultOf(s, Consume) == Some(Empty)
    ensures Tasks(s.chain) == [] ||
            var oldest := Tasks(s.chain)[0]; oldest in s.inflight && s.inflight[oldest] == Swapped(s.tail)
  {
    ReachableInv(s);
    EmptyInGap(s);
  }

  lemma EmptyInGap(s: State)
    requires Inv(s) && Enabled(s, Consume) && ResultOf(s, Consume) == Some(Empty)
    ensures Tasks(s.chain) == [] ||
            var oldest := Tasks(s.chain)[0]; oldest in s.inflight && s.inflight[oldest] == Swapped(s.tail)
  {
    if |s.chain| > 1 {
      assert InGap(s, s.chain[0], s.chain[1]);
      assert Tasks(s.chain) == Tasks(s.chain[1..]);
      assert s.chain[1] != STUB;
    } else {
      assert s.chain == [STUB];
    }
  }

  // `Inconsistent` means that the successor of the tail has swapped itself in
  // but not linked, or that some enqueue linked during this very dequeue.
  lemma InconsistentMeans(s: State)
    requires Reachable(s) && Enabled(s, Consume) && ResultOf(s, Consume) == Some(Inconsistent)
    ensures s.linkedSince || SuccessorInGap(s)
  {
    ReachableInv(s);
    if !s.linkedSince {
      assert s.tail !in s.next && |s.chain| > 1;
      assert InGap(s, s.chain[0], s.chain[1]);
      if s.chain[1] == STUB {
        assert false;
      }
    }
  }

  // The successor of the tail, in swap order, has swapped itself in and not linked.
  predicate SuccessorInGap(s: State) {
    |s.chain| > 1 && s.chain[1] in s.inflight && s.inflight[s.chain[1]] == Swapped(s.tail)
  }

  // `Inconsistent` is returned while the next enqueue in line lies between its swap
  // and its link if and only if the tail's next pointer is still null by then.
  lemma InconsistentExactly(s: State)
    requires Reachable(s) && Enabled(s, Consume) && ResultOf(s, Consume) == Some(Inconsistent)
    ensures SuccessorInGap(s) <==> s.tail !in s.next
    ensures s.tail in s.next ==> s.consumer == ReadHead && s.linkedSince
  {
    ReachableInv(s);
    assert |s.chain| > 1;
    assert s.tail in s.next || InGap(s, s.chain[0], s.chain[1]);
    if SuccessorInGap(s) {
      assert Adjacent(s.chain, s.tail, s.chain[1]) && s.tail !in s.next;
    }
  }

  // The second case of InconsistentMeans is real: an enqueue that starts and
  // finishes between the consumer's read of the tail's next pointer and its read
  // of `head` makes the call return `Inconsistent` with no enqueue in flight.
  lemma InconsistentWithNothingInFlight()
    ensures exists s :: Reachable(s) && s.inflight == map[] && s.consumer == ReadHead
                        && ResultOf(s, Consume) == Some(Inconsistent)
  {
    assert Reachable(INITIAL) by {
      assert Allowed(INITIAL, []) && After(INITIAL, []) == INITIAL;
    }
    var s4 := EnqueueAlone(INITIAL, 1);
    ReachableStep(s4, Start);
    var s5 := Do(s4, Start);
    ReachableStep(s5, Consume);
    var s6 := Do(s5, Consume);
    ReachableStep(s6, Consume);
    var s7 := Do(s6, Consume);
    assert s7.consumer == ReadHead && s7.tail == 1 && s7.chain == [1];
    var s11 := EnqueueAlone(s7, 2);
    assert s11.head == 2 && s11.tail == 1;
  }

  // The accesses of one enqueue.
  function EnqueueSteps(n: Node): seq<Action> {
    [Begin(n), Clear(n), Swap(n), Link(n)]
  }

  // With nothing in between, they put the node behind all others.
  lemma EnqueueAlone(s: State, n: Node) returns (s': State)
    requires Reachable(s) && Enabled(s, Begin(n)) && s.inflight == map[]
    ensures Reachable(s') && Allowed(s, EnqueueSteps(n)) && After(s, EnqueueSteps(n)) == s'
    ensures s' == s.(next := (s.next - {n})[s.head := n], head := n, chain := s.chain + [n],
                     swapped := s.swapped + [n], linkedSince := true)
  {
    var s1 := Do(s, Begin(n));
    var s2 := Do(s1, Clear(n));
    var s3 := Do(s2, Swap(n));
    s' := Do(s3, Link(n));
    ReachableStep(s, Begin(n));
    ReachableStep(s1, Clear(n));
    ReachableStep(s2, Swap(n));
    ReachableStep(s3, Link(n));
    assert s'.inflight == s.inflight;
    AfterAppend(s, [], Begin(n));
    assert [] + [Begin(n)] == [Begin(n)];
    AfterAppend(s, [Begin(n)], Clear(n));
    assert [Begin(n)] + [Clear(n)] == [Begin(n), Clear(n)];
    AfterAppend(s, [Begin(n), Clear(n)], Swap(n));
    assert [Begin(n), Clear(n)] + [Swap(n)] == [Begin(n), Clear(n), Swap(n)];
    AfterAppend(s, [Begin(n), Clear(n), Swap(n)], Link(n));
    assert [Begin(n), Clear(n), Swap(n)] + [Link(n)] == EnqueueSteps(n);
  }

  lemma ReachableStep(s: State, a: Action)
    requires Reachable(s) && Enabled(s, a)
    ensures Reachable(Do(s, a))
  {
    var acts :| Allowed(INITIAL, acts) && After(INITIAL, acts) == s;
    AfterAppend(INITIAL, acts, a);
  }

  lemma {:induction false} AfterAppend(s: State, acts: seq<Action>, a: Action)
    requires Allowed(s, acts) && Enabled(After(s, acts), a)
    ensures Allowed(s, acts + [a]) && After(s, acts + [a]) == Do(After(s, acts), a)
    decreases |acts|
  {
    if acts == [] {
      assert Allowed(Do(s, a), []);
    } else {
      assert (acts + [a])[1..] == acts[1..] + [a];
      AfterAppend(Do(s, acts[0]), acts[1..], a);
    }
  }

  // ------------------------------------------- dequeue with no enqueue in flight

  function StepsLeft(c: Consumer): nat {
    match c
    case Idle => 0
    case ReadTail => 7
    case ReadAgain => 6
    case ReadHead => 5
    case ClearStub => 4
    case SwapStub => 3
    case LinkStub(_) => 2
    case Recheck => 1
  }

  // The rest of one dequeue call while every producer stands still.
  function FinishAlone(s: State): (State, Result)
    requires s.consumer != Idle
    decreases StepsLeft(s.consumer)
  {
    var (s', r) := ConsumerStep(s);
    match r
    case Some(result) => (s', result)
    case None => FinishAlone(s')
  }

  // With no enqueue in flight, a dequeue is the head and tail of a list: it is
  // never `Inconsistent`, and `Empty` exactly when the list is.
  lemma DequeueAlone(s: State)
    requires Reachable(s) && s.consumer == Idle && s.inflight == map[]
    ensures var (s', r) := FinishAlone(Do(s, Start));
            && (if Tasks(s.chain) == [] then r == Empty && Tasks(s'.chain) == []
                else r == Data(Tasks(s.chain)[0]) && Tasks(s'.chain) == Tasks(s.chain)[1..])
            && s'.inflight == map[] && s'.consumer == Idle && Reachable(s')
  {
    ReachableInv(s);
    assert Inv(Do(s, Start)) by { StepInv(s, Start); }
    FinishAloneFrom(Do(s, Start));
    ReachableStep(s, Start);
    FinishReachable(Do(s, Start));
  }

  lemma {:induction false} FinishReachable(s: State)
    requires Reachable(s) && s.consumer != Idle
    ensures Reachable(FinishAlone(s).0)
    decreases StepsLeft(s.consumer)
  {
    ReachableStep(s, Consume);
    if ConsumerStep(s).1.None? {
      FinishReachable(ConsumerStep(s).0);
    }
  }

  lemma {:induction false} FinishAloneFrom(s: State)
    requires Inv(s) && s.consumer != Idle && s.inflight == map[] && !s.linkedSince
    requires s.consumer.ReadTail? || s.consumer.ReadAgain? || Tasks(s.chain) != []
    requires s.consumer.Recheck? ==> s.tail in s.next
    requires s.consumer == ReadAgain ==> s.tail != STUB
    ensures var (s', r) := FinishAlone(s);
            && (if Tasks(s.chain) == [] then r == Empty && Tasks(s'.chain) == []
                else r == Data(Tasks(s.chain)[0]) && Tasks(s'.chain) == Tasks(s.chain)[1..])
            && s'.inflight == map[] && s'.consumer == Idle
    decreases StepsLeft(s.consumer)
  {
    var (s', r) := ConsumerStep(s);
    ConsumerStepInv(s);
    assert |s.chain| > 1 ==> s.tail in s.next || InGap(s, s.chain[0], s.chain[1]);
    assert Tasks(s.chain) == (if s.tail == STUB then [] else [s.tail]) + Tasks(s.chain[1..]);
    if r.None? {
      if s.consumer.SwapStub? {
        TasksAppend(s.chain, STUB);
      }
      FinishAloneFrom(s');
    }
  }
}
