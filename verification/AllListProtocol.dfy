// Concurrent `FuturesUnordered::link` of src/futures/futures_unordered.rs, with
// readers that walk the list meanwhile (src/futures/iter.rs).  One action is one
// access to shared memory; any number of threads insert and iterate.  `unlink`
// needs the list for itself: it is one action, possible when nobody else is inside.
module AllListProtocol {
  import opened Wrappers

  type Node = nat
  type Reader = nat

  // `next_all`: the reserved pending value, or a possibly null pointer.
  datatype Next = Pending | Ready(next: Option<Node>)

  datatype Task = Task(nextAll: Next, prevAll: Option<Node>, lenAll: nat)

  // The next shared access of the thread that inserts a node.
  datatype Insert =
    | SwapHead
    | SpinNext(next: Option<Node>)     // wait until the old head is complete
    | ReadLen(next: Option<Node>)      // read its length, write our own
    | StoreNext(next: Option<Node>)    // publish: next_all
    | StorePrev(next: Option<Node>)    // prev_all of the old head

  // A reader: `len`/`iter_pin_ref` up to its snapshot, then the iterator, with the
  // nodes it has yielded so far.
  datatype Walk =
    | SpinHead(head: Node)
    | LoadLen(head: Node)
    | At(task: Option<Node>, len: nat, total: nat, seen: seq<Node>)

  // The last two fields are history: the nodes of the list, oldest first, and how
  // many there were after the last `unlink`.
  datatype State = State(
    tasks: map<Node, Task>,
    head: Option<Node>,
    inserts: map<Node, Insert>,
    readers: map<Reader, Walk>,
    order: seq<Node>,
    base: nat)

  const INITIAL := State(map[], None, map[], map[], [], 0)

  datatype Action =
    | New(node: Node)         // allocate the task, next_all = pending
    | Insert(node: Node)      // one access of its insertion
    | StartRead(reader: Reader)
    | Read(reader: Reader)
    | EndRead(reader: Reader) // the iterator is dropped, at its end or before
    | Unlink(node: Node)

  predicate Enabled(s: State, a: Action) {
    match a
    case New(n) => n !in s.tasks
    case Insert(n) => n in s.inserts
    case StartRead(r) => r !in s.readers
    case Read(r) => r in s.readers
    case EndRead(r) => r in s.readers
    case Unlink(n) => s.inserts == map[] && s.readers == map[] && n in s.tasks
  }

  function LoadNext(s: State, n: Node): Next {
    if n in s.tasks then s.tasks[n].nextAll else Pending
  }

  function LoadLenAll(s: State, n: Node): nat {
    if n in s.tasks then s.tasks[n].lenAll else 0
  }

  function Write(s: State, n: Node, t: Task): State {
    s.(tasks := s.tasks[n := t])
  }

  function DoInsert(s: State, n: Node): State
    requires n in s.inserts
  {
    var t := if n in s.tasks then s.tasks[n] else Task(Pending, None, 0);
    match s.inserts[n]
    case SwapHead =>
      s.(head := Some(n), order := s.order + [n],
         inserts := s.inserts[n := if s.head == None then ReadLen(None) else SpinNext(s.head)])
    case SpinNext(next) =>
      if next.Some? && LoadNext(s, next.value) == Pending then s else s.(inserts := s.inserts[n := ReadLen(next)])
    case ReadLen(next) =>
      var len := if next == None then 1 else LoadLenAll(s, next.value) + 1;
      Write(s, n, t.(lenAll := len)).(inserts := s.inserts[n := StoreNext(next)])
    case StoreNext(next) =>
      Write(s, n, t.(nextAll := Ready(next))).(inserts := s.inserts[n := StorePrev(next)])
    case StorePrev(next) =>
      var s' := s.(inserts := s.inserts - {n});
      if next.Some? && next.value in s.tasks
      then Write(s', next.value, s.tasks[next.value].(prevAll := Some(n)))
      else s'
  }

  function DoRead(s: State, r: Reader): State
    requires r in s.readers
  {
    match s.readers[r]
    case SpinHead(h) =>
      if LoadNext(s, h) == Pending then s else s.(readers := s.readers[r := LoadLen(h)])
    case LoadLen(h) =>
      s.(readers := s.readers[r := At(Some(h), LoadLenAll(s, h), LoadLenAll(s, h), [])])
    case At(task, len, total, seen) =>
      if task == None then
        s
      else
        match LoadNext(s, task.value)
        case Pending => s
        case Ready(next) =>
          s.(readers := s.readers[r := At(next, if len > 0 then len - 1 else 0, total, seen + [task.value])])
  }

  function Without(order: seq<Node>, n: Node): seq<Node> {
    if order == [] then [] else if order[0] == n then order[1..] else [order[0]] + Without(order[1..], n)
  }

  function SetPrev(tasks: map<Node, Task>, n: Option<Node>, prev: Option<Node>): map<Node, Task> {
    if n.Some? && n.value in tasks then tasks[n.value := tasks[n.value].(prevAll := prev)] else tasks
  }

  function SetNext(tasks: map<Node, Task>, n: Option<Node>, next: Option<Node>): map<Node, Task> {
    if n.Some? && n.value in tasks then tasks[n.value := tasks[n.value].(nextAll := Ready(next))] else tasks
  }

  function SetLen(tasks: map<Node, Task>, n: Option<Node>, len: nat): map<Node, Task> {
    if n.Some? && n.value in tasks then tasks[n.value := tasks[n.value].(lenAll := len)] else tasks
  }

  // The head's length is read first and written last, to what is the head then.
  function DoUnlink(s: State, n: Node): State
    requires n in s.tasks
  {
    var len := if s.head.Some? then LoadLenAll(s, s.head.value) else 0;
    var next := if s.tasks[n].nextAll.Ready? then s.tasks[n].nextAll.next else None;
    var prev := s.tasks[n].prevAll;
    var head := if prev.Some? then s.head else next;
    var tasks := SetNext(SetPrev(s.tasks - {n}, next, prev), prev, next);
    var order := Without(s.order, n);
    s.(tasks := SetLen(tasks, head, if len > 0 then len - 1 else 0), head := head, order := order, base := |order|)
  }

  function Do(s: State, a: Action): State
    requires Enabled(s, a)
  {
    match a
    case New(n) => Write(s, n, Task(Pending, None, 0)).(inserts := s.inserts[n := SwapHead])
    case Insert(n) => DoInsert(s, n)
    case StartRead(r) =>
      s.(readers := s.readers[r := if s.head == None then At(None, 0, 0, []) else SpinHead(s.head.value)])
    case Read(r) => DoRead(s, r)
    case EndRead(r) => s.(readers := s.readers - {r})
    case Unlink(n) => DoUnlink(s, n)
  }

  // The head of the list of the first i inserted nodes.
  function HeadOf(order: seq<Node>, i: nat): Option<Node>
    requires i <= |order|
  {
    if i == 0 then None else Some(order[i - 1])
  }

  predicate Complete(s: State, n: Node) {
    LoadNext(s, n) != Pending
  }

  // Node order[i], if it is complete, points at its predecessor in time; and it
  // counts the nodes from itself on, unless an `unlink` has left that out of date.
  predicate NodeInv(s: State, i: nat)
    requires i < |s.order|
  {
    var n := s.order[i];
    n in s.tasks &&
    match s.tasks[n].nextAll
    case Pending => i >= s.base && n in s.inserts && InsertInv(s, i, s.inserts[n])
    case Ready(next) =>
      && next == HeadOf(s.order, i)
      && (i + 1 >= s.base ==> s.tasks[n].lenAll == i + 1)
      && (i > 0 ==> Complete(s, s.order[i - 1]))
      && (n in s.inserts ==> i >= s.base && s.inserts[n] == StorePrev(next))
  }

  predicate InsertInv(s: State, i: nat, pc: Insert)
    requires i < |s.order|
  {
    match pc
    case SwapHead => false
    case SpinNext(next) => i > 0 && next == HeadOf(s.order, i)
    case ReadLen(next) => next == HeadOf(s.order, i) && (i > 0 ==> Complete(s, s.order[i - 1]))
    case StoreNext(next) =>
      && next == HeadOf(s.order, i) && (i > 0 ==> Complete(s, s.order[i - 1]))
      && LoadLenAll(s, s.order[i]) == i + 1
    case StorePrev(_) => false
  }

  // `prev_all` is right as soon as its writer has returned.
  predicate PrevInv(s: State, i: nat)
    requires i < |s.order|
  {
    s.order[i] in s.tasks &&
    (if i + 1 < |s.order| && Complete(s, s.order[i + 1]) && s.order[i + 1] !in s.inserts
     then s.tasks[s.order[i]].prevAll == Some(s.order[i + 1])
     else s.tasks[s.order[i]].prevAll == None)
  }

  ghost predicate ListInv(s: State) {
    && Distinct(s.order) && s.base <= |s.order|
    && s.head == HeadOf(s.order, |s.order|)
    && (forall i :: 0 <= i < |s.order| ==> NodeInv(s, i))
    && (forall i :: 0 <= i < |s.order| ==> PrevInv(s, i))
    && (forall n :: n in s.inserts && n !in s.order ==> s.inserts[n] == SwapHead && n in s.tasks
                                                        && s.tasks[n] == Task(Pending, None, 0))
    && (forall n :: n in s.tasks ==> n in s.inserts || n in s.order)
  }

  // What is left of an iterator's walk: the nodes from order[i - 1] back to order[0].
  function Backwards(order: seq<Node>, i: nat): seq<Node>
    requires i <= |order|
  {
    if i == 0 then [] else [order[i - 1]] + Backwards(order, i - 1)
  }

  // The node was the head at the last `unlink`, or was inserted after it.
  ghost predicate Recent(s: State, n: Node) {
    exists i :: 0 <= i < |s.order| && s.order[i] == n && i + 1 >= s.base
  }

  ghost predicate ReaderInv(s: State, w: Walk) {
    match w
    case SpinHead(h) => Recent(s, h)
    case LoadLen(h) => Recent(s, h) && Complete(s, h)
    case At(task, len, total, seen) =>
      && len <= total <= |s.order|
      && task == HeadOf(s.order, len)
      && (len > 0 ==> Complete(s, s.order[len - 1]))
      && seen + Backwards(s.order, len) == Backwards(s.order, total)
  }

  ghost predicate Inv(s: State) {
    ListInv(s) && forall r :: r in s.readers ==> ReaderInv(s, s.readers[r])
  }

  lemma {:induction false} BackwardsStable(order: seq<Node>, n: Node, i: nat)
    requires i <= |order|
    ensures Backwards(order + [n], i) == Backwards(order, i)
  {
    if i > 0 {
      BackwardsStable(order, n, i - 1);
    }
  }

  // A step that keeps `order` or extends it, and keeps complete nodes complete,
  // disturbs no reader.
  lemma ReadersUndisturbed(s: State, s': State)
    requires forall r :: r in s.readers ==> ReaderInv(s, s.readers[r])
    requires s'.readers == s.readers
    requires s'.base == s.base && (s'.order == s.order || exists n :: s'.order == s.order + [n])
    requires forall n :: n in s.order && Complete(s, n) ==> Complete(s', n)
    ensures forall r :: r in s'.readers ==> ReaderInv(s', s'.readers[r])
  {
    forall r | r in s'.readers ensures ReaderInv(s', s'.readers[r]) {
      if s'.order != s.order && s.readers[r].At? {
        var n :| s'.order == s.order + [n];
        BackwardsStable(s.order, n, s.readers[r].len);
        BackwardsStable(s.order, n, s.readers[r].total);
      } else if !s.readers[r].At? {
        var h := s.readers[r].head;
        var i :| 0 <= i < |s.order| && s.order[i] == h && i + 1 >= s.base;
        assert s'.order[i] == h;
      }
    }
  }

  // An access that touches the task and the insertion of n only.
  ghost predicate TouchesOnly(s: State, s': State, n: Node) {
    && s'.order == s.order && s'.base == s.base
    && (forall m :: m != n ==> (m in s'.tasks <==> m in s.tasks) && (m in s'.inserts <==> m in s.inserts))
    && (forall m :: m != n && m in s.tasks ==> s'.tasks[m] == s.tasks[m])
    && (forall m :: m != n && m in s.inserts ==> s'.inserts[m] == s.inserts[m])
    && (Complete(s, n) ==> Complete(s', n))
  }

  lemma OtherNode(s: State, s': State, n: Node, i: nat)
    requires TouchesOnly(s, s', n) && i < |s.order| && s.order[i] != n && NodeInv(s, i)
    ensures NodeInv(s', i)
  {
  }

  lemma OtherPrev(s: State, s': State, n: Node, i: nat)
    requires TouchesOnly(s, s', n) && i < |s.order| && PrevInv(s, i)
    requires s.order[i] == n ==> n in s'.tasks && n in s.tasks && s'.tasks[n].prevAll == s.tasks[n].prevAll
    requires Complete(s', n) && n !in s'.inserts <==> Complete(s, n) && n !in s.inserts
    ensures PrevInv(s', i)
  {
  }

  lemma NewInv(s: State, n: Node)
    requires ListInv(s) && n !in s.tasks
    ensures ListInv(Do(s, New(n)))
  {
    var s' := Do(s, New(n));
    assert TouchesOnly(s, s', n);
    forall i | 0 <= i < |s.order| ensures NodeInv(s', i) && PrevInv(s', i) {
      assert NodeInv(s, i) && PrevInv(s, i);
      OtherNode(s, s', n, i);
      OtherPrev(s, s', n, i);
    }
  }

  lemma SwapHeadInv(s: State, n: Node)
    requires ListInv(s) && n in s.inserts && s.inserts[n] == SwapHead
    ensures ListInv(Do(s, Insert(n))) && n !in s.order
  {
    var s' := Do(s, Insert(n));
    assert n !in s.order by {
      forall i | 0 <= i < |s.order| ensures s.order[i] != n { assert NodeInv(s, i); }
    }
    var last := |s.order|;
    forall i | 0 <= i < |s'.order| ensures NodeInv(s', i) && PrevInv(s', i) {
      if i < last {
        assert NodeInv(s, i) && PrevInv(s, i);
        assert s'.order[i] == s.order[i];
      } else {
        assert s'.order[i] == n;
      }
    }
  }

  // The place of a node that has swapped the head.
  lemma PlaceOf(s: State, n: Node) returns (k: nat)
    requires ListInv(s) && n in s.inserts && s.inserts[n] != SwapHead
    ensures k < |s.order| && s.order[k] == n && k >= s.base && NodeInv(s, k)
    ensures forall i :: 0 <= i < |s.order| && i != k ==> s.order[i] != n
  {
    k :| 0 <= k < |s.order| && s.order[k] == n;
    assert NodeInv(s, k);
  }

  // An insertion under way goes on: everything is as it was but the node itself.
  lemma GoesOnInv(s: State, s': State, n: Node, k: nat)
    requires ListInv(s) && TouchesOnly(s, s', n) && s'.head == s.head
    requires k < |s.order| && s.order[k] == n && NodeInv(s', k)
    requires n in s.tasks && n in s'.tasks && s'.tasks[n].prevAll == s.tasks[n].prevAll
    requires n in s.inserts && n in s'.inserts
    ensures ListInv(s')
  {
    forall i | 0 <= i < |s.order| ensures NodeInv(s', i) && PrevInv(s', i) {
      assert NodeInv(s, i) && PrevInv(s, i);
      if i != k {
        OtherNode(s, s', n, i);
      }
      OtherPrev(s, s', n, i);
    }
  }

  lemma InsertTouches(s: State, n: Node)
    requires n in s.inserts && n in s.tasks && !s.inserts[n].SwapHead? && !s.inserts[n].StorePrev?
    requires s.tasks[n].nextAll == Pending
    ensures var s' := Do(s, Insert(n));
      && TouchesOnly(s, s', n) && s'.head == s.head
      && n in s'.tasks && s'.tasks[n].prevAll == s.tasks[n].prevAll && n in s'.inserts
  {
  }

  lemma WaitingInv(s: State, n: Node)
    requires ListInv(s) && n in s.inserts && (s.inserts[n].SpinNext? || s.inserts[n].ReadLen?)
    ensures ListInv(Do(s, Insert(n)))
  {
    var k := PlaceOf(s, n);
    InsertTouches(s, n);
    assert k > 0 ==> NodeInv(s, k - 1);
    GoesOnInv(s, Do(s, Insert(n)), n, k);
  }

  lemma StoreNextInv(s: State, n: Node)
    requires ListInv(s) && n in s.inserts && s.inserts[n].StoreNext?
    ensures ListInv(Do(s, Insert(n)))
  {
    var k := PlaceOf(s, n);
    InsertTouches(s, n);
    GoesOnInv(s, Do(s, Insert(n)), n, k);
  }

  // The node's insertion is over, and the old head points back at it.
  lemma StorePrevNode(s: State, s': State, n: Node, i: nat)
    requires i < |s.order| && NodeInv(s, i) && s'.order == s.order && s'.base == s.base
    requires s'.inserts == s.inserts - {n} && (forall m :: m in s'.tasks <==> m in s.tasks)
    requires forall m :: m in s.tasks ==>
      s'.tasks[m].nextAll == s.tasks[m].nextAll && s'.tasks[m].lenAll == s.tasks[m].lenAll
    requires s.order[i] == n ==> Complete(s, n)
    ensures NodeInv(s', i)
  {
  }

  lemma StorePrevInv(s: State, n: Node)
    requires ListInv(s) && n in s.inserts && s.inserts[n].StorePrev?
    ensures ListInv(Do(s, Insert(n)))
  {
    var s' := Do(s, Insert(n));
    var k := PlaceOf(s, n);
    assert k > 0 ==> NodeInv(s, k - 1);
    assert Complete(s, n) && s.inserts[n].next == HeadOf(s.order, k);
    forall i | 0 <= i < |s.order| ensures NodeInv(s', i) && PrevInv(s', i) {
      assert NodeInv(s, i) && PrevInv(s, i);
      StorePrevNode(s, s', n, i);
      assert i + 1 < |s.order| && i + 1 != k ==> s.order[i + 1] != n;
    }
  }

  lemma ListStepInv(s: State, a: Action)
    requires ListInv(s) && Enabled(s, a)
    ensures ListInv(Do(s, a))
  {
    match a
    case New(n) => NewInv(s, n);
    case Insert(n) =>
      match s.inserts[n] {
        case SwapHead => SwapHeadInv(s, n);
        case SpinNext(_) => WaitingInv(s, n);
        case ReadLen(_) => WaitingInv(s, n);
        case StoreNext(_) => StoreNextInv(s, n);
        case StorePrev(_) => StorePrevInv(s, n);
      }
    case StartRead(r) => SameList(s, Do(s, a));
    case Read(r) => SameList(s, Do(s, a));
    case EndRead(r) => SameList(s, Do(s, a));
    case Unlink(n) => UnlinkInv(s, n);
  }

  lemma {:induction false} WithoutAt(order: seq<Node>, n: Node, k: nat)
    requires Distinct(order) && k < |order| && order[k] == n
    ensures Without(order, n) == order[..k] + order[k + 1..]
  {
    if k > 0 {
      WithoutAt(order[1..], n, k - 1);
      assert order[1..][..k - 1] == order[1..k] && order[1..][k..] == order[k + 1..];
      assert [order[0]] + order[1..k] == order[..k];
    }
  }

  // The node inserted next after order[i], if there is one.
  function Newer(order: seq<Node>, i: int): Option<Node>
    requires -1 <= i < |order|
  {
    if i + 1 == |order| then None else Some(order[i + 1])
  }

  // The list when nobody is inserting.
  predicate QuietNode(s: State, i: nat)
    requires i < |s.order|
  {
    var n := s.order[i];
    && n in s.tasks
    && s.tasks[n].nextAll == Ready(HeadOf(s.order, i)) && s.tasks[n].prevAll == Newer(s.order, i)
    && (i + 1 >= s.base ==> s.tasks[n].lenAll == i + 1)
  }

  ghost predicate Quiet(s: State) {
    && s.inserts == map[] && Distinct(s.order) && s.base <= |s.order|
    && s.head == HeadOf(s.order, |s.order|)
    && (forall i :: 0 <= i < |s.order| ==> QuietNode(s, i))
    && forall n :: n in s.tasks ==> n in s.order
  }

  lemma QuietList(s: State)
    requires s.inserts == map[]
    ensures ListInv(s) <==> Quiet(s)
  {
    if ListInv(s) {
      forall i | 0 <= i < |s.order| ensures QuietNode(s, i) {
        assert NodeInv(s, i) && PrevInv(s, i);
        if i + 1 < |s.order| { assert NodeInv(s, i + 1); }
      }
    }
    if Quiet(s) {
      forall i | 0 <= i < |s.order| ensures NodeInv(s, i) && PrevInv(s, i) {
        assert QuietNode(s, i);
        if i > 0 { assert QuietNode(s, i - 1); }
        if i + 1 < |s.order| { assert QuietNode(s, i + 1); }
      }
    }
  }

  // What `unlink` of order[k] does to the head and to one of the other nodes.
  lemma UnlinkedHead(s: State, k: nat)
    requires Quiet(s) && k < |s.order| && QuietNode(s, k)
    ensures DoUnlink(s, s.order[k]).head == HeadOf(s.order, if k == |s.order| - 1 then k else |s.order|)
  {
  }

  lemma UnlinkedLinks(s: State, k: nat, j: nat)
    requires Quiet(s) && k < |s.order| && j < |s.order| && j != k && QuietNode(s, k) && QuietNode(s, j)
    ensures var tasks, m := DoUnlink(s, s.order[k]).tasks, s.order[j];
      && m in tasks
      && tasks[m].nextAll == Ready(HeadOf(s.order, if j == k + 1 then k else j))
      && tasks[m].prevAll == Newer(s.order, if k == j + 1 then k else j)
  {
    assert j != k + 1 ==> HeadOf(s.order, k) != Some(s.order[j]) || k == j + 1;
  }

  lemma UnlinkedLen(s: State, k: nat, j: nat)
    requires Quiet(s) && k < |s.order| && j < |s.order| && j != k && QuietNode(s, k) && QuietNode(s, j)
    requires QuietNode(s, |s.order| - 1)
    ensures var tasks, m := DoUnlink(s, s.order[k]).tasks, s.order[j];
      var last := if k == |s.order| - 1 then k - 1 else |s.order| - 1;
      m in tasks && tasks[m].lenAll == if j == last then |s.order| - 1 else s.tasks[m].lenAll
  {
    UnlinkedHead(s, k);
  }

  lemma UnlinkedNode(s: State, k: nat, i: nat)
    requires Quiet(s) && k < |s.order| && i < |s.order| - 1 && QuietNode(s, k)
    requires DoUnlink(s, s.order[k]).order == s.order[..k] + s.order[k + 1..]
    ensures QuietNode(DoUnlink(s, s.order[k]), i)
  {
    var j := if i < k then i else i + 1;
    assert QuietNode(s, k) && QuietNode(s, j) && QuietNode(s, |s.order| - 1);
    UnlinkedLinks(s, k, j);
    UnlinkedLen(s, k, j);
    UnlinkedAround(s.order, k, i);
  }

  // The neighbours of order[j], without order[k].
  lemma UnlinkedAround(order: seq<Node>, k: nat, i: nat)
    requires k < |order| && i < |order| - 1
    ensures var order', j := order[..k] + order[k + 1..], if i < k then i else i + 1;
      && order'[i] == order[j]
      && HeadOf(order', i) == HeadOf(order, if j == k + 1 then k else j)
      && Newer(order', i) == Newer(order, if k == j + 1 then k else j)
  {
    SkipAt(order, k, i);
    if i > 0 { SkipAt(order, k, i - 1); }
    if i + 1 < |order| - 1 { SkipAt(order, k, i + 1); }
  }

  lemma UnlinkedTasks(s: State, n: Node)
    requires n in s.tasks
    ensures forall m :: m in DoUnlink(s, n).tasks ==> m in s.tasks && m != n
  {
  }

  lemma UnlinkInv(s: State, n: Node)
    requires ListInv(s) && s.inserts == map[] && n in s.tasks
    ensures var s' := DoUnlink(s, n);
      && ListInv(s')
      && (forall m :: m in s'.tasks <==> m in s.tasks && m != n)
      && exists k :: 0 <= k < |s.order| && s.order[k] == n && s'.order == s.order[..k] + s.order[k + 1..]
  {
    var s' := DoUnlink(s, n);
    QuietList(s);
    QuietList(s');
    var k := QuietPlace(s, n);
    UnlinkedQuiet(s, k);
    UnlinkedDistinct(s.order, k);
    QuietLinks(s);
    QuietLinks(s');
  }

  lemma QuietPlace(s: State, n: Node) returns (k: nat)
    requires Quiet(s) && n in s.tasks
    ensures k < |s.order| && s.order[k] == n && QuietNode(s, k)
    ensures DoUnlink(s, n).order == s.order[..k] + s.order[k + 1..]
  {
    k :| 0 <= k < |s.order| && s.order[k] == n;
    WithoutAt(s.order, n, k);
  }

  lemma UnlinkedQuiet(s: State, k: nat)
    requires Quiet(s) && k < |s.order| && QuietNode(s, k)
    requires DoUnlink(s, s.order[k]).order == s.order[..k] + s.order[k + 1..]
    ensures Quiet(DoUnlink(s, s.order[k]))
  {
    var n, s' := s.order[k], DoUnlink(s, s.order[k]);
    UnlinkedHead(s, k);
    UnlinkedTasks(s, n);
    UnlinkedDistinct(s.order, k);
    forall i | 0 <= i < |s'.order| ensures QuietNode(s', i) {
      UnlinkedNode(s, k, i);
    }
    forall m | m in s'.tasks ensures m in s'.order {
      assert m in s.order && m != s.order[k];
    }
  }

  lemma UnlinkedDistinct(order: seq<Node>, k: nat)
    requires Distinct(order) && k < |order|
    ensures Distinct(order[..k] + order[k + 1..])
    ensures forall m :: m in order[..k] + order[k + 1..] <==> m in order && m != order[k]
  {
    var order' := order[..k] + order[k + 1..];
    forall m | m in order && m != order[k] ensures m in order' {
      var j :| 0 <= j < |order| && order[j] == m;
      SkipAt(order, k, if j < k then j else j - 1);
    }
    forall i, j | 0 <= i < j < |order'| ensures order'[i] != order'[j] {
      SkipAt(order, k, i);
      SkipAt(order, k, j);
    }
  }

  lemma SameList(s: State, s': State)
    requires ListInv(s) && s' == s.(readers := s'.readers)
    ensures ListInv(s')
  {
    forall i | 0 <= i < |s.order| ensures NodeInv(s', i) && PrevInv(s', i) {
      assert NodeInv(s, i) && PrevInv(s, i);
    }
  }

  lemma InsertKeepsReaders(s: State, a: Action)
    requires Inv(s) && Enabled(s, a) && (a.New? || a.Insert?)
    ensures var s' := Do(s, a); forall r :: r in s'.readers ==> ReaderInv(s', s'.readers[r])
  {
    var s' := Do(s, a);
    if a.Insert? && s.inserts[a.node] == SwapHead {
      assert s'.order == s.order + [a.node];
    }
    ReadersUndisturbed(s, s');
  }

  lemma OneReadInv(s: State, r: Reader)
    requires ListInv(s) && r in s.readers && ReaderInv(s, s.readers[r])
    ensures var s' := DoRead(s, r); r in s'.readers && ReaderInv(s', s'.readers[r])
  {
    match s.readers[r]
    case SpinHead(h) => assert forall i :: 0 <= i < |s.order| ==> DoRead(s, r).order[i] == s.order[i];
    case LoadLen(h) =>
      var i :| 0 <= i < |s.order| && s.order[i] == h && i + 1 >= s.base;
      SnapshotTaken(s, i);
    case At(task, len, total, seen) =>
      if len > 0 {
        assert NodeInv(s, len - 1);
        OneMoreSeen(s, len, seen, total);
      }
  }

  lemma SnapshotTaken(s: State, i: nat)
    requires ListInv(s) && i < |s.order| && i + 1 >= s.base && Complete(s, s.order[i])
    ensures ReaderInv(s, At(Some(s.order[i]), LoadLenAll(s, s.order[i]), LoadLenAll(s, s.order[i]), []))
  {
    assert NodeInv(s, i);
    assert [] + Backwards(s.order, i + 1) == Backwards(s.order, i + 1);
  }

  lemma OneMoreSeen(s: State, len: nat, seen: seq<Node>, total: nat)
    requires 0 < len <= total <= |s.order| && seen + Backwards(s.order, len) == Backwards(s.order, total)
    ensures (seen + [s.order[len - 1]]) + Backwards(s.order, len - 1) == Backwards(s.order, total)
  {
    Associative(seen, [s.order[len - 1]], Backwards(s.order, len - 1));
  }

  lemma ReadKeepsReaders(s: State, a: Action)
    requires Inv(s) && Enabled(s, a) && (a.StartRead? || a.Read? || a.EndRead?)
    ensures var s' := Do(s, a); forall r :: r in s'.readers ==> ReaderInv(s', s'.readers[r])
  {
    var s', r := Do(s, a), a.reader;
    forall q | q in s'.readers ensures ReaderInv(s', s'.readers[q]) {
      if q != r {
        assert ReaderInv(s, s.readers[q]);
        SameReader(s, s', s.readers[q]);
      } else if a.Read? {
        OneReadInv(s, r);
      }
    }
  }

  lemma SameReader(s: State, s': State, w: Walk)
    requires ReaderInv(s, w) && s' == s.(readers := s'.readers)
    ensures ReaderInv(s', w)
  {
  }

  lemma StepInv(s: State, a: Action)
    requires Inv(s) && Enabled(s, a)
    ensures Inv(Do(s, a))
  {
    ListStepInv(s, a);
    if a.New? || a.Insert? {
      InsertKeepsReaders(s, a);
    } else if !a.Unlink? {
      ReadKeepsReaders(s, a);
    }
  }

  // ----------------------------------------------------------------- runs

  ghost predicate Allowed(s: State, acts: seq<Action>)
    decreases |acts|
  {
    acts == [] || (Enabled(s, acts[0]) && Allowed(Do(s, acts[0]), acts[1..]))
  }

  ghost function After(s: State, acts: seq<Action>): State
    requires Allowed(s, acts)
    decreases |acts|
  {
    if acts == [] then s else After(Do(s, acts[0]), acts[1..])
  }

  ghost predicate Reachable(s: State) {
    exists acts :: Allowed(INITIAL, acts) && After(INITIAL, acts) == s
  }

  lemma {:induction false} RunInv(s: State, acts: seq<Action>)
    requires Inv(s) && Allowed(s, acts)
    ensures Inv(After(s, acts))
    decreases |acts|
  {
    if acts != [] {
      StepInv(s, acts[0]);
      RunInv(Do(s, acts[0]), acts[1..]);
    }
  }

  lemma ReachableInv(s: State)
    requires Reachable(s)
    ensures Inv(s)
  {
    var acts :| Allowed(INITIAL, acts) && After(INITIAL, acts) == s;
    RunInv(INITIAL, acts);
  }

  // Following `next_all` from a node for at most `fuel` nodes, without waiting;
  // None if a pending pointer is met or the chain is longer than that.
  function Follow(s: State, from: Option<Node>, fuel: nat): Option<seq<Node>>
    decreases fuel
  {
    match from
    case None => Some([])
    case Some(n) =>
      if fuel == 0 then None
      else match LoadNext(s, n)
        case Pending => None
        case Ready(next) =>
          match Follow(s, next, fuel - 1)
          case None => None
          case Some(rest) => Some([n] + rest)
  }

  // A node whose `next_all` is no longer pending heads a complete null-terminated
  // chain, whoever else is inserting: nobody behind it is pending, so a reader that
  // has passed the head never waits again.  Its `len_all` is the length of the chain
  // if it was the head at the last `unlink` or has been inserted since.
  lemma CompleteNodeHeadsChain(s: State, i: nat)
    requires Reachable(s) && i < |s.order| && Complete(s, s.order[i])
    ensures var chain := Follow(s, Some(s.order[i]), i + 1);
            chain.Some? && |chain.value| == i + 1 && forall m :: m in chain.value ==> Complete(s, m)
    ensures Recent(s, s.order[i]) ==> LoadLenAll(s, s.order[i]) == i + 1
  {
    ReachableInv(s);
    assert NodeInv(s, i);
    FollowBackwards(s, i + 1);
  }

  // The condition is needed: `unlink` of the oldest of at least three nodes leaves the
  // second oldest with a length that is one too many.
  lemma UnlinkLeavesStaleLen(s: State)
    requires Reachable(s) && Enabled(s, Unlink(if s.order == [] then 0 else s.order[0]))
    requires |s.order| >= 3 && s.base <= 2
    ensures var n, s' := s.order[1], Do(s, Unlink(s.order[0]));
      Follow(s', Some(n), 1) == Some([n]) && LoadLenAll(s', n) == 2
  {
    ReachableInv(s);
    QuietList(s);
    assert QuietNode(s, 0) && QuietNode(s, 1) && QuietNode(s, |s.order| - 1);
    UnlinkedLinks(s, 0, 1);
    UnlinkedLen(s, 0, 1);
    var s' := Do(s, Unlink(s.order[0]));
    assert LoadNext(s', s.order[1]) == Ready(None) && Follow(s', None, 0) == Some([]);
    assert Follow(s', Some(s.order[1]), 1) == Some([s.order[1]] + []);
    assert [s.order[1]] + [] == [s.order[1]];
  }

  // The access writes the length of n: its insertion does, and an `unlink` after which
  // it is the head.
  predicate WritesLen(s: State, a: Action, n: Node)
    requires Enabled(s, a)
  {
    || (a == Insert(n) && s.inserts[n].ReadLen?)
    || (a.Unlink? && Do(s, a).head == Some(n))
  }

  // The access takes a node that is older than n off the list.
  ghost predicate UnlinksOlder(s: State, a: Action, n: Node) {
    a.Unlink? && exists k, i :: 0 <= k < i < |s.order| && s.order[k] == a.node && s.order[i] == n
  }

  // How many older nodes have been unlinked since the length of n was written; `lost`
  // is that number at the start of the run.
  ghost function Lost(s: State, acts: seq<Action>, n: Node, lost: nat): nat
    requires Allowed(s, acts)
    decreases |acts|
  {
    if acts == [] then lost
    else
      Lost(Do(s, acts[0]), acts[1..], n, LostAfter(s, acts[0], n, lost))
  }

  predicate Written(s: State, n: Node) {
    Complete(s, n) || (n in s.inserts && s.inserts[n].StoreNext?)
  }

  // Once it is written, the length of n exceeds that of its chain by this number.
  ghost predicate OffBy(s: State, n: Node, lost: nat) {
    forall i :: 0 <= i < |s.order| && s.order[i] == n && Written(s, n) ==> LoadLenAll(s, n) == i + 1 + lost
  }

  // The number after one access.
  ghost function LostAfter(s: State, a: Action, n: Node, lost: nat): nat
    requires Enabled(s, a)
  {
    if WritesLen(s, a, n) then 0 else if UnlinksOlder(s, a, n) then lost + 1 else lost
  }

  lemma StepOffBy(s: State, a: Action, n: Node, lost: nat)
    requires Inv(s) && Enabled(s, a) && OffBy(s, n, lost)
    ensures OffBy(Do(s, a), n, LostAfter(s, a, n, lost))
  {
    StepInv(s, a);
    match a
    case Unlink(m) => UnlinkOffBy(s, m, n, lost);
    case Insert(m) =>
      if m == n {
        OwnInsertOffBy(s, n, lost);
      } else {
        InsertKeepsLen(s, m, n, lost);
      }
    case New(m) => NewKeepsLen(s, m, n, lost);
    case _ => ReadKeepsLen(s, a, n, lost);
  }

  lemma ReadKeepsLen(s: State, a: Action, n: Node, lost: nat)
    requires Enabled(s, a) && (a.StartRead? || a.Read? || a.EndRead?) && OffBy(s, n, lost)
    ensures OffBy(Do(s, a), n, lost)
  {
  }

  lemma NewKeepsLen(s: State, m: Node, n: Node, lost: nat)
    requires ListInv(s) && Enabled(s, New(m)) && OffBy(s, n, lost)
    ensures OffBy(Do(s, New(m)), n, lost)
  {
    forall i | 0 <= i < |s.order| && s.order[i] == n ensures n != m {
      assert NodeInv(s, i);
    }
  }

  lemma {:induction false} RunOffBy(s: State, acts: seq<Action>, n: Node, lost: nat)
    requires Inv(s) && Allowed(s, acts) && OffBy(s, n, lost)
    ensures OffBy(After(s, acts), n, Lost(s, acts, n, lost))
    decreases |acts|
  {
    if acts != [] {
      StepInv(s, acts[0]);
      StepOffBy(s, acts[0], n, lost);
      RunOffBy(Do(s, acts[0]), acts[1..], n, LostAfter(s, acts[0], n, lost));
    }
  }

  lemma UnlinkOffBy(s: State, m: Node, n: Node, lost: nat)
    requires Inv(s) && Enabled(s, Unlink(m)) && OffBy(s, n, lost) && Inv(Do(s, Unlink(m)))
    ensures OffBy(Do(s, Unlink(m)), n, LostAfter(s, Unlink(m), n, lost))
  {
    var s' := Do(s, Unlink(m));
    QuietList(s);
    var k := QuietPlace(s, m);
    forall i | 0 <= i < |s'.order| && s'.order[i] == n
      ensures LoadLenAll(s', n) == i + 1 + LostAfter(s, Unlink(m), n, lost)
    {
      SkipAt(s.order, k, i);
      OlderAt(s, k, if i < k then i else i + 1);
      UnlinkOffByAt(s, k, i, n, lost);
    }
  }

  lemma UnlinkOffByAt(s: State, k: nat, i: nat, n: Node, lost: nat)
    requires Quiet(s) && k < |s.order| && QuietNode(s, k) && i < |s.order| - 1
    requires n == s.order[if i < k then i else i + 1] && OffBy(s, n, lost)
    requires var s' := DoUnlink(s, s.order[k]); ListInv(s') && |s'.order| == |s.order| - 1 && s'.order[i] == n
    ensures var s' := DoUnlink(s, s.order[k]);
      LoadLenAll(s', n) == i + 1 + if s'.head == Some(n) then 0 else if i < k then lost else lost + 1
  {
    var s', j := DoUnlink(s, s.order[k]), if i < k then i else i + 1;
    if s'.head == Some(n) {
      HeadLen(s', i);
    } else {
      UnlinkedKeepsLen(s, k, j);
      assert LoadLenAll(s, s.order[j]) == j + 1 + lost;
    }
  }

  lemma HeadLen(s: State, i: nat)
    requires ListInv(s) && s.inserts == map[] && i < |s.order| && s.head == Some(s.order[i])
    ensures LoadLenAll(s, s.order[i]) == i + 1
  {
    assert NodeInv(s, i);
    assert s.order[|s.order| - 1] == s.order[i];
  }

  lemma OlderAt(s: State, k: nat, j: nat)
    requires Distinct(s.order) && k < |s.order| && j < |s.order| && j != k
    ensures UnlinksOlder(s, Unlink(s.order[k]), s.order[j]) <==> k < j
  {
  }

  lemma UnlinkedKeepsLen(s: State, k: nat, j: nat)
    requires Quiet(s) && k < |s.order| && j < |s.order| && j != k && QuietNode(s, k)
    requires DoUnlink(s, s.order[k]).head != Some(s.order[j])
    ensures LoadLenAll(DoUnlink(s, s.order[k]), s.order[j]) == LoadLenAll(s, s.order[j]) && Written(s, s.order[j])
  {
    assert QuietNode(s, j) && QuietNode(s, |s.order| - 1);
    UnlinkedLen(s, k, j);
    UnlinkedHead(s, k);
  }

  // Another node's insertion.
  lemma InsertKeepsLen(s: State, m: Node, n: Node, lost: nat)
    requires Enabled(s, Insert(m)) && m != n && OffBy(s, n, lost)
    ensures OffBy(Do(s, Insert(m)), n, lost)
  {
    var s' := Do(s, Insert(m));
    assert LoadLenAll(s', n) == LoadLenAll(s, n) && (Written(s', n) <==> Written(s, n));
    assert s'.order == s.order || s'.order == s.order + [m];
  }

  lemma OwnInsertOffBy(s: State, n: Node, lost: nat)
    requires ListInv(s) && Enabled(s, Insert(n)) && OffBy(s, n, lost) && ListInv(Do(s, Insert(n)))
    ensures OffBy(Do(s, Insert(n)), n, LostAfter(s, Insert(n), n, lost))
  {
    var s' := Do(s, Insert(n));
    if s.inserts[n] == SwapHead {
      SwapHeadInv(s, n);
      assert !Written(s', n);
    } else {
      var k := PlaceOf(s, n);
      assert s'.order == s.order && NodeInv(s', k);
      StageOffBy(s, n, k, lost);
    }
  }

  lemma StageOffBy(s: State, n: Node, k: nat, lost: nat)
    requires k < |s.order| && s.order[k] == n && NodeInv(s, k) && Enabled(s, Insert(n)) && !s.inserts[n].SwapHead?
    requires Written(s, n) ==> LoadLenAll(s, n) == k + 1 + lost
    requires Do(s, Insert(n)).order == s.order && NodeInv(Do(s, Insert(n)), k)
    ensures var s' := Do(s, Insert(n));
      Written(s', n) ==> LoadLenAll(s', n) == k + 1 + LostAfter(s, Insert(n), n, lost)
  {
  }

  // Over every run: the length stored in a complete node is that of its chain and the
  // number of older nodes unlinked since it was written.  So it is right if and only
  // if there are none.
  lemma LenIsOffByUnlinks(acts: seq<Action>, i: nat)
    requires Allowed(INITIAL, acts)
    requires var s := After(INITIAL, acts); i < |s.order| && Complete(s, s.order[i])
    ensures var s := After(INITIAL, acts);
            var chain := Follow(s, Some(s.order[i]), i + 1);
      chain.Some? && LoadLenAll(s, s.order[i]) == |chain.value| + Lost(INITIAL, acts, s.order[i], 0)
  {
    var s := After(INITIAL, acts);
    RunInv(INITIAL, acts);
    RunOffBy(INITIAL, acts, s.order[i], 0);
    FollowBackwards(s, i + 1);
  }

  lemma {:induction false} FollowBackwards(s: State, i: nat)
    requires ListInv(s) && i <= |s.order| && (i > 0 ==> Complete(s, s.order[i - 1]))
    ensures Follow(s, HeadOf(s.order, i), i) == Some(Backwards(s.order, i))
    ensures |Backwards(s.order, i)| == i && forall m :: m in Backwards(s.order, i) ==> Complete(s, m)
  {
    if i > 0 {
      assert NodeInv(s, i - 1);
      FollowBackwards(s, i - 1);
    }
  }

  // The accesses that an insertion has still to make.
  function InsertsLeft(pc: Insert): nat {
    match pc
    case SwapHead => 4
    case SpinNext(_) => 3
    case ReadLen(_) => 2
    case StoreNext(_) => 1
    case StorePrev(_) => 0
  }

  ghost predicate OnlyInserts(n: Node, acts: seq<Action>) {
    forall i :: 0 <= i < |acts| ==> acts[i] == New(n) || acts[i] == Insert(n)
  }

  lemma InsertFirst(s: State, n: Node, a: Action, rest: seq<Action>) returns (acts: seq<Action>)
    requires (a == New(n) || a == Insert(n)) && Enabled(s, a) && Allowed(Do(s, a), rest) && OnlyInserts(n, rest)
    ensures Allowed(s, acts) && OnlyInserts(n, acts) && After(s, acts) == After(Do(s, a), rest)
  {
    acts := [a] + rest;
    assert acts[1..] == rest;
  }

  // With no other insertion under way, its next access brings it nearer to the end.
  lemma InsertGoesOn(s: State, n: Node)
    requires ListInv(s) && s.inserts.Keys == {n}
    ensures var s', pc := Do(s, Insert(n)), s.inserts[n];
      && s'.order == (if pc == SwapHead then s.order + [n] else s.order) && s'.readers == s.readers && s'.base == s.base
      && if pc.StorePrev? then s'.inserts == map[]
         else s'.inserts.Keys == {n} && s'.inserts[n] != SwapHead && InsertsLeft(s'.inserts[n]) < InsertsLeft(pc)
  {
    if s.inserts[n].SpinNext? {
      NoSpinAlone(s, n);
    } else if s.inserts[n].StorePrev? {
      assert s.inserts - {n} == map[];
    }
  }

  // The node that it waits for is complete already.
  lemma NoSpinAlone(s: State, n: Node)
    requires ListInv(s) && s.inserts.Keys == {n} && s.inserts[n].SpinNext?
    ensures s.inserts[n].next.Some? && LoadNext(s, s.inserts[n].next.value) != Pending
  {
    assert n in s.order;
    var i :| 0 <= i < |s.order| && s.order[i] == n;
    assert NodeInv(s, i) && i > 0 && s.order[i - 1] != n;
    assert NodeInv(s, i - 1);
  }

  lemma {:induction false} InsertFinishes(s: State, n: Node) returns (acts: seq<Action>)
    requires ListInv(s) && s.inserts.Keys == {n}
    ensures Allowed(s, acts) && OnlyInserts(n, acts)
    ensures var s' := After(s, acts);
      && s'.inserts == map[] && s'.readers == s.readers && s'.base == s.base
      && s'.order == if s.inserts[n] == SwapHead then s.order + [n] else s.order
    decreases InsertsLeft(s.inserts[n])
  {
    InsertGoesOn(s, n);
    var s', rest := Do(s, Insert(n)), [];
    if !s.inserts[n].StorePrev? {
      ListStepInv(s, Insert(n));
      rest := InsertFinishes(s', n);
    }
    acts := InsertFirst(s, n, Insert(n), rest);
  }

  // A thread that inserts while no other does comes to the end, whatever the list's past,
  // and its node is the newest in the list.
  lemma InsertAlone(s: State, n: Node) returns (acts: seq<Action>)
    requires Reachable(s) && s.inserts == map[] && n !in s.tasks
    ensures Allowed(s, acts) && OnlyInserts(n, acts)
    ensures var s' := After(s, acts);
      s'.inserts == map[] && s'.readers == s.readers && s'.base == s.base && s'.order == s.order + [n]
  {
    ReachableInv(s);
    StepInv(s, New(n));
    var rest := InsertFinishes(Do(s, New(n)), n);
    acts := InsertFirst(s, n, New(n), rest);
  }

  lemma {:induction false} ReachableOn(s: State, acts: seq<Action>, more: seq<Action>)
    requires Allowed(s, acts) && Allowed(After(s, acts), more)
    ensures Allowed(s, acts + more) && After(s, acts + more) == After(After(s, acts), more)
    decreases |acts|
  {
    if acts == [] {
      assert acts + more == more;
    } else {
      assert (acts + more)[1..] == acts[1..] + more;
      ReachableOn(Do(s, acts[0]), acts[1..], more);
    }
  }

  lemma InsertOne(s: State, n: Node) returns (s': State)
    requires Reachable(s) && s.inserts == map[] && s.readers == map[] && n !in s.order
    ensures Reachable(s') && s'.inserts == map[] && s'.readers == map[] && s'.base == s.base
    ensures s'.order == s.order + [n]
  {
    ReachableInv(s);
    var acts :| Allowed(INITIAL, acts) && After(INITIAL, acts) == s;
    var more := InsertAlone(s, n);
    ReachableOn(INITIAL, acts, more);
    s' := After(s, more);
  }

  lemma InitialReachable()
    ensures Reachable(INITIAL)
  {
    assert Allowed(INITIAL, []) && After(INITIAL, []) == INITIAL;
  }

  lemma HeadCanGo(s: State)
    requires Reachable(s) && s.inserts == map[] && s.readers == map[] && s.order != []
    ensures Enabled(s, Unlink(s.order[0]))
  {
    ReachableInv(s);
    assert NodeInv(s, 0);
  }

  // Lists of any length are reached, so also one on which unlink leaves a stale length.
  lemma ThreeInserted()
    ensures exists s :: Reachable(s) && s.order == [1, 2, 3] && s.base == 0 && Enabled(s, Unlink(1))
  {
    InitialReachable();
    var s1 := InsertOne(INITIAL, 1);
    assert s1.order == [1];
    var s2 := InsertOne(s1, 2);
    assert s2.order == [1, 2];
    var s3 := InsertOne(s2, 3);
    assert s3.order == [1, 2, 3];
    HeadCanGo(s3);
  }

  // The oldest node that is still pending can always make progress, so the waits
  // in `link` are not a deadlock.
  lemma SomeInserterAdvances(s: State)
    requires Reachable(s) && s.inserts != map[]
    ensures exists n :: n in s.inserts && Do(s, Insert(n)) != s
  {
    ReachableInv(s);
    if n :| n in s.inserts && !s.inserts[n].SpinNext? {
      assert Do(s, Insert(n)).inserts != s.inserts;
    } else {
      var n :| n in s.inserts;
      var i :| 0 <= i < |s.order| && s.order[i] == n;
      assert NodeInv(s, i);
      OldestWaiterAdvances(s, i);
    }
  }

  lemma {:induction false} OldestWaiterAdvances(s: State, i: nat)
    requires ListInv(s) && i < |s.order| && s.order[i] in s.inserts && s.inserts[s.order[i]].SpinNext?
    requires forall n :: n in s.inserts ==> s.inserts[n].SpinNext?
    ensures exists n :: n in s.inserts && Do(s, Insert(n)) != s
  {
    assert NodeInv(s, i);
    if Complete(s, s.order[i - 1]) {
      assert Do(s, Insert(s.order[i])).inserts[s.order[i]].ReadLen?;
    } else {
      assert NodeInv(s, i - 1);
      OldestWaiterAdvances(s, i - 1);
    }
  }

  // What a reader that found `order` when it loaded the head makes of it.
  ghost predicate Follows(order: seq<Node>, w: Walk) {
    match w
    case SpinHead(h) => order != [] && h == order[|order| - 1]
    case LoadLen(h) => order != [] && h == order[|order| - 1]
    case At(_, _, total, _) => total == |order|
  }

  // The reader goes on, on a list that has grown at its head only.
  ghost predicate Tracks(s: State, r: Reader, order: seq<Node>) {
    order <= s.order && r in s.readers && Follows(order, s.readers[r])
  }

  // The head's length, read once the head is complete, is the length of the list at
  // the moment the head was loaded.
  lemma LengthOfStart(s: State, h: Node, order: seq<Node>)
    requires ListInv(s) && order <= s.order && order != [] && h == order[|order| - 1]
    requires Recent(s, h) && Complete(s, h)
    ensures LoadLenAll(s, h) == |order|
  {
    var i :| 0 <= i < |s.order| && s.order[i] == h && i + 1 >= s.base;
    assert s.order[|order| - 1] == h;
    assert NodeInv(s, i);
  }

  lemma ReadTracks(s: State, r: Reader, order: seq<Node>)
    requires Inv(s) && Tracks(s, r, order)
    ensures Tracks(Do(s, Read(r)), r, order)
  {
    assert ReaderInv(s, s.readers[r]);
    if s.readers[r].LoadLen? {
      LengthOfStart(s, s.readers[r].head, order);
    }
  }

  // Nobody else moves the reader, or takes a node off the list while it is there.
  lemma OthersKeepWalk(s: State, a: Action, r: Reader)
    requires Enabled(s, a) && r in s.readers && a != EndRead(r) && a != Read(r)
    ensures var s' := Do(s, a); s.order <= s'.order && r in s'.readers && s'.readers[r] == s.readers[r]
  {
  }

  lemma StepTracks(s: State, a: Action, r: Reader, order: seq<Node>)
    requires Inv(s) && Enabled(s, a) && Tracks(s, r, order) && a != EndRead(r)
    ensures Tracks(Do(s, a), r, order)
  {
    if a == Read(r) {
      ReadTracks(s, r, order);
    } else {
      OthersKeepWalk(s, a, r);
    }
  }

  ghost predicate Stays(r: Reader, acts: seq<Action>) {
    forall i :: 0 <= i < |acts| ==> acts[i] != EndRead(r)
  }

  lemma {:induction false} RunTracks(s: State, acts: seq<Action>, r: Reader, order: seq<Node>)
    requires Inv(s) && Allowed(s, acts) && Tracks(s, r, order) && Stays(r, acts)
    ensures Tracks(After(s, acts), r, order)
    decreases |acts|
  {
    if acts != [] {
      StepInv(s, acts[0]);
      StepTracks(s, acts[0], r, order);
      RunTracks(Do(s, acts[0]), acts[1..], r, order);
    }
  }

  lemma {:induction false} BackwardsPrefix(order: seq<Node>, order': seq<Node>, i: nat)
    requires order <= order' && i <= |order|
    ensures Backwards(order', i) == Backwards(order, i)
  {
    if i > 0 {
      BackwardsPrefix(order, order', i - 1);
    }
  }

  // An iterator may be started at any moment, even in the middle of insertions.
  // Whatever other threads do after that, its snapshot is the list at the moment it
  // loaded the head: `len` is exact at every point of its walk, what it has yielded
  // are the newest nodes of that list in order, and when it ends it has yielded all.
  lemma IteratorYieldsSnapshot(s: State, r: Reader, acts: seq<Action>)
    requires Reachable(s) && Enabled(s, StartRead(r))
    requires Allowed(Do(s, StartRead(r)), acts) && Stays(r, acts)
    ensures var s' := After(Do(s, StartRead(r)), acts);
      && s.order <= s'.order && r in s'.readers
      && (s'.readers[r].At? ==>
            var w := s'.readers[r];
            && w.total == |s.order| == w.len + |w.seen|
            && (w.task == None <==> w.len == 0)
            && w.seen <= Backwards(s.order, |s.order|)
            && (w.task == None ==> w.seen == Backwards(s.order, |s.order|)))
  {
    var s0 := Do(s, StartRead(r));
    ReachableInv(s);
    StepInv(s, StartRead(r));
    RunTracks(s0, acts, r, s.order);
    RunInv(s0, acts);
    var s' := After(s0, acts);
    if s'.readers[r].At? {
      WalkIsExact(s', s'.readers[r]);
      BackwardsPrefix(s.order, s'.order, |s.order|);
    }
  }

  lemma WalkIsExact(s: State, w: Walk)
    requires ReaderInv(s, w) && w.At?
    ensures w.len + |w.seen| == w.total <= |s.order| && (w.task == None <==> w.len == 0)
    ensures w.seen <= Backwards(s.order, w.total) && (w.task == None ==> w.seen == Backwards(s.order, w.total))
  {
    BackwardsLength(s.order, w.len);
    BackwardsLength(s.order, w.total);
  }

  // How many accesses a reader still has to make.
  function AccessesLeft(s: State, w: Walk): nat {
    match w
    case SpinHead(_) => |s.order| + 2
    case LoadLen(_) => |s.order| + 1
    case At(_, len, _, _) => len
  }

  // A reader waits for nothing but the completion of the head it has loaded: every
  // other access of its own brings it nearer to the end, and it has none left to make
  // exactly when it is there.
  lemma ReaderAdvances(s: State, r: Reader)
    requires Reachable(s) && r in s.readers
    ensures var w, w' := s.readers[r], Do(s, Read(r)).readers[r];
      if (w.SpinHead? && !Complete(s, w.head)) || AccessesLeft(s, w) == 0 then w' == w
      else AccessesLeft(s, w') < AccessesLeft(s, w)
    ensures AccessesLeft(s, s.readers[r]) == 0 <==> s.readers[r].At? && s.readers[r].task == None
  {
    ReachableInv(s);
    assert ReaderInv(s, s.readers[r]);
    OneReadInv(s, r);
  }

  lemma {:induction false} BackwardsLength(order: seq<Node>, i: nat)
    requires i <= |order|
    ensures |Backwards(order, i)| == i
  {
    if i > 0 {
      BackwardsLength(order, i - 1);
    }
  }

  // With no insertion in flight the list is a doubly linked list of everything
  // ever inserted, with its length at the head: what the exclusive operations
  // (`unlink`, `iter_pin_mut`) rely on.
  lemma QuiescentListIsDoublyLinked(s: State)
    requires Reachable(s) && s.inserts == map[]
    ensures s.order == [] <==> s.head == None
    ensures s.order != [] ==> s.head == Some(s.order[|s.order| - 1]) && LoadLenAll(s, s.head.value) == |s.order|
    ensures forall n :: n in s.tasks <==> n in s.order
    ensures forall i :: 0 <= i < |s.order| ==>
      && s.tasks[s.order[i]].nextAll == Ready(if i == 0 then None else Some(s.order[i - 1]))
      && s.tasks[s.order[i]].prevAll == (if i + 1 == |s.order| then None else Some(s.order[i + 1]))
  {
    ReachableInv(s);
    QuietList(s);
    QuietLinks(s);
  }

  lemma QuietLinks(s: State)
    requires Quiet(s)
    ensures s.order == [] <==> s.head == None
    ensures s.order != [] ==> s.head == Some(s.order[|s.order| - 1]) && LoadLenAll(s, s.head.value) == |s.order|
    ensures forall n :: n in s.tasks <==> n in s.order
    ensures forall i :: 0 <= i < |s.order| ==>
      && s.tasks[s.order[i]].nextAll == Ready(if i == 0 then None else Some(s.order[i - 1]))
      && s.tasks[s.order[i]].prevAll == (if i + 1 == |s.order| then None else Some(s.order[i + 1]))
  {
    forall n | n in s.order ensures n in s.tasks {
      var i :| 0 <= i < |s.order| && s.order[i] == n;
      assert QuietNode(s, i);
    }
    if s.order != [] {
      assert QuietNode(s, |s.order| - 1);
    }
    forall i | 0 <= i < |s.order|
      ensures s.tasks[s.order[i]].nextAll == Ready(if i == 0 then None else Some(s.order[i - 1]))
      ensures s.tasks[s.order[i]].prevAll == (if i + 1 == |s.order| then None else Some(s.order[i + 1]))
    {
      assert QuietNode(s, i);
    }
  }
}
