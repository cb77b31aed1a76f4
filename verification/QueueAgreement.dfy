// The ready queue as one thread uses it and as the threads' protocol are the same
// queue: while every other thread stands still, no call tells them apart.
module QueueAgreement {
  import opened Tasks
  import opened ReadyToRunQueues
  import Q = MpscQueue

  // One call on the queue, with its answer.
  datatype QueueCall = Put(task: Task) | Take(answer: Dequeue)

  // The protocol's names for tasks are numbers, and 0 is the stub's.
  type Names = map<Task, Q.Node>

  ghost predicate Naming(names: Names) {
    (forall t :: t in names ==> names[t] != Q.STUB)
    && forall t, u :: t in names && u in names && names[t] == names[u] ==> t == u
  }

  ghost function Named(ts: seq<Task>, names: Names): seq<Q.Node>
    requires forall t :: t in ts ==> t in names
  {
    seq(|ts|, i requires 0 <= i < |ts| => names[ts[i]])
  }

  // The answers are the same: a task, known by its name, or none.
  ghost predicate SameAnswer(r: Dequeue, answer: Q.Result, names: Names) {
    match r
    case Data(t) => t in names && answer == Q.Data(names[t])
    case Empty => answer == Q.Empty
    case Inconsistent => answer == Q.Inconsistent
  }

  // The calls are possible, with these answers, on a queue that holds these tasks:
  // what the contracts of ReadyToRunQueue.Enqueue and Dequeue say.
  ghost predicate OnList(contents: seq<Task>, calls: seq<QueueCall>)
    decreases |calls|
  {
    calls == [] ||
    match calls[0]
    case Put(t) => t !in contents && OnList(contents + [t], calls[1..])
    case Take(r) =>
      Dequeued(contents, r, if contents == [] then [] else contents[1..])
      && OnList(if contents == [] then [] else contents[1..], calls[1..])
  }

  // They are possible, with these answers, as runs of the protocol's accesses.
  ghost predicate OnProtocol(s: Q.State, calls: seq<QueueCall>, names: Names)
    decreases |calls|
  {
    calls == [] ||
    match calls[0]
    case Put(t) =>
      && t in names && Q.Allowed(s, Q.EnqueueSteps(names[t]))
      && OnProtocol(Q.After(s, Q.EnqueueSteps(names[t])), calls[1..], names)
    case Take(r) =>
      Q.Enabled(s, Q.Start) &&
      var (s', answer) := Q.FinishAlone(Q.Do(s, Q.Start));
      SameAnswer(r, answer, names) && OnProtocol(s', calls[1..], names)
  }

  // The protocol's queue holds these tasks, and nobody is at work on it.
  ghost predicate Holds(s: Q.State, contents: seq<Task>, names: Names) {
    && Q.Reachable(s) && s.consumer == Q.Idle && s.inflight == map[]
    && (forall t :: t in contents ==> t in names) && Q.Tasks(s.chain) == Named(contents, names)
  }

  // An enqueue is possible in the one exactly if it is in the other, and has the
  // same effect.
  lemma PutAgrees(s: Q.State, contents: seq<Task>, t: Task, names: Names)
    requires Naming(names) && Holds(s, contents, names) && t in names
    ensures t !in contents <==> Q.Allowed(s, Q.EnqueueSteps(names[t]))
    ensures t !in contents ==> Holds(Q.After(s, Q.EnqueueSteps(names[t])), contents + [t], names)
  {
    var n := names[t];
    Q.TasksMembers(s.chain, n);
    assert t in contents <==> n in Named(contents, names) by {
      if t in contents {
        var i :| 0 <= i < |contents| && contents[i] == t;
        assert Named(contents, names)[i] == n;
      }
    }
    assert Q.Enabled(s, Q.Begin(n)) <==> t !in contents;
    if t !in contents {
      var s' := Q.EnqueueAlone(s, n);
      Q.TasksAppend(s.chain, n);
      assert Named(contents + [t], names) == Named(contents, names) + [n];
    }
  }

  // A dequeue has the same answer and the same effect.
  lemma TakeAgrees(s: Q.State, contents: seq<Task>, r: Dequeue, names: Names)
    requires Naming(names) && Holds(s, contents, names)
    ensures var contents' := if contents == [] then [] else contents[1..];
            var (s', answer) := Q.FinishAlone(Q.Do(s, Q.Start));
      Holds(s', contents', names) && (Dequeued(contents, r, contents') <==> SameAnswer(r, answer, names))
  {
    Q.DequeueAlone(s);
    if contents != [] {
      assert Named(contents, names)[1..] == Named(contents[1..], names);
    }
  }

  // For every sequence of calls and answers: the class allows it exactly if the
  // protocol does.
  lemma {:induction false} QueueAgrees(s: Q.State, contents: seq<Task>, calls: seq<QueueCall>, names: Names)
    requires Naming(names) && Holds(s, contents, names)
    requires forall i :: 0 <= i < |calls| && calls[i].Put? ==> calls[i].task in names
    ensures OnList(contents, calls) <==> OnProtocol(s, calls, names)
    decreases |calls|
  {
    if calls != [] {
      match calls[0]
      case Put(t) =>
        PutAgrees(s, contents, t, names);
        if t !in contents {
          QueueAgrees(Q.After(s, Q.EnqueueSteps(names[t])), contents + [t], calls[1..], names);
        }
      case Take(r) =>
        var contents' := if contents == [] then [] else contents[1..];
        TakeAgrees(s, contents, r, names);
        QueueAgrees(Q.FinishAlone(Q.Do(s, Q.Start)).0, contents', calls[1..], names);
    }
  }
}
