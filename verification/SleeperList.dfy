// What waking, stopping and clearing do to the sleepers of a Cosync, as its methods
// say it, is what SleepingHistories takes them to do (src/lib.rs, src/futures/task.rs).
module SleeperLists {
  import opened Wrappers
  import opened Programs
  import opened PollCycle
  import opened PoolCycles
  import opened Tasks
  import opened SleepingHistories

  // The world m has these tasks asleep, listed in the order in which they fell asleep.
  ghost predicate Lists(m: Mixed, asleep: Sleepers, slept: seq<Slot>) {
    Slept(map[], asleep, slept) && Entries(slept) == m.asleep
  }

  lemma {:induction false} EntriesAt(q: seq<Slot>, k: nat)
    requires AllLive(q) && k < |q|
    ensures |Entries(q)| == |q| && Entries(q)[k] == q[k].future.value
  {
    var rest := q[1..];
    assert AllLive(rest) by {
      assert forall i :: 0 <= i < |rest| ==> rest[i] == q[i + 1];
    }
    if k > 0 {
      EntriesAt(rest, k - 1);
    } else {
      EntriesAll(rest);
    }
  }

  ghost predicate HasKey(q: seq<Slot>, t: Task) {
    exists i :: 0 <= i < |q| && q[i].key == t
  }

  // The map holds these slots and no other.
  ghost predicate MapOf(q: seq<Slot>, m: Sleepers) {
    && (forall i :: 0 <= i < |q| ==> q[i].key in m && m[q[i].key] == q[i].future)
    && forall t :: t in m ==> HasKey(q, t)
  }

  lemma {:induction false} AsMapIs(q: seq<Slot>)
    requires DistinctKeys(q)
    ensures MapOf(q, AsMap(q))
  {
    if q != [] {
      var rest, m := q[1..], AsMap(q);
      assert forall i :: 0 <= i < |rest| ==> rest[i] == q[i + 1];
      AsMapIs(rest);
      forall t | t in m ensures HasKey(q, t) {
        if t != q[0].key {
          assert HasKey(rest, t);
          var i :| 0 <= i < |rest| && rest[i].key == t;
          assert q[i + 1].key == t;
        }
      }
      forall i | 0 <= i < |q| ensures q[i].key in m && m[q[i].key] == q[i].future {
        if i > 0 {
          assert rest[i - 1].key in AsMap(rest);
        }
      }
    }
  }

  lemma OneMap(q: seq<Slot>, m: Sleepers, n: Sleepers)
    requires MapOf(q, m) && MapOf(q, n)
    ensures m == n
  {
    forall t | t in m ensures t in n && m[t] == n[t] {
      assert HasKey(q, t);
    }
    forall t | t in n ensures t in m {
      assert HasKey(q, t);
    }
  }

  // `rest` is q without its k-th slot.
  ghost predicate Shorter(q: seq<Slot>, k: nat, rest: seq<Slot>) {
    && k < |q| && |rest| == |q| - 1
    && (forall i :: 0 <= i < k ==> rest[i] == q[i])
    && forall i {:trigger rest[i]} :: k <= i < |rest| ==> rest[i] == q[i + 1]
  }

  lemma KeysLeft(q: seq<Slot>, k: nat, rest: seq<Slot>, t: Task)
    requires Shorter(q, k, rest) && HasKey(q, t) && t != q[k].key
    ensures HasKey(rest, t)
  {
    var i :| 0 <= i < |q| && q[i].key == t;
    assert rest[if i < k then i else i - 1].key == t;
  }

  lemma MapLeft(q: seq<Slot>, k: nat, rest: seq<Slot>, m: Sleepers)
    requires DistinctKeys(q) && Shorter(q, k, rest) && MapOf(q, m)
    ensures DistinctKeys(rest) && MapOf(rest, m - {q[k].key})
  {
    forall t | t in m && t != q[k].key ensures HasKey(rest, t) {
      KeysLeft(q, k, rest, t);
    }
  }

  // One slot less, or with another future, is one sleeper less, or with another future.
  lemma AsMapWithout(q: seq<Slot>, k: nat)
    requires DistinctKeys(q) && k < |q|
    ensures var rest := q[..k] + q[k + 1..];
      Shorter(q, k, rest) && DistinctKeys(rest) && AsMap(rest) == AsMap(q) - {q[k].key}
  {
    var rest := q[..k] + q[k + 1..];
    AsMapIs(q);
    MapLeft(q, k, rest, AsMap(q));
    AsMapIs(rest);
    OneMap(rest, AsMap(rest), AsMap(q) - {q[k].key});
  }

  lemma AsMapWith(q: seq<Slot>, k: nat, e: Entry)
    requires DistinctKeys(q) && k < |q|
    ensures var q' := q[k := q[k].(future := Some(e))];
      DistinctKeys(q') && AsMap(q') == AsMap(q)[q[k].key := Some(e)]
  {
    var q', m := q[k := q[k].(future := Some(e))], AsMap(q);
    assert forall i :: 0 <= i < |q| ==> q'[i].key == q[i].key;
    AsMapIs(q);
    forall t | t in m ensures HasKey(q', t) {
      assert HasKey(q, t);
      var i :| 0 <= i < |q| && q[i].key == t;
      assert q'[i].key == t;
    }
    AsMapIs(q');
    OneMap(q', AsMap(q'), m[q[k].key := Some(e)]);
  }

  lemma MapOnto(asleep: Sleepers, slept: seq<Slot>)
    requires Slept(map[], asleep, slept)
    ensures asleep == AsMap(slept)
  {
  }

  // A waker that somebody kept takes its task out of the sleepers and puts it at the
  // pool's tail (Cosync.WakeTask): that is the WakeUp of SleepingHistories.
  lemma WakingIsWakeUp(m: Mixed, asleep: Sleepers, slept: seq<Slot>, k: nat)
    requires Lists(m, asleep, slept) && k < |slept|
    ensures k < |m.asleep| && slept[k].key in asleep && asleep[slept[k].key] == Some(m.asleep[k])
    ensures Make(m, WakeUp(k)).world == m.world.(sched := m.world.sched.(pool := m.world.sched.pool + [m.asleep[k]]))
    ensures Lists(Make(m, WakeUp(k)), asleep - {slept[k].key}, slept[..k] + slept[k + 1..])
  {
    var rest := slept[..k] + slept[k + 1..];
    MapOnto(asleep, slept);
    AsMapIs(slept);
    EntriesAt(slept, k);
    AsMapWithout(slept, k);
    assert AllLive(rest);
    EntriesAll(rest);
    var es := Make(m, WakeUp(k)).asleep;
    forall i | 0 <= i < |es| ensures Entries(rest)[i] == es[i] {
      EntriesAt(rest, i);
      EntriesAt(slept, if i < k then i else i + 1);
    }
    assert Entries(rest) == es;
  }

  // The empty body put in a sleeper's place (Cosync.StopRunningTask) is its StopAsleep.
  lemma StoppingIsStopAsleep(m: Mixed, asleep: Sleepers, slept: seq<Slot>, k: nat)
    requires Lists(m, asleep, slept) && k < |slept|
    ensures k < |m.asleep| && slept[k].key in asleep && asleep[slept[k].key] == Some(m.asleep[k])
    ensures var e := Entry(m.asleep[k].id, []);
      && Make(m, StopAsleep(k)).world == m.world
      && Lists(Make(m, StopAsleep(k)), asleep[slept[k].key := Some(e)], slept[k := slept[k].(future := Some(e))])
  {
    MapOnto(asleep, slept);
    AsMapIs(slept);
    EntriesAt(slept, k);
    var e := Entry(m.asleep[k].id, []);
    var slept' := slept[k := slept[k].(future := Some(e))];
    AsMapWith(slept, k, e);
    assert AllLive(slept');
    EntriesAll(slept');
    var es := Make(m, StopAsleep(k)).asleep;
    forall i | 0 <= i < |es| ensures Entries(slept')[i] == es[i] {
      EntriesAt(slept', i);
      EntriesAt(slept, i);
    }
    assert Entries(slept') == es;
  }

  lemma BothDistinct(a: seq<Slot>, b: seq<Slot>)
    requires DistinctKeys(a) && DistinctKeys(b) && AllLive(a) && AllLive(b)
    requires forall i :: 0 <= i < |b| ==> b[i].key !in AsMap(a)
    ensures DistinctKeys(a + b) && AllLive(a + b)
  {
    AsMapIs(a);
  }

  lemma BothSlept(a: seq<Slot>, b: seq<Slot>, asleep: Sleepers)
    requires Slept(map[], AsMap(a), a) && Slept(AsMap(a), asleep, b)
    ensures Slept(map[], asleep, a + b)
  {
    AsMapConcat(a, b);
    BothDistinct(a, b);
    assert map[] + AsMap(a + b) == AsMap(a + b);
  }

  // A run adds those that fell asleep in it (Cosync.Run) at the end of the list.
  lemma RunningIsRunAny(m: Mixed, asleep: Sleepers, slept: seq<Slot>, p: Param, asleep': Sleepers, more: seq<Slot>)
    requires Lists(m, asleep, slept) && Possible(m, RunAny(p)) && Slept(asleep, asleep', more)
    requires Entries(more) == Sleeping.MixedRun(History.Given(m.world.sched, p)).slept
    ensures Lists(Make(m, RunAny(p)), asleep', slept + more)
  {
    MapOnto(asleep, slept);
    BothSlept(slept, more, asleep');
    EntriesConcat(slept, more);
  }
}
