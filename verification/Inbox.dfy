// What a task's CosyncInput reaches: the parameter of the run and the queue of
// incoming tasks with its id counter (src/lib.rs: Cosync::data, IncomingQueue).
module Inboxes {
  import opened Wrappers
  import opened Programs

  class Inbox {
    var data: Option<Param>
    var incoming: seq<Entry>
    var counter: nat
    ghost var born: seq<Body>
    ghost var polls: seq<Entry>
    ghost var acts: seq<Did>
    ghost var completed: nat

    constructor ()
      ensures Valid() && data == None && incoming == [] && born == [] && polls == [] && acts == [] && completed == 0
    {
      data, incoming, counter := None, [], 0;
      born, polls, acts, completed := [], [], [], 0;
    }

    ghost predicate Valid()
      reads this
    {
      counter == IdOf(|born|)
    }

    ghost function View(): Env
      requires data.Some?
      reads this
    {
      Env(data.value, incoming, born, polls, acts, completed)
    }

    // next_cosync_task_id: the counter wraps around.
    method NextId(ghost body: Body) returns (id: nat)
      requires Valid()
      modifies this`counter, this`born
      ensures Valid() && id == IdOf(|old(born)|) && born == old(born) + [body]
      ensures |old(born)| < 0x1_0000_0000_0000_0000 ==> id == |old(born)|
    {
      id := counter;
      counter := (counter + 1) % IDS;
      born := born + [body];
    }

    // raw_queue.
    method RawQueue(body: Body) returns (id: nat)
      requires Valid()
      modifies this`counter, this`born, this`incoming
      ensures Valid() && id == IdOf(|old(born)|) && born == old(born) + [body]
      ensures incoming == old(incoming) + [Entry(id, body)]
    {
      id := NextId(body);
      incoming := incoming + [Entry(id, body)];
    }

    // An access through CosyncInput::get, which needs the parameter to be there.
    method Update(id: nat, update: Param -> Param)
      requires data.Some?
      modifies this`data, this`acts
      ensures data == Some(update(old(data).value)) && acts == old(acts) + [Did(id, update)]
    {
      data := Some(update(data.value));
      acts := acts + [Did(id, update)];
    }

    // incoming.pop_front, when there is something.
    method PopFront() returns (entry: Entry)
      requires Valid() && incoming != []
      modifies this`incoming
      ensures Valid() && [entry] + incoming == old(incoming)
    {
      entry := incoming[0];
      incoming := incoming[1..];
    }
  }
}
