/** Cancellation requests: one event for each submission being tracked, shared by the clients and the workers. */
module Cancel {

  /** An event, and the submission it was created for. */
  datatype Signal = Signal(submission: nat, isSet: bool)

  /** The request map, as a value: which event each tracked submission maps to, among all events ever created. */
  datatype Memory = Memory(requests: map<nat, nat>, signals: seq<Signal>)
  const FORGOTTEN := Memory(map[], [])

  /** Looking an event up, creating it if it is not there yet. */
  function Held(m: Memory, id: nat): Memory {
    if id in m.requests then m
    else Memory(m.requests[id := |m.signals|], m.signals + [Signal(id, false)])
  }

  function SignalOf(m: Memory, id: nat): nat {
    if id in m.requests then m.requests[id] else |m.signals|
  }

  function WithSet(m: Memory, e: nat): Memory {
    if e < |m.signals| then m.(signals := m.signals[e := m.signals[e].(isSet := true)]) else m
  }

  function Released(m: Memory, id: nat): Memory {
    m.(requests := m.requests - {id})
  }

  predicate IsRequested(m: Memory, id: nat) {
    id in m.requests && m.requests[id] < |m.signals| && m.signals[m.requests[id]].isSet
  }

  class Event {
    var isSet: bool
    const submission: nat

    constructor (submission: nat)
      ensures !isSet && this.submission == submission
    {
      this.isSet, this.submission := false, submission;
    }

    method Set()
      modifies this
      ensures isSet
    {
      isSet := true;
    }
  }

  class CancelRegistry {
    var requests: map<nat, Event>
    /** Every event ever created, oldest first, and the value the registry and its events stand for. */
    ghost var created: seq<Event>
    ghost var memory: Memory

    ghost predicate Valid()
      reads this, created
    {
      && |memory.signals| == |created|
      && (forall i | 0 <= i < |created| :: memory.signals[i] == Signal(created[i].submission, created[i].isSet))
      && (forall i, j | 0 <= i < j < |created| :: created[i] != created[j])
      && requests.Keys == memory.requests.Keys
      && (forall id | id in requests :: Stands(requests[id], memory.requests[id]))
    }

    ghost predicate Stands(e: Event, i: nat)
      reads this
    {
      i < |created| && created[i] == e
    }

    constructor ()
      ensures Valid() && memory == FORGOTTEN
    {
      requests := map[];
      created, memory := [], FORGOTTEN;
    }

    /** The event already there is kept: a request that came first is not lost. */
    method Register(id: nat) returns (e: Event)
      requires Valid()
      modifies this
      ensures Valid() && memory == Held(old(memory), id)
      ensures id in requests && requests[id] == e
      ensures e in old(created) || fresh(e)
      ensures e in created && forall o | o in old(created) :: o in created
    {
      if id !in requests {
        Create(id);
      }
      e := requests[id];
      assert Stands(e, memory.requests[id]);
    }

    method Create(id: nat)
      requires Valid() && id !in requests
      modifies this
      ensures Valid() && memory == Held(old(memory), id)
      ensures id in requests && fresh(requests[id]) && created == old(created) + [requests[id]]
    {
      var e := new Event(id);
      requests := requests[id := e];
      created := created + [e];
      memory := Held(memory, id);
      assert forall other | other in requests && other != id :: Stands(requests[other], memory.requests[other]);
      assert Stands(e, |old(created)|);
    }

    /** The event is found under the lock and set outside it. */
    method Request(id: nat)
      requires Valid()
      modifies this, created
      ensures Valid()
      ensures memory == WithSet(Held(old(memory), id), SignalOf(old(memory), id))
    {
      var e := Register(id);
      Raise(e, id);
    }

    method Raise(e: Event, ghost id: nat)
      requires Valid() && id in requests && requests[id] == e
      modifies this`memory, e
      ensures Valid() && memory == WithSet(old(memory), old(memory).requests[id])
    {
      ghost var at := memory.requests[id];
      assert Stands(e, at);
      e.Set();
      memory := WithSet(memory, at);
      assert forall other | other in requests :: Stands(requests[other], memory.requests[other]);
    }

    /** Whether the event being watched has been set. */
    method IsSet(e: Event, ghost id: nat) returns (asked: bool)
      requires Valid() && id in requests && requests[id] == e
      ensures asked == IsRequested(memory, id)
    {
      assert Stands(e, memory.requests[id]);
      asked := e.isSet;
    }

    method Release(id: nat)
      requires Valid()
      modifies this
      ensures Valid() && memory == Released(old(memory), id) && created == old(created)
    {
      requests := requests - {id};
      memory := Released(memory, id);
      assert forall other | other in requests :: Stands(requests[other], memory.requests[other]);
    }
  }
}
