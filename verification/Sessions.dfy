/**
 The session table of pkg/controller/sessions.go: the object behind the Listed, Claimed and Handed
 stages of the pairing machine. A waiter is its channel of capacity one.
 */
module Sessions {
  import opened Frames

  class Waiter {
    var slot: Option<nat>   // the stream in the channel

    constructor ()
      ensures slot == None
    {
      slot := None;
    }
  }

  class SessionTable {
    var waiters: map<string, Waiter>

    /** A registered waiter has been handed nothing, and is registered under one session only. */
    ghost predicate Valid()
      reads this, waiters.Values
    {
      && (forall id | id in waiters :: waiters[id].slot == None)
      && (forall id, id' | id in waiters && id' in waiters && waiters[id] == waiters[id'] :: id == id')
    }

    constructor ()
      ensures Valid() && waiters == map[]
    {
      waiters := map[];
    }

    method Expect(id: string) returns (w: Waiter)
      requires Valid()
      modifies this
      ensures Valid() && fresh(w) && w.slot == None
      ensures waiters == old(waiters)[id := w]
    {
      w := new Waiter();
      waiters := waiters[id := w];
    }

    /** The cancel function: it removes only its own waiter, so calling it again changes nothing. */
    method Cancel(id: string, w: Waiter)
      requires Valid()
      modifies this
      ensures Valid()
      ensures waiters == if id in old(waiters) && old(waiters)[id] == w then old(waiters) - {id} else old(waiters)
      ensures id in waiters ==> waiters[id] != w
    {
      if id in waiters && waiters[id] == w {
        waiters := waiters - {id};
      }
    }

    /**
     `deliver`: the waiter leaves the table, so a second stream for the session is rejected. The
     non-blocking send cannot fail, because a listed waiter's channel is empty.
     */
    method Deliver(id: string, stream: nat) returns (ok: bool)
      requires Valid()
      modifies this, waiters.Values
      ensures Valid() && ok == (id in old(waiters)) && waiters == old(waiters) - {id}
      ensures ok ==> old(waiters)[id].slot == Some(stream)
      ensures forall w: Waiter | w in old(waiters.Values) && !(ok && w == old(waiters)[id]) :: w.slot == old(w.slot)
    {
      if id !in waiters {
        return false;
      }
      var w := waiters[id];
      waiters := waiters - {id};
      if w.slot == None {
        w.slot := Some(stream);
        return true;
      } else {
        return false;
      }
    }
  }
}
