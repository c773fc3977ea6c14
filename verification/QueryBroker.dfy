/**
 The broker's objects: sessions with their pending maps, and the registry of sessions. Every
 method is one critical section (or, for closing, the part that runs once).
 */
module QueryBroker {
  import opened QueryTypes

  /** The buffered delivery channel of one query */
  class Inbox {
    var buffer: seq<Delivery>

    constructor ()
      ensures buffer == []
    {
      buffer := [];
    }
  }

  /**
   How an attempt to deliver ends: there is no such query, it got the message, the session is done,
   or its inbox is full.
   */
  datatype Attempt = NotPending | Accepted | GivenUp | Waits

  class RuntimeQuerySession {
    const installation: InstallationId
    var done: bool
    var pending: map<RequestId, Inbox>

    ghost predicate Valid()
      reads this
    {
      forall a, b :: a in pending && b in pending && pending[a] == pending[b] ==> a == b
    }

    constructor (installation: InstallationId)
      ensures Valid() && this.installation == installation && !done && pending == map[]
    {
      this.installation := installation;
      done := false;
      pending := map[];
    }

    /** Refuses an identifier that is already pending. */
    method Add(id: RequestId, inbox: Inbox) returns (ok: bool)
      requires Valid() && inbox !in pending.Values
      modifies this`pending
      ensures Valid()
      ensures ok <==> id !in old(pending)
      ensures pending == if ok then old(pending)[id := inbox] else old(pending)
    {
      if id in pending {
        return false;
      }
      pending := pending[id := inbox];
      return true;
    }

    method Remove(id: RequestId)
      requires Valid()
      modifies this`pending
      ensures Valid() && id !in pending
      ensures forall k :: k != id ==> (k in pending <==> k in old(pending))
      ensures forall k :: k in pending ==> pending[k] == old(pending)[k]
    {
      pending := pending - {id};
    }

    /**
     Delivers to the pending query of that identifier. `prefersDone` is the choice of the select
     statement when the session is done while the inbox has room; with a full inbox and an open
     session the select statement waits.
     */
    method Deliver(id: RequestId, d: Delivery, prefersDone: bool) returns (r: Attempt)
      requires Valid()
      modifies pending.Values
      ensures r.NotPending? <==> id !in pending
      ensures r.Waits? <==> id in pending && |old(pending[id].buffer)| >= INBOX_CAPACITY && !done
      ensures r.Accepted? <==> id in pending && |old(pending[id].buffer)| < INBOX_CAPACITY && !(done && prefersDone)
      ensures r.Accepted? ==> pending[id].buffer == old(pending[id].buffer) + [d]
      ensures forall k :: k in pending && (!r.Accepted? || k != id) ==> pending[k].buffer == old(pending[k].buffer)
    {
      if id !in pending {
        return NotPending;
      }
      var target := pending[id];
      if |target.buffer| >= INBOX_CAPACITY {
        return if done then GivenUp else Waits;
      }
      if done && prefersDone {
        return GivenUp;
      }
      target.buffer := target.buffer + [d];
      return Accepted;
    }

    /** Runs once: marks the session done, notifies every pending query that has room, forgets them all. */
    method Close()
      requires Valid()
      modifies this, pending.Values
      ensures Valid() && done
      ensures old(done) ==> pending == old(pending)
      ensures !old(done) ==> pending == map[]
      ensures forall k :: k in old(pending) ==>
                old(pending)[k].buffer == if old(done) then old(pending[k].buffer)
                  else Offered(old(pending[k].buffer), ClosedNotice)
    {
      if done {
        return;
      }
      done := true;
      var todo := pending.Keys;
      while todo != {}
        invariant todo <= pending.Keys && pending == old(pending) && done && Valid()
        invariant forall k :: k in pending && k in todo ==> pending[k].buffer == old(pending[k].buffer)
        invariant forall k :: k in pending && k !in todo ==>
                  pending[k].buffer == Offered(old(pending[k].buffer), ClosedNotice)
        decreases todo
      {
        var id :| id in todo;
        pending[id].buffer := Offered(pending[id].buffer, ClosedNotice);
        todo := todo - {id};
      }
      pending := map[];
    }
  }

  class RuntimeQueryBroker {
    var sessions: map<InstallationId, RuntimeQuerySession>

    /** A registered session belongs to its installation and is not closed. */
    ghost predicate Valid()
      reads this, sessions.Values
    {
      && (forall n :: n in sessions ==> sessions[n].installation == n)
      && forall n :: n in sessions ==> sessions[n].Valid() && !sessions[n].done
    }

    constructor ()
      ensures Valid() && sessions == map[]
    {
      sessions := map[];
    }

    /** Registers a fresh session and closes the one it replaces. */
    method Register(installation: InstallationId) returns (session: RuntimeQuerySession)
      requires Valid()
      modifies this, if installation in sessions then {sessions[installation]} else {}
      modifies if installation in sessions then sessions[installation].pending.Values else {}
      ensures Valid() && fresh(session) && sessions == old(sessions)[installation := session]
      ensures session.installation == installation && session.pending == map[]
      ensures installation in old(sessions) ==>
              old(sessions)[installation].done && old(sessions)[installation].pending == map[]
      ensures forall n :: n in old(sessions) && n != installation ==> unchanged(old(sessions)[n])
    {
      session := new RuntimeQuerySession(installation);
      var replaced := installation in sessions;
      var previous := if replaced then sessions[installation] else session;
      sessions := sessions[installation := session];
      if replaced {
        previous.Close();
      }
    }

    /** Closes the session; a session that was replaced meanwhile does not take its successor with it. */
    method Unregister(session: RuntimeQuerySession)
      requires Valid() && session.Valid()
      modifies this, session, session.pending.Values
      ensures Valid() && session.done
      ensures forall n :: n in sessions <==> n in old(sessions) && old(sessions)[n] != session
      ensures forall n :: n in sessions ==> sessions[n] == old(sessions)[n]
    {
      var n := session.installation;
      if n in sessions && sessions[n] == session {
        sessions := sessions - {n};
      }
      session.Close();
    }
  }
}
