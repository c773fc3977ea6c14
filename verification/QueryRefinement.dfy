/**
 The broker's objects take the steps of the transition system: each method of a session, run on
 the objects that represent a state, leaves objects that represent the next state.
 */
module QueryRefinement {
  import opened QueryTypes
  import opened QueryMachine
  import opened QueryTokens
  import opened QueryBroker

  /** The object represents session `i` of the state, and `inboxes` are those of all its queries. */
  ghost predicate Represents(session: RuntimeQuerySession, inboxes: seq<Inbox>, st: State, i: nat)
    reads session, inboxes
  {
    && st.WellIndexed() && i < |st.sessions| && |inboxes| == |st.queries|
    && (forall p, q :: 0 <= p < q < |inboxes| ==> inboxes[p] != inboxes[q])
    && (forall p :: 0 <= p < |inboxes| ==> inboxes[p].buffer == st.queries[p].inbox)
    && session.done == st.sessions[i].done
    && (forall r :: r in session.pending <==> r in st.sessions[i].pending)
    && (forall r :: r in session.pending ==> session.pending[r] == inboxes[st.sessions[i].pending[r]])
  }

  lemma RepresentsValid(session: RuntimeQuerySession, inboxes: seq<Inbox>, st: State, i: nat)
    requires Represents(session, inboxes, st, i) && PendingInv(st)
    ensures session.Valid()
  {
    forall a, b | a in session.pending && b in session.pending && session.pending[a] == session.pending[b]
      ensures a == b
    {
      assert Owns(st, st.sessions[i].pending[a], i, a) && Owns(st, st.sessions[i].pending[b], i, b);
    }
  }

  /** A query without an entry has its inbox in no entry. */
  lemma InboxUnused(session: RuntimeQuerySession, inboxes: seq<Inbox>, st: State, i: nat, q: nat)
    requires Represents(session, inboxes, st, i) && PendingInv(st) && q < |st.queries|
    requires !st.queries[q].position.HasEntry()
    ensures inboxes[q] !in session.pending.Values
  {
    forall r | r in session.pending ensures session.pending[r] != inboxes[q] {
      assert Owns(st, st.sessions[i].pending[r], i, r);
    }
  }

  // ---------- What the steps do to inboxes, flags and pending maps

  /** The step touches no inbox; of session `i` it changes the pending map at most. */
  ghost predicate OnlyPending(st: State, next: State, i: nat, pending: map<RequestId, nat>) {
    && st.WellIndexed() && next.WellIndexed() && i < |st.sessions| == |next.sessions| && |next.queries| == |st.queries|
    && (forall p :: 0 <= p < |st.queries| ==> next.queries[p].inbox == st.queries[p].inbox)
    && next.sessions[i].done == st.sessions[i].done && next.sessions[i].pending == pending
  }

  lemma AddEffect(st: State, i: nat, q: nat)
    requires st.WellIndexed() && Enabled(st, ByQuery(q, Add)) && st.queries[q].session == i
    ensures var pending, id, next := st.sessions[i].pending, st.queries[q].id, Next(st, ByQuery(q, Add));
            && OnlyPending(st, next, i, if id in pending then pending else pending[id := q])
            && (next.queries[q].position.Added? <==> id !in pending)
  {
    NextWellIndexed(st, ByQuery(q, Add));
  }

  lemma RemoveEffect(st: State, i: nat, q: nat)
    requires st.WellIndexed() && Enabled(st, ByQuery(q, Remove)) && st.queries[q].session == i
    ensures OnlyPending(st, Next(st, ByQuery(q, Remove)), i, st.sessions[i].pending - {st.queries[q].id})
  {
    NextWellIndexed(st, ByQuery(q, Remove));
  }

  lemma TakeEffect(st: State, i: nat)
    requires st.WellIndexed() && Enabled(st, BySession(i, PumpTake))
    ensures var m, pending, next := st.sessions[i].up[0], st.sessions[i].pending, Next(st, BySession(i, PumpTake));
            && OnlyPending(st, next, i, pending) && next.queries == st.queries
            && next.sessions[i].pump == if m.RequestId() in pending then Delivering(pending[m.RequestId()], m) else Idle
  {
    NextWellIndexed(st, BySession(i, PumpTake));
  }

  lemma DropEffect(st: State, i: nat)
    requires st.WellIndexed() && Enabled(st, BySession(i, PumpDrop))
    ensures OnlyPending(st, Next(st, BySession(i, PumpDrop)), i, st.sessions[i].pending)
  {
    NextWellIndexed(st, BySession(i, PumpDrop));
  }

  /** The state with one more delivery in a query's inbox */
  function Put(st: State, q: nat, d: Delivery): State
    requires q < |st.queries|
  {
    st.(queries := st.queries[q := st.queries[q].(inbox := st.queries[q].inbox + [d])])
  }

  lemma AcceptEffect(st: State, i: nat, q: nat)
    requires st.WellIndexed() && Enabled(st, ByQuery(q, Accept)) && st.queries[q].session == i
    ensures OnlyPending(Put(st, q, Message(st.sessions[i].pump.message)), Next(st, ByQuery(q, Accept)), i,
                        st.sessions[i].pending)
  {
    NextWellIndexed(st, ByQuery(q, Accept));
  }

  /** From `st` to `next` session `i` closed: pending queries are notified and forgotten. */
  ghost predicate Closed(st: State, next: State, i: nat) {
    && st.WellIndexed() && next.WellIndexed() && i < |st.sessions| == |next.sessions| && |next.queries| == |st.queries|
    && next.sessions[i].done && next.sessions[i].pending == map[]
    && forall p :: 0 <= p < |st.queries| ==>
         next.queries[p].inbox ==
         if st.queries[p].session == i then Notified(st.queries[p], p, st.sessions[i].pending).inbox
           else st.queries[p].inbox
  }

  lemma CloseEffect(st: State, i: nat)
    requires st.WellIndexed() && Enabled(st, BySession(i, CloseDone)) && !st.sessions[i].cleared
    ensures var done := Next(st, BySession(i, CloseDone));
            done.WellIndexed() && Enabled(done, CloseClear(i)) && Closed(st, Next(done, CloseClear(i)), i)
  {
    NextWellIndexed(st, BySession(i, CloseDone));
    NextWellIndexed(Next(st, BySession(i, CloseDone)), CloseClear(i));
  }

  lemma SameParts(session: RuntimeQuerySession, inboxes: seq<Inbox>, st: State, next: State, i: nat)
    requires Represents(session, inboxes, st, i) && OnlyPending(st, next, i, st.sessions[i].pending)
    ensures Represents(session, inboxes, next, i)
  {
  }

  // ---------- The methods

  method AddStep(session: RuntimeQuerySession, ghost inboxes: seq<Inbox>, inbox: Inbox, id: RequestId, ghost st: State,
                 ghost i: nat, ghost q: nat)
    returns (ok: bool)
    requires Represents(session, inboxes, st, i) && PendingInv(st) && Enabled(st, ByQuery(q, Add))
    requires st.queries[q].session == i && st.queries[q].id == id && inboxes[q] == inbox
    modifies session
    ensures Represents(session, inboxes, Next(st, ByQuery(q, Add)), i)
    ensures ok <==> Next(st, ByQuery(q, Add)).queries[q].position.Added?
  {
    RepresentsValid(session, inboxes, st, i);
    InboxUnused(session, inboxes, st, i, q);
    AddEffect(st, i, q);
    ok := session.Add(id, inbox);
  }

  method RemoveStep(session: RuntimeQuerySession, ghost inboxes: seq<Inbox>, id: RequestId, ghost st: State,
                    ghost i: nat, ghost q: nat)
    requires Represents(session, inboxes, st, i) && PendingInv(st) && Enabled(st, ByQuery(q, Remove))
    requires st.queries[q].session == i && st.queries[q].id == id
    modifies session
    ensures Represents(session, inboxes, Next(st, ByQuery(q, Remove)), i)
  {
    RepresentsValid(session, inboxes, st, i);
    RemoveEffect(st, i, q);
    session.Remove(id);
  }

  /** What the pump does with its next message: it takes it, and then delivers it, gives it up, or waits. */
  ghost predicate Delivers(session: RuntimeQuerySession, inboxes: seq<Inbox>, st: State, i: nat, r: Attempt)
    requires st.WellIndexed() && Enabled(st, BySession(i, PumpTake))
    reads session, inboxes
  {
    var taken := Next(st, BySession(i, PumpTake));
    NextWellIndexed(st, BySession(i, PumpTake));
    var pump := taken.sessions[i].pump;
    match r
    case NotPending => pump.Idle? && Represents(session, inboxes, taken, i)
    case Accepted =>
      && pump.Delivering? && Enabled(taken, ByQuery(pump.target, Accept))
      && Represents(session, inboxes, Next(taken, ByQuery(pump.target, Accept)), i)
    case GivenUp =>
      && pump.Delivering? && Enabled(taken, BySession(i, PumpDrop))
      && Represents(session, inboxes, Next(taken, BySession(i, PumpDrop)), i)
    case Waits =>
      && pump.Delivering? && !Enabled(taken, ByQuery(pump.target, Accept)) && !Enabled(taken, BySession(i, PumpDrop))
      && Represents(session, inboxes, taken, i)
  }

  method DeliverBetween(session: RuntimeQuerySession, ghost inboxes: seq<Inbox>, m: UpMessage, prefersDone: bool,
                        ghost st: State, ghost i: nat)
    returns (r: Attempt)
    requires Represents(session, inboxes, st, i) && PendingInv(st)
    modifies session.pending.Values
    ensures r.NotPending? <==> m.RequestId() !in st.sessions[i].pending
    ensures m.RequestId() in st.sessions[i].pending ==>
              var target := st.sessions[i].pending[m.RequestId()];
              var room := |st.queries[target].inbox| < INBOX_CAPACITY;
              && (r.Waits? <==> !room && !st.sessions[i].done) && (r.Accepted? ==> room)
              && (r.GivenUp? ==> st.sessions[i].done)
              && Represents(session, inboxes, if r.Accepted? then Put(st, target, Message(m)) else st, i)
    ensures r.NotPending? ==> Represents(session, inboxes, st, i)
  {
    RepresentsValid(session, inboxes, st, i);
    r := session.Deliver(m.RequestId(), Message(m), prefersDone);
  }

  lemma AcceptedDelivers(session: RuntimeQuerySession, inboxes: seq<Inbox>, st: State, i: nat)
    requires st.WellIndexed() && PendingInv(st) && Enabled(st, BySession(i, PumpTake))
    requires var m, pending := st.sessions[i].up[0], st.sessions[i].pending;
             && m.RequestId() in pending && |st.queries[pending[m.RequestId()]].inbox| < INBOX_CAPACITY
             && Represents(session, inboxes, Put(st, pending[m.RequestId()], Message(m)), i)
    ensures Delivers(session, inboxes, st, i, Accepted)
  {
    TakeEffect(st, i);
    var m, taken := st.sessions[i].up[0], Next(st, BySession(i, PumpTake));
    var target := st.sessions[i].pending[m.RequestId()];
    assert Owns(st, target, i, m.RequestId());
    AcceptEffect(taken, i, target);
    SameParts(session, inboxes, Put(st, target, Message(m)), Put(taken, target, Message(m)), i);
    SameParts(session, inboxes, Put(taken, target, Message(m)), Next(taken, ByQuery(target, Accept)), i);
  }

  lemma GivenUpDelivers(session: RuntimeQuerySession, inboxes: seq<Inbox>, st: State, i: nat)
    requires Represents(session, inboxes, st, i) && Enabled(st, BySession(i, PumpTake))
    requires st.sessions[i].up[0].RequestId() in st.sessions[i].pending && st.sessions[i].done
    ensures Delivers(session, inboxes, st, i, GivenUp)
  {
    TakeEffect(st, i);
    var taken := Next(st, BySession(i, PumpTake));
    SameParts(session, inboxes, st, taken, i);
    DropEffect(taken, i);
    SameParts(session, inboxes, taken, Next(taken, BySession(i, PumpDrop)), i);
  }

  lemma OtherwiseDelivers(session: RuntimeQuerySession, inboxes: seq<Inbox>, st: State, i: nat)
    requires Represents(session, inboxes, st, i) && Enabled(st, BySession(i, PumpTake))
    ensures var m, pending := st.sessions[i].up[0], st.sessions[i].pending;
            if m.RequestId() !in pending then Delivers(session, inboxes, st, i, NotPending)
            else |st.queries[pending[m.RequestId()]].inbox| >= INBOX_CAPACITY && !st.sessions[i].done ==>
                   Delivers(session, inboxes, st, i, Waits)
  {
    TakeEffect(st, i);
    SameParts(session, inboxes, st, Next(st, BySession(i, PumpTake)), i);
  }

  method DeliverStep(session: RuntimeQuerySession, ghost inboxes: seq<Inbox>, m: UpMessage, prefersDone: bool,
                     ghost st: State, ghost i: nat)
    returns (r: Attempt)
    requires Represents(session, inboxes, st, i) && PendingInv(st) && Enabled(st, BySession(i, PumpTake))
    requires st.sessions[i].up[0] == m
    modifies session.pending.Values
    ensures Delivers(session, inboxes, st, i, r)
  {
    r := DeliverBetween(session, inboxes, m, prefersDone, st, i);
    if r.Accepted? {
      AcceptedDelivers(session, inboxes, st, i);
    } else if r.GivenUp? {
      GivenUpDelivers(session, inboxes, st, i);
    } else {
      OtherwiseDelivers(session, inboxes, st, i);
    }
  }

  lemma EntryIsOwn(session: RuntimeQuerySession, inboxes: seq<Inbox>, st: State, i: nat, r: RequestId, p: nat)
    requires Represents(session, inboxes, st, i) && PendingInv(st) && p < |inboxes| && r in session.pending
    requires session.pending[r] == inboxes[p]
    ensures st.sessions[i].pending[r] == p && st.queries[p].id == r && st.queries[p].session == i
  {
    var q := st.sessions[i].pending[r];
    assert inboxes[q] == inboxes[p];
    assert Owns(st, q, i, r);
  }

  lemma NoEntryNoNotice(session: RuntimeQuerySession, inboxes: seq<Inbox>, st: State, i: nat, p: nat)
    requires Represents(session, inboxes, st, i) && PendingInv(st) && p < |inboxes|
    requires !(st.queries[p].id in session.pending && session.pending[st.queries[p].id] == inboxes[p])
    ensures inboxes[p] !in session.pending.Values
  {
    forall r | r in session.pending ensures session.pending[r] != inboxes[p] {
      if session.pending[r] == inboxes[p] {
        EntryIsOwn(session, inboxes, st, i, r, p);
      }
    }
  }

  /** A closing session offers its notice to exactly the inboxes of its entries. */
  lemma ClosedInbox(session: RuntimeQuerySession, inboxes: seq<Inbox>, st: State, next: State, i: nat, p: nat)
    requires Represents(session, inboxes, st, i) && PendingInv(st) && Closed(st, next, i) && p < |inboxes|
    ensures var id := st.queries[p].id;
            if id in session.pending && session.pending[id] == inboxes[p]
            then next.queries[p].inbox == Offered(inboxes[p].buffer, ClosedNotice)
            else inboxes[p] !in session.pending.Values && next.queries[p].inbox == inboxes[p].buffer
  {
    var id := st.queries[p].id;
    if id in session.pending && session.pending[id] == inboxes[p] {
      EntryIsOwn(session, inboxes, st, i, id, p);
    } else {
      NoEntryNoNotice(session, inboxes, st, i, p);
    }
  }

  method CloseBetween(session: RuntimeQuerySession, ghost inboxes: seq<Inbox>, ghost st: State, ghost next: State,
                      ghost i: nat)
    requires Represents(session, inboxes, st, i) && PendingInv(st) && Closed(st, next, i) && !st.sessions[i].done
    modifies session, session.pending.Values
    ensures Represents(session, inboxes, next, i)
  {
    RepresentsValid(session, inboxes, st, i);
    forall p | 0 <= p < |inboxes|
      ensures var id := st.queries[p].id;
              if id in session.pending && session.pending[id] == inboxes[p]
              then next.queries[p].inbox == Offered(inboxes[p].buffer, ClosedNotice)
              else inboxes[p] !in session.pending.Values && next.queries[p].inbox == inboxes[p].buffer
    {
      ClosedInbox(session, inboxes, st, next, i, p);
    }
    session.Close();
  }

  method CloseStep(session: RuntimeQuerySession, ghost inboxes: seq<Inbox>, ghost st: State, ghost i: nat)
    requires Represents(session, inboxes, st, i) && PendingInv(st)
    requires Enabled(st, BySession(i, CloseDone)) && !st.sessions[i].cleared
    modifies session, session.pending.Values
    ensures var done := Next(st, BySession(i, CloseDone));
            && done.WellIndexed() && Enabled(done, CloseClear(i))
            && Represents(session, inboxes, Next(done, CloseClear(i)), i)
  {
    CloseEffect(st, i);
    CloseBetween(session, inboxes, st, Next(Next(st, BySession(i, CloseDone)), CloseClear(i)), i);
  }
}
