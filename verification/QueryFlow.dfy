/**
 The data path of the query protocol: what the Agent's handlers queue, what the pump takes,
 and what each query receives.
 */
module QueryFlow {
  import opened Options
  import opened QueryTypes
  import opened QueryMachine
  import opened QueryTokens

  // ---------- Sequences

  /** The messages of one request, in order */
  function Of(ms: seq<UpMessage>, id: RequestId): seq<UpMessage> {
    if ms == [] then []
    else Of(ms[..|ms| - 1], id) + if ms[|ms| - 1].RequestId() == id then [ms[|ms| - 1]] else []
  }

  lemma OfAppend(ms: seq<UpMessage>, m: UpMessage, id: RequestId)
    ensures Of(ms + [m], id) == Of(ms, id) + if m.RequestId() == id then [m] else []
  {
    assert (ms + [m])[..|ms|] == ms;
  }

  lemma {:induction false} OfConcat(a: seq<UpMessage>, b: seq<UpMessage>, id: RequestId)
    ensures Of(a + b, id) == Of(a, id) + Of(b, id)
  {
    if b == [] {
      assert a + b == a;
    } else {
      var last := b[|b| - 1];
      OfConcat(a, b[..|b| - 1], id);
      assert (a + b)[..|a + b| - 1] == a + b[..|b| - 1];
    }
  }

  /** The Agent's messages among deliveries */
  function Messages(ds: seq<Delivery>): seq<UpMessage> {
    if ds == [] then []
    else Messages(ds[..|ds| - 1]) + if ds[|ds| - 1].Message? then [ds[|ds| - 1].message] else []
  }

  lemma MessagesAppend(ds: seq<Delivery>, d: Delivery)
    ensures Messages(ds + [d]) == Messages(ds) + if d.Message? then [d.message] else []
  {
    assert (ds + [d])[..|ds|] == ds;
  }

  lemma {:induction false} MessagesPrefix(a: seq<Delivery>, b: seq<Delivery>)
    ensures Messages(a) <= Messages(a + b)
  {
    if b == [] {
      assert a + b == a;
    } else {
      MessagesPrefix(a, b[..|b| - 1]);
      assert (a + b)[..|a + b| - 1] == a + b[..|b| - 1];
    }
  }

  predicate Subsequence<T(==)>(a: seq<T>, b: seq<T>) {
    || a == []
    || (b != [] && (|| Subsequence(a, b[..|b| - 1])
                    || (a[|a| - 1] == b[|b| - 1] && Subsequence(a[..|a| - 1], b[..|b| - 1]))))
  }

  lemma SubsequenceAppend<T>(a: seq<T>, b: seq<T>, x: T)
    requires Subsequence(a, b)
    ensures Subsequence(a, b + [x]) && Subsequence(a + [x], b + [x])
  {
    assert (b + [x])[..|b|] == b && (a + [x])[..|a|] == a;
  }

  lemma SubsequenceDropLast<T>(a: seq<T>, b: seq<T>)
    requires a != [] && Subsequence(a, b)
    ensures Subsequence(a[..|a| - 1], b)
  {
  }

  lemma SubsequenceLength<T>(a: seq<T>, b: seq<T>)
    requires Subsequence(a, b)
    ensures |a| <= |b| && (|a| == |b| ==> a == b)
  {
    if a != [] {
      if Subsequence(a, b[..|b| - 1]) {
        SubsequenceLength(a, b[..|b| - 1]);
      } else {
        SubsequenceLength(a[..|a| - 1], b[..|b| - 1]);
        assert a == a[..|a| - 1] + [a[|a| - 1]] && b == b[..|b| - 1] + [b[|b| - 1]];
      }
    }
  }

  // ---------- The Agent

  /** All that a handler would ever queue: the body it produced, if any, and whether it succeeded */
  function FullOutput(h: Handler): seq<UpMessage>
    requires h.answer.Some?
  {
    match h.answer.value
    case Produced(body, size) => [ChunkMessage(Chunk(h.id, 1, body, size)), CompleteMessage(h.id, true)]
    case NoChunk => [CompleteMessage(h.id, true)]
    case Failed => [CompleteMessage(h.id, false)]
  }

  predicate HandlerOk(h: Handler) {
    match h.answer
    case None => h.position.Running? && h.emitted == []
    case Some(_) =>
      && !h.position.Running?
      && h.emitted <= FullOutput(h)
      && (WantsChunk(h) ==> h.emitted == [])
      && (WantsComplete(h) ==> h.emitted + [CompletionOf(h)] == FullOutput(h))
      && (h.position.ChunkQueued? ==> h.answer.value.Produced?)
  }

  predicate HandlersOk(agent: Agent) {
    && (forall h :: 0 <= h < |agent.handlers| ==> HandlerOk(agent.handlers[h]))
    && agent.slots == |BusyHandlers(agent.handlers)| <= AGENT_SLOTS
    && |agent.outgoing| <= OUTGOING_CAPACITY
  }

  /** Does the handler still occupy one of the Agent's slots? */
  predicate Busy(h: Handler) { !h.position.SlotFreed? && !h.position.Gone? }

  function BusyHandlers(handlers: seq<Handler>): set<nat> {
    set h | 0 <= h < |handlers| && Busy(handlers[h])
  }

  lemma SetBusy(handlers: seq<Handler>, h: nat, v: Handler)
    requires h < |handlers|
    ensures |BusyHandlers(handlers[h := v])| == |BusyHandlers(handlers)| - Count(Busy(handlers[h])) + Count(Busy(v))
  {
    var before, after := BusyHandlers(handlers), BusyHandlers(handlers[h := v]);
    assert h in before <==> Busy(handlers[h]);
    assert after == if Busy(v) then before + {h} else before - {h};
  }

  lemma SameBusy(a: seq<Handler>, b: seq<Handler>)
    requires |a| == |b| && forall h :: 0 <= h < |a| ==> a[h].position == b[h].position
    ensures BusyHandlers(a) == BusyHandlers(b)
  {
  }

  lemma MoreBusy(handlers: seq<Handler>, handler: Handler)
    requires Busy(handler)
    ensures |BusyHandlers(handlers + [handler])| == |BusyHandlers(handlers)| + 1
  {
    assert BusyHandlers(handlers + [handler]) == BusyHandlers(handlers) + {|handlers|};
  }

  lemma StopKeepsHandlers(agent: Agent)
    requires HandlersOk(agent)
    ensures HandlersOk(StopAgent(agent))
  {
    SameBusy(agent.handlers, StopAgent(agent).handlers);
  }

  lemma HandlerStaysOk(h: Handler, a: HandlerAction)
    requires HandlerOk(h) && HandlerEnabled(h, a)
    ensures HandlerOk(HandlerNext(h, a)) && SameHandler(h, HandlerNext(h, a))
    ensures HandlerNext(h, a).emitted == h.emitted + Emits(h, a)
    ensures Count(Busy(HandlerNext(h, a))) == Count(Busy(h)) - Count(a.FreeSlot?)
    ensures forall m :: m in Emits(h, a) ==> m.RequestId() == h.id
    ensures Emits(h, a) == [] || (|Emits(h, a)| == 1 && (a.QueueChunk? || a.QueueComplete?))
  {
  }

  /** Handlers keep their identity and, once given, their answer. */
  predicate SameHandler(v: Handler, v': Handler) {
    v'.id == v.id && v'.origin == v.origin && (v.answer.Some? ==> v'.answer == v.answer)
  }

  lemma AgentKeepsHandlers(agent: Agent, a: AgentAction)
    requires HandlersOk(agent) && AgentEnabled(agent, a)
    ensures HandlersOk(AgentNext(agent, a))
  {
    match a
    case ByHandler(h, ha) =>
      HandlerStaysOk(agent.handlers[h], ha);
      SetBusy(agent.handlers, h, HandlerNext(agent.handlers[h], ha));
    case Read(m) => ReadKeepsHandlers(agent, m);
    case StopLoop => StopKeepsHandlers(agent);
  }

  lemma ReadKeepsHandlers(agent: Agent, m: DownMessage)
    requires HandlersOk(agent) && agent.running
    ensures HandlersOk(AgentNext(agent, Read(m)))
  {
    if m.Cancel? {
      CancelKeepsHandlers(agent, m);
    } else if agent.slots < AGENT_SLOTS {
      AcceptKeepsHandlers(agent, m);
    } else {
      StopKeepsHandlers(agent);
    }
  }

  lemma CancelKeepsHandlers(agent: Agent, m: DownMessage)
    requires HandlersOk(agent) && agent.running && m.Cancel?
    ensures HandlersOk(AgentNext(agent, Read(m)))
  {
    SameBusy(agent.handlers, AgentNext(agent, Read(m)).handlers);
  }

  lemma AcceptKeepsHandlers(agent: Agent, m: DownMessage)
    requires HandlersOk(agent) && agent.running && !m.Cancel? && agent.slots < AGENT_SLOTS
    ensures HandlersOk(AgentNext(agent, Read(m)))
  {
    var handler := NewHandler(m.id, m.origin);
    MoreBusy(agent.handlers, handler);
    assert HandlerOk(handler);
  }

  // ---------- What is on the way up is what the handlers queued

  predicate Answers(handlers: seq<Handler>, id: RequestId) {
    exists h :: 0 <= h < |handlers| && handlers[h].id == id
  }

  predicate DistinctIds(handlers: seq<Handler>) {
    forall g, h :: 0 <= g < h < |handlers| ==> handlers[g].id != handlers[h].id
  }

  /** `ms` is everything the handlers queued so far. */
  ghost predicate UpstreamOk(ms: seq<UpMessage>, handlers: seq<Handler>) {
    && (forall id :: !Answers(handlers, id) ==> Of(ms, id) == [])
    && (DistinctIds(handlers) ==> forall h :: 0 <= h < |handlers| ==> Of(ms, handlers[h].id) == handlers[h].emitted)
  }

  ghost predicate Grows(before: seq<Handler>, after: seq<Handler>) {
    && |before| <= |after|
    && forall h :: 0 <= h < |before| ==> SameHandler(before[h], after[h])
  }

  lemma GrowsIds(before: seq<Handler>, after: seq<Handler>)
    requires Grows(before, after)
    ensures DistinctIds(after) ==> DistinctIds(before)
    ensures forall id :: Answers(before, id) ==> Answers(after, id)
  {
    if DistinctIds(after) {
      forall g, h | 0 <= g < h < |before| ensures before[g].id != before[h].id {
        assert after[g].id != after[h].id;
      }
    }
    forall id | Answers(before, id) ensures Answers(after, id) {
      var h :| 0 <= h < |before| && before[h].id == id;
      assert after[h].id == id;
    }
  }

  lemma AgentGrows(agent: Agent, a: AgentAction)
    requires HandlersOk(agent) && AgentEnabled(agent, a)
    ensures Grows(agent.handlers, AgentNext(agent, a).handlers)
    ensures a.ByHandler? || (forall h :: 0 <= h < |agent.handlers| ==>
                             AgentNext(agent, a).handlers[h].emitted == agent.handlers[h].emitted)
    ensures |AgentNext(agent, a).handlers| > |agent.handlers| ==>
              a.Read? && a.message.Request? && AgentNext(agent, a).handlers == agent.handlers +
                [NewHandler(a.message.id, a.message.origin)]
    ensures a.ByHandler? || AgentNext(agent, a).outgoing == agent.outgoing
  {
    if a.ByHandler? {
      HandlerStaysOk(agent.handlers[a.h], a.ha);
    }
  }

  /** A handler that queues `out` */
  lemma EmitKeepsUpstream(ms: seq<UpMessage>, handlers: seq<Handler>, h: nat, v: Handler, out: seq<UpMessage>)
    requires UpstreamOk(ms, handlers) && h < |handlers| && v.id == handlers[h].id
    requires |out| <= 1 && (forall m :: m in out ==> m.RequestId() == v.id) && v.emitted == handlers[h].emitted + out
    ensures UpstreamOk(ms + out, handlers[h := v])
  {
    var next := handlers[h := v];
    forall id ensures Of(ms + out, id) == Of(ms, id) + if id == v.id then out else [] {
      if out == [] {
        assert ms + out == ms;
      } else {
        assert out[0] in out && out == [out[0]];
        OfAppend(ms, out[0], id);
      }
    }
    forall id | !Answers(next, id) ensures Of(ms + out, id) == [] {
      assert next[h].id == v.id;
      forall g | 0 <= g < |handlers| ensures handlers[g].id != id {
        assert next[g].id == handlers[g].id;
      }
    }
    if DistinctIds(next) {
      forall f, g | 0 <= f < g < |handlers| ensures handlers[f].id != handlers[g].id {
        assert next[f].id != next[g].id;
      }
    }
  }

  lemma HandlerKeepsUpstream(ms: seq<UpMessage>, agent: Agent, h: nat, ha: HandlerAction)
    requires HandlersOk(agent) && AgentEnabled(agent, ByHandler(h, ha)) && UpstreamOk(ms, agent.handlers)
    ensures UpstreamOk(ms + Emits(agent.handlers[h], ha), AgentNext(agent, ByHandler(h, ha)).handlers)
  {
    HandlerStaysOk(agent.handlers[h], ha);
    EmitKeepsUpstream(ms, agent.handlers, h, HandlerNext(agent.handlers[h], ha), Emits(agent.handlers[h], ha));
  }

  /** What a step of the Agent puts on its outgoing channel */
  function Queued(agent: Agent, a: AgentAction): seq<UpMessage>
    requires AgentEnabled(agent, a)
  {
    if a.ByHandler? then Emits(agent.handlers[a.h], a.ha) else []
  }

  lemma LoopKeepsUpstream(ms: seq<UpMessage>, agent: Agent, a: AgentAction)
    requires HandlersOk(agent) && AgentEnabled(agent, a) && !a.ByHandler? && UpstreamOk(ms, agent.handlers)
    ensures UpstreamOk(ms, AgentNext(agent, a).handlers)
  {
    var next := AgentNext(agent, a).handlers;
    AgentGrows(agent, a);
    GrowsIds(agent.handlers, next);
    if DistinctIds(next) && |next| > |agent.handlers| {
      assert !Answers(agent.handlers, next[|agent.handlers|].id) by {
        forall h | 0 <= h < |agent.handlers| ensures agent.handlers[h].id != next[|agent.handlers|].id {
          assert next[h].id == agent.handlers[h].id;
        }
      }
    }
  }

  /** Every step of the Agent: with what it queues appended, what is on the way up is what the handlers queued. */
  lemma AgentKeepsUpstream(ms: seq<UpMessage>, agent: Agent, a: AgentAction)
    requires HandlersOk(agent) && AgentEnabled(agent, a) && UpstreamOk(ms, agent.handlers)
    ensures UpstreamOk(ms + Queued(agent, a), AgentNext(agent, a).handlers)
  {
    if a.ByHandler? {
      HandlerKeepsUpstream(ms, agent, a.h, a.ha);
    } else {
      LoopKeepsUpstream(ms, agent, a);
      assert ms + [] == ms;
    }
  }
}
