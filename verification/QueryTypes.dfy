/**
 Vocabulary of the runtime query protocol, and the loop with which a query
 collects the response that the Agent streams back.
 */
module QueryTypes {
  import opened Options

  type InstallationId = string
  type RequestId = string

  const MAX_QUERIES_PER_CLUSTER := 4
  const MAX_QUERIES_GLOBAL := 32
  const MAX_CHUNKS := 16
  const MAX_BYTES := 0x20_0000

  // Channel capacities
  const INBOX_CAPACITY := MAX_CHUNKS + 1
  const OUTBOUND_CAPACITY := MAX_QUERIES_PER_CLUSTER + 1
  const AGENT_SLOTS := 4
  const OUTGOING_CAPACITY := AGENT_SLOTS * 2 + 1

  /** One part of a response; `size` is its encoded size in bytes. */
  datatype Chunk = Chunk(requestId: RequestId, sequence: nat, body: string, size: nat)

  /** Agent to server */
  datatype UpMessage =
    | ChunkMessage(chunk: Chunk)
    | CompleteMessage(id: RequestId, succeeded: bool)
  {
    function RequestId(): RequestId {
      match this
      case ChunkMessage(c) => c.requestId
      case CompleteMessage(id, _) => id
    }
  }

  /** Server to Agent. `origin` is the query that sent the request; no code reads it. */
  datatype DownMessage =
    | Request(id: RequestId, origin: nat)
    | Cancel(id: RequestId)

  /** What reaches a waiting query: a message of the Agent, or the notice that the session closed. */
  datatype Delivery = Message(message: UpMessage) | ClosedNotice

  /** The buffer of an inbox after one more delivery was offered without waiting */
  function Offered(buffer: seq<Delivery>, d: Delivery): seq<Delivery> {
    if |buffer| < INBOX_CAPACITY then buffer + [d] else buffer
  }

  datatype Outcome = Succeeded(chunks: seq<Chunk>) | Unavailable | Rejected | Cancelled

  /** The local variables of the receive loop */
  datatype Progress = Progress(expected: nat, bytes: nat, chunks: seq<Chunk>)

  const NOTHING_RECEIVED := Progress(1, 0, [])

  datatype Reaction = Continue(progress: Progress) | Stop(outcome: Outcome)

  /** One turn of the receive loop */
  function React(id: RequestId, p: Progress, d: Delivery): Reaction {
    match d
    case ClosedNotice => Stop(Unavailable)
    case Message(CompleteMessage(_, succeeded)) => Stop(if succeeded then Succeeded(p.chunks) else Rejected)
    case Message(ChunkMessage(c)) =>
      if c.requestId != id || c.sequence != p.expected then Stop(Rejected)
      else if |p.chunks| >= MAX_CHUNKS || p.bytes + c.size > MAX_BYTES then Stop(Rejected)
      else Continue(Progress(p.expected + 1, p.bytes + c.size, p.chunks + [c]))
  }

  function TotalSize(chunks: seq<Chunk>): nat {
    if chunks == [] then 0 else TotalSize(chunks[..|chunks| - 1]) + chunks[|chunks| - 1].size
  }

  /** `chunks` answers request `id`: numbered 1, 2, ... and within the response limits. */
  ghost predicate WellNumbered(id: RequestId, chunks: seq<Chunk>) {
    && (forall k :: 0 <= k < |chunks| ==> chunks[k].requestId == id && chunks[k].sequence == k + 1)
    && |chunks| <= MAX_CHUNKS
    && TotalSize(chunks) <= MAX_BYTES
  }

  /** The deliveries are exactly these chunks, one by one */
  ghost predicate Carries(ds: seq<Delivery>, chunks: seq<Chunk>) {
    && |ds| == |chunks|
    && forall k :: 0 <= k < |ds| ==> ds[k] == Message(ChunkMessage(chunks[k]))
  }

  /** The deliveries are a well numbered response followed by a successful completion */
  ghost predicate CompleteResponse(id: RequestId, ds: seq<Delivery>, chunks: seq<Chunk>) {
    && |ds| > 0
    && Carries(ds[..|ds| - 1], chunks)
    && WellNumbered(id, chunks)
    && ds[|ds| - 1].Message? && ds[|ds| - 1].message.CompleteMessage? && ds[|ds| - 1].message.succeeded
  }

  ghost predicate Consistent(id: RequestId, p: Progress, ds: seq<Delivery>) {
    && Carries(ds, p.chunks)
    && WellNumbered(id, p.chunks)
    && p.expected == |p.chunks| + 1
    && p.bytes == TotalSize(p.chunks)
  }

  lemma ReactKeepsConsistent(id: RequestId, p: Progress, ds: seq<Delivery>, d: Delivery)
    requires Consistent(id, p, ds)
    ensures React(id, p, d).Continue? ==> Consistent(id, React(id, p, d).progress, ds + [d])
    ensures forall chunks :: React(id, p, d) == Stop(Succeeded(chunks)) <==> CompleteResponse(id, ds + [d], chunks)
  {
    assert (ds + [d])[..|ds + [d]| - 1] == ds;
    match React(id, p, d)
    case Continue(p') =>
      assert p'.chunks[..|p'.chunks| - 1] == p.chunks;
    case Stop(o) =>
      forall chunks | CompleteResponse(id, ds + [d], chunks)
        ensures chunks == p.chunks
      {
        forall k | 0 <= k < |chunks| ensures chunks[k] == p.chunks[k] {
          assert ds[k] == Message(ChunkMessage(chunks[k]));
        }
      }
  }

  lemma TotalSizeOfPrefix(chunks: seq<Chunk>, n: nat)
    requires n <= |chunks|
    ensures TotalSize(chunks[..n]) <= TotalSize(chunks)
  {
    if n < |chunks| {
      TotalSizeOfPrefix(chunks[..|chunks| - 1], n);
      assert chunks[..|chunks| - 1][..n] == chunks[..n];
    } else {
      assert chunks[..n] == chunks;
    }
  }

  /**
   The receive loop of `Query` over the deliveries that arrive for it. It succeeds with
   `chunks` exactly when a prefix of the deliveries is a complete response made of `chunks`.
   */
  method Collect(id: RequestId, ds: seq<Delivery>) returns (outcome: Option<Outcome>, consumed: nat)
    ensures consumed <= |ds|
    ensures outcome.None? ==> consumed == |ds|
    ensures forall chunks, n | 0 <= n <= |ds| ::
              outcome == Some(Succeeded(chunks)) && n == consumed <==> CompleteResponse(id, ds[..n], chunks)
  {
    var p := NOTHING_RECEIVED;
    outcome, consumed := None, 0;
    assert ds[..0] == [];
    while consumed < |ds|
      invariant consumed <= |ds|
      invariant Consistent(id, p, ds[..consumed])
      invariant forall n, chunks | 0 <= n <= consumed :: !CompleteResponse(id, ds[..n], chunks)
    {
      var d := ds[consumed];
      var reaction := React(id, p, d);
      ReactKeepsConsistent(id, p, ds[..consumed], d);
      assert ds[..consumed] + [d] == ds[..consumed + 1];
      consumed := consumed + 1;
      match reaction
      case Continue(p') => p := p';
      case Stop(o) =>
        outcome := Some(o);
        AfterStop(id, p, ds, consumed);
        return;
    }
  }

  /** Once the loop has stopped, no longer prefix is a complete response. */
  lemma AfterStop(id: RequestId, p: Progress, ds: seq<Delivery>, n: nat)
    requires 0 < n <= |ds| && Consistent(id, p, ds[..n - 1]) && React(id, p, ds[n - 1]).Stop?
    ensures forall m, chunks | n < m <= |ds| :: !CompleteResponse(id, ds[..m], chunks)
  {
    forall m, chunks | n < m <= |ds|
      ensures !CompleteResponse(id, ds[..m], chunks)
    {
      if CompleteResponse(id, ds[..m], chunks) {
        assert ds[..m][..m - 1] == ds[..m - 1];
        forall k | 0 <= k < n ensures ds[k] == Message(ChunkMessage(chunks[k])) {
          assert ds[..m - 1][k] == ds[k];
        }
        forall k | 0 <= k < n - 1 ensures p.chunks[k] == chunks[k] {
          assert ds[..n - 1][k] == ds[k];
        }
        assert chunks[..n][..n - 1] == p.chunks;
        TotalSizeOfPrefix(chunks, n);
      }
    }
  }
}
