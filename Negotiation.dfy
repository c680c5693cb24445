/**
 * One peer connection and the handlers `createPeer` and `handleSignaling`
 * attach to it: the offerer's `onnegotiationneeded`, the PeerLink document
 * listener, the outbound `onicecandidate` and the inbound candidate listener.
 *
 * Each handler runs to completion before the next event (the awaits inside a
 * handler are not interleaved with other events). `remote` stands for both
 * `remoteDescription` and `currentRemoteDescription`, which coincide once a
 * handler has finished. A browser's session description always has a
 * non-empty `RTCSdpType`, so the page's extra `remoteDescription.type` test is
 * left out.
 */
module Negotiation {
  import opened Ids
  import opened Relay

  /** The state of one `RTCPeerConnection` together with what its closures captured. */
  datatype Conn = Conn(
    room: string,          // the room of `callDoc`
    peer: Id,
    isOfferer: bool,
    link: Path,            // `peerDoc`
    remote: Option<Desc>,
    local: Option<Desc>,
    applied: seq<Candidate> // candidates handed to `addIceCandidate`, in order
  )

  /** A fresh connection as `createPeer` and `handleSignaling` set it up for `peer`. */
  function NewConn(room: string, self: Id, peer: Id, isOfferer: bool): Conn {
    Conn(room, peer, isOfferer, PeerDocPath(room, self, peer, isOfferer), None, None, [])
  }

  /** The new connection state and the writes a handler issued. */
  datatype Step = Step(conn: Conn, out: seq<Write>)

  /**
   * `onnegotiationneeded`, installed on the offerer only: the new offer becomes
   * the local description and is merged into the PeerLink document.
   */
  function OnNegotiationNeeded(c: Conn, offer: Desc): Step {
    if c.isOfferer then Step(c.(local := Some(offer)), [Write(MergeDoc, c.link, OfferField(offer))])
    else Step(c, [])
  }

  /** The description a PeerLink document offers this side: the answer to the offerer, the offer to the answerer. */
  function Counterpart(c: Conn, doc: LinkDoc): Option<Desc> {
    if c.isOfferer then doc.answer else doc.offer
  }

  /**
   * The PeerLink document listener. The answerer takes a present offer as its
   * remote description, sets `answer` (the result of `createAnswer`) as local
   * description and writes it to the document; the offerer takes a present
   * answer. Both act only while no remote description is set.
   */
  function OnLinkSnapshot(c: Conn, data: Option<LinkDoc>, answer: Desc): (r: Step)
    // a connection whose remote description is set ignores every snapshot
    ensures c.remote.Some? ==> r == Step(c, [])
    // only the two descriptions can change
    ensures r.conn.(remote := c.remote, local := c.local) == c
    // a new remote description is the counterpart the document carries, and
    // the connection takes it as soon as the document carries one
    ensures r.conn.remote != c.remote ==> data.Some? && r.conn.remote == Counterpart(c, data.value)
    ensures c.remote.None? && data.Some? && Counterpart(c, data.value).Some? ==> r.conn.remote.Some?
    // the offerer never writes and keeps its local description
    ensures c.isOfferer ==> r.out == [] && r.conn.local == c.local
    // the answerer writes at most one answer, exactly when it takes the offer,
    // and the answer written is the one it set as local description
    ensures !c.isOfferer ==> (r.out != [] <==> r.conn.remote != c.remote)
    ensures r.out != [] ==>
      r.conn.local.Some? && r.out == [Write(UpdateDoc, c.link, AnswerField(r.conn.local.value))]
    ensures r.conn.local != c.local ==> r.out != []
  {
    if data.None? then Step(c, [])
    else if !c.isOfferer && data.value.offer.Some? && c.remote.None? then
      Step(c.(remote := data.value.offer, local := Some(answer)), [Write(UpdateDoc, c.link, AnswerField(answer))])
    else if c.isOfferer && data.value.answer.Some? && c.remote.None? then
      Step(c.(remote := data.value.answer), [])
    else Step(c, [])
  }

  /** One delivery of the PeerLink listener, with the answer `createAnswer` would give. */
  datatype LinkSnapshot = LinkSnapshot(data: Option<LinkDoc>, answer: Desc)

  /** A run of PeerLink deliveries, one after another; the writes are concatenated. */
  function ObserveLink(c: Conn, snaps: seq<LinkSnapshot>): Step
    decreases |snaps|
  {
    if snaps == [] then Step(c, [])
    else
      var first := OnLinkSnapshot(c, snaps[0].data, snaps[0].answer);
      var rest := ObserveLink(first.conn, snaps[1..]);
      Step(rest.conn, first.out + rest.out)
  }

  /**
   * Under any number of repeated or changing snapshots, the remote description
   * is set at most once and never replaced, the answerer writes at most one
   * answer, and the offerer writes none.
   */
  lemma {:induction false} RemoteSetAtMostOnce(c: Conn, snaps: seq<LinkSnapshot>)
    ensures var r := ObserveLink(c, snaps);
      && |r.out| <= (if !c.isOfferer && c.remote.None? then 1 else 0)
      && (c.remote.Some? ==> r.conn.remote == c.remote && r.conn.local == c.local)
      && r.conn.isOfferer == c.isOfferer && r.conn.link == c.link && r.conn.applied == c.applied
    decreases |snaps|
  {
    if snaps != [] {
      var first := OnLinkSnapshot(c, snaps[0].data, snaps[0].answer);
      RemoteSetAtMostOnce(first.conn, snaps[1..]);
    }
  }

  datatype IceChange = IceChange(kind: ChangeKind, candidate: Candidate)

  /**
   * One entry of the inbound candidate listener: an added candidate is handed
   * to the connection if a remote description is set, and dropped otherwise.
   */
  function OnIceChange(c: Conn, ch: IceChange): Conn {
    if ch.kind == Added && c.remote.Some? then c.(applied := c.applied + [ch.candidate]) else c
  }

  /** A `docChanges()` batch of the candidate listener, entry by entry. */
  function OnIceChanges(c: Conn, chs: seq<IceChange>): Conn
    decreases |chs|
  {
    if chs == [] then c else OnIceChange(OnIceChanges(c, chs[..|chs| - 1]), chs[|chs| - 1])
  }

  /** The candidates of the `added` entries, in arrival order. */
  function AddedCandidates(chs: seq<IceChange>): seq<Candidate>
    decreases |chs|
  {
    if chs == [] then []
    else AddedCandidates(chs[..|chs| - 1]) + (if chs[|chs| - 1].kind == Added then [chs[|chs| - 1].candidate] else [])
  }

  /**
   * A batch applies all its added candidates, in order, when a remote
   * description is set, and none of them otherwise; nothing else changes.
   */
  lemma {:induction false} CandidateBatch(c: Conn, chs: seq<IceChange>)
    ensures OnIceChanges(c, chs) == c.(applied := c.applied + (if c.remote.Some? then AddedCandidates(chs) else []))
    decreases |chs|
  {
    if chs != [] {
      CandidateBatch(c, chs[..|chs| - 1]);
    }
  }

  /**
   * No buffering: a candidate that arrives before the remote description is
   * lost; setting the remote description later does not apply it.
   */
  lemma EarlyCandidateLost(c: Conn, cand: Candidate, data: Option<LinkDoc>, answer: Desc)
    requires c.remote.None?
    ensures OnIceChange(c, IceChange(Added, cand)) == c
    ensures OnLinkSnapshot(OnIceChange(c, IceChange(Added, cand)), data, answer).conn.applied == c.applied
  {
  }

  /** The candidate collection the connection to `c.peer` writes its own candidates to. */
  function OutboundIcePath(self: Id, c: Conn): Path {
    IcePath(c.room, self, c.peer)
  }

  /** The candidate collection the inbound listener of the connection to `c.peer` subscribes to. */
  function InboundIcePath(self: Id, c: Conn): Path {
    IcePath(c.room, c.peer, self)
  }

  /** `onicecandidate`: a discovered candidate is appended to the outbound collection. */
  function LocalCandidateWrites(self: Id, c: Conn, cand: Option<Candidate>): seq<Write> {
    if cand.Some? then [Write(AddDoc, OutboundIcePath(self, c), CandidateFields(cand.value))] else []
  }

  /**
   * Candidate routing: what `a` writes on its connection `ca` reaches the
   * listener of `b`'s connection `cb` exactly when the two are connections to
   * each other in the same room. In particular a client never hears its own
   * candidates on a connection to another peer.
   */
  lemma CandidateRouting(a: Id, ca: Conn, b: Id, cb: Conn)
    ensures OutboundIcePath(a, ca) == InboundIcePath(b, cb) <==> ca.room == cb.room && ca.peer == b && cb.peer == a
    ensures ca.peer != a ==> OutboundIcePath(a, ca) != InboundIcePath(a, ca)
  {
    var p, q := OutboundIcePath(a, ca), InboundIcePath(b, cb);
    if p == q {
      assert p[1] == q[1] && p[3] == q[3] && p[5] == q[5];
    }
    if ca.peer != a {
      assert OutboundIcePath(a, ca)[3] != InboundIcePath(a, ca)[3];
    }
  }

  /**
   * The full offer/answer exchange between two clients `a` (the offerer) and
   * `b`, relayed through the PeerLink document: `a` writes its offer, `b`
   * answers into the same document, and `a` takes that answer. Afterwards each
   * side's remote description is the other side's local one, and a candidate
   * either side discovers is written to the collection the other side's
   * inbound listener subscribes to.
   */
  lemma HandshakeCompletes(room: string, a: Id, b: Id, offer: Desc, answer: Desc, unused: Desc, x: Candidate, y: Candidate)
    requires a != b && IsOfferer(a, b)
    ensures !IsOfferer(b, a)
    ensures
      var ca, cb := NewConn(room, a, b, true), NewConn(room, b, a, false);
      var s1 := OnNegotiationNeeded(ca, offer);
      var doc1 := LinkAfter(None, s1.out[0]);
      var s2 := OnLinkSnapshot(cb, doc1, answer);
      var doc2 := LinkAfter(doc1, s2.out[0]);
      var s3 := OnLinkSnapshot(s1.conn, doc2, unused);
      && ca.link == cb.link == PairLink(room, a, b)
      && s3.conn.remote == s2.conn.local == Some(answer)
      && s2.conn.remote == s3.conn.local == Some(offer)
      && s3.out == []
      && LocalCandidateWrites(a, s3.conn, Some(x))[0].path == InboundIcePath(b, s2.conn)
      && LocalCandidateWrites(b, s2.conn, Some(y))[0].path == InboundIcePath(a, s3.conn)
  {
    RoleAgreement(a, b);
    SharedPeerLink(room, a, b);
  }
}
