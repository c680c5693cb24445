/**
 * The relay store seen from one client: the documents it reads, the paths it
 * addresses, and the writes it issues. Every Firestore call of the client
 * becomes a recorded `Write`; every snapshot it receives becomes an argument
 * of an event handler. Session descriptions, candidates and media streams are
 * opaque tokens.
 */
module Relay {
  import opened Ids

  datatype Option<T> = None | Some(value: T)

  /** A session description `{sdp, type}`; its contents are not modelled. */
  datatype Desc = Desc(sdpType: string, sdp: string)

  /** An ICE candidate as serialised by `candidate.toJSON()`. */
  datatype Candidate = Candidate(json: string)

  /** A remote media stream delivered by `ontrack`. */
  datatype Stream = Stream(token: nat)

  /** The kinds of `docChanges()` entries. */
  datatype ChangeKind = Added | Modified | Removed

  /** `calls/R`; only `active` is read back by the client. */
  datatype RoomDoc = RoomDoc(active: Option<bool>)

  /** `calls/R/participants/S`. */
  datatype ParticipantDoc = ParticipantDoc(joined: bool, isMicMuted: bool, isVideoOff: bool, isHost: bool)

  /** `calls/R/requests/S`. */
  datatype RequestDoc = RequestDoc(id: Id, status: string)

  /** `calls/R/participants/OFFERER/peers/ANSWERER`. */
  datatype LinkDoc = LinkDoc(offer: Option<Desc>, answer: Option<Desc>)

  type Path = seq<string>

  /** The Firestore primitive a write goes through. */
  datatype WriteKind = SetDoc | MergeDoc | UpdateDoc | AddDoc | DeleteDoc

  /** The fields a write carries (the `createdAt` and `timestamp` stamps are left out). */
  datatype Data =
    | RoomFields(active: bool, hostId: Id, isPrivate: Option<bool>)
    | RoomActive(active: bool)
    | ParticipantFields(doc: ParticipantDoc)
    | MediaFields(isMicMuted: bool, isVideoOff: bool)
    | RequestFields(request: RequestDoc)
    | StatusField(status: string)
    | OfferField(offer: Desc)
    | AnswerField(answer: Desc)
    | CandidateFields(candidate: Candidate)
    | MessageFields(text: string, senderId: Id, senderType: string)
    | NoFields

  datatype Write = Write(kind: WriteKind, path: Path, data: Data)

  function RoomPath(room: string): Path {
    ["calls", room]
  }

  function ParticipantPath(room: string, id: Id): Path {
    RoomPath(room) + ["participants", id]
  }

  function RequestPath(room: string, id: Id): Path {
    RoomPath(room) + ["requests", id]
  }

  function MessagesPath(room: string): Path {
    RoomPath(room) + ["messages"]
  }

  /** `participants/<offerer>/peers/<answerer>` as chosen by the client `self`. */
  function PeerDocPath(room: string, self: Id, peer: Id, isOfferer: bool): Path {
    ParticipantPath(room, if isOfferer then self else peer) + ["peers", if isOfferer then peer else self]
  }

  /** The candidate collection written by `from` and read by `to`. */
  function IcePath(room: string, from: Id, to: Id): Path {
    ParticipantPath(room, from) + ["peers", to, "ice"]
  }

  /**
   * The PeerLink document of an unordered pair, defined without reference to
   * who computes it: the greater id owns it, the smaller one is the child.
   */
  function PairLink(room: string, a: Id, b: Id): Path {
    if Less(b, a) then ParticipantPath(room, a) + ["peers", b]
    else ParticipantPath(room, b) + ["peers", a]
  }

  /**
   * Both clients of a pair address the same PeerLink document, namely
   * `participants/max/peers/min`.
   */
  lemma SharedPeerLink(room: string, a: Id, b: Id)
    requires a != b
    ensures PeerDocPath(room, a, b, IsOfferer(a, b)) == PairLink(room, a, b)
    ensures PeerDocPath(room, b, a, IsOfferer(b, a)) == PairLink(room, a, b)
    ensures PairLink(room, a, b) == PairLink(room, b, a)
    ensures Less(PairLink(room, a, b)[5], PairLink(room, a, b)[3])
  {
    RoleAgreement(a, b);
    LessConnected(a, b);
  }

  /** Different pairs never share a PeerLink document. */
  lemma PairLinksDistinct(room: string, a: Id, b: Id, c: Id, d: Id)
    requires a != b && c != d
    requires {a, b} != {c, d}
    ensures PairLink(room, a, b) != PairLink(room, c, d)
  {
    LessAsymmetric(a, b);
    LessAsymmetric(c, d);
    LessConnected(a, b);
    LessConnected(c, d);
    var p, q := PairLink(room, a, b), PairLink(room, c, d);
    assert {p[3], p[5]} == {a, b};
    assert {q[3], q[5]} == {c, d};
  }

  /** What a write does to the PeerLink document it addresses (`None`: no document). */
  function LinkAfter(doc: Option<LinkDoc>, w: Write): Option<LinkDoc> {
    match w.data
    case OfferField(o) =>
      if w.kind == MergeDoc then
        Some(LinkDoc(Some(o), if doc.Some? then doc.value.answer else None))
      else doc
    case AnswerField(a) =>
      // updateDoc fails on a missing document
      if w.kind == UpdateDoc && doc.Some? then Some(doc.value.(answer := Some(a))) else doc
    case _ => doc
  }
}
