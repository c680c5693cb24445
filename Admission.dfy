/**
 * Admission: the requester side of `startCall` (validation, the waiting
 * request, the reaction to the host's decision), the host's list of waiting
 * requests and its accept/deny writes, and the writes `proceed` issues to set
 * up a session.
 */
module Admission {
  import opened Ids
  import opened Text
  import opened Relay
  import opened Presence

  /** The session flags of the page (`roomId`, `isCalling`, `isHost`, `isWaiting`, `isDenied`). */
  datatype CallFlags = CallFlags(roomId: string, isCalling: bool, isHost: bool, isWaiting: bool, isDenied: bool)

  const InitialFlags := CallFlags("", false, false, false, false)

  /** `!rId || rId.trim() === ""`. */
  predicate IsBlankId(rId: string) {
    rId == "" || Trim(rId) == ""
  }

  /** How `startCall` continues. */
  datatype StartOutcome =
    | BlankId      // "Please enter a valid Access ID", nothing else happens
    | Unavailable  // the room is missing or ended; nothing else happens
    | AwaitHost    // `isWaiting` is set and a waiting request is written
    | HostNow      // straight to `proceed(rId, true)`

  /** The decision `startCall` takes, given the room document a non-host reads (`None` when it does not exist). */
  function StartOutcomeOf(rId: string, hostStatus: bool, room: Option<RoomDoc>): StartOutcome {
    if IsBlankId(rId) then BlankId
    else if hostStatus then HostNow
    else if room.None? || room.value.active == Some(false) then Unavailable
    else AwaitHost
  }

  /**
   * A blank id is one made only of whitespace, and it is refused before
   * anything else; a host then always proceeds; a participant is refused
   * exactly when the room is missing or ended, and a room whose `active`
   * field is absent is not refused.
   */
  lemma StartOutcomeRule(rId: string, hostStatus: bool, room: Option<RoomDoc>)
    ensures var o := StartOutcomeOf(rId, hostStatus, room);
      && (o == BlankId <==> AllWhitespace(rId))
      && (o == HostNow <==> !AllWhitespace(rId) && hostStatus)
      && (o == Unavailable <==>
            !AllWhitespace(rId) && !hostStatus && (room.None? || room.value.active == Some(false)))
      && (o == AwaitHost <==>
            !AllWhitespace(rId) && !hostStatus && room.Some? && room.value.active != Some(false))
  {
    BlankIffAllWhitespace(rId);
  }

  /** The requester's own request `{id, status: "waiting"}`, a full overwrite. */
  function WaitingRequestWrite(room: string, self: Id): Write {
    Write(SetDoc, RequestPath(room, self), RequestFields(RequestDoc(self, "waiting")))
  }

  /** What the requester does with `snap.data()?.status`. */
  datatype Reaction = Admit | Deny | Ignore

  function ReactionTo(status: Option<string>): Reaction {
    if status == Some("accepted") then Admit
    else if status == Some("rejected") then Deny
    else Ignore
  }

  /** The flags after `proceed` (`mediaOk`: whether `getUserMedia` succeeded). */
  function AfterProceed(f: CallFlags, rId: string, hostStatus: bool, mediaOk: bool): CallFlags {
    if mediaOk then f.(roomId := rId, isCalling := true, isHost := hostStatus) else f
  }

  /** The flags after the requester observes its request's status. */
  function AfterStatus(f: CallFlags, room: string, status: Option<string>, mediaOk: bool): CallFlags {
    match ReactionTo(status)
    case Admit => AfterProceed(f.(isWaiting := false), room, false, mediaOk)
    case Deny => f.(isWaiting := false, isDenied := true)
    case Ignore => f
  }

  /**
   * `accepted` ends the wait and, when the media opens, starts the call as a
   * non-host in that room; `rejected` ends the wait in the denied state and
   * observing it again changes nothing; any other status changes nothing.
   */
  lemma AdmissionTransitions(f: CallFlags, room: string, status: Option<string>, mediaOk: bool, mediaOk': bool)
    ensures status == Some("accepted") ==>
      var g := AfterStatus(f, room, status, mediaOk);
      !g.isWaiting && g.isDenied == f.isDenied
      && (mediaOk ==> g.isCalling && g.roomId == room && !g.isHost)
      && (!mediaOk ==> g == f.(isWaiting := false))
    ensures status == Some("rejected") ==>
      var g := AfterStatus(f, room, status, mediaOk);
      g == f.(isWaiting := false, isDenied := true) && AfterStatus(g, room, status, mediaOk') == g
    ensures status != Some("accepted") && status != Some("rejected") ==>
      AfterStatus(f, room, status, mediaOk) == f
  {
  }

  /** `s.docs.map(d => d.data()).filter(r => r.status === "waiting")`. */
  function WaitingRequests(docs: seq<RequestDoc>): (r: seq<RequestDoc>)
    ensures |r| <= |docs|
    ensures forall x :: x in r <==> x in docs && x.status == "waiting"
    decreases |docs|
  {
    if docs == [] then []
    else (if docs[0].status == "waiting" then [docs[0]] else []) + WaitingRequests(docs[1..])
  }

  /** The filter keeps snapshot order: it distributes over concatenation. */
  lemma {:induction false} WaitingRequestsAppend(a: seq<RequestDoc>, b: seq<RequestDoc>)
    ensures WaitingRequests(a + b) == WaitingRequests(a) + WaitingRequests(b)
    decreases |a|
  {
    if a == [] {
      assert a + b == b;
    } else {
      assert (a + b)[0] == a[0] && (a + b)[1..] == a[1..] + b;
      WaitingRequestsAppend(a[1..], b);
    }
  }

  /** The status the host's Allow or Deny button writes. */
  function DecisionStatus(allow: bool): string {
    if allow then "accepted" else "rejected"
  }

  /** `updateDoc(requests/<id>, {status})`: the only write of the host's buttons. */
  function DecisionWrite(room: string, id: Id, allow: bool): Write {
    Write(UpdateDoc, RequestPath(room, id), StatusField(DecisionStatus(allow)))
  }

  /** The requests collection after the host's update of request `id`. */
  function WithStatus(docs: seq<RequestDoc>, id: Id, status: string): (r: seq<RequestDoc>)
    ensures |r| == |docs|
    ensures forall i :: 0 <= i < |docs| ==> r[i] == if docs[i].id == id then docs[i].(status := status) else docs[i]
    decreases |docs|
  {
    if docs == [] then []
    else [if docs[0].id == id then docs[0].(status := status) else docs[0]] + WithStatus(docs[1..], id, status)
  }

  /**
   * Once the host's decision reaches the store, the request leaves the host's
   * waiting list, and only it: every other waiting request stays listed.
   */
  lemma DecisionLeavesWaitingList(docs: seq<RequestDoc>, id: Id, allow: bool)
    ensures var after := WaitingRequests(WithStatus(docs, id, DecisionStatus(allow)));
      && (forall x :: x in after ==> x.id != id)
      && (forall x :: x in WaitingRequests(docs) && x.id != id ==> x in after)
  {
    var after := WithStatus(docs, id, DecisionStatus(allow));
    forall x | x in WaitingRequests(docs) && x.id != id
      ensures x in after
    {
      var i :| 0 <= i < |docs| && docs[i] == x;
      assert after[i] == x;
    }
  }

  /**
   * The room-ended listener's condition: the room document exists with
   * `active === false`, and the client is not the host.
   */
  predicate MeetingEnded(snap: Option<RoomDoc>, hostStatus: bool) {
    !hostStatus && snap.Some? && snap.value.active == Some(false)
  }

  /**
   * The host's room record `{active: true, hostId, createdAt}` merged into
   * `calls/R`; the hook adds `isPrivate`, which nothing reads.
   */
  function HostRoomWrite(v: Variant, room: string, self: Id, isPrivate: bool): Write {
    Write(MergeDoc, RoomPath(room), RoomFields(true, self, if v == Hook then Some(isPrivate) else None))
  }

  /** The own participant record `{joined: true, isMicMuted: false, isVideoOff: false, isHost}`. */
  function JoinWrite(room: string, self: Id, hostStatus: bool): Write {
    Write(SetDoc, ParticipantPath(room, self), ParticipantFields(ParticipantDoc(true, false, false, hostStatus)))
  }

  /** Everything `proceed` writes, in order; nothing when the media could not be opened. */
  function ProceedWrites(v: Variant, room: string, self: Id, hostStatus: bool, isPrivate: bool, mediaOk: bool): seq<Write> {
    if !mediaOk then []
    else (if hostStatus then [HostRoomWrite(v, room, self, isPrivate)] else []) + [JoinWrite(room, self, hostStatus)]
  }
}
