/**
 * One client's call session: the state the page keeps in React state and
 * refs, and one method per event that can reach it (a button, a listener
 * delivery, a connection callback). Each method states its whole new state
 * through the pure rules of the other modules; `Valid` is the invariant every
 * event keeps.
 *
 * Everything the page writes to the store is appended to `writes`; every
 * notification it shows is appended to `notices`; `listeners` holds the
 * `onSnapshot` subscriptions it has opened (those of each connection are
 * implied by its entry in `pcs`).
 */
module Session {
  import opened Ids
  import opened Relay
  import opened Negotiation
  import opened Presence
  import opened Admission
  import opened LocalState

  /** The notifications of `showNotification`. */
  datatype Notice =
    | InvalidAccessId      // "Please enter a valid Access ID to join"
    | MeetingUnavailable   // "Invalid ID ! OR Meeting has ended"
    | MediaDenied          // "Camera/Mic access denied"
    | MeetingEndedByHost   // "Meeting ended by Host."

  /** The session-level subscriptions. */
  datatype Listener =
    | OwnRequest(room: string)                  // the requester's request document
    | RequestsOf(room: string)                  // the host's requests collection
    | RoomOf(room: string, hostStatus: bool)    // the room document
    | ParticipantsOf(room: string)              // the participants collection

  /** The subscriptions `proceed` opens once the media is open. */
  function ProceedListeners(rId: string, hostStatus: bool, mediaOk: bool): set<Listener> {
    if !mediaOk then {}
    else (if hostStatus then {RequestsOf(rId)} else {}) + {RoomOf(rId, hostStatus), ParticipantsOf(rId)}
  }

  function ProceedNotices(mediaOk: bool): seq<Notice> {
    if mediaOk then [] else [MediaDenied]
  }

  function MediaAfterProceed(m: Media, mediaOk: bool): Media {
    if mediaOk then Opened(m) else m
  }

  class CallSession {
    const self: Id
    const variant: Variant
    var call: CallFlags
    var media: Media
    var joinRequests: seq<RequestDoc>
    var draft: string
    var pcs: map<Id, Conn>
    var remoteStreams: map<Id, Stream>
    var participantsInfo: map<Id, ParticipantDoc>
    var created: seq<Id>
    var closed: seq<Id>
    var listeners: set<Listener>
    var writes: seq<Write>
    var notices: seq<Notice>

    /** The peer registry as one value. */
    function Peers(): Registry
      reads this`pcs, this`remoteStreams, this`participantsInfo, this`created, this`closed
    {
      Registry(pcs, remoteStreams, participantsInfo, created, closed)
    }

    /**
     * `Valid` is the invariant every event keeps, in two halves with disjoint
     * frames. Each method below requires and ensures the halves its
     * `modifies` clause touches; the other half it keeps because it does not
     * write a field that half reads.
     */
    ghost predicate Valid()
      reads this`pcs, this`remoteStreams, this`participantsInfo, this`created, this`closed
      reads this`joinRequests, this`call, this`media
    {
      PeersValid() && FlagsValid()
    }

    /** The registry invariant of the peer state. */
    ghost predicate PeersValid()
      reads this`pcs, this`remoteStreams, this`participantsInfo, this`created, this`closed
    {
      Inv(self, Peers())
    }

    /** The host's list holds waiting requests only; a calling client has its media. */
    ghost predicate FlagsValid()
      reads this`joinRequests, this`call, this`media
    {
      && (forall r :: r in joinRequests ==> r.status == "waiting")
      && (call.isCalling ==> media.hasStream)
    }

    constructor (self: Id, variant: Variant)
      ensures Valid()
      ensures this.self == self && this.variant == variant
      ensures call == InitialFlags && media == NoMedia && joinRequests == [] && draft == ""
      ensures Peers() == EmptyRegistry && listeners == {} && writes == [] && notices == []
    {
      this.self := self;
      this.variant := variant;
      call := InitialFlags;
      media := NoMedia;
      joinRequests := [];
      draft := "";
      pcs := map[];
      remoteStreams := map[];
      participantsInfo := map[];
      created := [];
      closed := [];
      listeners := {};
      writes := [];
      notices := [];
    }

    /**
     * `proceed(rId, hostStatus[, isPrivate])`; `mediaOk` says whether
     * `getUserMedia` granted a stream. Without one only the notification
     * appears; with one the session starts and the writes and subscriptions
     * of a host or a participant are made.
     */
    method Proceed(rId: string, hostStatus: bool, isPrivate: bool, mediaOk: bool)
      requires FlagsValid()
      modifies this`call, this`media, this`listeners, this`writes, this`notices
      ensures FlagsValid()
      ensures call == AfterProceed(old(call), rId, hostStatus, mediaOk)
      ensures media == MediaAfterProceed(old(media), mediaOk)
      ensures listeners == old(listeners) + ProceedListeners(rId, hostStatus, mediaOk)
      ensures writes == old(writes) + ProceedWrites(variant, rId, self, hostStatus, isPrivate, mediaOk)
      ensures notices == old(notices) + ProceedNotices(mediaOk)
    {
      if !mediaOk {
        Notify(MediaDenied);
        return;
      }
      media := Opened(media);
      call := call.(isCalling := true, isHost := hostStatus, roomId := rId);
      if hostStatus {
        writes := writes + [HostRoomWrite(variant, rId, self, isPrivate)];
        listeners := listeners + {RequestsOf(rId)};
      }
      writes := writes + [JoinWrite(rId, self, hostStatus)];
      listeners := listeners + {RoomOf(rId, hostStatus), ParticipantsOf(rId)};
    }

    /**
     * The page's `startCall`; `room` is what `getDoc` returns to a non-host.
     * A blank id or an unavailable room only raises a notification; a
     * participant then writes its waiting request and listens to it; a host
     * proceeds at once.
     */
    method StartCall(rId: string, hostStatus: bool, room: Option<RoomDoc>, mediaOk: bool)
      requires FlagsValid() && variant == Page
      modifies this`call, this`media, this`listeners, this`writes, this`notices
      ensures FlagsValid()
      ensures var o := StartOutcomeOf(rId, hostStatus, room);
        && (o == BlankId || o == Unavailable ==>
              && call == old(call) && media == old(media)
              && listeners == old(listeners) && writes == old(writes)
              && notices == old(notices) + [if o == BlankId then InvalidAccessId else MeetingUnavailable])
        && (o == AwaitHost ==>
              && call == old(call).(isWaiting := true) && media == old(media)
              && listeners == old(listeners) + {OwnRequest(rId)}
              && writes == old(writes) + [WaitingRequestWrite(rId, self)]
              && notices == old(notices))
        && (o == HostNow ==>
              && call == AfterProceed(old(call), rId, true, mediaOk)
              && media == MediaAfterProceed(old(media), mediaOk)
              && listeners == old(listeners) + ProceedListeners(rId, true, mediaOk)
              && writes == old(writes) + ProceedWrites(Page, rId, self, true, false, mediaOk)
              && notices == old(notices) + ProceedNotices(mediaOk))
    {
      if IsBlankId(rId) {
        Notify(InvalidAccessId);
        return;
      }
      if !hostStatus {
        if room.None? || room.value.active == Some(false) {
          Notify(MeetingUnavailable);
          return;
        }
        RequestAdmission(rId);
      } else {
        Proceed(rId, true, false, mediaOk);
      }
    }

    /** `showNotification`. */
    method Notify(n: Notice)
      modifies this`notices
      ensures notices == old(notices) + [n]
    {
      notices := notices + [n];
    }

    /**
     * A participant's permission request: it waits, writes its request and
     * listens to it.
     */
    method RequestAdmission(rId: string)
      requires FlagsValid()
      modifies this`call, this`writes, this`listeners
      ensures FlagsValid()
      ensures call == old(call).(isWaiting := true)
      ensures writes == old(writes) + [WaitingRequestWrite(rId, self)]
      ensures listeners == old(listeners) + {OwnRequest(rId)}
    {
      call := call.(isWaiting := true);
      writes := writes + [WaitingRequestWrite(rId, self)];
      listeners := listeners + {OwnRequest(rId)};
    }

    /**
     * A delivery of the requester's own request document: `accepted` ends the
     * wait and proceeds as a participant, `rejected` ends it denied, anything
     * else is ignored.
     */
    method OnRequestStatus(rId: string, status: Option<string>, mediaOk: bool)
      requires FlagsValid() && OwnRequest(rId) in listeners
      modifies this`call, this`media, this`listeners, this`writes, this`notices
      ensures FlagsValid()
      ensures call == AfterStatus(old(call), rId, status, mediaOk)
      ensures ReactionTo(status) == Admit ==>
        && media == MediaAfterProceed(old(media), mediaOk)
        && listeners == old(listeners) + ProceedListeners(rId, false, mediaOk)
        && writes == old(writes) + ProceedWrites(variant, rId, self, false, false, mediaOk)
        && notices == old(notices) + ProceedNotices(mediaOk)
      ensures ReactionTo(status) != Admit ==>
        media == old(media) && listeners == old(listeners) && writes == old(writes) && notices == old(notices)
    {
      if status == Some("accepted") {
        call := call.(isWaiting := false);
        Proceed(rId, false, false, mediaOk);
      }
      if status == Some("rejected") {
        call := call.(isWaiting := false, isDenied := true);
      }
    }

    /** The host's requests listener: the list shown is the waiting requests of the snapshot. */
    method OnRequestsSnapshot(rId: string, docs: seq<RequestDoc>)
      requires FlagsValid() && RequestsOf(rId) in listeners
      modifies this`joinRequests
      ensures FlagsValid()
      ensures joinRequests == WaitingRequests(docs)
    {
      joinRequests := WaitingRequests(docs);
    }

    /**
     * The Allow and Deny buttons, shown to a host for each listed request: one
     * status update of that request. The list itself waits for the next
     * snapshot, so the request stays listed until then.
     */
    method AnswerRequest(r: RequestDoc, allow: bool)
      requires variant == Page && call.isHost && r in joinRequests
      modifies this`writes
      ensures writes == old(writes) + [DecisionWrite(call.roomId, r.id, allow)]
    {
      writes := writes + [DecisionWrite(call.roomId, r.id, allow)];
    }

    /** The room-document listener: a non-host is told when the host ended the meeting. */
    method OnRoomSnapshot(rId: string, hostStatus: bool, snap: Option<RoomDoc>)
      requires RoomOf(rId, hostStatus) in listeners
      modifies this`notices
      ensures notices == old(notices) + (if MeetingEnded(snap, hostStatus) then [MeetingEndedByHost] else [])
    {
      if snap.Some? && snap.value.active == Some(false) && !hostStatus {
        Notify(MeetingEndedByHost);
      }
    }

    /**
     * One entry of the participants listener: a removal closes and forgets
     * the peer; an entry for another participant records its status and, when
     * it is new, creates its connection with the offerer rule's role.
     */
    method ApplyEntry(rId: string, ch: PeerChange)
      modifies this`pcs, this`remoteStreams, this`participantsInfo, this`created, this`closed
      ensures Peers() == ApplyChange(variant, rId, self, old(Peers()), ch)
    {
      if ch.kind == Removed {
        if ch.id in pcs {
          closed := closed + [ch.id];
          pcs := pcs - {ch.id};
        }
        remoteStreams := remoteStreams - {ch.id};
        participantsInfo := participantsInfo - {ch.id};
      }
      if ch.id != self && (variant == Page || ch.kind != Removed) {
        participantsInfo := participantsInfo[ch.id := ch.data];
        if ch.kind == Added && ch.id !in pcs {
          var isOfferer := Less(ch.id, self);
          pcs := pcs[ch.id := NewConn(rId, self, ch.id, isOfferer)];
          created := created + [ch.id];
        }
      }
    }

    /** The participants listener: the entries of one `docChanges()` batch, in order. */
    method OnParticipantsSnapshot(rId: string, changes: seq<PeerChange>)
      requires PeersValid() && ParticipantsOf(rId) in listeners
      modifies this`pcs, this`remoteStreams, this`participantsInfo, this`created, this`closed
      ensures PeersValid()
      ensures Peers() == ApplyChanges(variant, rId, self, old(Peers()), changes)
    {
      var i := 0;
      while i < |changes|
        invariant 0 <= i <= |changes|
        invariant Peers() == ApplyChanges(variant, rId, self, old(Peers()), changes[..i])
        invariant PeersValid()
      {
        ApplyChangeInv(variant, rId, self, Peers(), changes[i]);
        ApplyEntry(rId, changes[i]);
        assert changes[..i + 1][..i] == changes[..i];
        i := i + 1;
      }
      assert changes[..i] == changes;
    }

    /** `ontrack` of the connection to `peer`. */
    method HandleTrack(peer: Id, s: Stream)
      requires PeersValid()
      modifies this`remoteStreams
      ensures PeersValid()
      ensures Peers() == Presence.OnTrack(old(Peers()), peer, s)
    {
      OnTrackInv(self, Peers(), peer, s);
      if peer in pcs {
        remoteStreams := remoteStreams[peer := s];
      }
    }

    /** `onnegotiationneeded` of the connection to `peer`, with the offer `createOffer` gives. */
    method HandleNegotiationNeeded(peer: Id, offer: Desc)
      requires PeersValid()
      modifies this`pcs, this`writes
      ensures PeersValid()
      ensures peer in old(pcs) ==>
        var st := Negotiation.OnNegotiationNeeded(old(pcs)[peer], offer);
        pcs == old(pcs)[peer := st.conn] && writes == old(writes) + st.out
      ensures peer !in old(pcs) ==> pcs == old(pcs) && writes == old(writes)
    {
      if peer in pcs {
        var st := Negotiation.OnNegotiationNeeded(pcs[peer], offer);
        UpdateConnInv(self, Peers(), peer, st.conn);
        pcs := pcs[peer := st.conn];
        writes := writes + st.out;
      }
    }

    /** A delivery of the PeerLink document to the connection to `peer`. */
    method HandleLinkSnapshot(peer: Id, data: Option<LinkDoc>, answer: Desc)
      requires PeersValid()
      modifies this`pcs, this`writes
      ensures PeersValid()
      ensures peer in old(pcs) ==>
        var st := OnLinkSnapshot(old(pcs)[peer], data, answer);
        pcs == old(pcs)[peer := st.conn] && writes == old(writes) + st.out
      ensures peer !in old(pcs) ==> pcs == old(pcs) && writes == old(writes)
    {
      if peer in pcs {
        var st := OnLinkSnapshot(pcs[peer], data, answer);
        UpdateConnInv(self, Peers(), peer, st.conn);
        pcs := pcs[peer := st.conn];
        writes := writes + st.out;
      }
    }

    /**
     * The inbound candidate listener of the connection to `peer`: one batch
     * of the collection `source`, entry by entry. The batch reaches the
     * connection only when `source` is the collection its listener subscribes
     * to. All added candidates are then applied, in order, when a remote
     * description is set; none otherwise.
     */
    method HandleIceSnapshot(source: Path, peer: Id, changes: seq<IceChange>)
      requires PeersValid()
      modifies this`pcs
      ensures PeersValid()
      ensures peer in old(pcs) && source == InboundIcePath(self, old(pcs)[peer]) ==>
        && pcs == old(pcs)[peer := OnIceChanges(old(pcs)[peer], changes)]
        && pcs[peer].applied == old(pcs)[peer].applied + (if old(pcs)[peer].remote.Some? then AddedCandidates(changes) else [])
      ensures peer !in old(pcs) || source != InboundIcePath(self, old(pcs)[peer]) ==> pcs == old(pcs)
    {
      if peer !in pcs || source != InboundIcePath(self, pcs[peer]) {
        return;
      }
      var i := 0;
      while i < |changes|
        invariant 0 <= i <= |changes|
        invariant pcs == old(pcs)[peer := OnIceChanges(old(pcs)[peer], changes[..i])]
      {
        var c := pcs[peer];
        if changes[i].kind == Added && c.remote.Some? {
          pcs := pcs[peer := c.(applied := c.applied + [changes[i].candidate])];
        }
        assert changes[..i + 1][..i] == changes[..i];
        i := i + 1;
      }
      assert changes[..i] == changes;
      CandidateBatch(old(pcs)[peer], changes);
      UpdateConnInv(self, old(Peers()), peer, OnIceChanges(old(pcs)[peer], changes));
    }

    /** `onicecandidate` of the connection to `peer` (`None`: the end-of-candidates event). */
    method HandleLocalCandidate(peer: Id, cand: Option<Candidate>)
      modifies this`writes
      ensures writes == old(writes) + (if peer in pcs then LocalCandidateWrites(self, pcs[peer], cand) else [])
    {
      if peer in pcs {
        writes := writes + LocalCandidateWrites(self, pcs[peer], cand);
      }
    }

    /** The page's `toggleMic`. */
    method ToggleMic()
      requires FlagsValid() && variant == Page
      modifies this`media, this`writes
      ensures FlagsValid()
      ensures media == LocalState.ToggleMic(old(media))
      ensures writes == old(writes) + ToggleMicWrites(old(media), call.roomId, self)
    {
      if media.hasStream {
        var newState := !media.audioEnabled;
        media := media.(audioEnabled := newState, isMicMuted := !newState);
        writes := writes + MediaStatusWrites(call.roomId, self, !newState, media.isVideoOff);
      }
    }

    /** The page's `toggleVideo`. */
    method ToggleVideo()
      requires FlagsValid() && variant == Page
      modifies this`media, this`writes
      ensures FlagsValid()
      ensures media == LocalState.ToggleVideo(old(media))
      ensures writes == old(writes) + ToggleVideoWrites(old(media), call.roomId, self)
    {
      if media.hasStream {
        var newState := !media.videoEnabled;
        media := media.(videoEnabled := newState, isVideoOff := !newState);
        writes := writes + MediaStatusWrites(call.roomId, self, media.isMicMuted, !newState);
      }
    }

    /** The hook's exported `updateMediaStatus(mic, cam, rId)`. */
    method UpdateMediaStatus(mic: bool, cam: bool, rId: string)
      modifies this`writes
      ensures writes == old(writes) + MediaStatusWrites(rId, self, mic, cam)
    {
      if rId != "" {
        writes := writes + [Write(UpdateDoc, ParticipantPath(rId, self), MediaFields(mic, cam))];
      }
    }

    /** Typing in the chat box. */
    method EditDraft(text: string)
      requires variant == Page
      modifies this`draft
      ensures draft == text
    {
      draft := text;
    }

    /**
     * The page's `sendMessage(e, emoji)`: a sent message is written and clears
     * the draft; a refused one changes nothing.
     */
    method SendMessage(emoji: Option<string>)
      requires variant == Page
      modifies this`writes, this`draft
      ensures var w := ChatWrite(ChatText(emoji, old(draft)), call.roomId, self, call.isHost);
        && writes == old(writes) + (if w.Some? then [w.value] else [])
        && draft == (if w.Some? then "" else old(draft))
    {
      var w := ChatWrite(ChatText(emoji, draft), call.roomId, self, call.isHost);
      if w.Some? {
        writes := writes + [w.value];
        draft := "";
      }
    }

    /** The page's `leaveCall`, offered while calling. */
    method LeaveCall()
      requires variant == Page && call.isCalling
      modifies this`writes
      ensures writes == old(writes) + LeaveWrites(call.roomId, self, call.isHost)
    {
      if call.isHost {
        writes := writes + [Write(UpdateDoc, RoomPath(call.roomId), RoomActive(false))];
      }
      writes := writes + [Write(DeleteDoc, ParticipantPath(call.roomId, self), NoFields)];
    }
  }
}
