/**
 * The page's small local-state rules: the microphone and camera toggles and
 * the status write they issue, the chat send guard, and the writes of
 * leaving a call.
 */
module LocalState {
  import opened Ids
  import opened Text
  import opened Relay
  import Admission

  /**
   * The local media: whether `stream` is set, the `enabled` flags of its audio
   * and video tracks, and the `isMicMuted` and `isVideoOff` state.
   */
  datatype Media = Media(hasStream: bool, audioEnabled: bool, videoEnabled: bool, isMicMuted: bool, isVideoOff: bool)

  const NoMedia := Media(false, false, false, false, false)

  /**
   * The media after `getUserMedia` hands `proceed` a new stream: its tracks
   * start enabled; the muted and camera-off flags are left as they were.
   */
  function Opened(m: Media): Media {
    m.(hasStream := true, audioEnabled := true, videoEnabled := true)
  }

  /** The flags show what the tracks do. */
  predicate Consistent(m: Media) {
    m.isMicMuted == !m.audioEnabled && m.isVideoOff == !m.videoEnabled
  }

  /** `updateMediaStatus(mic, cam)`: an update of the own participant record, skipped without a room. */
  function MediaStatusWrites(roomId: string, self: Id, mic: bool, cam: bool): seq<Write> {
    if roomId == "" then [] else [Write(UpdateDoc, ParticipantPath(roomId, self), MediaFields(mic, cam))]
  }

  /** `toggleMic`: flips the audio track and sets `isMicMuted` to the opposite of its new state. */
  function ToggleMic(m: Media): Media {
    if !m.hasStream then m
    else
      var newState := !m.audioEnabled;
      m.(audioEnabled := newState, isMicMuted := !newState)
  }

  /** The status write of `toggleMic`: the new muted flag and the current camera flag. */
  function ToggleMicWrites(m: Media, roomId: string, self: Id): seq<Write> {
    if !m.hasStream then [] else MediaStatusWrites(roomId, self, m.audioEnabled, m.isVideoOff)
  }

  /** `toggleVideo`: flips the video track and sets `isVideoOff` to the opposite of its new state. */
  function ToggleVideo(m: Media): Media {
    if !m.hasStream then m
    else
      var newState := !m.videoEnabled;
      m.(videoEnabled := newState, isVideoOff := !newState)
  }

  /** The status write of `toggleVideo`: the current muted flag and the new camera flag. */
  function ToggleVideoWrites(m: Media, roomId: string, self: Id): seq<Write> {
    if !m.hasStream then [] else MediaStatusWrites(roomId, self, m.isMicMuted, m.videoEnabled)
  }

  /**
   * Without a stream a toggle does nothing and writes nothing. With one, it
   * flips its track, the local flag becomes the negation of the track's new
   * state, the other kind of media is untouched, and the write (when there is
   * a room) reports exactly the new local flags.
   */
  lemma ToggleMicRule(m: Media, roomId: string, self: Id)
    ensures !m.hasStream ==> ToggleMic(m) == m && ToggleMicWrites(m, roomId, self) == []
    ensures m.hasStream ==>
      var m' := ToggleMic(m);
      && m'.audioEnabled == !m.audioEnabled && m'.isMicMuted == !m'.audioEnabled
      && m'.videoEnabled == m.videoEnabled && m'.isVideoOff == m.isVideoOff && m'.hasStream
      && ToggleMicWrites(m, roomId, self) == MediaStatusWrites(roomId, self, m'.isMicMuted, m'.isVideoOff)
  {
  }

  lemma ToggleVideoRule(m: Media, roomId: string, self: Id)
    ensures !m.hasStream ==> ToggleVideo(m) == m && ToggleVideoWrites(m, roomId, self) == []
    ensures m.hasStream ==>
      var m' := ToggleVideo(m);
      && m'.videoEnabled == !m.videoEnabled && m'.isVideoOff == !m'.videoEnabled
      && m'.audioEnabled == m.audioEnabled && m'.isMicMuted == m.isMicMuted && m'.hasStream
      && ToggleVideoWrites(m, roomId, self) == MediaStatusWrites(roomId, self, m'.isMicMuted, m'.isVideoOff)
  {
  }

  /**
   * Toggling twice restores the track; when the flags matched the tracks it
   * restores the whole media state, and toggles keep them matching. A new
   * stream after a mute breaks the match: its track is enabled while
   * `isMicMuted` stays true.
   */
  lemma ToggleTwice(m: Media)
    ensures ToggleMic(ToggleMic(m)).audioEnabled == m.audioEnabled
    ensures ToggleVideo(ToggleVideo(m)).videoEnabled == m.videoEnabled
    ensures Consistent(m) ==> ToggleMic(ToggleMic(m)) == m && ToggleVideo(ToggleVideo(m)) == m
    ensures Consistent(m) ==> Consistent(ToggleMic(m)) && Consistent(ToggleVideo(m))
    ensures m.isMicMuted ==> !Consistent(Opened(m))
  {
  }

  /** `emoji || newMessage`. */
  function ChatText(emoji: Option<string>, draft: string): string {
    if emoji.Some? && emoji.value != "" then emoji.value else draft
  }

  /** `sendMessage`'s write, if it sends. */
  function ChatWrite(text: string, roomId: string, self: Id, isHost: bool): Option<Write> {
    if Trim(text) == "" || roomId == "" then None
    else Some(Write(AddDoc, MessagesPath(roomId), MessageFields(text, self, if isHost then "Host" else "Participant")))
  }

  /**
   * A message is appended exactly when the text is not blank and a room is
   * set; it carries the text untrimmed, the sender id and "Host" or
   * "Participant".
   */
  lemma ChatWriteRule(text: string, roomId: string, self: Id, isHost: bool)
    ensures var r := ChatWrite(text, roomId, self, isHost);
      && (r.Some? <==> !AllWhitespace(text) && roomId != "")
      && (r.Some? ==>
            && r.value.kind == AddDoc && r.value.path == MessagesPath(roomId)
            && r.value.data == MessageFields(text, self, if isHost then "Host" else "Participant"))
  {
    BlankIffAllWhitespace(text);
  }

  /**
   * `leaveCall`: a host first marks the room inactive, then every client deletes
   * its own participant record.
   */
  function LeaveWrites(roomId: string, self: Id, isHost: bool): seq<Write> {
    (if isHost then [Write(UpdateDoc, RoomPath(roomId), RoomActive(false))] else [])
    + [Write(DeleteDoc, ParticipantPath(roomId, self), NoFields)]
  }

  /** What a write does to the room document (`None`: no document). */
  function RoomAfter(doc: Option<RoomDoc>, w: Write): Option<RoomDoc> {
    match w.data
    case RoomActive(a) => if w.kind == UpdateDoc && doc.Some? then Some(RoomDoc(Some(a))) else doc
    case RoomFields(a, _, _) => if w.kind == MergeDoc then Some(RoomDoc(Some(a))) else doc
    case _ => doc
  }

  /**
   * A host leaving an existing room ends the meeting for every non-host
   * listener and for no host listener; a non-host leaving leaves the room
   * document alone. Either way the last write deletes the leaver's own record.
   */
  lemma LeaveEndsMeetingOnlyForHost(roomId: string, self: Id, isHost: bool, room: RoomDoc)
    ensures var ws := LeaveWrites(roomId, self, isHost);
      && ws[|ws| - 1] == Write(DeleteDoc, ParticipantPath(roomId, self), NoFields)
      && (isHost ==>
            Admission.MeetingEnded(RoomAfter(Some(room), ws[0]), false)
            && !Admission.MeetingEnded(RoomAfter(Some(room), ws[0]), true))
      && (!isHost ==> |ws| == 1 && RoomAfter(Some(room), ws[0]) == Some(room))
  {
  }
}
