# Video-chat signalling and session logic

This project models the client of a browser video-chat application. Peers
meet in a room kept in a Firestore store. They negotiate WebRTC connections
by relaying offers, answers and ICE candidates through the store, and a host
admits participants. The model covers two source files:
- `src/pages/VideoChat.jsx`, the page component;
- `src/hooks/useWebRTC.js`, a refactored hook that repeats most of the page's logic.

Each handler runs as one atomic transition:
- a Firestore write becomes a recorded `Write` value (`Relay.Write`);
- a snapshot delivery becomes a handler argument;
- `getUserMedia` becomes a success flag;
- session descriptions, candidates and streams are opaque tokens.

Modules, in dependency order:

- `Ids`: the participant-id order behind the offerer rule `self > peer` (JavaScript string comparison), and its strict total order.
- `Text`: JavaScript `trim` and the blank-string test it gives.
- `Relay`: the store's documents and paths, the PeerLink document of a pair of peers, and the effect of a write on that document.
- `Negotiation`: one peer connection, written as a datatype value, with the handlers `createPeer` and `handleSignaling` attach to it. These are `onnegotiationneeded`, the PeerLink listener, and the outbound and inbound candidate handlers.
- `Presence`: the peer registry and the participants listener. The registry is `pcs`, `remoteStreams` and `participantsInfo`, plus logs of connections created and closed. `Variant = Page | Hook` selects the page's plain `if` or the hook's `else if` after a removal.
- `Admission`: the decision `startCall` takes, the requester's reaction to the host's answer, the host's list of waiting requests and its Allow/Deny writes, and the writes of `proceed`.
- `LocalState`: the microphone and camera toggles, the chat send guard, and leaving a call.
- `Session`: the class `CallSession`, one object per client. Each field is a piece of React state or the `pcs` ref. Each method is one event: a button, a listener delivery or a connection callback. Its `ensures` give the whole new state in terms of the pure functions above. `Valid` is the invariant every event keeps, split into a registry half and a flags half.

The page and the hook differ in three places:
- After a `removed` entry, the page falls through to the presence update and stores the removed document's data again; the hook does not (`Presence.VariantsAgreeButForRemovedInfo`).
- The page's candidate guard also tests `remoteDescription.type`. A browser's session description always has a non-empty `RTCSdpType`, so the model leaves that extra test out and the two guards coincide. `Relay.Desc.sdpType` itself is not constrained.
- Only the hook writes `isPrivate` into the room document (`Admission.HostRoomWrite`). Nothing reads that field.

Where the code departs from the usual signalling and admission behaviour (early candidates buffered, public rooms skipping the wait, denial final), the model follows the code:
- **Early candidates:** they are dropped, not buffered, and are never applied later (`Negotiation.EarlyCandidateLost`).
- **Public rooms:** they do not skip the waiting state, because `isPrivate` is never read.
- **Denial is not final:** the host's request list changes only with the next snapshot, so until then a decided request stays listed and the other button can still be clicked. An `accepted` that arrives after `rejected` still proceeds, with `isDenied` left true (`Admission.AdmissionTransitions`).
- **Re-observed `accepted`:** it calls `proceed` again each time.
- **Store paths:** rooms live under `calls/`, not `rooms/`.

## Model

| member | source | states |
|---|---|---|
| `Ids.LessIrreflexive` | src/pages/VideoChat.jsx:287 | No id is greater than itself, so a client never takes the offerer role against itself. |
| `Ids.LessAsymmetric` | src/pages/VideoChat.jsx:287 | Of two ids, at most one is greater than the other. |
| `Ids.LessTransitive` | src/pages/VideoChat.jsx:287 | The id order used for `myUserId.current > pId` is transitive. |
| `Ids.LessConnected` | src/pages/VideoChat.jsx:287 | Of two distinct ids, one is greater: the order is total. |
| `Ids.RoleAgreement` | src/hooks/useWebRTC.js:108 | For distinct ids exactly one side computes `isOfferer = true`; no client is its own offerer. |
| `Text.TrimStartRule` | src/pages/VideoChat.jsx:299 | Dropping leading whitespace keeps a suffix, removes only whitespace and stops at the first other character. |
| `Text.TrimEndRule` | src/pages/VideoChat.jsx:299 | Dropping trailing whitespace keeps a prefix, removes only whitespace and stops at the last other character. |
| `Text.TrimRule` | src/pages/VideoChat.jsx:112 | `trim` returns a contiguous slice of its input with no whitespace at either end. |
| `Text.BlankIffAllWhitespace` | src/pages/VideoChat.jsx:112 | `s.trim()` is empty exactly when every character of `s` is JavaScript whitespace. |
| `Relay.SharedPeerLink` | src/pages/VideoChat.jsx:174-180 | For distinct ids both clients choose the same PeerLink document, `participants/<greater>/peers/<smaller>`, whichever side computes it. |
| `Relay.PairLinksDistinct` | src/hooks/useWebRTC.js:52 | Two different pairs of peers never share a PeerLink document. |
| `Negotiation.OnLinkSnapshot` | src/pages/VideoChat.jsx:194-207 | Once a remote description is set, every later snapshot is ignored. Only the two descriptions of the connection can change. A new remote description is the counterpart the document carries (answer for the offerer, offer for the answerer), and it is taken as soon as the document carries one. The offerer never writes. The answerer writes exactly when it takes the offer, a single `updateDoc` of the answer it set as local description. |
| `Negotiation.RemoteSetAtMostOnce` | src/hooks/useWebRTC.js:60-71 | Over any run of snapshots the remote description is set at most once and never replaced. The answerer writes at most one answer and the offerer none. Role, document and applied candidates are untouched. |
| `Negotiation.CandidateBatch` | src/pages/VideoChat.jsx:155-166 | A candidate batch applies every `added` candidate, in arrival order, when a remote description is set, and none otherwise; nothing else about the connection changes. |
| `Negotiation.EarlyCandidateLost` | src/hooks/useWebRTC.js:40-46 | A candidate arriving before the remote description is discarded, and setting the remote description afterwards does not apply it. |
| `Negotiation.HandshakeCompletes` | src/pages/VideoChat.jsx:182-207 | Offerer and answerer of a pair exchange their descriptions through the shared document. Afterwards each side's remote description is the other's local one, and a candidate either side discovers is written to the collection the other side's inbound listener subscribes to. |
| `Negotiation.CandidateRouting` | src/pages/VideoChat.jsx:133-153 | The collection one client's connection writes its candidates to is the one another client's connection listens to exactly when they are connections to each other in the same room; a client never hears its own candidates. |
| `Presence.EmptyRegistryInv` | src/pages/VideoChat.jsx:64 | The empty registry satisfies the registry invariant. |
| `Presence.CreationRule` | src/pages/VideoChat.jsx:284-289 | A connection is created exactly for an `added` entry of another id that has none yet, with the offerer rule's role, and logged once. Otherwise no connection is replaced, and no entry but a removal closes one. |
| `Presence.RemovalTearsDown` | src/pages/VideoChat.jsx:268-285 | A `removed` entry closes and deletes the id's connection if present, deletes its stream, and creates nothing. The hook also deletes the cached status; the page re-stores the removed document's data for any id but self. |
| `Presence.PresenceUpdate` | src/hooks/useWebRTC.js:106-107 | An `added` or `modified` entry of another id records its document; any entry for self leaves the registry unchanged. |
| `Presence.VariantsAgreeButForRemovedInfo` | src/hooks/useWebRTC.js:102-108 | The page and the hook agree on every entry, except for the status the page re-stores after a removal of another id. |
| `Presence.ApplyChangeInv` | src/pages/VideoChat.jsx:264-292 | Every participants entry preserves the registry invariant: self is never registered; streams ⊆ connections ⊆ known participants; each connection has its key's peer, role and PeerLink document. |
| `Presence.ApplyChangesInv` | src/hooks/useWebRTC.js:99-111 | A whole batch of entries preserves the registry invariant. |
| `Presence.ApplyChangeIdempotent` | src/pages/VideoChat.jsx:264-292 | Handling an entry a second time changes nothing further. |
| `Presence.AtMostOneConnection` | src/hooks/useWebRTC.js:33-35 | Over entries that never remove `x`, `createPeer` runs for `x` at most once, and never when `x` already had a connection, which is then kept unchanged. |
| `Presence.SelfNeverConnected` | src/pages/VideoChat.jsx:284 | However the entries come, self never gets a connection and is never passed to `createPeer`. |
| `Presence.OnTrackInv` | src/pages/VideoChat.jsx:129-131 | `ontrack` stores the stream under the live connection's id and keeps the registry invariant. |
| `Presence.UpdateConnInv` | src/pages/VideoChat.jsx:126 | Replacing a connection's state while keeping its peer, role, room and document keeps the registry invariant. |
| `Admission.StartOutcomeRule` | src/pages/VideoChat.jsx:298-333 | A blank id is refused first. A host then always proceeds. A participant is refused exactly when the room is missing or `active === false`, and waits otherwise. |
| `Admission.AdmissionTransitions` | src/pages/VideoChat.jsx:317-327 | `accepted` ends the wait and, with media, starts the call as a non-host in that room. `rejected` ends the wait denied, and observing it again changes nothing. Any other status changes nothing. |
| `Admission.WaitingRequests` | src/pages/VideoChat.jsx:235-239 | The host's list holds exactly the request records whose status is `"waiting"`, and no more than the snapshot has. |
| `Admission.WaitingRequestsAppend` | src/hooks/useWebRTC.js:85-87 | The waiting filter keeps snapshot order: it distributes over concatenation. |
| `Admission.WithStatus` | src/pages/VideoChat.jsx:359-363 | Updating one request's status changes that record only, in place. |
| `Admission.DecisionLeavesWaitingList` | src/pages/VideoChat.jsx:359-376 | After Allow or Deny reaches the store, that request leaves the waiting list and every other waiting request stays. |
| `LocalState.ToggleMicRule` | src/pages/VideoChat.jsx:88-96 | Without a stream, `toggleMic` does nothing. With one, it flips the audio track, sets `isMicMuted` to the negation of the new state, leaves the camera alone, and writes those same flags when a room is set. |
| `LocalState.ToggleVideoRule` | src/pages/VideoChat.jsx:98-106 | The same for `toggleVideo` and the camera. |
| `LocalState.ToggleTwice` | src/pages/VideoChat.jsx:88-106 | Toggling twice restores the track. When flags and tracks matched, it restores the whole media state, and toggles keep them matching. A new stream after a mute breaks the match. |
| `LocalState.ChatWriteRule` | src/pages/VideoChat.jsx:109-122 | A message is written exactly when the text is not blank and a room is set. It carries the untrimmed text, the sender id and `Host`/`Participant`. |
| `LocalState.LeaveEndsMeetingOnlyForHost` | src/pages/VideoChat.jsx:335-342 | A host's leave marks the room inactive, which ends the meeting for non-host listeners only; a non-host's leave does not touch the room. Either way the last write deletes the leaver's record. |
| `Session.CallSession.constructor` | src/pages/VideoChat.jsx:41-66 | A new session is idle: no room, no media, no peers, no listeners, nothing written. |
| `Session.CallSession.Proceed` | src/hooks/useWebRTC.js:74-113 | Without media, only the denied notice appears. With media, the stream opens, the call starts in `rId` with the given host flag, and the room, join and listener setup of a host or participant is made. |
| `Session.CallSession.StartCall` | src/pages/VideoChat.jsx:298-333 | Blank id or unavailable room: one notice, nothing else. Otherwise a participant waits, writes its waiting request and listens to it; a host proceeds at once. |
| `Session.CallSession.Notify` | src/pages/VideoChat.jsx:68-71 | A notice is shown. |
| `Session.CallSession.RequestAdmission` | src/pages/VideoChat.jsx:313-317 | The participant waits, writes `{id, status: "waiting"}` and listens to its request. |
| `Session.CallSession.OnRequestStatus` | src/pages/VideoChat.jsx:317-327 | The flags follow `AfterStatus`; only `accepted` proceeds, as a participant. |
| `Session.CallSession.OnRequestsSnapshot` | src/hooks/useWebRTC.js:85-87 | The host's list becomes the waiting requests of the snapshot. |
| `Session.CallSession.AnswerRequest` | src/pages/VideoChat.jsx:359-376 | Allow/Deny on a listed request writes only `accepted`/`rejected` to that request, and nothing else. |
| `Session.CallSession.OnRoomSnapshot` | src/hooks/useWebRTC.js:92-97 | The meeting-ended notice appears exactly for a non-host when the room exists with `active === false`. |
| `Session.CallSession.ApplyEntry` | src/pages/VideoChat.jsx:265-290 | The in-place update of `pcs` and the state maps for one entry gives the registry that `ApplyChange` defines. |
| `Session.CallSession.OnParticipantsSnapshot` | src/hooks/useWebRTC.js:99-111 | The loop over `docChanges()` gives the registry that `ApplyChanges` defines, keeping the registry invariant. |
| `Session.CallSession.HandleTrack` | src/hooks/useWebRTC.js:37 | `ontrack` of a live connection stores its stream; the invariant is kept. |
| `Session.CallSession.HandleNegotiationNeeded` | src/pages/VideoChat.jsx:183-191 | A live connection takes the `onnegotiationneeded` step, and its writes are issued. |
| `Session.CallSession.HandleLinkSnapshot` | src/hooks/useWebRTC.js:60-71 | A live connection takes the PeerLink step (`OnLinkSnapshot`) and issues its writes, keeping the invariant. |
| `Session.CallSession.HandleIceSnapshot` | src/pages/VideoChat.jsx:145-168 | A candidate batch reaches a live connection only from the collection its inbound listener subscribes to; the loop then appends exactly the added candidates, in order, when a remote description is set, and none otherwise. Any other batch changes nothing. |
| `Session.CallSession.HandleLocalCandidate` | src/pages/VideoChat.jsx:141-143 | A discovered candidate is appended to the connection's outbound collection; the end-of-candidates event writes nothing. |
| `Session.CallSession.ToggleMic` | src/pages/VideoChat.jsx:88-96 | The media and the status write follow `LocalState.ToggleMic`. |
| `Session.CallSession.ToggleVideo` | src/pages/VideoChat.jsx:98-106 | The media and the status write follow `LocalState.ToggleVideo`. |
| `Session.CallSession.UpdateMediaStatus` | src/hooks/useWebRTC.js:27-31 | Writes the two flags to the own participant record, and nothing without a room id. |
| `Session.CallSession.EditDraft` | src/pages/VideoChat.jsx:544 | Typing replaces the draft. |
| `Session.CallSession.SendMessage` | src/pages/VideoChat.jsx:109-122 | A message that passes the guard is written and clears the draft; a refused one changes nothing. |
| `Session.CallSession.LeaveCall` | src/pages/VideoChat.jsx:335-342 | As a host, marks the room inactive first; always deletes the own participant record. |

## Left out

- Firestore itself is not modelled: writes are recorded, and each snapshot is a handler argument. Listeners are never cancelled in the source, and a method requires the listener it serves to exist. Server timestamps and `createdAt` are not recorded.
- A write that fails is not modelled. Each handler runs to completion before the next event, so interleaving across `await` points is not claimed safe. For example, a second PeerLink snapshot landing before `setRemoteDescription` resolves is not covered.
- `RTCPeerConnection` internals are left out: SDP contents, `createOffer`/`createAnswer`, ICE gathering, the STUN `servers` constant, track attachment, and errors of `addIceCandidate` or `setRemoteDescription`. Descriptions, candidates and streams are tokens, and the offer and answer the browser would create are handler parameters.
- Listeners of a closed connection stay attached in the source, but every call on a closed connection fails. The model delivers connection events only to the peer's current connection, and one for an id without a connection does nothing.
- `getUserMedia` is the `mediaOk` argument; the stream's track objects are the `Media` flags.
- Timers, `window.location.reload()`, toast display, scrolling, video-element binding and the chat-message listener (`setMessages`) are not modelled. These are presentation only.
- The hook's exported state setters (`setRoomId`, `setIsMicMuted` and the others) are not modelled. They let a caller overwrite state outside the handlers, and the repository has no caller of the hook.
- Random id generation is not modelled: the client id is a constructor argument. So is the host's auto-generated room id, which arrives as `StartCall`'s argument.
- `src/components/*.jsx`, `src/pages/Home.jsx`, `src/App.jsx` and `vite.config.js` are not part of this model. `JoinScreen.jsx`'s host button calls `startCall(null, true)`, which the blank-id rule would refuse, but the page does not render that component.
- Ids.Less: compares `char`s, while JavaScript compares UTF-16 code units. The two orders agree on ids made of characters below U+D800, such as the generated `user_…` ids.
