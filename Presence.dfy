/**
 * The peer registry (`pcs`, `remoteStreams`, `participantsInfo`) and the
 * participants listener that drives it: each `docChanges()` entry may tear a
 * peer down, record its status, or create its connection.
 *
 * The page and the hook differ in one place: after a `removed` entry the page
 * falls through to the presence update (a plain `if`), the hook does not
 * (`else if`).
 */
module Presence {
  import opened Ids
  import opened Relay
  import opened Negotiation

  /** Which of the two source files a client runs. */
  datatype Variant = Page | Hook

  /** One `docChanges()` entry of the participants collection. */
  datatype PeerChange = PeerChange(kind: ChangeKind, id: Id, data: ParticipantDoc)

  /**
   * The registry: `pcs.current`, the `remoteStreams` and `participantsInfo`
   * state, and the ids `createPeer` and `close()` were called for, in order.
   */
  datatype Registry = Registry(
    pcs: map<Id, Conn>,
    remoteStreams: map<Id, Stream>,
    info: map<Id, ParticipantDoc>,
    created: seq<Id>,
    closed: seq<Id>
  )

  const EmptyRegistry := Registry(map[], map[], map[], [], [])

  /** `createPeer` + `handleSignaling`, registering the connection at once. */
  function CreatePeer(r: Registry, room: string, self: Id, peer: Id): Registry {
    r.(pcs := r.pcs[peer := NewConn(room, self, peer, IsOfferer(self, peer))], created := r.created + [peer])
  }

  /** One entry of the participants listener, as the chosen source file handles it. */
  function ApplyChange(v: Variant, room: string, self: Id, r: Registry, ch: PeerChange): Registry {
    var torn :=
      if ch.kind == Removed then
        r.(pcs := r.pcs - {ch.id}, remoteStreams := r.remoteStreams - {ch.id}, info := r.info - {ch.id},
           closed := r.closed + (if ch.id in r.pcs then [ch.id] else []))
      else r;
    if ch.id == self || (v == Hook && ch.kind == Removed) then torn
    else
      var seen := torn.(info := torn.info[ch.id := ch.data]);
      if ch.kind == Added && ch.id !in seen.pcs then CreatePeer(seen, room, self, ch.id) else seen
  }

  /** A whole `docChanges()` batch, entry by entry in delivery order. */
  function ApplyChanges(v: Variant, room: string, self: Id, r: Registry, chs: seq<PeerChange>): Registry
    decreases |chs|
  {
    if chs == [] then r
    else ApplyChange(v, room, self, ApplyChanges(v, room, self, r, chs[..|chs| - 1]), chs[|chs| - 1])
  }

  /**
   * What the registry keeps true: self is never registered, every stream and
   * every connection belongs to a known participant, each connection was
   * created for its key with the role the offerer rule gives.
   */
  ghost predicate Inv(self: Id, r: Registry) {
    && self !in r.pcs
    && self !in r.info
    && r.remoteStreams.Keys <= r.pcs.Keys
    && r.pcs.Keys <= r.info.Keys
    && (forall id :: id in r.pcs ==> ConnFor(self, id, r.pcs[id]) && id in r.created)
  }

  /** `c` is the connection `self` set up for `id`, with the offerer rule's role. */
  ghost predicate ConnFor(self: Id, id: Id, c: Conn) {
    && c.peer == id
    && c.isOfferer == IsOfferer(self, id)
    && c.link == PeerDocPath(c.room, self, id, IsOfferer(self, id))
  }

  lemma EmptyRegistryInv(self: Id)
    ensures Inv(self, EmptyRegistry)
  {
  }

  /**
   * A connection is created exactly when an `added` entry names another
   * participant that has no connection yet; it is then a fresh connection with
   * the offerer rule's role, and no existing connection is replaced.
   */
  lemma CreationRule(v: Variant, room: string, self: Id, r: Registry, ch: PeerChange)
    ensures var r' := ApplyChange(v, room, self, r, ch);
      var isNew := ch.kind == Added && ch.id != self && ch.id !in r.pcs;
      && r'.created == r.created + (if isNew then [ch.id] else [])
      && (isNew ==> r'.pcs == r.pcs[ch.id := NewConn(room, self, ch.id, IsOfferer(self, ch.id))])
      && (!isNew && ch.kind != Removed ==> r'.pcs == r.pcs)
      && (ch.kind != Removed ==> r'.closed == r.closed)
  {
  }

  /**
   * Teardown: a `removed` entry closes and forgets the connection and the
   * stream of that id and creates nothing. The hook also forgets the cached
   * status; the page, falling through, stores the removed document's data
   * again for any id but self.
   */
  lemma RemovalTearsDown(v: Variant, room: string, self: Id, r: Registry, ch: PeerChange)
    requires ch.kind == Removed
    ensures var r' := ApplyChange(v, room, self, r, ch);
      && r'.pcs == r.pcs - {ch.id}
      && r'.remoteStreams == r.remoteStreams - {ch.id}
      && r'.created == r.created
      && r'.closed == r.closed + (if ch.id in r.pcs then [ch.id] else [])
      && (v == Hook || ch.id == self ==> r'.info == r.info - {ch.id})
      && (v == Page && ch.id != self ==> r'.info == r.info[ch.id := ch.data])
  {
    if v == Page && ch.id != self {
      assert (r.info - {ch.id})[ch.id := ch.data] == r.info[ch.id := ch.data];
    }
  }

  /**
   * Presence: an `added` or `modified` entry for another participant records
   * its document; an entry for self changes nothing at all.
   */
  lemma PresenceUpdate(v: Variant, room: string, self: Id, r: Registry, ch: PeerChange)
    requires Inv(self, r)
    ensures ch.id != self && ch.kind != Removed ==>
      ApplyChange(v, room, self, r, ch).info == r.info[ch.id := ch.data]
    ensures ch.id == self ==> ApplyChange(v, room, self, r, ch) == r
  {
    if ch.id == self && ch.kind == Removed {
      assert r.pcs - {self} == r.pcs;
      assert r.remoteStreams - {self} == r.remoteStreams;
      assert r.info - {self} == r.info;
    }
  }

  /** The two source files agree on every entry except what the page re-stores after a removal. */
  lemma VariantsAgreeButForRemovedInfo(room: string, self: Id, r: Registry, ch: PeerChange)
    ensures var p, h := ApplyChange(Page, room, self, r, ch), ApplyChange(Hook, room, self, r, ch);
      && p.pcs == h.pcs && p.remoteStreams == h.remoteStreams && p.created == h.created && p.closed == h.closed
      && (ch.kind == Removed && ch.id != self ==> p.info == h.info[ch.id := ch.data] && ch.id !in h.info)
      && (ch.kind != Removed || ch.id == self ==> p == h)
  {
  }

  /** Every entry preserves the registry invariant, in both source files. */
  lemma ApplyChangeInv(v: Variant, room: string, self: Id, r: Registry, ch: PeerChange)
    requires Inv(self, r)
    ensures Inv(self, ApplyChange(v, room, self, r, ch))
  {
  }

  lemma {:induction false} ApplyChangesInv(v: Variant, room: string, self: Id, r: Registry, chs: seq<PeerChange>)
    requires Inv(self, r)
    ensures Inv(self, ApplyChanges(v, room, self, r, chs))
    decreases |chs|
  {
    if chs != [] {
      ApplyChangesInv(v, room, self, r, chs[..|chs| - 1]);
      ApplyChangeInv(v, room, self, ApplyChanges(v, room, self, r, chs[..|chs| - 1]), chs[|chs| - 1]);
    }
  }

  /**
   * Re-delivery is harmless: handling the same entry a second time (a
   * duplicated snapshot, or the initial snapshot of a second listener) changes
   * nothing further, and in particular creates no second connection.
   */
  lemma ApplyChangeIdempotent(v: Variant, room: string, self: Id, r: Registry, ch: PeerChange)
    ensures var r' := ApplyChange(v, room, self, r, ch);
      ApplyChange(v, room, self, r', ch) == r'
  {
    var r' := ApplyChange(v, room, self, r, ch);
    if ch.kind == Removed {
      assert r'.pcs - {ch.id} == r'.pcs;
      assert r'.remoteStreams - {ch.id} == r'.remoteStreams;
      if v == Page && ch.id != self {
        assert (r'.info - {ch.id})[ch.id := ch.data] == r'.info;
      } else {
        assert r'.info - {ch.id} == r'.info;
      }
    } else if ch.id != self {
      assert r'.info[ch.id := ch.data] == r'.info;
    }
  }

  /**
   * At most one connection per peer: over any run of entries none of which
   * removes `x`, `createPeer` is called for `x` at most once, and never if `x`
   * already had a connection, which is then kept unchanged.
   */
  lemma {:induction false} AtMostOneConnection(v: Variant, room: string, self: Id, r: Registry, chs: seq<PeerChange>, x: Id)
    requires forall i :: 0 <= i < |chs| && chs[i].id == x ==> chs[i].kind != Removed
    ensures var r' := ApplyChanges(v, room, self, r, chs);
      && multiset(r'.created)[x] <= multiset(r.created)[x] + (if x in r.pcs then 0 else 1)
      && (multiset(r'.created)[x] > multiset(r.created)[x] ==> x in r'.pcs)
      && (x in r.pcs ==> x in r'.pcs && r'.pcs[x] == r.pcs[x])
    decreases |chs|
  {
    if chs != [] {
      var init := chs[..|chs| - 1];
      assert forall i :: 0 <= i < |init| && init[i].id == x ==> init[i].kind != Removed by {
        forall i | 0 <= i < |init| ensures init[i] == chs[i] { }
      }
      AtMostOneConnection(v, room, self, r, init, x);
      var mid := ApplyChanges(v, room, self, r, init);
      CreationRule(v, room, self, mid, chs[|chs| - 1]);
    }
  }

  /** A self id never gets a connection, however the entries come. */
  lemma {:induction false} SelfNeverConnected(v: Variant, room: string, self: Id, r: Registry, chs: seq<PeerChange>)
    requires Inv(self, r)
    ensures var r' := ApplyChanges(v, room, self, r, chs);
      self !in r'.pcs && multiset(r'.created)[self] == multiset(r.created)[self]
    decreases |chs|
  {
    if chs != [] {
      SelfNeverConnected(v, room, self, r, chs[..|chs| - 1]);
      ApplyChangesInv(v, room, self, r, chs[..|chs| - 1]);
      var mid := ApplyChanges(v, room, self, r, chs[..|chs| - 1]);
      CreationRule(v, room, self, mid, chs[|chs| - 1]);
      ApplyChangeInv(v, room, self, mid, chs[|chs| - 1]);
    }
  }

  /** `ontrack`: a live connection's stream is stored under its peer id. */
  function OnTrack(r: Registry, peer: Id, s: Stream): Registry {
    if peer in r.pcs then r.(remoteStreams := r.remoteStreams[peer := s]) else r
  }

  lemma OnTrackInv(self: Id, r: Registry, peer: Id, s: Stream)
    requires Inv(self, r)
    ensures Inv(self, OnTrack(r, peer, s))
    ensures peer in r.pcs ==> OnTrack(r, peer, s).remoteStreams[peer] == s
  {
  }

  /** A handler of a live connection replaces its state; the registry keys stay as they were. */
  function UpdateConn(r: Registry, peer: Id, c: Conn): Registry {
    if peer in r.pcs then r.(pcs := r.pcs[peer := c]) else r
  }

  lemma UpdateConnInv(self: Id, r: Registry, peer: Id, c: Conn)
    requires Inv(self, r)
    requires peer in r.pcs ==>
      (c.peer == r.pcs[peer].peer && c.isOfferer == r.pcs[peer].isOfferer
       && c.link == r.pcs[peer].link && c.room == r.pcs[peer].room)
    ensures Inv(self, UpdateConn(r, peer, c))
  {
  }
}
