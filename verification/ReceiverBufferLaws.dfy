/** What the listener helper keeps over any run: its registry is consistent, and it takes back exactly
    its own change. */
module ReceiverBufferLaws {
  import opened OrderedMap
  import opened ReceiverBuffer

  // ----- the registry -----

  /** Every receiver of a known connection is tracked, and the helper listens to exactly what it
      knows, once. */
  ghost predicate Shape(h: Helper) {
    h.peers.Valid() && h.receivers.Valid()
    && (forall p, r :: h.peers.Has(p) && r in h.peers.Get(p) ==> h.receivers.Has(r))
    && (forall r :: h.page.endedListeners[r] == if h.receivers.Has(r) then 1 else 0)
    && (forall p :: h.page.trackListeners[p] == if h.peers.Has(p) then 1 else 0)
    && (forall p :: h.page.stateListeners[p] == if h.peers.Has(p) then 1 else 0)
  }

  ghost predicate OwnedBy(h: Helper, p: nat, r: Receiver) {
    h.peers.Has(p) && r in h.peers.Get(p)
  }

  /** Every tracked receiver, but for those pending, belongs to a known connection. */
  ghost predicate Owned(h: Helper, pending: seq<Receiver>) {
    forall r :: h.receivers.Has(r) ==> r in pending || exists p :: OwnedBy(h, p, r)
  }

  ghost predicate Nothing(h: Helper) {
    (forall p :: !h.peers.Has(p)) && (forall r :: !h.receivers.Has(r))
  }

  ghost predicate RegistryOk(h: Helper) {
    Shape(h) && Owned(h, []) && (!h.enabled ==> Nothing(h))
  }

  // ----- forgetting and restoring one receiver -----

  /** `f` is `h` without `r`. */
  ghost predicate Removed(h: Helper, f: Helper, r: Receiver) {
    (forall x :: f.receivers.Has(x) <==> h.receivers.Has(x) && x != r)
    && (forall x :: f.receivers.Has(x) ==> f.receivers.Get(x) == h.receivers.Get(x))
    && (forall p :: f.peers.Has(p) <==> h.peers.Has(p))
    && (forall p, x :: OwnedBy(f, p, x) <==> OwnedBy(h, p, x) && x != r)
    && f.enabled == h.enabled && f.targetMs == h.targetMs && f.own == h.own
    && f.page.ended == h.page.ended
  }

  lemma {:induction false} DropFromEach(peers: Dict<nat, seq<Receiver>>, keys: seq<nat>, r: Receiver)
    ensures var after := DropFrom(peers, keys, r);
            (peers.Valid() ==> after.Valid())
            && (forall p :: after.Has(p) <==> peers.Has(p))
            && forall p, x :: after.Has(p) ==>
                 (x in after.Get(p) <==> x in peers.Get(p) && (p in keys ==> x != r))
  {
    if keys != [] {
      DropFromEach(peers, keys[..|keys| - 1], r);
    }
  }

  lemma ForgetRemoves(h: Helper, r: Receiver)
    requires Shape(h)
    ensures Shape(ForgetReceiver(h, r)) && Removed(h, ForgetReceiver(h, r), r)
  {
    hide Shape, Removed;
    if h.receivers.Has(r) {
      ForgetTracked(h, r);
      RemovedKeepsShape(h, ForgetReceiver(h, r), r);
    } else {
      UntrackedIsNotOwned(h, r);
    }
  }

  lemma ForgetTracked(h: Helper, r: Receiver)
    requires Shape(h) && h.receivers.Has(r)
    ensures var f := ForgetReceiver(h, r);
            Removed(h, f, r) && f.peers.Valid() && f.receivers.Valid()
            && f.page.trackListeners == h.page.trackListeners && f.page.stateListeners == h.page.stateListeners
            && forall x :: f.page.endedListeners[x] == if x == r then 0 else h.page.endedListeners[x]
  {
    hide DropFrom, Dict.Delete, Dict.Put;
    DropFromEach(h.peers, h.peers.keys, r);
  }

  lemma RemovedKeepsShape(h: Helper, f: Helper, r: Receiver)
    requires Shape(h) && Removed(h, f, r) && f.peers.Valid() && f.receivers.Valid()
    requires f.page.trackListeners == h.page.trackListeners && f.page.stateListeners == h.page.stateListeners
    requires forall x :: f.page.endedListeners[x] == if x == r then 0 else h.page.endedListeners[x]
    ensures Shape(f)
  {
    hide Dict.Delete, Dict.Put, Dict.Has, Dict.Get, Dict.Valid;
    forall p, x | f.peers.Has(p) && x in f.peers.Get(p) ensures f.receivers.Has(x) {
      assert OwnedBy(f, p, x);
      assert OwnedBy(h, p, x);
    }
  }

  lemma RestoreRemoves(h: Helper, r: Receiver)
    requires Shape(h)
    ensures Shape(RestoreReceiver(h, r)) && Removed(h, RestoreReceiver(h, r), r)
  {
    hide ForgetReceiver, Removed, Shape;
    if h.receivers.Has(r) {
      var written := if Read(h, r) == h.receivers.Get(r).applied
                     then WriteBack(h, r, h.receivers.Get(r).original) else h;
      SameShape(h, written);
      ForgetRemoves(written, r);
      SameRegistry(h, written, ForgetReceiver(written, r), r);
    } else {
      UntrackedIsNotOwned(h, r);
    }
  }

  ghost predicate SameParts(h: Helper, g: Helper) {
    g.receivers == h.receivers && g.peers == h.peers && g.own == h.own && g.enabled == h.enabled
    && g.targetMs == h.targetMs && g.page.ended == h.page.ended
    && g.page.endedListeners == h.page.endedListeners && g.page.trackListeners == h.page.trackListeners
    && g.page.stateListeners == h.page.stateListeners
  }

  lemma SameShape(h: Helper, g: Helper)
    requires Shape(h) && SameParts(h, g)
    ensures Shape(g)
  {}

  lemma SameRegistry(h: Helper, written: Helper, f: Helper, r: Receiver)
    requires SameParts(h, written) && Removed(written, f, r)
    ensures Removed(h, f, r)
  {}

  lemma UntrackedIsNotOwned(h: Helper, r: Receiver)
    requires Shape(h) && !h.receivers.Has(r)
    ensures Removed(h, h, r)
  {}

  // ----- many receivers, and a connection -----

  /** `f` is `h` without any of `gone`. */
  ghost predicate RemovedAll(h: Helper, f: Helper, gone: seq<Receiver>) {
    (forall x :: f.receivers.Has(x) <==> h.receivers.Has(x) && x !in gone)
    && (forall x :: f.receivers.Has(x) ==> f.receivers.Get(x) == h.receivers.Get(x))
    && (forall p :: f.peers.Has(p) <==> h.peers.Has(p))
    && (forall p, x :: OwnedBy(f, p, x) <==> OwnedBy(h, p, x) && x !in gone)
    && f.enabled == h.enabled && f.targetMs == h.targetMs && f.own == h.own
    && f.page.ended == h.page.ended
  }

  lemma {:induction false} RestoreAllRemoves(h: Helper, receivers: seq<Receiver>)
    requires Shape(h)
    ensures Shape(RestoreAll(h, receivers)) && RemovedAll(h, RestoreAll(h, receivers), receivers)
  {
    hide Shape, OwnedBy, RestoreReceiver, Dict.Has, Dict.Get;
    if receivers != [] {
      var n := |receivers| - 1;
      RestoreAllRemoves(h, receivers[..n]);
      RestoreRemoves(RestoreAll(h, receivers[..n]), receivers[n]);
    }
  }

  lemma UnlistenedKeepsShape(h: Helper, peer: nat)
    requires Shape(h) && h.peers.Has(peer)
    ensures Shape(Unlistened(h, peer))
  {
    hide Dict.Delete;
  }

  /** `f` is `h` without the connection `peer` and all of its receivers. */
  ghost predicate Detached(h: Helper, f: Helper, peer: nat) {
    (forall p :: f.peers.Has(p) <==> h.peers.Has(p) && p != peer)
    && (forall x :: f.receivers.Has(x) <==> h.receivers.Has(x) && !OwnedBy(h, peer, x))
    && (forall x :: f.receivers.Has(x) ==> f.receivers.Get(x) == h.receivers.Get(x))
    && (forall p, x :: OwnedBy(f, p, x) <==> OwnedBy(h, p, x) && p != peer && !OwnedBy(h, peer, x))
    && f.enabled == h.enabled && f.targetMs == h.targetMs && f.own == h.own
    && f.page.ended == h.page.ended
  }

  lemma DetachRemoves(h: Helper, peer: nat)
    requires Shape(h)
    ensures Shape(DetachPeer(h, peer)) && Detached(h, DetachPeer(h, peer), peer)
  {
    hide Shape, Dict.Delete, RestoreAll;
    if h.peers.Has(peer) {
      UnlistenedKeepsShape(h, peer);
      RestoreAllRemoves(Unlistened(h, peer), h.peers.Get(peer));
    }
  }

  lemma DetachKeepsOwned(h: Helper, f: Helper, peer: nat)
    requires Owned(h, []) && Detached(h, f, peer)
    ensures Owned(f, [])
  {
    hide OwnedBy, Dict.Has, Dict.Get;
    forall r | f.receivers.Has(r) ensures exists p :: OwnedBy(f, p, r) {
      var p :| OwnedBy(h, p, r);
      assert OwnedBy(f, p, r);
    }
  }

  lemma {:induction false} DetachAllEmpties(h: Helper, peers: seq<nat>)
    requires Shape(h) && Owned(h, [])
    ensures var f := DetachAll(h, peers);
            Shape(f) && Owned(f, []) && f.enabled == h.enabled
            && forall p :: f.peers.Has(p) <==> h.peers.Has(p) && p !in peers
  {
    hide Shape, Owned, OwnedBy, DetachPeer;
    if peers != [] {
      var n := |peers| - 1;
      DetachAllEmpties(h, peers[..n]);
      DetachRemoves(DetachAll(h, peers[..n]), peers[n]);
      DetachKeepsOwned(DetachAll(h, peers[..n]), DetachAll(h, peers), peers[n]);
    }
  }

  // ----- disabling -----

  /** Once the connections are detached nothing is left to track, so the second loop of `disable`
      has nothing to do. */
  lemma DisableEmpties(h: Helper)
    requires Shape(h) && Owned(h, [])
    ensures var off := h.(enabled := false);
            Disable(h) == DetachAll(off, off.peers.keys)
            && RegistryOk(Disable(h)) && Nothing(Disable(h)) && !Disable(h).enabled
  {
    hide Shape, Owned, OwnedBy, DetachAll, Dict.Put, Dict.Delete;
    var off := h.(enabled := false);
    Switched(h, off);
    DetachAllEmpties(off, off.peers.keys);
    var f := DetachAll(off, off.peers.keys);
    assert h.peers.Valid() && f.receivers.Valid() by { ShapeIsValid(h); ShapeIsValid(f); }
    NobodyLeft(f);
    NothingLeft(f.receivers);
  }

  lemma Switched(h: Helper, g: Helper)
    requires Shape(h) && Owned(h, []) && g == h.(enabled := g.enabled, targetMs := g.targetMs)
    ensures Shape(g) && Owned(g, [])
  {
    hide Dict.Has, Dict.Get, Dict.Valid;
    forall r | g.receivers.Has(r) ensures exists p :: OwnedBy(g, p, r) {
      var p :| OwnedBy(h, p, r);
      assert OwnedBy(g, p, r);
    }
  }

  lemma ShapeIsValid(h: Helper)
    requires Shape(h)
    ensures h.peers.Valid() && h.receivers.Valid()
  {}

  lemma NobodyLeft(h: Helper)
    requires Owned(h, []) && forall p :: !h.peers.Has(p)
    ensures Nothing(h)
  {}

  /** The setting a receiver is left with: its first recorded original if it still holds what the
      helper last applied, and what it holds otherwise. */
  function Undone(h: Helper, r: Receiver): Setting {
    if h.receivers.Has(r) && Read(h, r) == h.receivers.Get(r).applied then h.receivers.Get(r).original
    else Read(h, r)
  }

  /** `f` is `h` part of the way through undoing it. */
  ghost predicate Undoing(h: Helper, f: Helper) {
    f.page.restores == []
    && forall r :: if f.receivers.Has(r)
                   then h.receivers.Has(r) && f.receivers.Get(r) == h.receivers.Get(r) && Read(f, r) == Read(h, r)
                   else Read(f, r) == Undone(h, r)
  }

  lemma RestoreUndoes(h: Helper, f: Helper, r: Receiver)
    requires Undoing(h, f)
    ensures Undoing(h, RestoreReceiver(f, r))
  {
    hide DropFrom;
  }

  lemma {:induction false} RestoreAllUndoes(h: Helper, f: Helper, receivers: seq<Receiver>)
    requires Undoing(h, f)
    ensures Undoing(h, RestoreAll(f, receivers))
  {
    hide Undoing, RestoreReceiver;
    if receivers != [] {
      var n := |receivers| - 1;
      RestoreAllUndoes(h, f, receivers[..n]);
      RestoreUndoes(h, RestoreAll(f, receivers[..n]), receivers[n]);
    }
  }

  lemma {:induction false} DetachAllUndoes(h: Helper, f: Helper, peers: seq<nat>)
    requires Undoing(h, f)
    ensures Undoing(h, DetachAll(f, peers))
  {
    hide Undoing, RestoreAll;
    if peers != [] {
      var n := |peers| - 1;
      DetachAllUndoes(h, f, peers[..n]);
      var g := DetachAll(f, peers[..n]);
      if g.peers.Has(peers[n]) {
        UnlistenedUndoes(h, g, peers[n]);
        RestoreAllUndoes(h, Unlistened(g, peers[n]), g.peers.Get(peers[n]));
      }
    }
  }

  lemma UnlistenedUndoes(h: Helper, f: Helper, peer: nat)
    requires Undoing(h, f)
    ensures Undoing(h, Unlistened(f, peer))
  {}

  /** Provided the writes that restore succeed, disabling gives every tracked receiver that still
      holds the helper's value its first recorded original, leaves every other setting alone, and
      leaves nothing tracked, known or listened to. */
  lemma DisableUndoesItsOwnChange(h: Helper)
    requires RegistryOk(h) && h.page.restores == []
    ensures var f := Disable(h);
            (forall r :: Read(f, r) == Undone(h, r))
            && f.peers.keys == [] && f.receivers.keys == []
            && (forall r :: f.page.endedListeners[r] == 0)
            && (forall p :: f.page.trackListeners[p] == 0 && f.page.stateListeners[p] == 0)
  {
    hide Owned, Disable, DetachAll, Read;
    DisableEmpties(h);
    var off := h.(enabled := false);
    assert Undoing(h, off) by { Unchanged(h, off); }
    DetachAllUndoes(h, off, off.peers.keys);
    var f := Disable(h);
    NothingLeft(f.peers);
    NothingLeft(f.receivers);
  }

  lemma Unchanged(h: Helper, off: Helper)
    requires off == h.(enabled := false) && h.page.restores == []
    ensures Undoing(h, off)
  {}

  // ----- applying -----

  /** From `h` to `f` only `r` may have changed; it loses its connections only with its record. */
  ghost predicate TouchesOnly(h: Helper, f: Helper, r: Receiver) {
    (forall x :: x != r ==> (f.receivers.Has(x) <==> h.receivers.Has(x)))
    && (forall p :: f.peers.Has(p) <==> h.peers.Has(p))
    && (forall p, x :: x != r ==> (OwnedBy(f, p, x) <==> OwnedBy(h, p, x)))
    && f.enabled == h.enabled
  }

  lemma RemovedTouchesOnly(h: Helper, g: Helper, f: Helper, r: Receiver)
    requires TouchesOnly(h, g, r) && Removed(g, f, r)
    ensures TouchesOnly(h, f, r)
  {
    hide OwnedBy, Dict.Has, Dict.Get;
  }

  lemma TrackedKeepsShape(h: Helper, r: Receiver)
    requires Shape(h)
    ensures Shape(Tracked(h, r)) && TouchesOnly(h, Tracked(h, r), r) && Tracked(h, r).receivers.Has(r)
  {
    hide Shape;
    NothingTouched(h, r);
    if !h.receivers.Has(r) {
      NewRecordKeepsShape(h, r);
    }
  }

  lemma NewRecordKeepsShape(h: Helper, r: Receiver)
    requires Shape(h) && !h.receivers.Has(r)
    ensures Shape(Tracked(h, r))
  {
    hide Dict.Put, Dict.Has, Dict.Get, Dict.Valid;
  }

  lemma AppliedKeepsShape(h: Helper, g: Helper, r: Receiver)
    requires Shape(g) && TouchesOnly(h, g, r) && g.receivers.Has(r)
    ensures Shape(Applied(g, r)) && TouchesOnly(h, Applied(g, r), r)
  {
    hide Dict.Put;
  }

  lemma WriteTargetKeepsShape(h: Helper, g: Helper, r: Receiver)
    requires Shape(g) && TouchesOnly(h, g, r)
    ensures Shape(WriteTarget(g, r)) && TouchesOnly(h, WriteTarget(g, r), r)
  {
    SameShape(g, WriteTarget(g, r));
  }

  lemma ApplyTouchesOnly(h: Helper, r: Receiver)
    requires Shape(h)
    ensures Shape(ApplyReceiver(h, r)) && TouchesOnly(h, ApplyReceiver(h, r), r)
  {
    hide Shape, TouchesOnly, Tracked, Applied, RestoreReceiver, Eligible, Read, Removed;
    var tracked := Tracked(h, r);
    TrackedKeepsShape(h, r);
    AppliedKeepsShape(h, tracked, r);
    WriteTargetKeepsShape(h, tracked, r);
    var written := WriteTarget(tracked, r);
    assert written.receivers == tracked.receivers;
    AppliedKeepsShape(h, written, r);
    RestoreRemoves(written, r);
    RemovedTouchesOnly(h, written, RestoreReceiver(written, r), r);
    NothingTouched(h, r);
  }

  lemma NothingTouched(h: Helper, r: Receiver)
    ensures TouchesOnly(h, h, r)
  {}

  lemma TakeKeepsRegistry(h: Helper, peer: nat, r: Receiver)
    requires Shape(h) && Owned(h, []) && h.peers.Has(peer)
    ensures var f := Take(h, peer, r);
            Shape(f) && Owned(f, []) && f.peers.Has(peer) && f.enabled == h.enabled
  {
    hide ApplyReceiver, Shape, Dict.Put;
    ApplyTouchesOnly(h, r);
    var applied := ApplyReceiver(h, r);
    var f := Take(h, peer, r);
    AddingKeepsShape(applied, peer, r);
    forall x | f.receivers.Has(x) ensures exists p :: OwnedBy(f, p, x) {
      if x == r {
        assert OwnedBy(f, peer, x);
      } else {
        var p :| OwnedBy(h, p, x);
        assert OwnedBy(applied, p, x);
        assert OwnedBy(f, p, x);
      }
    }
  }

  lemma AddingKeepsShape(g: Helper, peer: nat, r: Receiver)
    requires Shape(g)
    ensures g.receivers.Has(r) && g.peers.Has(peer) ==>
              Shape(g.(peers := g.peers.Put(peer, g.peers.Get(peer) + [r])))
  {
    hide Dict.Put;
  }

  lemma {:induction false} TakeAllKeepsRegistry(h: Helper, peer: nat, receivers: seq<Receiver>)
    requires Shape(h) && Owned(h, []) && h.peers.Has(peer)
    ensures var f := TakeAll(h, peer, receivers);
            Shape(f) && Owned(f, []) && f.peers.Has(peer) && f.enabled == h.enabled
  {
    hide Shape, Owned, Take, Dict.Has;
    if receivers != [] {
      var n := |receivers| - 1;
      TakeAllKeepsRegistry(h, peer, receivers[..n]);
      TakeKeepsRegistry(TakeAll(h, peer, receivers[..n]), peer, receivers[n]);
    }
  }

  lemma ListenedKeepsRegistry(h: Helper, peer: nat)
    requires Shape(h) && Owned(h, [])
    ensures var f := Listened(h, peer);
            Shape(f) && Owned(f, []) && f.peers.Has(peer) && f.enabled == h.enabled
  {
    hide Shape, OwnedBy, Dict.Has, Dict.Put;
    if !h.peers.Has(peer) {
      ListenedKeepsShape(h, peer);
      forall x | h.receivers.Has(x) ensures exists p :: OwnedBy(Listened(h, peer), p, x) {
        var p :| OwnedBy(h, p, x);
        NewPeerKeepsOwner(h, peer, p, x);
      }
    }
  }

  lemma ListenedKeepsShape(h: Helper, peer: nat)
    requires Shape(h) && !h.peers.Has(peer)
    ensures Shape(Listened(h, peer))
  {
    hide Dict.Put, Dict.Has, Dict.Get, Dict.Valid;
  }

  lemma NewPeerKeepsOwner(h: Helper, peer: nat, p: nat, r: Receiver)
    requires OwnedBy(h, p, r) && !h.peers.Has(peer)
    ensures OwnedBy(Listened(h, peer), p, r)
  {}

  // ----- every event keeps the registry -----

  lemma AttachKeepsRegistry(h: Helper, view: View)
    requires RegistryOk(h)
    ensures RegistryOk(AttachPeer(h, view)) && AttachPeer(h, view).enabled == h.enabled
  {
    hide Shape, Owned, Listened, TakeAll;
    if h.enabled && !view.closed {
      ListenedKeepsRegistry(h, view.peer);
      TakeAllKeepsRegistry(Listened(h, view.peer), view.peer, view.receivers);
    }
  }

  lemma {:induction false} AttachKnownKeepsRegistry(h: Helper, peers: seq<nat>, views: map<nat, View>)
    requires RegistryOk(h)
    ensures RegistryOk(AttachKnown(h, peers, views))
  {
    hide RegistryOk, AttachPeer;
    if peers != [] {
      var n := |peers| - 1;
      AttachKnownKeepsRegistry(h, peers[..n], views);
      AttachKeepsRegistry(AttachKnown(h, peers[..n], views), ViewOf(views, peers[n]));
    }
  }

  lemma {:induction false} AttachAllKeepsRegistry(h: Helper, views: seq<View>)
    requires RegistryOk(h)
    ensures RegistryOk(AttachAll(h, views))
  {
    hide RegistryOk, AttachPeer;
    if views != [] {
      var n := |views| - 1;
      AttachAllKeepsRegistry(h, views[..n]);
      AttachKeepsRegistry(AttachAll(h, views[..n]), views[n]);
    }
  }

  lemma EnableKeepsRegistry(h: Helper, ms: int, trial: bool, hooked: bool, views: map<nat, View>,
                            retained: seq<View>)
    requires RegistryOk(h)
    ensures RegistryOk(Enable(h, ms, trial, hooked, views, retained).0)
  {
    hide Shape, Owned, Disable, AttachKnown, AttachAll;
    var on := h.(targetMs := ms, enabled := true);
    Switched(h, on);
    DisableEmpties(on);
    AttachKnownKeepsRegistry(on, on.peers.keys, views);
    AttachAllKeepsRegistry(AttachKnown(on, on.peers.keys, views), retained);
  }

  lemma DetachKeepsRegistry(h: Helper, peer: nat)
    requires RegistryOk(h)
    ensures RegistryOk(DetachPeer(h, peer))
  {
    hide Shape, Owned, DetachPeer;
    DetachRemoves(h, peer);
    DetachKeepsOwned(h, DetachPeer(h, peer), peer);
  }

  lemma ForgetKeepsRegistry(h: Helper, r: Receiver)
    requires RegistryOk(h)
    ensures RegistryOk(ForgetReceiver(h, r))
  {
    hide Shape, ForgetReceiver, Dict.Has, Dict.Get, OwnedBy;
    ForgetRemoves(h, r);
    var f := ForgetReceiver(h, r);
    forall x | f.receivers.Has(x) ensures exists p :: OwnedBy(f, p, x) {
      var p :| OwnedBy(h, p, x);
      assert OwnedBy(f, p, x);
    }
  }

  lemma SamePartsKeepRegistry(h: Helper, g: Helper)
    requires RegistryOk(h) && SameParts(h.(page := h.page.(ended := g.page.ended), own := g.own), g)
    ensures RegistryOk(g)
  {
    forall x | g.receivers.Has(x) ensures exists p :: OwnedBy(g, p, x) {
      var p :| OwnedBy(h, p, x);
      assert OwnedBy(g, p, x);
    }
  }

  lemma TrackEventKeepsRegistry(h: Helper, peer: nat, r: Receiver)
    requires RegistryOk(h)
    ensures RegistryOk(TrackEvent(h, peer, r))
  {
    hide Owned, Take;
    if peer in h.page.trackListeners {
      TakeKeepsRegistry(h, peer, r);
    }
  }

  lemma StepKeepsRegistry(h: Helper, event: Event)
    requires RegistryOk(h)
    ensures RegistryOk(Step(h, event))
  {
    hide Shape, Owned, Nothing, Enable, Disable, AttachPeer, DetachPeer, TrackEvent, ForgetReceiver;
    match event {
      case Enabling(ms, trial, hooked, views, retained) =>
        EnableKeepsRegistry(h, ms, trial, hooked, views, retained);
      case Disabling => DisableEmpties(h);
      case Attaching(view) => AttachKeepsRegistry(h, view);
      case Closing(peer) => DetachKeepsRegistry(h, peer);
      case Arrival(peer, receiver) => TrackEventKeepsRegistry(h, peer, receiver);
      case StateChange(peer, closed) => DetachKeepsRegistry(h, peer);
      case Stopping(receiver) => SamePartsKeepRegistry(h, Step(h, event));
      case EndedNotice(receiver) =>
        SamePartsKeepRegistry(h, h.(spoiled := h.spoiled + {receiver}));
        ForgetKeepsRegistry(h.(spoiled := h.spoiled + {receiver}), receiver);
      case Outside(receiver, value) => SamePartsKeepRegistry(h, Step(h, event));
    }
  }
}
