/** Exactly which events of the listener helper change a receiver's setting, when the page takes every
    write: so exactly when a value written from outside survives. */
module ReceiverBufferChanges {
  import opened Options
  import opened OrderedMap
  import opened ReceiverBuffer
  import opened ReceiverBufferLaws

  /** Every write is taken exactly. */
  predicate Exact(h: Helper) {
    h.page.applies == [] && h.page.restores == []
  }

  /** A receiver's setting, and its record if it is tracked. */
  datatype Slot = Slot(value: Setting, record: Option<Record>)

  function SlotOf(h: Helper, x: Receiver): Slot {
    Slot(Read(h, x), if h.receivers.Has(x) then Some(h.receivers.Get(x)) else None)
  }

  /** The slot holds the target; an original on record stays. */
  function Targeted(slot: Slot, targetMs: int): Slot {
    Slot(Some(targetMs),
         Some(Record(if slot.record.Some? then slot.record.value.original else slot.value, Some(targetMs))))
  }

  /** Every write of the target so far was taken, and so are the coming ones. */
  predicate SameSwitches(h: Helper, f: Helper) {
    f.page.applies == [] && f.page.restores == h.page.restores
    && f.enabled == h.enabled && f.targetMs == h.targetMs && f.page.ended == h.page.ended
  }

  // ----- applying -----

  /** What applying does to an eligible receiver, when the write is taken. */
  function ApplyTaken(h: Helper, r: Receiver): Helper {
    var tracked := Tracked(h, r);
    Applied(if Read(tracked, r) == Some(h.targetMs) then tracked else WriteTarget(tracked, r), r)
  }

  lemma ApplyIsTaken(h: Helper, r: Receiver)
    requires h.page.applies == [] && Eligible(h, r)
    ensures ApplyReceiver(h, r) == ApplyTaken(h, r)
  {
    hide RestoreReceiver, Applied, Dict.Put, Dict.Get, Dict.Has;
  }

  lemma ApplySlot(h: Helper, r: Receiver, x: Receiver)
    requires h.page.applies == []
    ensures var f := ApplyReceiver(h, r);
            SameSwitches(h, f)
            && SlotOf(f, x) == if x == r && Eligible(h, r) then Targeted(SlotOf(h, x), h.targetMs) else SlotOf(h, x)
  {
    hide RestoreReceiver, Tracked, WriteTarget, Applied, SlotOf, Targeted;
    if Eligible(h, r) {
      ApplyIsTaken(h, r);
      TakenSlot(h, r, x);
    }
  }

  lemma TakenSlot(h: Helper, r: Receiver, x: Receiver)
    requires h.page.applies == []
    ensures var f := ApplyTaken(h, r);
            SameSwitches(h, f)
            && SlotOf(f, x) == if x == r then Targeted(SlotOf(h, x), h.targetMs) else SlotOf(h, x)
  {}

  lemma TakeSlot(h: Helper, peer: nat, r: Receiver, x: Receiver)
    requires h.page.applies == []
    ensures var f := Take(h, peer, r);
            SameSwitches(h, f)
            && SlotOf(f, x) == if x == r && Eligible(h, r) then Targeted(SlotOf(h, x), h.targetMs) else SlotOf(h, x)
  {
    hide ApplyReceiver, Eligible;
    ApplySlot(h, r, x);
  }

  lemma {:induction false} TakeAllSlot(h: Helper, peer: nat, receivers: seq<Receiver>, x: Receiver)
    requires h.page.applies == []
    ensures var f := TakeAll(h, peer, receivers);
            SameSwitches(h, f)
            && SlotOf(f, x)
               == if x in receivers && Eligible(h, x) then Targeted(SlotOf(h, x), h.targetMs) else SlotOf(h, x)
  {
    hide Take, SlotOf;
    if receivers != [] {
      var n := |receivers| - 1;
      TakeAllSlot(h, peer, receivers[..n], x);
      TakeSlot(TakeAll(h, peer, receivers[..n]), peer, receivers[n], x);
    }
  }

  /** An open connection on which the helper finds `x`. */
  predicate Shows(view: View, x: Receiver) {
    !view.closed && x in view.receivers
  }

  lemma AttachSlot(h: Helper, view: View, x: Receiver)
    requires h.page.applies == []
    ensures var f := AttachPeer(h, view);
            SameSwitches(h, f)
            && SlotOf(f, x)
               == if Shows(view, x) && Eligible(h, x) then Targeted(SlotOf(h, x), h.targetMs) else SlotOf(h, x)
  {
    hide TakeAll;
    TakeAllSlot(Listened(h, view.peer), view.peer, view.receivers, x);
  }

  predicate ShownKnown(peers: seq<nat>, views: map<nat, View>, x: Receiver) {
    exists i :: 0 <= i < |peers| && Shows(ViewOf(views, peers[i]), x)
  }

  predicate ShownIn(views: seq<View>, x: Receiver) {
    exists i :: 0 <= i < |views| && Shows(views[i], x)
  }

  lemma {:induction false} AttachKnownSlot(h: Helper, peers: seq<nat>, views: map<nat, View>, x: Receiver)
    requires h.page.applies == []
    ensures var f := AttachKnown(h, peers, views);
            SameSwitches(h, f)
            && SlotOf(f, x)
               == if ShownKnown(peers, views, x) && Eligible(h, x) then Targeted(SlotOf(h, x), h.targetMs)
                  else SlotOf(h, x)
  {
    hide AttachPeer, SlotOf, ShownKnown;
    if peers == [] {
      NoneShownKnown(views, x);
    } else {
      var n := |peers| - 1;
      AttachKnownSlot(h, peers[..n], views, x);
      AttachSlot(AttachKnown(h, peers[..n], views), ViewOf(views, peers[n]), x);
      ShownKnownStep(peers, views, x);
    }
  }

  lemma NoneShownKnown(views: map<nat, View>, x: Receiver)
    ensures !ShownKnown([], views, x) && !ShownIn([], x)
  {}

  lemma ShownKnownStep(peers: seq<nat>, views: map<nat, View>, x: Receiver)
    requires peers != []
    ensures ShownKnown(peers, views, x)
            <==> ShownKnown(peers[..|peers| - 1], views, x) || Shows(ViewOf(views, peers[|peers| - 1]), x)
  {
    var before := peers[..|peers| - 1];
    if ShownKnown(before, views, x) {
      var i :| 0 <= i < |before| && Shows(ViewOf(views, before[i]), x);
      assert peers[i] == before[i];
    }
    if ShownKnown(peers, views, x) {
      var i :| 0 <= i < |peers| && Shows(ViewOf(views, peers[i]), x);
      assert i < |before| ==> before[i] == peers[i];
    }
  }

  lemma {:induction false} AttachAllSlot(h: Helper, views: seq<View>, x: Receiver)
    requires h.page.applies == []
    ensures var f := AttachAll(h, views);
            SameSwitches(h, f)
            && SlotOf(f, x)
               == if ShownIn(views, x) && Eligible(h, x) then Targeted(SlotOf(h, x), h.targetMs) else SlotOf(h, x)
  {
    hide AttachPeer, SlotOf, ShownIn;
    if views == [] {
      NoneShownKnown(map[], x);
    } else {
      var n := |views| - 1;
      AttachAllSlot(h, views[..n], x);
      AttachSlot(AttachAll(h, views[..n]), views[n], x);
      ShownInStep(views, x);
    }
  }

  lemma ShownInStep(views: seq<View>, x: Receiver)
    requires views != []
    ensures ShownIn(views, x) <==> ShownIn(views[..|views| - 1], x) || Shows(views[|views| - 1], x)
  {
    var before := views[..|views| - 1];
    if ShownIn(before, x) {
      var i :| 0 <= i < |before| && Shows(before[i], x);
      assert views[i] == before[i];
    }
    if ShownIn(views, x) {
      var i :| 0 <= i < |views| && Shows(views[i], x);
      assert i < |before| ==> before[i] == views[i];
    }
  }

  /** Some connection that `enable` looks at shows `x`: a known one, or one an earlier audit kept. */
  predicate Shown(h: Helper, views: map<nat, View>, retained: seq<View>, x: Receiver) {
    ShownKnown(h.peers.keys, views, x) || ShownIn(retained, x)
  }

  /** An `enable` that is not refused. */
  predicate Accepted(h: Helper, ms: int, trial: bool, hooked: bool) {
    0 <= ms <= MAX_TARGET_MS && !trial && (h.enabled || hooked)
  }

  /** With its writes taken, enabling sets the target on exactly the live supported audio receivers of
      the open connections it looks at, the known ones included, and keeps the originals on record. */
  lemma EnableSetsTheTarget(h: Helper, ms: int, trial: bool, hooked: bool, views: map<nat, View>,
                          retained: seq<View>, x: Receiver)
    requires h.page.applies == [] && Accepted(h, ms, trial, hooked)
    ensures var f := Enable(h, ms, trial, hooked, views, retained).0;
            f.page.applies == [] && f.page.restores == h.page.restores
            && SlotOf(f, x)
               == if Shown(h, views, retained, x) && Eligible(h.(enabled := true), x)
                  then Targeted(SlotOf(h, x), ms) else SlotOf(h, x)
  {
    hide AttachKnown, AttachAll, ShownIn, ShownKnown;
    var on := h.(targetMs := ms, enabled := true);
    AttachKnownSlot(on, on.peers.keys, views, x);
    AttachAllSlot(AttachKnown(on, on.peers.keys, views), retained, x);
  }

  /** `enable` returns normally exactly if it is not refused, and the helper is then on, with that target, when its
      writes are taken. A bad target or a running trial changes nothing; hooks that cannot be installed leave the
      helper off, with nothing known, and every setting as it was. */
  lemma EnableSucceedsExactly(h: Helper, ms: int, trial: bool, hooked: bool, views: map<nat, View>,
                              retained: seq<View>)
    requires RegistryOk(h)
    ensures var (f, ok) := Enable(h, ms, trial, hooked, views, retained);
            ok == Accepted(h, ms, trial, hooked)
            && (ok && h.page.applies == [] ==> f.enabled && f.targetMs == ms)
            && (!ok ==> if 0 <= ms <= 300 && !trial then f == h.(targetMs := ms) && !f.enabled else f == h)
  {
    hide AttachKnown, AttachAll, Disable, Shape, Owned;
    if Accepted(h, ms, trial, hooked) {
      if h.page.applies == [] {
        var on := h.(targetMs := ms, enabled := true);
        AttachedStaysOn(on, views, retained);
      }
    } else if !h.enabled {
      NothingToDisable(h, ms);
    }
  }

  lemma AttachedStaysOn(on: Helper, views: map<nat, View>, retained: seq<View>)
    requires on.page.applies == []
    ensures var f := AttachAll(AttachKnown(on, on.peers.keys, views), retained);
            f.enabled == on.enabled && f.targetMs == on.targetMs
  {
    hide AttachKnown, AttachAll, SlotOf, ShownIn, ShownKnown;
    var anyone := Receiver(0, true, true);
    AttachKnownSlot(on, on.peers.keys, views, anyone);
    AttachAllSlot(AttachKnown(on, on.peers.keys, views), retained, anyone);
  }

  lemma NothingToDisable(h: Helper, ms: int)
    requires RegistryOk(h) && !h.enabled
    ensures Disable(h.(targetMs := ms, enabled := true)) == h.(targetMs := ms)
  {
    NothingLeft(h.peers);
    NothingLeft(h.receivers);
  }

  // ----- restoring -----

  lemma RestoreSlot(h: Helper, r: Receiver, x: Receiver)
    requires Exact(h)
    ensures var f := RestoreReceiver(h, r);
            Exact(f)
            && SlotOf(f, x) == if x == r && h.receivers.Has(x) then Slot(Undone(h, x), None) else SlotOf(h, x)
  {
    hide DropFrom;
  }

  lemma {:induction false} RestoreAllSlot(h: Helper, receivers: seq<Receiver>, x: Receiver)
    requires Exact(h)
    ensures var f := RestoreAll(h, receivers);
            Exact(f)
            && SlotOf(f, x) == if x in receivers && h.receivers.Has(x) then Slot(Undone(h, x), None) else SlotOf(h, x)
  {
    hide RestoreReceiver, Exact;
    if receivers != [] {
      var n := |receivers| - 1;
      RestoreAllSlot(h, receivers[..n], x);
      RestoreSlot(RestoreAll(h, receivers[..n]), receivers[n], x);
    }
  }

  lemma DetachSlot(h: Helper, peer: nat, x: Receiver)
    requires Exact(h) && Shape(h)
    ensures var f := DetachPeer(h, peer);
            Exact(f) && SlotOf(f, x) == if OwnedBy(h, peer, x) then Slot(Undone(h, x), None) else SlotOf(h, x)
  {
    hide RestoreAll;
    if h.peers.Has(peer) {
      RestoreAllSlot(Unlistened(h, peer), h.peers.Get(peer), x);
    }
  }

  lemma {:induction false} DetachAllStaysExact(h: Helper, peers: seq<nat>)
    requires Exact(h)
    ensures Exact(DetachAll(h, peers))
  {
    hide RestoreAll;
    if peers != [] {
      var n := |peers| - 1;
      DetachAllStaysExact(h, peers[..n]);
      var g := DetachAll(h, peers[..n]);
      if g.peers.Has(peers[n]) {
        RestoreAllStaysExact(Unlistened(g, peers[n]), g.peers.Get(peers[n]));
      }
    }
  }

  lemma {:induction false} RestoreAllStaysExact(h: Helper, receivers: seq<Receiver>)
    requires Exact(h)
    ensures Exact(RestoreAll(h, receivers))
  {
    hide RestoreReceiver;
    if receivers != [] {
      RestoreAllStaysExact(h, receivers[..|receivers| - 1]);
      RestoreSlot(RestoreAll(h, receivers[..|receivers| - 1]), receivers[|receivers| - 1], receivers[0]);
    }
  }

  lemma DisableReads(h: Helper, x: Receiver)
    requires Exact(h) && RegistryOk(h)
    ensures Exact(Disable(h)) && Read(Disable(h), x) == Undone(h, x)
  {
    hide RegistryOk, DetachAll, RestoreAll, Undone;
    DisableUndoesItsOwnChange(h);
    var off := h.(enabled := false);
    DetachAllStaysExact(off, off.peers.keys);
    RestoreAllStaysExact(DetachAll(off, off.peers.keys), DetachAll(off, off.peers.keys).receivers.keys);
  }

  // ----- which events change a setting -----

  /** Taking the helper's change back would change `v`. */
  predicate TakesBack(h: Helper, x: Receiver, v: Setting) {
    h.receivers.Has(x) && v == h.receivers.Get(x).applied && v != h.receivers.Get(x).original
  }

  /** Whether the event changes a setting of `x` that is now `v`: another write from outside; the helper
      applying another target, on a track event, on looking at a connection, or on being enabled; or the
      helper taking back what it takes for its own change, on detaching or being disabled. */
  predicate Changes(h: Helper, event: Event, x: Receiver, v: Setting) {
    match event
    case Outside(r, value) => r == x && value != v
    case Arrival(peer, r) =>
      r == x && peer in h.page.trackListeners && Eligible(h, x) && v != Some(h.targetMs)
    case Attaching(view) => Shows(view, x) && Eligible(h, x) && v != Some(h.targetMs)
    case Enabling(ms, trial, hooked, views, retained) =>
      Accepted(h, ms, trial, hooked) && Shown(h, views, retained, x) && Eligible(h.(enabled := true), x)
      && v != Some(ms)
    case Closing(peer) => h.peers.Has(peer) && x in h.peers.Get(peer) && TakesBack(h, x, v)
    case StateChange(peer, closed) =>
      closed && h.peers.Has(peer) && x in h.peers.Get(peer) && TakesBack(h, x, v)
    case Disabling => TakesBack(h, x, v)
    case Stopping(_) => false
    case EndedNotice(_) => false
  }

  lemma UndoneUnlessTakenBack(h: Helper, x: Receiver)
    ensures Undone(h, x) == Read(h, x) <==> !TakesBack(h, x, Read(h, x))
  {}

  /** Exactly those events change a setting. */
  lemma SettingChangesExactly(h: Helper, event: Event, x: Receiver)
    requires RegistryOk(h) && Exact(h)
    ensures Exact(Step(h, event))
    ensures Read(Step(h, event), x) == Read(h, x) <==> !Changes(h, event, x, Read(h, x))
  {
    hide AttachPeer, DetachPeer, Disable, Take, Undone, TakesBack, Shown, Shows, Owned, Shape, OwnedBy;
    UndoneUnlessTakenBack(h, x);
    match event {
      case Enabling(ms, trial, hooked, views, retained) => EnablingChanges(h, event, x);
      case Disabling => DisableReads(h, x);
      case Attaching(view) => AttachSlot(h, view, x);
      case Closing(peer) => DetachingChanges(h, peer, x);
      case Arrival(peer, r) => TakeSlot(h, peer, r, x);
      case StateChange(peer, closed) => DetachingChanges(h, peer, x);
      case Stopping(_) =>
      case EndedNotice(r) =>
      case Outside(r, value) =>
    }
  }

  lemma DetachingChanges(h: Helper, peer: nat, x: Receiver)
    requires RegistryOk(h) && Exact(h)
    ensures Exact(DetachPeer(h, peer)) && (h.peers.Has(peer) <==> peer in h.page.stateListeners)
    ensures Read(DetachPeer(h, peer), x) == Read(h, x)
            <==> !(h.peers.Has(peer) && x in h.peers.Get(peer) && TakesBack(h, x, Read(h, x)))
  {
    hide DetachPeer, Undone, TakesBack, Owned;
    UndoneUnlessTakenBack(h, x);
    DetachSlot(h, peer, x);
    assert h.page.stateListeners[peer] == if h.peers.Has(peer) then 1 else 0;
  }

  lemma EnablingChanges(h: Helper, event: Event, x: Receiver)
    requires RegistryOk(h) && Exact(h) && event.Enabling?
    ensures Exact(Step(h, event))
    ensures Read(Step(h, event), x) == Read(h, x) <==> !Changes(h, event, x, Read(h, x))
  {
    hide AttachKnown, AttachAll, Disable, Shown, Shape, Owned;
    if Accepted(h, event.ms, event.trial, event.hooked) {
      EnableSetsTheTarget(h, event.ms, event.trial, event.hooked, event.views, event.retained, x);
    } else if 0 <= event.ms <= MAX_TARGET_MS && !event.trial {
      var on := h.(targetMs := event.ms, enabled := true);
      Switched(h, on);
      DisableReads(on, x);
    }
  }

  /** A value written from outside survives the next event exactly if that event does not change it. */
  lemma OutsideValueSurvivesExactly(h: Helper, x: Receiver, v: Setting, event: Event)
    requires RegistryOk(h) && Exact(h)
    ensures Read(RunFrom(h, [Outside(x, v), event]), x) == v <==> !Changes(h, event, x, v)
  {
    hide Step, Changes, RegistryOk;
    TwoSteps(h, Outside(x, v), event);
    StepKeepsRegistry(h, Outside(x, v));
    WriteReads(h, x, v);
    SettingChangesExactly(Step(h, Outside(x, v)), event, x);
    SameChanges(h, x, v, event);
  }

  lemma TwoSteps(h: Helper, a: Event, b: Event)
    ensures RunFrom(h, [a, b]) == Step(Step(h, a), b)
  {
    hide Step;
    assert [a, b][..1] == [a] && [a][..0] == [];
    assert RunFrom(h, [a]) == Step(RunFrom(h, []), a);
  }

  lemma WriteReads(h: Helper, x: Receiver, v: Setting)
    ensures Read(Step(h, Outside(x, v)), x) == v
    ensures Exact(h) ==> Exact(Step(h, Outside(x, v)))
  {}

  lemma SameChanges(h: Helper, x: Receiver, v: Setting, event: Event)
    ensures Changes(Step(h, Outside(x, v)), event, x, v) == Changes(h, event, x, v)
  {
    hide Shows, ShownKnown, ShownIn;
  }

  /** So an outside value survives disabling exactly if the helper does not take it for its own. */
  lemma DisablingKeepsExactly(h: Helper, x: Receiver, v: Setting)
    requires RegistryOk(h) && Exact(h) && h.receivers.Has(x)
    ensures Read(RunFrom(h, [Outside(x, v), Disabling]), x) == v
            <==> v != h.receivers.Get(x).applied || v == h.receivers.Get(x).original
  {
    hide RegistryOk, RunFrom;
    OutsideValueSurvivesExactly(h, x, v, Disabling);
  }

  /** Over a whole run a setting stays as it is for as long as no event changes it. */
  lemma {:induction false} ValueIsKept(h: Helper, events: seq<Event>, x: Receiver)
    requires RegistryOk(h) && Exact(h)
    requires forall i :: 0 <= i < |events| ==> !Changes(RunFrom(h, events[..i]), events[i], x, Read(h, x))
    ensures RegistryOk(RunFrom(h, events)) && Exact(RunFrom(h, events))
    ensures Read(RunFrom(h, events), x) == Read(h, x)
  {
    hide RegistryOk, Step, Changes, Read, Exact;
    if events != [] {
      var n := |events| - 1;
      forall i | 0 <= i < n ensures !Changes(RunFrom(h, events[..n][..i]), events[..n][i], x, Read(h, x)) {
        assert events[..n][..i] == events[..i];
      }
      ValueIsKept(h, events[..n], x);
      StepKeepsRegistry(RunFrom(h, events[..n]), events[n]);
      SettingChangesExactly(RunFrom(h, events[..n]), events[n], x);
    }
  }

  // ----- applications that fail -----

  /** The application of the target to `r` fails. */
  predicate Fails(h: Helper, r: Receiver) {
    Eligible(h, r) && !ApplyReceiver(h, r).receivers.Has(r)
  }

  /** What the write of the target leaves. */
  function Left(h: Helper, r: Receiver): Setting {
    match Next(h.page.applies)
    case Takes => Some(h.targetMs)
    case Throws => Read(h, r)
    case Coerces(actual) => actual
  }

  /** An application fails exactly if a write is needed and does not leave the target. */
  lemma FailsExactly(h: Helper, r: Receiver)
    requires Eligible(h, r)
    ensures Fails(h, r) <==> Read(h, r) != Some(h.targetMs) && Left(h, r) != Some(h.targetMs)
  {
    hide DropFrom;
  }

  /** A first application that fails leaves the setting alone exactly if the write was refused, or left
      the value that was there. */
  lemma FailedApplicationKeepsExactly(h: Helper, r: Receiver)
    requires Fails(h, r) && !h.receivers.Has(r)
    ensures Read(ApplyReceiver(h, r), r) == Left(h, r)
    ensures Read(ApplyReceiver(h, r), r) == Read(h, r)
            <==> Next(h.page.applies).Throws? || Next(h.page.applies) == Coerces(Read(h, r))
  {
    hide DropFrom;
    FailsExactly(h, r);
  }

  /** A later one gives the original back exactly if the write left what was applied before, or the
      original itself. */
  lemma FailedReapplicationRestoresExactly(h: Helper, r: Receiver)
    requires Fails(h, r) && h.receivers.Has(r) && h.page.restores == []
    ensures Read(ApplyReceiver(h, r), r) == h.receivers.Get(r).original
            <==> Left(h, r) == h.receivers.Get(r).applied || Left(h, r) == h.receivers.Get(r).original
  {
    hide DropFrom;
    FailsExactly(h, r);
  }
}
