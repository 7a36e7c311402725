/** The listener helper over whole runs: disabled, it has left no trace on any receiver whose setting
    nobody else touched while the helper had it. */
module ReceiverBufferUndo {
  import opened Options
  import opened OrderedMap
  import opened ReceiverBuffer
  import opened ReceiverBufferLaws

  /** Tracked, the receiver holds what was applied and its own value is on record; otherwise it holds
      its own value. */
  ghost predicate Clean(h: Helper, r: Receiver) {
    if h.receivers.Has(r)
    then h.receivers.Get(r).original == Value(h.own, r) && Read(h, r) == h.receivers.Get(r).applied
    else Read(h, r) == Value(h.own, r)
  }

  ghost predicate Honest(h: Helper) {
    forall r :: r !in h.spoiled ==> Clean(h, r)
  }

  /** Every write that restores succeeds, and no write leaves a value nobody asked for. */
  ghost predicate Faultless(h: Helper) {
    h.page.restores == [] && forall i :: 0 <= i < |h.page.applies| ==> !h.page.applies[i].Coerces?
  }

  /** From `h` to `f` nothing new is spoiled, so long as the page is faultless. */
  ghost predicate SpoilsNothing(h: Helper, f: Helper) {
    Faultless(h) ==> Faultless(f) && forall r :: r in f.spoiled ==> r in h.spoiled
  }

  /** A step that keeps `f` honest, spoils nothing, and leaves every receiver its own value. */
  ghost predicate Fair(h: Helper, f: Helper) {
    (Honest(h) ==> Honest(f)) && SpoilsNothing(h, f) && f.own == h.own
  }

  lemma FairTwice(h: Helper, g: Helper, f: Helper)
    requires Fair(h, g) && Fair(g, f)
    ensures Fair(h, f)
  {
    hide Honest, Faultless;
  }

  lemma FairHere(h: Helper)
    ensures Fair(h, h)
  {}

  lemma RestoreIsFair(h: Helper, r: Receiver)
    ensures Fair(h, RestoreReceiver(h, r))
  {
    hide DropFrom;
  }

  /** While `r` is being written to, it may hold its own value although it is tracked. */
  ghost predicate Pending(h: Helper, r: Receiver) {
    (forall x :: x != r && x !in h.spoiled ==> Clean(h, x))
    && (r !in h.spoiled ==>
          h.receivers.Has(r) && h.receivers.Get(r).original == Value(h.own, r)
          && (Read(h, r) == h.receivers.Get(r).applied || Read(h, r) == h.receivers.Get(r).original))
  }

  lemma RestoreSettles(h: Helper, r: Receiver)
    requires Pending(h, r)
    ensures Honest(RestoreReceiver(h, r))
  {
    hide DropFrom;
  }

  lemma TrackedIsPending(h: Helper, r: Receiver)
    requires Honest(h)
    ensures Pending(Tracked(h, r), r)
  {}

  lemma AppliedSettles(h: Helper, r: Receiver)
    requires Pending(h, r) && h.receivers.Has(r) && Read(h, r) == Some(h.targetMs)
    ensures Honest(Applied(h, r))
  {}

  lemma WriteTargetIsPending(h: Helper, r: Receiver)
    requires Pending(h, r)
    ensures Next(h.page.applies).Throws? || Next(h.page.applies).Coerces? ==> Pending(WriteTarget(h, r), r)
    ensures Next(h.page.applies).Takes? && h.receivers.Has(r) ==> Honest(Applied(WriteTarget(h, r), r))
    ensures Read(WriteTarget(h, r), r) == Some(h.targetMs) && h.receivers.Has(r) ==>
              Honest(Applied(WriteTarget(h, r), r))
  {}

  lemma WriteTargetSpoilsNothing(h: Helper, r: Receiver)
    ensures SpoilsNothing(h, WriteTarget(h, r))
  {}

  lemma ApplyIsHonest(h: Helper, r: Receiver)
    requires Honest(h)
    ensures Honest(ApplyReceiver(h, r))
  {
    hide Honest, Pending, RestoreReceiver, Applied, Eligible, Read, Written;
    var tracked := Tracked(h, r);
    TrackedIsPending(h, r);
    if Read(tracked, r) == Some(h.targetMs) {
      AppliedSettles(tracked, r);
    } else {
      WriteTargetIsPending(tracked, r);
      assert Next(h.page.applies).Takes? ==> Read(WriteTarget(tracked, r), r) == Some(h.targetMs) by {
        WriteTargetTakes(tracked, r);
      }
      if Pending(WriteTarget(tracked, r), r) {
        RestoreSettles(WriteTarget(tracked, r), r);
      }
    }
  }

  lemma WriteTargetTakes(h: Helper, r: Receiver)
    ensures Next(h.page.applies).Takes? ==> Read(WriteTarget(h, r), r) == Some(h.targetMs)
  {}

  lemma ApplyIsFair(h: Helper, r: Receiver)
    ensures Fair(h, ApplyReceiver(h, r))
  {
    hide Honest, RestoreReceiver, Faultless, Eligible, Read, WriteTarget;
    if Honest(h) {
      ApplyIsHonest(h, r);
    }
    var written := WriteTarget(Tracked(h, r), r);
    assert Tracked(h, r).own == h.own && Tracked(h, r).spoiled == h.spoiled;
    assert Faultless(Tracked(h, r)) == Faultless(h) by { SameFaults(h, Tracked(h, r)); }
    WriteTargetSpoilsNothing(Tracked(h, r), r);
    WriteTargetKeepsOwn(Tracked(h, r), r);
    RestoreIsFair(written, r);
    AppliedIsQuiet(Tracked(h, r), r);
    AppliedIsQuiet(written, r);
  }

  lemma SameFaults(h: Helper, f: Helper)
    requires f.page.applies == h.page.applies && f.page.restores == h.page.restores
    ensures Faultless(f) == Faultless(h)
  {}

  lemma WriteTargetKeepsOwn(h: Helper, r: Receiver)
    ensures WriteTarget(h, r).own == h.own && WriteTarget(h, r).receivers == h.receivers
  {}

  lemma AppliedIsQuiet(h: Helper, r: Receiver)
    ensures h.receivers.Has(r) ==> Faultless(Applied(h, r)) == Faultless(h)
  {}

  lemma {:induction false} RestoreAllIsFair(h: Helper, receivers: seq<Receiver>)
    ensures Fair(h, RestoreAll(h, receivers))
  {
    hide Fair, RestoreReceiver;
    if receivers == [] {
      FairHere(h);
    } else {
      var n := |receivers| - 1;
      RestoreAllIsFair(h, receivers[..n]);
      RestoreIsFair(RestoreAll(h, receivers[..n]), receivers[n]);
      FairTwice(h, RestoreAll(h, receivers[..n]), RestoreAll(h, receivers));
    }
  }

  /** Steps that touch only the connections, the listeners and the switches are fair. */
  lemma RegistryOnlyIsFair(h: Helper, f: Helper)
    requires f.receivers == h.receivers && f.own == h.own && f.spoiled == h.spoiled
    requires f.page.settings == h.page.settings && f.page.applies == h.page.applies
    requires f.page.restores == h.page.restores
    ensures Fair(h, f)
  {}

  lemma DetachIsFair(h: Helper, peer: nat)
    ensures Fair(h, DetachPeer(h, peer))
  {
    hide Fair, RestoreAll;
    FairHere(h);
    if h.peers.Has(peer) {
      RegistryOnlyIsFair(h, Unlistened(h, peer));
      RestoreAllIsFair(Unlistened(h, peer), h.peers.Get(peer));
      FairTwice(h, Unlistened(h, peer), DetachPeer(h, peer));
    }
  }

  lemma {:induction false} DetachAllIsFair(h: Helper, peers: seq<nat>)
    ensures Fair(h, DetachAll(h, peers))
  {
    hide Fair, DetachPeer;
    if peers == [] {
      FairHere(h);
    } else {
      var n := |peers| - 1;
      DetachAllIsFair(h, peers[..n]);
      DetachIsFair(DetachAll(h, peers[..n]), peers[n]);
      FairTwice(h, DetachAll(h, peers[..n]), DetachAll(h, peers));
    }
  }

  lemma DisableIsFair(h: Helper)
    ensures Fair(h, Disable(h))
  {
    hide Fair, DetachAll, RestoreAll;
    var off := h.(enabled := false);
    var detached := DetachAll(off, off.peers.keys);
    RegistryOnlyIsFair(h, off);
    DetachAllIsFair(off, off.peers.keys);
    FairTwice(h, off, detached);
    RestoreAllIsFair(detached, detached.receivers.keys);
    FairTwice(h, detached, Disable(h));
  }

  lemma TakeIsFair(h: Helper, peer: nat, r: Receiver)
    ensures Fair(h, Take(h, peer, r))
  {
    hide Fair, ApplyReceiver;
    ApplyIsFair(h, r);
    RegistryOnlyIsFair(ApplyReceiver(h, r), Take(h, peer, r));
    FairTwice(h, ApplyReceiver(h, r), Take(h, peer, r));
  }

  lemma {:induction false} TakeAllIsFair(h: Helper, peer: nat, receivers: seq<Receiver>)
    ensures Fair(h, TakeAll(h, peer, receivers))
  {
    hide Fair, Take;
    FairHere(h);
    if receivers != [] {
      var n := |receivers| - 1;
      TakeAllIsFair(h, peer, receivers[..n]);
      TakeIsFair(TakeAll(h, peer, receivers[..n]), peer, receivers[n]);
      FairTwice(h, TakeAll(h, peer, receivers[..n]), Take(TakeAll(h, peer, receivers[..n]), peer, receivers[n]));
    }
  }

  lemma AttachIsFair(h: Helper, view: View)
    ensures Fair(h, AttachPeer(h, view))
  {
    hide Fair, TakeAll;
    FairHere(h);
    var listened := Listened(h, view.peer);
    RegistryOnlyIsFair(h, listened);
    TakeAllIsFair(listened, view.peer, view.receivers);
    FairTwice(h, listened, TakeAll(listened, view.peer, view.receivers));
  }

  lemma {:induction false} AttachKnownIsFair(h: Helper, peers: seq<nat>, views: map<nat, View>)
    ensures Fair(h, AttachKnown(h, peers, views))
  {
    hide Fair, AttachPeer;
    FairHere(h);
    if peers != [] {
      var n := |peers| - 1;
      AttachKnownIsFair(h, peers[..n], views);
      AttachIsFair(AttachKnown(h, peers[..n], views), ViewOf(views, peers[n]));
      FairTwice(h, AttachKnown(h, peers[..n], views), AttachKnown(h, peers, views));
    }
  }

  lemma {:induction false} AttachAllIsFair(h: Helper, views: seq<View>)
    ensures Fair(h, AttachAll(h, views))
  {
    hide Fair, AttachPeer;
    FairHere(h);
    if views != [] {
      var n := |views| - 1;
      AttachAllIsFair(h, views[..n]);
      AttachIsFair(AttachAll(h, views[..n]), views[n]);
      FairTwice(h, AttachAll(h, views[..n]), AttachAll(h, views));
    }
  }

  lemma EnableIsFair(h: Helper, ms: int, trial: bool, hooked: bool, views: map<nat, View>, retained: seq<View>)
    ensures Fair(h, Enable(h, ms, trial, hooked, views, retained).0)
  {
    hide Fair, Disable, AttachKnown, AttachAll;
    FairHere(h);
    var on := h.(targetMs := ms, enabled := true);
    var known := AttachKnown(on, on.peers.keys, views);
    RegistryOnlyIsFair(h, on);
    DisableIsFair(on);
    FairTwice(h, on, Disable(on));
    AttachKnownIsFair(on, on.peers.keys, views);
    AttachAllIsFair(known, retained);
    FairTwice(h, on, known);
    FairTwice(h, known, AttachAll(known, retained));
  }

  // ----- whole runs -----

  /** A receiver's own value, and whether it is known, change only with what the page does to it. */
  ghost predicate Disturbs(event: Event, r: Receiver) {
    (event.Outside? && event.receiver == r) || (event.EndedNotice? && event.receiver == r)
  }

  ghost predicate StepIsHonest(h: Helper, event: Event) {
    (Honest(h) ==> Honest(Step(h, event)))
    && (Faultless(h) ==> Faultless(Step(h, event))
                         && forall r :: !Disturbs(event, r) && r in Step(h, event).spoiled ==> r in h.spoiled)
    && forall r :: !Disturbs(event, r) ==> Value(Step(h, event).own, r) == Value(h.own, r)
  }

  lemma FairIsHonest(h: Helper, event: Event)
    requires Fair(h, Step(h, event))
    ensures StepIsHonest(h, event)
  {
    hide Step, Honest, Faultless;
  }

  lemma EveryStepIsHonest(h: Helper, event: Event)
    ensures StepIsHonest(h, event)
  {
    hide StepIsHonest, Fair, Enable, Disable, AttachPeer, DetachPeer, Take, ForgetReceiver;
    match event {
      case Enabling(ms, trial, hooked, views, retained) =>
        EnableIsFair(h, ms, trial, hooked, views, retained);
        FairIsHonest(h, event);
      case Disabling => DisableIsFair(h); FairIsHonest(h, event);
      case Attaching(view) => AttachIsFair(h, view); FairIsHonest(h, event);
      case Closing(peer) => DetachIsFair(h, peer); FairIsHonest(h, event);
      case Arrival(peer, receiver) => FairHere(h); TakeIsFair(h, peer, receiver); FairIsHonest(h, event);
      case StateChange(peer, closed) => FairHere(h); DetachIsFair(h, peer); FairIsHonest(h, event);
      case Stopping(receiver) => RegistryOnlyIsFair(h, Step(h, event)); FairIsHonest(h, event);
      case EndedNotice(receiver) => EndedIsHonest(h, receiver);
      case Outside(receiver, value) => WriteIsHonest(h, receiver, value);
    }
  }

  lemma EndedIsHonest(h: Helper, r: Receiver)
    ensures StepIsHonest(h, EndedNotice(r))
  {
    hide DropFrom;
  }

  lemma WriteIsHonest(h: Helper, r: Receiver, v: Setting)
    ensures StepIsHonest(h, Outside(r, v))
  {
    hide Faultless;
    SameFaults(h, Write(h, r, v));
    forall x | x !in Write(h, r, v).spoiled && Honest(h) ensures Clean(Write(h, r, v), x) {
      assert x != r ==> Clean(h, x);
    }
  }

  lemma {:induction false} ReachableHelper(h: Helper, events: seq<Event>)
    requires RegistryOk(h) && Honest(h)
    ensures RegistryOk(RunFrom(h, events)) && Honest(RunFrom(h, events))
  {
    hide RegistryOk, Honest, Step, Faultless, Disturbs;
    if events != [] {
      var n := |events| - 1;
      ReachableHelper(h, events[..n]);
      StepKeepsRegistry(RunFrom(h, events[..n]), events[n]);
      EveryStepIsHonest(RunFrom(h, events[..n]), events[n]);
    }
  }

  lemma {:induction false} UndisturbedStaysKnown(h: Helper, events: seq<Event>, r: Receiver)
    requires Faultless(h) && r !in h.spoiled
    requires forall i :: 0 <= i < |events| ==> !Disturbs(events[i], r)
    ensures var f := RunFrom(h, events);
            Faultless(f) && r !in f.spoiled && Value(f.own, r) == Value(h.own, r)
  {
    hide Honest, Step, Faultless, Disturbs;
    if events != [] {
      var n := |events| - 1;
      UndisturbedStaysKnown(h, events[..n], r);
      EveryStepIsHonest(RunFrom(h, events[..n]), events[n]);
    }
  }

  lemma LoadedIsOk(settings: map<Receiver, Setting>, ended: set<Receiver>, applies: seq<Outcome>,
                   restores: seq<Outcome>)
    ensures var h := Loaded(settings, ended, applies, restores);
            RegistryOk(h) && Honest(h)
  {}

  /** Whatever happened before, on any page: once disabled, every receiver whose own value is known
      holds it. */
  lemma DisabledIsTransparent(settings: map<Receiver, Setting>, ended: set<Receiver>, applies: seq<Outcome>,
                              restores: seq<Outcome>, events: seq<Event>, r: Receiver)
    requires r !in RunFrom(Loaded(settings, ended, applies, restores), events + [Disabling]).spoiled
    ensures var f := RunFrom(Loaded(settings, ended, applies, restores), events + [Disabling]);
            Read(f, r) == Value(f.own, r)
  {
    hide RegistryOk, Disable, Loaded, Read;
    var h := Loaded(settings, ended, applies, restores);
    LoadedIsOk(settings, ended, applies, restores);
    ReachableHelper(h, events);
    assert (events + [Disabling])[..|events|] == events;
    var before := RunFrom(h, events);
    DisableIsFair(before);
    assert RegistryOk(before);
    DisableLeavesNothing(before);
  }

  lemma DisableLeavesNothing(h: Helper)
    requires RegistryOk(h)
    ensures Nothing(Disable(h))
  {
    hide Shape, Owned, Disable;
    DisableEmpties(h);
  }

  /** So a receiver that nobody else writes to, and whose ending is not announced, has the setting it
      started with, provided writes are exact or refused and restoring writes succeed. */
  lemma NoTraceIsLeft(settings: map<Receiver, Setting>, ended: set<Receiver>, applies: seq<Outcome>,
                      events: seq<Event>, r: Receiver)
    requires forall i :: 0 <= i < |applies| ==> !applies[i].Coerces?
    requires forall i :: 0 <= i < |events| ==> !Disturbs(events[i], r)
    ensures Read(RunFrom(Loaded(settings, ended, applies, []), events + [Disabling]), r) == Value(settings, r)
  {
    hide RunFrom;
    UndisturbedStaysKnown(Loaded(settings, ended, applies, []), events + [Disabling], r);
    DisabledIsTransparent(settings, ended, applies, [], events, r);
  }

  // ----- an overridden value -----

  /** A value written from outside and overridden by a track event is not restored: disabling gives the
      first original back instead. */
  lemma ReapplyingForgetsTheOutsideValue(h: Helper, peer: nat, r: Receiver, v: Setting)
    requires RegistryOk(h) && OwnedBy(h, peer, r) && Eligible(h, r)
    requires h.page.applies == [] && h.page.restores == []
    ensures var f := RunFrom(h, [Outside(r, v), Arrival(peer, r), Disabling]);
            Read(f, r) == h.receivers.Get(r).original
  {
    hide RegistryOk, Disable, RunFrom, ApplyReceiver;
    var written := Step(h, Outside(r, v));
    var arrived := Step(written, Arrival(peer, r));
    StepKeepsRegistry(h, Outside(r, v));
    StepKeepsRegistry(written, Arrival(peer, r));
    ThreeSteps(h, Outside(r, v), Arrival(peer, r), Disabling);
    PeerIsListenedTo(h, peer, r);
    ReappliedKeepsOriginal(written, peer, r);
    DisableUndoesItsOwnChange(arrived);
  }

  lemma ThreeSteps(h: Helper, a: Event, b: Event, c: Event)
    ensures RunFrom(h, [a, b, c]) == Step(Step(Step(h, a), b), c)
  {
    hide Step;
    assert [a, b, c][..2] == [a, b] && [a, b][..1] == [a] && [a][..0] == [];
    assert RunFrom(h, [a]) == Step(RunFrom(h, []), a);
    assert RunFrom(h, [a, b]) == Step(RunFrom(h, [a]), b);
  }

  lemma PeerIsListenedTo(h: Helper, peer: nat, r: Receiver)
    requires RegistryOk(h) && OwnedBy(h, peer, r)
    ensures peer in h.page.trackListeners && h.receivers.Has(r)
  {
    assert h.page.trackListeners[peer] == 1;
  }

  lemma ReappliedKeepsOriginal(h: Helper, peer: nat, r: Receiver)
    requires h.receivers.Has(r) && Eligible(h, r) && h.page.applies == []
    ensures var f := Take(h, peer, r);
            f.receivers.Has(r) && f.receivers.Get(r).original == h.receivers.Get(r).original
            && f.receivers.Get(r).applied == Some(h.targetMs) && Read(f, r) == Some(h.targetMs)
            && f.page.restores == h.page.restores
  {
    hide RestoreReceiver;
  }
}
