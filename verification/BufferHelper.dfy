/** The listener helper as the source writes it: closures over mutable maps. Each method does to the
    fields what the specification in `ReceiverBuffer` says. */
module BufferHelper {
  import opened Options
  import opened OrderedMap
  import opened ReceiverBuffer

  class Registry {
    var enabled: bool
    var targetMs: int
    var peers: Dict<nat, seq<Receiver>>
    var receivers: Dict<Receiver, Record>
    var page: Page
    ghost var own: map<Receiver, Setting>
    ghost var spoiled: set<Receiver>

    ghost function State(): Helper
      reads this
    {
      Helper(enabled, targetMs, peers, receivers, page, own, spoiled)
    }

    constructor (settings: map<Receiver, Setting>, ended: set<Receiver>, applies: seq<Outcome>,
                 restores: seq<Outcome>)
      ensures State() == Loaded(settings, ended, applies, restores)
    {
      enabled, targetMs, peers, receivers := false, 120, Empty(), Empty();
      page := Page(settings, ended, multiset{}, multiset{}, multiset{}, applies, restores);
      own, spoiled := settings, {};
    }

    method Forget(r: Receiver)
      modifies this`page, this`receivers, this`peers
      ensures State() == ForgetReceiver(old(State()), r)
    {
      if !receivers.Has(r) {
        return;
      }
      page := page.(endedListeners := page.endedListeners - multiset{r});
      receivers := receivers.Delete(r);
      Drop(r);
    }

    method Drop(r: Receiver)
      modifies this`peers
      ensures peers == DropFrom(old(peers), old(peers).keys, r)
    {
      var keys := peers.keys;
      var i := 0;
      while i < |keys|
        invariant 0 <= i <= |keys| && peers == DropFrom(old(peers), keys[..i], r)
      {
        assert keys[..i + 1][..i] == keys[..i];
        if peers.Has(keys[i]) {
          peers := peers.Put(keys[i], Without(peers.Get(keys[i]), r));
        }
        i := i + 1;
      }
      assert keys[..i] == keys;
    }

    method Restore(r: Receiver)
      modifies this`page, this`receivers, this`peers, this`spoiled
      ensures State() == RestoreReceiver(old(State()), r)
    {
      if !receivers.Has(r) {
        return;
      }
      var record := receivers.Get(r);
      if Value(page.settings, r) == record.applied {
        page := page.(settings := Written(page.settings, r, record.original, Next(page.restores)),
                      restores := Rest(page.restores));
        if Value(page.settings, r) != record.original {
          spoiled := spoiled + {r};
        }
      }
      Forget(r);
    }

    method Apply(r: Receiver)
      modifies this`page, this`receivers, this`peers, this`spoiled
      ensures State() == ApplyReceiver(old(State()), r)
    {
      hide ForgetReceiver;
      if !(enabled && r.audio && r !in page.ended && r.supported) {
        return;
      }
      if !receivers.Has(r) {
        receivers := receivers.Put(r, Record(Value(page.settings, r), Some(targetMs)));
        page := page.(endedListeners := page.endedListeners + multiset{r});
      }
      ghost var tracked := State();
      assert tracked == Tracked(old(State()), r);
      if Value(page.settings, r) != Some(targetMs) {
        var outcome := Next(page.applies);
        page := page.(settings := Written(page.settings, r, Some(targetMs), outcome),
                      applies := Rest(page.applies));
        if outcome.Coerces? {
          spoiled := spoiled + {r};
        }
        assert State() == WriteTarget(tracked, r);
        if outcome.Throws? || Value(page.settings, r) != Some(targetMs) {
          Restore(r);
          return;
        }
      }
      receivers := receivers.Put(r, receivers.Get(r).(applied := Some(targetMs)));
    }

    method Detach(peer: nat)
      modifies this`page, this`receivers, this`peers, this`spoiled
      ensures State() == DetachPeer(old(State()), peer)
    {
      if !peers.Has(peer) {
        return;
      }
      var listed := peers.Get(peer);
      page := page.(trackListeners := page.trackListeners - multiset{peer},
                    stateListeners := page.stateListeners - multiset{peer});
      peers := peers.Delete(peer);
      assert State() == Unlistened(old(State()), peer);
      RestoreEach(listed);
    }

    method RestoreEach(listed: seq<Receiver>)
      modifies this`page, this`receivers, this`peers, this`spoiled
      ensures State() == RestoreAll(old(State()), listed)
    {
      hide RestoreReceiver;
      var i := 0;
      while i < |listed|
        invariant 0 <= i <= |listed| && State() == RestoreAll(old(State()), listed[..i])
      {
        assert listed[..i + 1][..i] == listed[..i];
        Restore(listed[i]);
        i := i + 1;
      }
      assert listed[..i] == listed;
    }

    method ApplyAndNote(peer: nat, r: Receiver)
      modifies this`page, this`receivers, this`peers, this`spoiled
      ensures State() == Take(old(State()), peer, r)
    {
      hide ApplyReceiver;
      Apply(r);
      if receivers.Has(r) && peers.Has(peer) && r !in peers.Get(peer) {
        peers := peers.Put(peer, peers.Get(peer) + [r]);
      }
    }

    method Attach(view: View)
      modifies this`page, this`receivers, this`peers, this`spoiled
      ensures State() == AttachPeer(old(State()), view)
    {
      hide Take;
      if !enabled || view.closed {
        return;
      }
      if !peers.Has(view.peer) {
        page := page.(trackListeners := page.trackListeners + multiset{view.peer},
                      stateListeners := page.stateListeners + multiset{view.peer});
        peers := peers.Put(view.peer, []);
      }
      ghost var listened := State();
      assert listened == Listened(old(State()), view.peer);
      ghost var ended := page.ended;
      var i := 0;
      while i < |view.receivers|
        invariant 0 <= i <= |view.receivers|
        invariant State() == TakeAll(listened, view.peer, view.receivers[..i])
        invariant page.ended == listened.page.ended
      {
        assert view.receivers[..i + 1][..i] == view.receivers[..i];
        if view.receivers[i].audio && view.receivers[i] !in page.ended {
          TakeKeepsEnded(State(), view.peer, view.receivers[i]);
          ApplyAndNote(view.peer, view.receivers[i]);
        }
        i := i + 1;
      }
      assert view.receivers[..i] == view.receivers;
    }

    method Arrived(peer: nat, r: Receiver)
      modifies this`page, this`receivers, this`peers, this`spoiled
      ensures State() == TrackEvent(old(State()), peer, r)
    {
      hide Take;
      if peer in page.trackListeners && r.audio {
        ApplyAndNote(peer, r);
      }
    }

    method StateChanged(peer: nat, closed: bool)
      modifies this`page, this`receivers, this`peers, this`spoiled
      ensures State() == StateEvent(old(State()), peer, closed)
    {
      hide DetachPeer;
      if peer in page.stateListeners && closed {
        Detach(peer);
      }
    }

    method TrackEnded(r: Receiver)
      modifies this`page, this`receivers, this`peers, this`spoiled
      ensures State() == EndedEvent(old(State()), r)
    {
      hide ForgetReceiver;
      if r in page.endedListeners {
        spoiled := spoiled + {r};
        Forget(r);
      }
    }

    method TurnOff()
      modifies this`enabled, this`page, this`receivers, this`peers, this`spoiled
      ensures State() == Disable(old(State()))
    {
      hide RestoreAll, DetachPeer;
      enabled := false;
      ghost var off := State();
      var known := peers.keys;
      var i := 0;
      while i < |known|
        invariant 0 <= i <= |known| && State() == DetachAll(off, known[..i])
      {
        assert known[..i + 1][..i] == known[..i];
        Detach(known[i]);
        i := i + 1;
      }
      assert known[..i] == known;
      RestoreEach(receivers.keys);
    }

    method TurnOn(ms: int, trial: bool, hooked: bool, views: map<nat, View>, retained: seq<View>)
      returns (ok: bool)
      modifies this`enabled, this`targetMs, this`page, this`receivers, this`peers, this`spoiled
      ensures (State(), ok) == Enable(old(State()), ms, trial, hooked, views, retained)
    {
      hide Disable, AttachPeer;
      if !(0 <= ms <= MAX_TARGET_MS) || trial {
        return false;
      }
      targetMs := ms;
      if !enabled {
        enabled := true;
        if !hooked {
          TurnOff();
          return false;
        }
      }
      AttachEvery(views, retained);
      ok := true;
    }

    method AttachEvery(views: map<nat, View>, retained: seq<View>)
      modifies this`page, this`receivers, this`peers, this`spoiled
      ensures State() == AttachAll(AttachKnown(old(State()), old(peers).keys, views), retained)
    {
      hide AttachPeer;
      var known := peers.keys;
      var i := 0;
      while i < |known|
        invariant 0 <= i <= |known| && State() == AttachKnown(old(State()), known[..i], views)
      {
        assert known[..i + 1][..i] == known[..i];
        Attach(ViewOf(views, known[i]));
        i := i + 1;
      }
      assert known[..i] == known;
      ghost var attached := State();
      i := 0;
      while i < |retained|
        invariant 0 <= i <= |retained| && State() == AttachAll(attached, retained[..i])
      {
        assert retained[..i + 1][..i] == retained[..i];
        Attach(retained[i]);
        i := i + 1;
      }
      assert retained[..i] == retained;
    }

    /** What the page does to a receiver by itself. */
    method OutsideWrite(r: Receiver, v: Setting)
      modifies this`page, this`own, this`spoiled
      ensures State() == Write(old(State()), r, v)
    {
      page := page.(settings := page.settings[r := v]);
      if receivers.Has(r) {
        spoiled := spoiled + {r};
      } else {
        own := own[r := v];
        spoiled := spoiled - {r};
      }
    }

    method OutsideStop(r: Receiver)
      modifies this`page
      ensures State() == Ended(old(State()), r)
    {
      page := page.(ended := page.ended + {r});
    }

    method Handle(event: Event)
      modifies this
      ensures State() == Step(old(State()), event)
    {
      hide Enable, Disable, AttachPeer, DetachPeer, TrackEvent, StateEvent, EndedEvent, Write, Ended;
      match event {
        case Enabling(ms, trial, hooked, views, retained) =>
          var _ := TurnOn(ms, trial, hooked, views, retained);
        case Disabling => TurnOff();
        case Attaching(view) => Attach(view);
        case Closing(peer) => Detach(peer);
        case Arrival(peer, receiver) => Arrived(peer, receiver);
        case StateChange(peer, closed) => StateChanged(peer, closed);
        case Stopping(receiver) => OutsideStop(receiver);
        case EndedNotice(receiver) => TrackEnded(receiver);
        case Outside(receiver, value) => OutsideWrite(receiver, value);
      }
    }
  }

  lemma TakeKeepsEnded(h: Helper, peer: nat, r: Receiver)
    ensures Take(h, peer, r).page.ended == h.page.ended
  {
    hide RestoreReceiver, Written, Dict.Put, Dict.Get;
    RestoreKeepsEnded(WriteTarget(Tracked(h, r), r), r);
  }

  lemma RestoreKeepsEnded(h: Helper, r: Receiver)
    ensures RestoreReceiver(h, r).page.ended == h.page.ended
  {
    hide DropFrom, Written, Dict.Delete;
  }

  /** The helper over a whole run is the specification's run. */
  method RunHelper(settings: map<Receiver, Setting>, ended: set<Receiver>, applies: seq<Outcome>,
                   restores: seq<Outcome>, events: seq<Event>) returns (registry: Registry)
    ensures registry.State() == RunFrom(Loaded(settings, ended, applies, restores), events)
  {
    hide Step, Loaded;
    registry := new Registry(settings, ended, applies, restores);
    var i := 0;
    while i < |events|
      invariant 0 <= i <= |events| && fresh(registry)
      invariant registry.State() == RunFrom(Loaded(settings, ended, applies, restores), events[..i])
    {
      assert events[..i + 1][..i] == events[..i];
      registry.Handle(events[i]);
      i := i + 1;
    }
    assert events[..i] == events;
  }
}
