/** The listener helper of `clients/discord-receiver/receiver_buffer.js`: it overrides one setting of
    every live audio receiver of the page's connections, and later takes back its own change. */
module ReceiverBuffer {
  import opened Options
  import opened OrderedMap

  const MAX_TARGET_MS: int := 300

  /** A receiver, with what never changes about it. */
  datatype Receiver = Receiver(id: nat, audio: bool, supported: bool)

  /** The value of a receiver's setting; a page may leave it unset. */
  type Setting = Option<int>

  datatype Record = Record(original: Setting, applied: Setting)

  /** What the browser makes of a write: the exact value, an exception, or some other value. */
  datatype Outcome = Takes | Throws | Coerces(actual: Setting)

  /** A connection as it is when the helper looks at it. */
  datatype View = View(peer: nat, closed: bool, receivers: seq<Receiver>)

  /** The page around the helper: the settings, the ended tracks, the helper's listeners, and the
      outcomes of its coming writes, which are taken exactly once the listed ones are used up. */
  datatype Page = Page(
    settings: map<Receiver, Setting>, ended: set<Receiver>, endedListeners: multiset<Receiver>,
    trackListeners: multiset<nat>, stateListeners: multiset<nat>,
    applies: seq<Outcome>, restores: seq<Outcome>)

  /** `own` is what each receiver's setting would be without the helper, and `spoiled` the receivers
      for which that is no longer known: see `Write`, `EndedEvent` and the two kinds of write. */
  datatype Helper = Helper(
    enabled: bool, targetMs: int, peers: Dict<nat, seq<Receiver>>, receivers: Dict<Receiver, Record>,
    page: Page, own: map<Receiver, Setting>, spoiled: set<Receiver>)

  function Value(settings: map<Receiver, Setting>, r: Receiver): Setting {
    if r in settings then settings[r] else None
  }

  function Read(h: Helper, r: Receiver): Setting {
    Value(h.page.settings, r)
  }

  function Next(outcomes: seq<Outcome>): Outcome {
    if outcomes == [] then Takes else outcomes[0]
  }

  function Rest(outcomes: seq<Outcome>): seq<Outcome> {
    if outcomes == [] then [] else outcomes[1..]
  }

  function Written(settings: map<Receiver, Setting>, r: Receiver, v: Setting, outcome: Outcome)
    : map<Receiver, Setting>
  {
    match outcome
    case Takes => settings[r := v]
    case Throws => settings
    case Coerces(actual) => settings[r := actual]
  }

  // ----- one receiver -----

  function DropFrom(peers: Dict<nat, seq<Receiver>>, keys: seq<nat>, r: Receiver): Dict<nat, seq<Receiver>> {
    if keys == [] then peers
    else
      var peer := keys[|keys| - 1];
      var before := DropFrom(peers, keys[..|keys| - 1], r);
      if before.Has(peer) then before.Put(peer, Without(before.Get(peer), r)) else before
  }

  function ForgetReceiver(h: Helper, r: Receiver): Helper {
    if !h.receivers.Has(r) then h
    else
      h.(page := h.page.(endedListeners := h.page.endedListeners - multiset{r}),
         receivers := h.receivers.Delete(r),
         peers := DropFrom(h.peers, h.peers.keys, r))
  }

  /** The write that takes the helper's change back; anything but success spoils the receiver. */
  function WriteBack(h: Helper, r: Receiver, original: Setting): Helper {
    var settings := Written(h.page.settings, r, original, Next(h.page.restores));
    h.(page := h.page.(settings := settings, restores := Rest(h.page.restores)),
       spoiled := if Value(settings, r) == original then h.spoiled else h.spoiled + {r})
  }

  function RestoreReceiver(h: Helper, r: Receiver): Helper {
    if !h.receivers.Has(r) then h
    else
      var record := h.receivers.Get(r);
      ForgetReceiver(if Read(h, r) == record.applied then WriteBack(h, r, record.original) else h, r)
  }

  function Tracked(h: Helper, r: Receiver): Helper {
    if h.receivers.Has(r) then h
    else
      h.(page := h.page.(endedListeners := h.page.endedListeners + multiset{r}),
         receivers := h.receivers.Put(r, Record(Read(h, r), Some(h.targetMs))))
  }

  /** The write of the target; a value nobody asked for spoils the receiver. */
  function WriteTarget(h: Helper, r: Receiver): Helper {
    var outcome := Next(h.page.applies);
    h.(page := h.page.(settings := Written(h.page.settings, r, Some(h.targetMs), outcome),
                       applies := Rest(h.page.applies)),
       spoiled := if outcome.Coerces? then h.spoiled + {r} else h.spoiled)
  }

  predicate Eligible(h: Helper, r: Receiver) {
    h.enabled && r.audio && r !in h.page.ended && r.supported
  }

  function Applied(h: Helper, r: Receiver): Helper
    requires h.receivers.Has(r)
  {
    h.(receivers := h.receivers.Put(r, h.receivers.Get(r).(applied := Some(h.targetMs))))
  }

  function ApplyReceiver(h: Helper, r: Receiver): Helper {
    if !Eligible(h, r) then h
    else
      var tracked := Tracked(h, r);
      if Read(tracked, r) == Some(h.targetMs) then Applied(tracked, r)
      else
        var failed := Next(h.page.applies).Throws? || Read(WriteTarget(tracked, r), r) != Some(h.targetMs);
        if failed then RestoreReceiver(WriteTarget(tracked, r), r) else Applied(WriteTarget(tracked, r), r)
  }

  // ----- one connection -----

  function RestoreAll(h: Helper, receivers: seq<Receiver>): Helper {
    if receivers == [] then h
    else RestoreReceiver(RestoreAll(h, receivers[..|receivers| - 1]), receivers[|receivers| - 1])
  }

  function Unlistened(h: Helper, peer: nat): Helper {
    h.(page := h.page.(trackListeners := h.page.trackListeners - multiset{peer},
                       stateListeners := h.page.stateListeners - multiset{peer}),
       peers := h.peers.Delete(peer))
  }

  function DetachPeer(h: Helper, peer: nat): Helper {
    if !h.peers.Has(peer) then h else RestoreAll(Unlistened(h, peer), h.peers.Get(peer))
  }

  function Listened(h: Helper, peer: nat): Helper {
    if h.peers.Has(peer) then h
    else
      h.(page := h.page.(trackListeners := h.page.trackListeners + multiset{peer},
                         stateListeners := h.page.stateListeners + multiset{peer}),
         peers := h.peers.Put(peer, []))
  }

  /** Apply to a receiver of `peer` and, if that left it tracked, note it as one of the peer's. */
  function Take(h: Helper, peer: nat, r: Receiver): Helper {
    var applied := ApplyReceiver(h, r);
    if applied.receivers.Has(r) && applied.peers.Has(peer) && r !in applied.peers.Get(peer)
    then applied.(peers := applied.peers.Put(peer, applied.peers.Get(peer) + [r])) else applied
  }

  function TakeAll(h: Helper, peer: nat, receivers: seq<Receiver>): Helper {
    if receivers == [] then h
    else
      var before := TakeAll(h, peer, receivers[..|receivers| - 1]);
      var r := receivers[|receivers| - 1];
      if r.audio && r !in h.page.ended then Take(before, peer, r) else before
  }

  function AttachPeer(h: Helper, view: View): Helper {
    if !h.enabled || view.closed then h
    else TakeAll(Listened(h, view.peer), view.peer, view.receivers)
  }

  // ----- events -----

  /** The page announces a new track of a connection the helper listens to. */
  function TrackEvent(h: Helper, peer: nat, r: Receiver): Helper {
    if peer in h.page.trackListeners && r.audio then Take(h, peer, r) else h
  }

  function StateEvent(h: Helper, peer: nat, closed: bool): Helper {
    if peer in h.page.stateListeners && closed then DetachPeer(h, peer) else h
  }

  /** The ended event reaches the helper only while it listens; it leaves the setting as it is. */
  function EndedEvent(h: Helper, r: Receiver): Helper {
    if r in h.page.endedListeners then ForgetReceiver(h.(spoiled := h.spoiled + {r}), r) else h
  }

  /** The application or the user sets a receiver: its own value from then on, unless the helper has
      the receiver at the time. */
  function Write(h: Helper, r: Receiver, v: Setting): Helper {
    var page := h.page.(settings := h.page.settings[r := v]);
    if h.receivers.Has(r) then h.(page := page, spoiled := h.spoiled + {r})
    else h.(page := page, own := h.own[r := v], spoiled := h.spoiled - {r})
  }

  function Ended(h: Helper, r: Receiver): Helper {
    h.(page := h.page.(ended := h.page.ended + {r}))
  }

  // ----- enable and disable -----

  function ViewOf(views: map<nat, View>, peer: nat): View {
    if peer in views then views[peer].(peer := peer) else View(peer, false, [])
  }

  function AttachKnown(h: Helper, peers: seq<nat>, views: map<nat, View>): Helper {
    if peers == [] then h
    else AttachPeer(AttachKnown(h, peers[..|peers| - 1], views), ViewOf(views, peers[|peers| - 1]))
  }

  function AttachAll(h: Helper, views: seq<View>): Helper {
    if views == [] then h else AttachPeer(AttachAll(h, views[..|views| - 1]), views[|views| - 1])
  }

  function DetachAll(h: Helper, peers: seq<nat>): Helper {
    if peers == [] then h else DetachPeer(DetachAll(h, peers[..|peers| - 1]), peers[|peers| - 1])
  }

  function Disable(h: Helper): Helper {
    var off := h.(enabled := false);
    var detached := DetachAll(off, off.peers.keys);
    RestoreAll(detached, detached.receivers.keys)
  }

  /** `trial` says whether a buffer comparison is running, `hooked` whether the hooks could be
      installed, `views` what the known connections look like, and `retained` which others an earlier
      audit kept. The result says whether the call returned normally. */
  function Enable(h: Helper, ms: int, trial: bool, hooked: bool, views: map<nat, View>, retained: seq<View>)
    : (Helper, bool)
  {
    if !(0 <= ms <= MAX_TARGET_MS) || trial then (h, false)
    else
      var on := h.(targetMs := ms, enabled := true);
      if !h.enabled && !hooked then (Disable(on), false)
      else (AttachAll(AttachKnown(on, on.peers.keys, views), retained), true)
  }

  // ----- whole runs -----

  datatype Event =
    | Enabling(ms: int, trial: bool, hooked: bool, views: map<nat, View>, retained: seq<View>)
    | Disabling
    | Attaching(view: View)
    | Closing(peer: nat)
    | Arrival(peer: nat, receiver: Receiver)
    | StateChange(peer: nat, closed: bool)
    | Stopping(receiver: Receiver)
    | EndedNotice(receiver: Receiver)
    | Outside(receiver: Receiver, value: Setting)

  function Step(h: Helper, event: Event): Helper {
    match event
    case Enabling(ms, trial, hooked, views, retained) => Enable(h, ms, trial, hooked, views, retained).0
    case Disabling => Disable(h)
    case Attaching(view) => AttachPeer(h, view)
    case Closing(peer) => DetachPeer(h, peer)
    case Arrival(peer, receiver) => TrackEvent(h, peer, receiver)
    case StateChange(peer, closed) => StateEvent(h, peer, closed)
    case Stopping(receiver) => Ended(h, receiver)
    case EndedNotice(receiver) => EndedEvent(h, receiver)
    case Outside(receiver, value) => Write(h, receiver, value)
  }

  function RunFrom(h: Helper, events: seq<Event>): Helper {
    if events == [] then h else Step(RunFrom(h, events[..|events| - 1]), events[|events| - 1])
  }

  /** The helper before its first use, on a page of any settings, with any outcomes to come. */
  function Loaded(settings: map<Receiver, Setting>, ended: set<Receiver>, applies: seq<Outcome>,
                  restores: seq<Outcome>): Helper
  {
    Helper(false, 120, Empty(), Empty(),
           Page(settings, ended, multiset{}, multiset{}, multiset{}, applies, restores), settings, {})
  }
}
