/** Preparing the next track in `src/session.rs`: one request at a time tells the player which
    track to prepare, or to prepare none; the session remembers what was accepted. */
module Preparation {
  import opened Options

  const RETRY_MS: nat := 5_000

  /** A request on its way. `answer` is the player's, once it has one. */
  datatype Intent = Intent(epoch: nat, target: Option<string>, answer: Option<bool>)

  /** `live` is what the player itself last accepted; the session does not read it. */
  datatype Prep = Prep(
    inFlight: seq<Intent>, target: Option<string>, retryAt: nat, live: Option<string>)
  {
    /** Sends `goal` unless a request is out, a retry is not due, or it is accepted already. */
    function PrepareNext(epoch: nat, goal: Option<string>, now: nat): Prep {
      if inFlight != [] || now < retryAt || goal == target then this
      else this.(inFlight := inFlight + [Intent(epoch, goal, None)])
    }

    /** The player answers request `i`; a refusal changes nothing there. */
    function PlayerAnswers(i: nat, success: bool): Prep {
      if i >= |inFlight| || inFlight[i].answer.Some? then this
      else this.(inFlight := inFlight[i := inFlight[i].(answer := Some(success))],
                 live := if success then inFlight[i].target else live)
    }

    /** The session takes up the answer to request `i`. */
    function Finish(i: nat, epoch: nat, now: nat): Prep {
      if i >= |inFlight| || inFlight[i].answer.None? then this
      else
        var rest := this.(inFlight := inFlight[..i] + inFlight[i + 1..]);
        if inFlight[i].answer.value then rest.(target := inFlight[i].target)
        else if inFlight[i].epoch == epoch then rest.(retryAt := now + RETRY_MS)
        else rest
    }

    /** A destroyed player has nothing prepared, and its answers are not taken up. */
    function Cleanup(now: nat): Prep {
      Prep([], None, now, None)
    }
  }

  const NEW_PREP := Prep([], None, 0, None)

  /** At most one request is out, and without an unread acceptance the session knows exactly
      what the player has accepted. */
  ghost predicate PrepOk(p: Prep) {
    |p.inFlight| <= 1
    && p.live == if p.inFlight != [] && p.inFlight[0].answer == Some(true)
                 then p.inFlight[0].target else p.target
  }

  lemma EveryStepKeepsPrep(p: Prep, epoch: nat, goal: Option<string>, now: nat, i: nat, success: bool)
    requires PrepOk(p)
    ensures PrepOk(p.PrepareNext(epoch, goal, now))
    ensures PrepOk(p.PlayerAnswers(i, success))
    ensures PrepOk(p.Finish(i, epoch, now))
    ensures PrepOk(p.Cleanup(now))
  {}

  /** One round: the player accepts what is out, the session reads it and looks again. */
  function AcceptedRound(p: Prep, epoch: nat, goal: Option<string>, now: nat): Prep {
    p.PlayerAnswers(0, true).Finish(0, epoch, now).PrepareNext(epoch, goal, now)
  }

  /** With a fixed goal and accepted requests, the request that is out and at most one more
      suffice: then nothing is out and session and player agree on the goal. */
  lemma ConvergesInTwo(p: Prep, epoch: nat, goal: Option<string>, now: nat)
    requires PrepOk(p) && now >= p.retryAt
    requires p.inFlight != [] ==> p.inFlight[0].answer != Some(false)
    ensures var looking := p.PrepareNext(epoch, goal, now);
            var settled := AcceptedRound(AcceptedRound(looking, epoch, goal, now), epoch, goal, now);
            settled.inFlight == [] && settled.target == goal && settled.live == goal
  {
    var looking := p.PrepareNext(epoch, goal, now);
    EveryStepKeepsPrep(p, epoch, goal, now, 0, true);
    var once := AcceptedRound(looking, epoch, goal, now);
    EveryStepKeepsPrep(looking, epoch, goal, now, 0, true);
    EveryStepKeepsPrep(looking.PlayerAnswers(0, true), epoch, goal, now, 0, true);
  }

  /** An intent that a stop has overtaken is still recorded once the player accepted it, and the
      very next look cancels it. */
  lemma OvertakenIntentIsCancelled(p: Prep, epoch: nat, now: nat)
    requires PrepOk(p) && p.inFlight != [] && p.inFlight[0].epoch < epoch && now >= p.retryAt
    requires p.inFlight[0].answer != Some(false) && p.inFlight[0].target.Some?
    ensures var recorded := p.PlayerAnswers(0, true).Finish(0, epoch, now);
            recorded.target == recorded.live == p.inFlight[0].target
            && recorded.PrepareNext(epoch, None, now).inFlight == [Intent(epoch, None, None)]
  {
    EveryStepKeepsPrep(p, epoch, None, now, 0, true);
  }

  /** A refused request leaves both sides as they were; only in its own epoch does it delay. */
  lemma RefusalChangesNothing(p: Prep, epoch: nat, now: nat)
    requires PrepOk(p) && p.inFlight != [] && p.inFlight[0].answer.None?
    ensures var after := p.PlayerAnswers(0, false).Finish(0, epoch, now);
            after == Prep([], p.target, if p.inFlight[0].epoch == epoch then now + RETRY_MS else p.retryAt,
                          p.live)
  {
    assert p.inFlight[1..] == [];
  }

  /** After a refusal of its epoch nothing is sent for five seconds, whatever the goal; from then on any other
      goal than the accepted one is sent. */
  lemma RefusalDelays(p: Prep, epoch: nat, now: nat, ms: nat, goal: Option<string>)
    requires PrepOk(p) && p.inFlight != [] && p.inFlight[0].answer.None? && p.inFlight[0].epoch == epoch
    ensures var refused := p.PlayerAnswers(0, false).Finish(0, epoch, now);
            var later := refused.PrepareNext(epoch, goal, now + ms);
            (later.inFlight == [] <==> ms < 5_000 || goal == p.target)
            && (later.inFlight != [] ==> later.inFlight == [Intent(epoch, goal, None)])
            && later.target == p.target && later.live == p.live
  {
    RefusalChangesNothing(p, epoch, now);
  }
}
