/** The preparation fields of `GuildSession` in `src/session.rs`, updated in place. */
module Preparer {
  import opened Options
  import Preparation

  class Preparer {
    var preparations: seq<Preparation.Intent>
    var preparationTarget: Option<string>
    var preparationRetry: nat
    ghost var live: Option<string>

    ghost function State(): Preparation.Prep
      reads this
    {
      Preparation.Prep(preparations, preparationTarget, preparationRetry, live)
    }

    constructor ()
      ensures State() == Preparation.NEW_PREP
    {
      preparations, preparationTarget, preparationRetry, live := [], None, 0, None;
    }

    method PrepareNext(epoch: nat, target: Option<string>, clock: nat)
      modifies this`preparations
      ensures State() == old(State()).PrepareNext(epoch, target, clock)
    {
      if preparations != [] || clock < preparationRetry {
        return;
      }
      if target == preparationTarget {
        return;
      }
      preparations := preparations + [Preparation.Intent(epoch, target, None)];
    }

    method PlayerAnswers(i: nat, success: bool)
      modifies this`preparations, this`live
      ensures State() == old(State()).PlayerAnswers(i, success)
    {
      if i < |preparations| && preparations[i].answer.None? {
        live := if success then preparations[i].target else live;
        preparations := preparations[i := preparations[i].(answer := Some(success))];
      }
    }

    method FinishPreparation(i: nat, epoch: nat, clock: nat)
      modifies this`preparations, this`preparationTarget, this`preparationRetry
      ensures State() == old(State()).Finish(i, epoch, clock)
    {
      if i >= |preparations| || preparations[i].answer.None? {
        return;
      }
      var done := preparations[i];
      preparations := preparations[..i] + preparations[i + 1..];
      if done.answer.value {
        preparationTarget := done.target;
      } else if done.epoch == epoch {
        preparationRetry := clock + Preparation.RETRY_MS;
      }
    }

    method Cleanup(clock: nat)
      modifies this
      ensures State() == old(State()).Cleanup(clock)
    {
      preparations := [];
      preparationTarget := None;
      preparationRetry := clock;
      live := None;
    }
  }
}
