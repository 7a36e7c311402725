/** The play requests of `GuildSession` in `src/session.rs`, updated in place. */
module RequestLine {
  import opened Options
  import opened Admission

  class RequestLine {
    var epoch: nat
    var sequence: nat
    var pending: seq<Pending>
    var loading: Option<Pending>
    ghost var settled: map<nat, Settlement>
    ghost var commits: seq<nat>

    ghost function State(): Line
      reads this
    {
      Line(epoch, sequence, pending, loading, settled, commits)
    }

    constructor ()
      ensures State() == NEW_LINE
    {
      epoch, sequence, pending, loading := 0, 0, [], None;
      settled, commits := map[], [];
    }

    /** The last step of `prepare_play`. */
    method Admit(request: Request, channel: nat)
      modifies this`sequence, this`pending
      ensures State() == old(State()).Admit(request, channel)
    {
      sequence := sequence + 1;
      pending := pending + [Pending(request, channel, epoch, sequence)];
    }

    method StartLoad()
      modifies this`pending, this`loading
      ensures State() == old(State()).StartLoad()
    {
      if loading.Some? || pending == [] {
        return;
      }
      loading := Some(pending[0]);
      pending := pending[1..];
    }

    /** Every waiting request is cancelled; the loop drains the line in order. */
    method Invalidate()
      modifies this`epoch, this`pending, this`loading, this`settled
      ensures State() == old(State()).Invalidate()
    {
      epoch := epoch + 1;
      if loading.Some? {
        pending := [loading.value] + pending;
        loading := None;
      }
      hide Cancelling;
      ghost var waiting := pending;
      ghost var drained := 0;
      NothingCancelled(settled);
      assert waiting == old(State()).Waiting();
      while pending != []
        invariant drained <= |waiting| && pending == waiting[drained..]
        invariant settled == old(settled) + Cancelling(waiting[..drained])
        invariant (epoch, sequence, loading, commits) == (old(epoch) + 1, old(sequence), None, old(commits))
        decreases |pending|
      {
        CancelOneMore(old(settled), waiting, drained);
        settled := settled[pending[0].sequence := Cancelled];
        pending := pending[1..];
        drained := drained + 1;
      }
      assert waiting[..drained] == waiting;
      AllCancelled(old(State()));
    }

    method SettleLoading(how: Settlement)
      modifies this`loading, this`settled, this`commits
      ensures State() == old(State()).SettleLoading(how)
    {
      if loading.Some? {
        settled := settled[loading.value.sequence := how];
        commits := if how.Enqueued? then commits + [loading.value.sequence] else commits;
        loading := None;
      }
    }
  }

  lemma CancelOneMore(settled: map<nat, Settlement>, waiting: seq<Pending>, n: nat)
    requires n < |waiting|
    ensures (settled + Cancelling(waiting[..n]))[waiting[n].sequence := Cancelled]
            == settled + Cancelling(waiting[..n + 1])
  {
    assert waiting[..n + 1] == waiting[..n] + [waiting[n]];
  }

  lemma AllCancelled(l: Line)
    ensures l.Invalidate() == Line(l.epoch + 1, l.sequence, [], None,
                                   l.settled + Cancelling(l.Waiting()), l.commits)
  {}

  lemma NothingCancelled(settled: map<nat, Settlement>)
    ensures settled + Cancelling([]) == settled
  {}

  function Cancelling(waiting: seq<Pending>): map<nat, Settlement> {
    map p | p in waiting :: p.sequence := Cancelled
  }
}
