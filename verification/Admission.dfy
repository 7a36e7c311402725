/** Play requests in `src/session.rs`: admission, the single load in flight, commits, and the
    stop barrier. Sequence and epoch numbers do not wrap here. */
module Admission {
  import opened Options

  datatype Request = Request(userId: string, displayName: string)

  datatype Pending = Pending(request: Request, channel: nat, epoch: nat, sequence: nat)

  /** How an admitted request ended. */
  datatype Settlement = Enqueued | Refused | Cancelled

  datatype Line = Line(
    epoch: nat,
    sequence: nat,
    pending: seq<Pending>,
    loading: Option<Pending>,
    settled: map<nat, Settlement>,
    commits: seq<nat>)
  {
    /** The requests still waiting, the one being loaded first. */
    function Waiting(): seq<Pending> {
      (if loading.Some? then [loading.value] else []) + pending
    }

    function Admit(request: Request, channel: nat): Line {
      this.(sequence := sequence + 1,
            pending := pending + [Pending(request, channel, epoch, sequence + 1)])
    }

    function StartLoad(): Line {
      if loading.Some? || pending == [] then this
      else this.(loading := Some(pending[0]), pending := pending[1..])
    }

    predicate Loading(number: nat) {
      loading.Some? && loading.value.sequence == number
    }

    function Settle(number: nat, how: Settlement): Line {
      this.(settled := settled[number := how],
            commits := if how.Enqueued? then commits + [number] else commits)
    }

    /** The load in flight ends as `how`. */
    function SettleLoading(how: Settlement): Line {
      if loading.None? then this else this.(loading := None).Settle(loading.value.sequence, how)
    }

    /** Stop and cleanup: a new epoch, and nothing waits any longer. */
    function Invalidate(): Line {
      this.(epoch := epoch + 1, pending := [], loading := None,
            settled := settled + map p | p in Waiting() :: p.sequence := Cancelled)
    }
  }

  const NEW_LINE := Line(0, 0, [], None, map[], [])

  // ----- what every step keeps -----

  /** Requests are settled in the order of their numbers: the waiting ones are the newest, in
      order and of the current epoch, and exactly the others are settled; those that enqueued
      are listed once each, in order. */
  ghost predicate LineOk(l: Line, limit: nat) {
    var waiting := l.Waiting();
    |waiting| <= limit && |waiting| <= l.sequence
    && (forall i :: 0 <= i < |waiting| ==>
          waiting[i].sequence == l.sequence - |waiting| + 1 + i && waiting[i].epoch == l.epoch)
    && (forall n :: n in l.settled <==> 1 <= n <= l.sequence - |waiting|)
    && Ascending(l.commits)
    && (forall n :: n in l.commits <==> n in l.settled && l.settled[n].Enqueued?)
  }

  predicate Ascending(numbers: seq<nat>) {
    forall i, j :: 0 <= i < j < |numbers| ==> numbers[i] < numbers[j]
  }

  lemma AdmitKeepsLine(l: Line, limit: nat, request: Request, channel: nat)
    requires LineOk(l, limit) && |l.Waiting()| < limit
    ensures LineOk(l.Admit(request, channel), limit)
  {
    var after := l.Admit(request, channel);
    assert after.Waiting() == l.Waiting() + [Pending(request, channel, l.epoch, l.sequence + 1)];
  }

  lemma StartLoadKeepsLine(l: Line, limit: nat)
    requires LineOk(l, limit)
    ensures LineOk(l.StartLoad(), limit) && l.StartLoad().Waiting() == l.Waiting()
  {
    if l.loading.None? && l.pending != [] {
      assert [l.pending[0]] + l.pending[1..] == l.pending;
      assert l.Waiting() == l.pending;
    }
    assert l.StartLoad().Waiting() == l.Waiting();
  }

  lemma SettleKeepsLine(l: Line, limit: nat, how: Settlement)
    requires LineOk(l, limit)
    ensures LineOk(l.SettleLoading(how), limit)
  {
    if l.loading.Some? {
      var after := l.SettleLoading(how);
      var number := l.loading.value.sequence;
      assert l.Waiting()[0] == l.loading.value;
      assert l.Waiting()[1..] == l.pending == after.Waiting();
      assert number == l.sequence - |after.Waiting()|;
      CommitsAscend(l, limit, number);
    }
  }

  lemma CommitsAscend(l: Line, limit: nat, number: nat)
    requires LineOk(l, limit) && number > l.sequence - |l.Waiting()|
    ensures Ascending(l.commits + [number]) && number !in l.commits
  {
    forall i | 0 <= i < |l.commits| ensures l.commits[i] < number {
      assert l.commits[i] in l.commits;
    }
  }

  lemma InvalidateKeepsLine(l: Line, limit: nat)
    requires LineOk(l, limit)
    ensures LineOk(l.Invalidate(), limit)
    ensures l.Invalidate().Waiting() == [] && l.Invalidate().commits == l.commits
    ensures forall p :: p in l.Waiting() ==> l.Invalidate().settled[p.sequence].Cancelled?
    ensures forall n :: n in l.settled ==> l.Invalidate().settled[n] == l.settled[n]
  {
    var after := l.Invalidate();
    forall n: nat ensures n in after.settled <==> 1 <= n <= l.sequence {
      EveryRequestIsAccountedFor(l, limit, n);
    }
    forall p | p in l.Waiting() ensures p.sequence !in l.settled {
      assert Waits(l, p.sequence);
      EveryRequestIsAccountedFor(l, limit, p.sequence);
    }
  }

  ghost predicate Waits(l: Line, number: nat) {
    exists p :: p in l.Waiting() && p.sequence == number
  }

  /** Every number ever admitted is either settled, once, or waiting. */
  lemma EveryRequestIsAccountedFor(l: Line, limit: nat, number: nat)
    requires LineOk(l, limit)
    ensures 1 <= number <= l.sequence <==> (number in l.settled || Waits(l, number))
    ensures !(number in l.settled && Waits(l, number))
  {
    var waiting := l.Waiting();
    if l.sequence - |waiting| < number <= l.sequence {
      var p := waiting[number - (l.sequence - |waiting| + 1)];
      assert p in waiting && p.sequence == number;
    }
  }

  /** A completed load is acted on only while it is the current one, and then its request still
      belongs to the current epoch: the epoch test in `commit` is never the one that refuses. */
  lemma LoadedRequestIsCurrent(l: Line, limit: nat, number: nat)
    requires LineOk(l, limit) && l.Loading(number)
    ensures l.loading.value.epoch == l.epoch && number !in l.settled
    ensures number == l.sequence - |l.pending|
  {
    assert l.Waiting()[0] == l.loading.value;
  }
}
