/** Whether a diagnostic ran throughout an observation: `benchmarks/collection_coverage.py`. */
module Coverage {
  import opened Options

  /** What the error probe says of a row; it may itself fail on one. */
  datatype Probe = Good | Bad | Raises

  /** A row's timestamp, unless it is absent, malformed or not finite. */
  datatype Row = Row(at: Option<real>, probe: Probe)

  datatype Report = Report(
    complete: bool, samples: nat, inWindow: nat, first: Option<real>, last: Option<real>,
    head: Option<real>, tail: Option<real>, maximum: Option<real>, invalid: nat, errors: nat, ordered: bool)

  datatype Window = Window(start: real, end: real) {
    predicate Has(t: real) {
      start <= t <= end
    }
  }

  // ----- what the source computes -----

  function Times(rows: seq<Row>): seq<real> {
    if rows == [] then []
    else
      var at := rows[|rows| - 1].at;
      Times(rows[..|rows| - 1]) + if at.Some? then [at.value] else []
  }

  /** Only rows inside the window are probed, and only if there is a probe. */
  predicate Probed(row: Row, window: Window, probing: bool) {
    probing && row.at.Some? && window.Has(row.at.value)
  }

  predicate Invalid(row: Row, window: Window, probing: bool) {
    row.at.None? || (Probed(row, window, probing) && row.probe.Raises?)
  }

  predicate Erroneous(row: Row, window: Window, probing: bool) {
    Probed(row, window, probing) && row.probe.Bad?
  }

  function CountInvalid(rows: seq<Row>, window: Window, probing: bool): nat {
    if rows == [] then 0
    else CountInvalid(rows[..|rows| - 1], window, probing)
         + if Invalid(rows[|rows| - 1], window, probing) then 1 else 0
  }

  function CountErrors(rows: seq<Row>, window: Window, probing: bool): nat {
    if rows == [] then 0
    else CountErrors(rows[..|rows| - 1], window, probing)
         + if Erroneous(rows[|rows| - 1], window, probing) then 1 else 0
  }

  ghost function InvalidAt(rows: seq<Row>, window: Window, probing: bool): set<int> {
    set i | 0 <= i < |rows| && Invalid(rows[i], window, probing)
  }

  ghost function ErrorsAt(rows: seq<Row>, window: Window, probing: bool): set<int> {
    set i | 0 <= i < |rows| && Erroneous(rows[i], window, probing)
  }

  /** Every invalid row is counted once. */
  lemma {:induction false} InvalidRowsAreCounted(rows: seq<Row>, window: Window, probing: bool)
    ensures CountInvalid(rows, window, probing) == |InvalidAt(rows, window, probing)|
  {
    hide Invalid;
    if rows == [] {
      assert InvalidAt(rows, window, probing) == {};
    } else {
      var n := |rows| - 1;
      InvalidRowsAreCounted(rows[..n], window, probing);
      assert InvalidAt(rows, window, probing)
          == InvalidAt(rows[..n], window, probing) + if Invalid(rows[n], window, probing) then {n} else {};
    }
  }

  /** So is every error. */
  lemma {:induction false} ErrorsAreCounted(rows: seq<Row>, window: Window, probing: bool)
    ensures CountErrors(rows, window, probing) == |ErrorsAt(rows, window, probing)|
  {
    hide Erroneous;
    if rows == [] {
      assert ErrorsAt(rows, window, probing) == {};
    } else {
      var n := |rows| - 1;
      ErrorsAreCounted(rows[..n], window, probing);
      assert ErrorsAt(rows, window, probing)
          == ErrorsAt(rows[..n], window, probing) + if Erroneous(rows[n], window, probing) then {n} else {};
    }
  }

  ghost predicate Rising(times: seq<real>) {
    forall i, j :: 0 <= i < j < |times| ==> times[i] < times[j]
  }

  function Inside(times: seq<real>, window: Window): seq<real> {
    if times == [] then []
    else
      var t := times[|times| - 1];
      Inside(times[..|times| - 1], window) + if window.Has(t) then [t] else []
  }

  /** The largest step between neighbours, or zero if there are none. */
  function LargestGap(times: seq<real>): real {
    if |times| <= 1 then 0.0
    else
      var gap := times[|times| - 1] - times[|times| - 2];
      if |times| == 2 then gap
      else
        var before := LargestGap(times[..|times| - 1]);
        if before < gap then gap else before
  }

  function Least(window: Window, maxGap: real): nat {
    if window.end - window.start > maxGap then 2 else 1
  }

  // ----- what complete means -----

  ghost predicate SampleWithin(rows: seq<Row>, from: real, length: real) {
    exists i :: 0 <= i < |rows| && rows[i].at.Some? && from <= rows[i].at.value <= from + length
  }

  ghost predicate TwoSamplesIn(rows: seq<Row>, window: Window) {
    exists i, j :: 0 <= i < j < |rows| && rows[i].at.Some? && rows[j].at.Some?
                   && window.Has(rows[i].at.value) && window.Has(rows[j].at.value)
  }

  ghost predicate AllValid(rows: seq<Row>, window: Window, probing: bool) {
    forall i :: 0 <= i < |rows| ==> !Invalid(rows[i], window, probing)
  }

  ghost predicate NoErrors(rows: seq<Row>, window: Window, probing: bool) {
    forall i :: 0 <= i < |rows| ==> !Erroneous(rows[i], window, probing)
  }

  ghost predicate EachLater(rows: seq<Row>) {
    forall i, j :: 0 <= i < j < |rows| && rows[i].at.Some? && rows[j].at.Some? ==>
      rows[i].at.value < rows[j].at.value
  }

  /** Every row is valid and later than those before, no probe inside the window finds an error, and
      every stretch of `maxGap` inside the window holds a sample. */
  ghost predicate Covered(rows: seq<Row>, window: Window, maxGap: real, probing: bool) {
    window.start < window.end
    && AllValid(rows, window, probing) && NoErrors(rows, window, probing) && EachLater(rows)
    && SampleWithin(rows, window.start, window.end - window.start)
    && (window.end - window.start > maxGap ==> TwoSamplesIn(rows, window))
    && forall x: real :: window.start <= x && x + maxGap <= window.end ==> SampleWithin(rows, x, maxGap)
  }

  // ----- the method -----

  method CollectionCoverage(rows: seq<Row>, window: Window, maxGap: real, probing: bool) returns (r: Report)
    ensures r.complete <==> Covered(rows, window, maxGap, probing)
    ensures r.samples == |Times(rows)| && r.inWindow == |Inside(Times(rows), window)|
    ensures r.ordered == Rising(Times(rows))
    ensures r.invalid == CountInvalid(rows, window, probing)
    ensures r.errors == CountErrors(rows, window, probing)
    ensures var times, inside := Times(rows), Inside(Times(rows), window);
            r.first == (if times == [] then None else Some(times[0]))
            && r.last == (if times == [] then None else Some(times[|times| - 1]))
            && r.head == (if inside == [] then None else Some(inside[0] - window.start))
            && r.tail == (if inside == [] then None else Some(window.end - inside[|inside| - 1]))
    ensures r.maximum == if r.inWindow == 0 then None else Some(LargestGap(Inside(Times(rows), window)))
  {
    hide Covered, Times, Inside, Rising, LargestGap, CountInvalid, CountErrors;
    var times, invalid, errors := Collect(rows, window, probing);
    var ordered := CheckOrder(times);
    var inside := Select(times, window);
    var maximum := MeasureGaps(inside);
    var head := if inside == [] then None else Some(inside[0] - window.start);
    var tail := if inside == [] then None else Some(window.end - inside[|inside| - 1]);
    var complete := window.end > window.start && ordered && invalid == 0 && errors == 0
                    && |inside| >= Least(window, maxGap) && head.value <= maxGap && tail.value <= maxGap
                    && maximum <= maxGap;
    CompleteMeansCovered(rows, window, maxGap, probing);
    r := Report(complete, |times|, |inside|, if times == [] then None else Some(times[0]),
                if times == [] then None else Some(times[|times| - 1]), head, tail,
                if inside == [] then None else Some(maximum), invalid, errors, ordered);
  }

  method Collect(rows: seq<Row>, window: Window, probing: bool)
    returns (times: seq<real>, invalid: nat, errors: nat)
    ensures times == Times(rows)
    ensures invalid == CountInvalid(rows, window, probing)
    ensures errors == CountErrors(rows, window, probing)
  {
    times, invalid, errors := [], 0, 0;
    var i := 0;
    while i < |rows|
      invariant 0 <= i <= |rows| && times == Times(rows[..i])
      invariant invalid == CountInvalid(rows[..i], window, probing)
      invariant errors == CountErrors(rows[..i], window, probing)
    {
      assert rows[..i + 1][..i] == rows[..i];
      if rows[i].at.None? {
        invalid := invalid + 1;
      } else {
        times := times + [rows[i].at.value];
        if probing && window.Has(rows[i].at.value) {
          match rows[i].probe {
            case Good =>
            case Bad => errors := errors + 1;
            case Raises => invalid := invalid + 1;
          }
        }
      }
      i := i + 1;
    }
    assert rows[..i] == rows;
  }

  /** Neighbours in order put all in order. */
  method CheckOrder(times: seq<real>) returns (ordered: bool)
    ensures ordered == Rising(times)
  {
    var i := 1;
    while i < |times|
      invariant 1 <= i && Rising(times[..if i <= |times| then i else |times|])
    {
      if times[i - 1] >= times[i] {
        return false;
      }
      RisingStep(times, i);
      i := i + 1;
    }
    assert times[..|times|] == times;
    ordered := true;
  }

  lemma RisingStep(times: seq<real>, i: nat)
    requires 1 <= i < |times| && Rising(times[..i]) && times[i - 1] < times[i]
    ensures Rising(times[..i + 1])
  {
    var before := times[..i];
    forall j | 0 <= j < i ensures times[j] < times[i] {
      assert before[j] == times[j] && before[i - 1] == times[i - 1];
    }
    forall j, k | 0 <= j < k < i ensures times[j] < times[k] {
      assert before[j] == times[j] && before[k] == times[k];
    }
  }

  method Select(times: seq<real>, window: Window) returns (inside: seq<real>)
    ensures inside == Inside(times, window)
  {
    inside := [];
    var i := 0;
    while i < |times|
      invariant 0 <= i <= |times| && inside == Inside(times[..i], window)
    {
      assert times[..i + 1][..i] == times[..i];
      if window.Has(times[i]) {
        inside := inside + [times[i]];
      }
      i := i + 1;
    }
    assert times[..i] == times;
  }

  method MeasureGaps(times: seq<real>) returns (maximum: real)
    ensures maximum == LargestGap(times)
  {
    maximum := 0.0;
    if |times| <= 1 {
      return;
    }
    maximum := times[1] - times[0];
    assert times[..2] == [times[0], times[1]];
    var i := 2;
    while i < |times|
      invariant 2 <= i <= |times| && maximum == LargestGap(times[..i])
    {
      assert times[..i + 1][..i] == times[..i];
      var gap := times[i] - times[i - 1];
      maximum := if maximum < gap then gap else maximum;
      i := i + 1;
    }
    assert times[..i] == times;
  }

  // ----- why complete means covered -----

  /** The source's own condition. */
  ghost predicate Passes(rows: seq<Row>, window: Window, maxGap: real, probing: bool) {
    var inside := Inside(Times(rows), window);
    window.end > window.start && Rising(Times(rows))
    && CountInvalid(rows, window, probing) == 0 && CountErrors(rows, window, probing) == 0
    && |inside| >= Least(window, maxGap) && Spread(inside, window, maxGap)
  }

  ghost predicate Spread(inside: seq<real>, window: Window, maxGap: real) {
    |inside| > 0 && inside[0] - window.start <= maxGap && window.end - inside[|inside| - 1] <= maxGap
    && LargestGap(inside) <= maxGap
  }

  lemma {:induction false} NoneInvalid(rows: seq<Row>, window: Window, probing: bool)
    ensures CountInvalid(rows, window, probing) == 0 <==> AllValid(rows, window, probing)
  {
    hide Invalid;
    if rows != [] {
      var n := |rows| - 1;
      NoneInvalid(rows[..n], window, probing);
      assert AllValid(rows, window, probing)
             <==> AllValid(rows[..n], window, probing) && !Invalid(rows[n], window, probing) by {
        assert forall i :: 0 <= i < n ==> rows[..n][i] == rows[i];
      }
    }
  }

  lemma {:induction false} NoneErroneous(rows: seq<Row>, window: Window, probing: bool)
    ensures CountErrors(rows, window, probing) == 0 <==> NoErrors(rows, window, probing)
  {
    hide Erroneous;
    if rows != [] {
      var n := |rows| - 1;
      NoneErroneous(rows[..n], window, probing);
      assert NoErrors(rows, window, probing)
             <==> NoErrors(rows[..n], window, probing) && !Erroneous(rows[n], window, probing) by {
        assert forall i :: 0 <= i < n ==> rows[..n][i] == rows[i];
      }
    }
  }

  lemma {:induction false} TimesOfValid(rows: seq<Row>)
    requires forall i :: 0 <= i < |rows| ==> rows[i].at.Some?
    ensures |Times(rows)| == |rows| && forall i :: 0 <= i < |rows| ==> Times(rows)[i] == rows[i].at.value
  {
    if rows != [] {
      TimesOfValid(rows[..|rows| - 1]);
    }
  }

  /** `at` lists the positions of the times inside the window. */
  ghost predicate PicksInside(inside: seq<real>, times: seq<real>, window: Window, at: seq<nat>) {
    |at| == |inside|
    && (forall k :: 0 <= k < |at| ==> at[k] < |times| && inside[k] == times[at[k]] && window.Has(inside[k]))
    && (forall k, l :: 0 <= k < l < |at| ==> at[k] < at[l])
    && (forall i: nat :: i < |times| && window.Has(times[i]) ==> i in at)
  }

  lemma {:induction false} InsideIsPicked(times: seq<real>, window: Window) returns (at: seq<nat>)
    ensures PicksInside(Inside(times, window), times, window, at)
  {
    if times == [] {
      at := [];
    } else {
      var n := |times| - 1;
      at := InsideIsPicked(times[..n], window);
      assert times[..n] + [times[n]] == times;
      if window.Has(times[n]) {
        PickOne(Inside(times[..n], window), times[..n], window, at, times[n]);
        at := at + [n];
      } else {
        PickNone(Inside(times[..n], window), times[..n], window, at, times[n]);
        assert Inside(times[..n], window) + [] == Inside(times[..n], window);
      }
    }
  }

  lemma PickOne(inside: seq<real>, times: seq<real>, window: Window, at: seq<nat>, t: real)
    requires PicksInside(inside, times, window, at) && window.Has(t)
    ensures PicksInside(inside + [t], times + [t], window, at + [|times|])
  {
    var longer, more := times + [t], at + [|times|];
    forall i: nat | i < |longer| && window.Has(longer[i]) ensures i in more {
      if i < |times| {
        assert window.Has(times[i]);
      } else {
        assert more[|at|] == i;
      }
    }
  }

  lemma PickNone(inside: seq<real>, times: seq<real>, window: Window, at: seq<nat>, t: real)
    requires PicksInside(inside, times, window, at) && !window.Has(t)
    ensures PicksInside(inside, times + [t], window, at)
  {
    var longer := times + [t];
    forall i: nat | i < |longer| && window.Has(longer[i]) ensures i in at {
      assert window.Has(times[i]);
    }
  }

  ghost predicate HasWithin(times: seq<real>, from: real, length: real) {
    exists k :: 0 <= k < |times| && from <= times[k] <= from + length
  }

  lemma WithinIsInside(times: seq<real>, inside: seq<real>, window: Window, at: seq<nat>, from: real, length: real)
    requires PicksInside(inside, times, window, at)
    requires window.start <= from && from + length <= window.end
    ensures HasWithin(times, from, length) <==> HasWithin(inside, from, length)
  {
    if HasWithin(times, from, length) {
      var i :| 0 <= i < |times| && from <= times[i] <= from + length;
      assert i in at;
      var k :| 0 <= k < |at| && at[k] == i;
      assert inside[k] == times[i];
    }
    if HasWithin(inside, from, length) {
      var k :| 0 <= k < |inside| && from <= inside[k] <= from + length;
      assert times[at[k]] == inside[k];
    }
  }

  lemma {:induction false} GapsExactly(times: seq<real>, maxGap: real)
    requires |times| >= 2
    ensures LargestGap(times) <= maxGap <==> forall k :: 0 < k < |times| ==> StepWithin(times, k, maxGap)
  {
    var n := |times| - 1;
    if n > 1 {
      GapsExactly(times[..n], maxGap);
      assert forall k :: 0 < k < n ==> StepWithin(times[..n], k, maxGap) == StepWithin(times, k, maxGap);
    }
    assert StepWithin(times, n, maxGap) <==> times[n] - times[n - 1] <= maxGap;
  }

  predicate StepWithin(times: seq<real>, k: nat, maxGap: real)
    requires 0 < k < |times|
  {
    times[k] - times[k - 1] <= maxGap
  }

  /** The first time that is not before `x`. */
  lemma {:induction false} FirstFrom(times: seq<real>, x: real) returns (k: nat)
    requires Rising(times)
    ensures k <= |times| && (k > 0 ==> times[k - 1] < x) && (k < |times| ==> x <= times[k])
  {
    k := 0;
    while k < |times| && times[k] < x
      invariant k <= |times| && (k > 0 ==> times[k - 1] < x)
    {
      k := k + 1;
    }
  }

  lemma SpreadReaches(inside: seq<real>, window: Window, maxGap: real, x: real)
    requires Rising(inside) && Spread(inside, window, maxGap)
    requires window.start <= x && x + maxGap <= window.end
    ensures HasWithin(inside, x, maxGap)
  {
    var k := FirstFrom(inside, x);
    if k < |inside| {
      if k > 0 {
        GapsExactly(inside, maxGap);
        assert StepWithin(inside, k, maxGap);
      }
      assert x <= inside[k] <= x + maxGap;
    }
  }

  /** A stretch without a sample, where the samples are not spread closely enough. */
  lemma SparseMisses(inside: seq<real>, window: Window, maxGap: real) returns (x: real)
    requires Rising(inside) && |inside| > 0 && !Spread(inside, window, maxGap)
    requires forall k :: 0 <= k < |inside| ==> window.Has(inside[k])
    ensures window.start <= x && x + maxGap <= window.end && !HasWithin(inside, x, maxGap)
  {
    var n := |inside| - 1;
    if inside[0] - window.start > maxGap {
      x := window.start;
      assert forall k :: 0 <= k <= n ==> inside[0] <= inside[k];
    } else if window.end - inside[n] > maxGap {
      x := window.end - maxGap;
      assert forall k :: 0 <= k <= n ==> inside[k] <= inside[n];
    } else if n > 0 {
      GapsExactly(inside, maxGap);
      var j :| 0 < j <= n && !StepWithin(inside, j, maxGap);
      x := (inside[j - 1] + inside[j] - maxGap) / 2.0;
      forall k | 0 <= k <= n ensures inside[k] < x || x + maxGap < inside[k] {
        assert k < j ==> inside[k] <= inside[j - 1];
        assert k >= j ==> inside[j] <= inside[k];
      }
    } else {
      x := window.start;
    }
  }

  lemma RowsAreTimes(rows: seq<Row>, from: real, length: real)
    requires forall i :: 0 <= i < |rows| ==> rows[i].at.Some?
    ensures SampleWithin(rows, from, length) <==> HasWithin(Times(rows), from, length)
  {
    TimesOfValid(rows);
    if SampleWithin(rows, from, length) {
      var i :| 0 <= i < |rows| && rows[i].at.Some? && from <= rows[i].at.value <= from + length;
      assert from <= Times(rows)[i] <= from + length;
    }
  }

  lemma CompleteMeansCovered(rows: seq<Row>, window: Window, maxGap: real, probing: bool)
    ensures Passes(rows, window, maxGap, probing) <==> Covered(rows, window, maxGap, probing)
  {
    hide Times, Inside, CountInvalid, CountErrors, NoErrors, Spread, SampleWithin, TwoSamplesIn, LargestGap;
    NoneInvalid(rows, window, probing);
    NoneErroneous(rows, window, probing);
    if AllValid(rows, window, probing) {
      TimesOfValid(rows);
      if Rising(Times(rows)) && window.start < window.end {
        SamplesAreCounted(rows, window);
        if |Inside(Times(rows), window)| > 0 {
          SpreadExactly(rows, window, maxGap);
        }
      }
    }
  }

  lemma SamplesAreCounted(rows: seq<Row>, window: Window)
    requires forall i :: 0 <= i < |rows| ==> rows[i].at.Some?
    ensures SampleWithin(rows, window.start, window.end - window.start) <==> |Inside(Times(rows), window)| >= 1
    ensures TwoSamplesIn(rows, window) <==> |Inside(Times(rows), window)| >= 2
  {
    hide Times, Inside;
    TimesOfValid(rows);
    var times, inside := Times(rows), Inside(Times(rows), window);
    var at := InsideIsPicked(times, window);
    if SampleWithin(rows, window.start, window.end - window.start) {
      var i :| 0 <= i < |rows| && window.start <= rows[i].at.value <= window.start + (window.end - window.start);
      assert i in at;
    }
    if |inside| >= 1 {
      assert window.Has(rows[at[0]].at.value);
    }
    if TwoSamplesIn(rows, window) {
      var i, j :| 0 <= i < j < |rows| && window.Has(rows[i].at.value) && window.Has(rows[j].at.value);
      assert i in at && j in at;
    }
    if |inside| >= 2 {
      assert at[0] < at[1] && window.Has(rows[at[0]].at.value) && window.Has(rows[at[1]].at.value);
    }
  }

  lemma SpreadExactly(rows: seq<Row>, window: Window, maxGap: real)
    requires forall i :: 0 <= i < |rows| ==> rows[i].at.Some?
    requires Rising(Times(rows)) && |Inside(Times(rows), window)| > 0
    ensures Spread(Inside(Times(rows), window), window, maxGap)
            <==> forall x: real :: window.start <= x && x + maxGap <= window.end ==> SampleWithin(rows, x, maxGap)
  {
    hide Times, Inside, SampleWithin, Spread, HasWithin;
    var times, inside := Times(rows), Inside(Times(rows), window);
    var at := InsideIsPicked(times, window);
    assert Rising(inside);
    if Spread(inside, window, maxGap) {
      forall x: real | window.start <= x && x + maxGap <= window.end ensures SampleWithin(rows, x, maxGap) {
        SpreadReaches(inside, window, maxGap, x);
        WithinIsInside(times, inside, window, at, x, maxGap);
        RowsAreTimes(rows, x, maxGap);
      }
    } else {
      var x := SparseMisses(inside, window, maxGap);
      WithinIsInside(times, inside, window, at, x, maxGap);
      RowsAreTimes(rows, x, maxGap);
    }
  }
}
