/** The learning journey of App.tsx: turning plan labels into steps, and the
    placeholder heuristic that moves the current step forward. */
module Journey {
  import opened Types
  import Decimal

  /** The number of steps with status `st`. */
  function CountStatus(steps: seq<Step>, st: StepStatus): (n: nat)
    ensures n <= |steps|
    decreases |steps|
  {
    if steps == [] then 0
    else (if steps[0].status == st then 1 else 0) + CountStatus(steps[1..], st)
  }

  /** Completed steps first, then (if any step is left) one current step,
      then pending steps only; `k` is the number of completed steps. */
  predicate JourneyAt(steps: seq<Step>, k: nat)
  {
    && k <= |steps|
    && (forall i :: 0 <= i < k ==> steps[i].status == Completed)
    && (k < |steps| ==> steps[k].status == Current)
    && (forall i :: k < i < |steps| ==> steps[i].status == Pending)
  }

  /** The shape "completed*, then optionally current followed by pending*". */
  predicate WellFormed(steps: seq<Step>)
  {
    JourneyAt(steps, CountStatus(steps, Completed))
  }

  /** At most one step is current. */
  predicate AtMostOneCurrent(steps: seq<Step>)
  {
    forall i, j ::
      0 <= i < |steps| && 0 <= j < |steps| && steps[i].status == Current && steps[j].status == Current
      ==> i == j
  }

  /** Every step before a completed step is completed. */
  predicate CompletedPrefix(steps: seq<Step>)
  {
    forall i, j :: 0 <= i < j < |steps| && steps[j].status == Completed ==> steps[i].status == Completed
  }

  /** `i` is the position `findIndex(s => s.status === 'current')` returns. */
  predicate IsFirstCurrent(steps: seq<Step>, i: int)
  {
    && 0 <= i < |steps|
    && steps[i].status == Current
    && forall j :: 0 <= j < i ==> steps[j].status != Current
  }

  /** The steps that came out of an advancement: same length, same ids and
      captions, no completed step undone, and no status moved backwards along
      pending, current, completed. */
  predicate NoRegression(before: seq<Step>, after: seq<Step>)
  {
    && |after| == |before|
    && forall i :: 0 <= i < |before| ==>
         && after[i].id == before[i].id
         && after[i].caption == before[i].caption
         && (before[i].status == Completed ==> after[i].status == Completed)
         && (before[i].status == Current ==> after[i].status != Pending)
  }

  /** `generatedSteps.map((s, i) => ...)`: ids are the decimal indices, the
      first step is current and the rest are pending. */
  function StepsFromLabels(labels: seq<string>): (steps: seq<Step>)
    ensures |steps| == |labels| && JourneyAt(steps, 0)
  {
    seq(|labels|, i requires 0 <= i < |labels| =>
      Step(Decimal.NatToString(i), labels[i], if i == 0 then Current else Pending))
  }

  /** The mapping keeps the labels in order, gives distinct ids, and starts the
      journey well formed: exactly one current step when there are labels and
      none when there are not. */
  lemma StepsFromLabelsSpec(labels: seq<string>)
    ensures var steps := StepsFromLabels(labels);
      && |steps| == |labels|
      && (forall i :: 0 <= i < |labels| ==> steps[i].caption == labels[i])
      && (forall i :: 0 <= i < |labels| ==> steps[i].id == Decimal.NatToString(i))
      && (forall i, j :: 0 <= i < j < |labels| ==> steps[i].id != steps[j].id)
      && JourneyAt(steps, 0) && WellFormed(steps)
      && CountStatus(steps, Current) == (if labels == [] then 0 else 1)
  {
    var steps := StepsFromLabels(labels);
    forall i, j | 0 <= i < j < |labels| ensures steps[i].id != steps[j].id {
      Decimal.NatToStringInjective(i, j);
    }
    JourneyCounts(steps, 0);
  }

  lemma {:induction false} CountNone(steps: seq<Step>, st: StepStatus)
    requires forall i :: 0 <= i < |steps| ==> steps[i].status != st
    ensures CountStatus(steps, st) == 0
    decreases |steps|
  {
    if steps != [] {
      CountNone(steps[1..], st);
    }
  }

  /** In a journey of shape `k`, `k` steps are completed and one or none is
      current. */
  lemma {:induction false} JourneyCounts(steps: seq<Step>, k: nat)
    requires JourneyAt(steps, k)
    ensures CountStatus(steps, Completed) == k
    ensures CountStatus(steps, Current) == (if k < |steps| then 1 else 0)
    decreases |steps|
  {
    if steps != [] {
      if k > 0 {
        JourneyCounts(steps[1..], k - 1);
      } else {
        CountNone(steps[1..], Completed);
        CountNone(steps[1..], Current);
      }
    }
  }

  /** A well-formed journey has at most one current step, and its completed
      steps form a prefix. */
  lemma WellFormedInvariants(steps: seq<Step>)
    requires WellFormed(steps)
    ensures AtMostOneCurrent(steps) && CompletedPrefix(steps)
  {
  }

  /** The first current step, as `findIndex` finds it, or -1 when there is none. */
  function CurrentIndex(steps: seq<Step>): (r: int)
    ensures r == -1 || IsFirstCurrent(steps, r)
    ensures r == -1 <==> forall i :: 0 <= i < |steps| ==> steps[i].status != Current
    decreases |steps|
  {
    if steps == [] then -1
    else if steps[0].status == Current then 0
    else
      var r := CurrentIndex(steps[1..]);
      if r == -1 then -1 else r + 1
  }

  /** One advancement: the first current step becomes completed and the step
      after it, if any, becomes current. */
  function Advance(steps: seq<Step>): (r: seq<Step>)
    ensures |r| == |steps|
    ensures forall k :: 0 <= k < |steps| ==> r[k].id == steps[k].id && r[k].caption == steps[k].caption
    ensures r != steps ==> CurrentIndex(steps) != -1
  {
    var i := CurrentIndex(steps);
    if i == -1 then steps
    else
      var done := steps[i := steps[i].(status := Completed)];
      if i + 1 < |steps| then done[i + 1 := done[i + 1].(status := Current)] else done
  }

  /** What an advancement changes: the first current step is completed, the
      next step (if any) is current, and every other step is as it was. */
  lemma AdvanceAt(steps: seq<Step>, i: int)
    requires IsFirstCurrent(steps, i)
    ensures var r := Advance(steps);
      && |r| == |steps|
      && r[i] == steps[i].(status := Completed)
      && (i + 1 < |steps| ==> r[i + 1] == steps[i + 1].(status := Current))
      && forall k :: 0 <= k < |steps| && k != i && k != i + 1 ==> r[k] == steps[k]
  {
    assert CurrentIndex(steps) == i;
  }

  /** With no current step the list is returned unchanged. */
  lemma AdvanceWithoutCurrent(steps: seq<Step>)
    requires forall i :: 0 <= i < |steps| ==> steps[i].status != Current
    ensures Advance(steps) == steps
  {
  }

  /** An advancement moves a well-formed journey one step on and keeps it well
      formed; a finished journey is left as it is. */
  lemma AdvanceJourney(steps: seq<Step>, k: nat)
    requires JourneyAt(steps, k)
    ensures k < |steps| ==> JourneyAt(Advance(steps), k + 1)
    ensures k == |steps| ==> Advance(steps) == steps
    ensures NoRegression(steps, Advance(steps))
  {
    if k < |steps| {
      assert IsFirstCurrent(steps, k);
      AdvanceAt(steps, k);
    }
  }

  /** The heuristic of App.tsx: advance only when there is a current step, the
      message count captured before the send exceeds 3, and the coin (standing
      for `Math.random() > 0.6`) came up true. */
  function AdvanceIfDue(prevSteps: seq<Step>, priorCount: nat, coin: bool): (r: seq<Step>)
    ensures r == prevSteps || r == Advance(prevSteps)
  {
    if CurrentIndex(prevSteps) != -1 && priorCount > 3 && coin then Advance(prevSteps) else prevSteps
  }

  /** Nothing moves unless the log held more than three messages before the
      send and the coin is true; in particular never on the first send. */
  lemma AdvanceIfDueGate(prevSteps: seq<Step>, priorCount: nat, coin: bool)
    requires priorCount <= 3 || !coin
    ensures AdvanceIfDue(prevSteps, priorCount, coin) == prevSteps
  {
  }

  /** When there is a current step, more than three earlier messages and the
      coin is true, the journey does advance. */
  lemma AdvanceIfDueFires(prevSteps: seq<Step>, priorCount: nat, coin: bool)
    requires CurrentIndex(prevSteps) != -1 && priorCount > 3 && coin
    ensures AdvanceIfDue(prevSteps, priorCount, coin) == Advance(prevSteps)
  {
  }

  /** The heuristic keeps a journey well formed and never undoes progress. */
  lemma AdvanceIfDuePreserves(prevSteps: seq<Step>, priorCount: nat, coin: bool)
    requires WellFormed(prevSteps)
    ensures WellFormed(AdvanceIfDue(prevSteps, priorCount, coin))
    ensures NoRegression(prevSteps, AdvanceIfDue(prevSteps, priorCount, coin))
  {
    var k := CountStatus(prevSteps, Completed);
    AdvanceJourney(prevSteps, k);
    if k < |prevSteps| {
      JourneyCounts(Advance(prevSteps), k + 1);
    }
  }

  /** `prevSteps.findIndex(s => s.status === 'current')`. */
  method FindCurrentIndex(steps: seq<Step>) returns (idx: int)
    ensures idx == CurrentIndex(steps)
  {
    idx := 0;
    while idx < |steps|
      invariant 0 <= idx <= |steps|
      invariant forall j :: 0 <= j < idx ==> steps[j].status != Current
    {
      if steps[idx].status == Current {
        return;
      }
      idx := idx + 1;
    }
    idx := -1;
  }

  /** The `setSteps` updater of App.tsx: find the current step and, when the
      heuristic fires, copy the list and update the two statuses in place. */
  method AdvanceSteps(prevSteps: seq<Step>, priorCount: nat, coin: bool) returns (next: seq<Step>)
    ensures next == AdvanceIfDue(prevSteps, priorCount, coin)
  {
    var currentIdx := FindCurrentIndex(prevSteps);
    if currentIdx != -1 && priorCount > 3 && coin {
      var a := new Step[|prevSteps|](i requires 0 <= i < |prevSteps| => prevSteps[i]);
      a[currentIdx] := a[currentIdx].(status := Completed);
      if currentIdx + 1 < a.Length {
        a[currentIdx + 1] := a[currentIdx + 1].(status := Current);
      }
      next := a[..];
    } else {
      next := prevSteps;
    }
  }
}
