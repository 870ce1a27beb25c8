/** When a rule's readings trigger an alert. Readings come newest first, one list a device. */
module Evaluator {
  import opened Basics

  datatype Condition = Above | Below | Equal | Unknown

  datatype Mode = Consecutive | Duration | ConsecutiveAndDuration | UnknownMode

  datatype Trigger = Trigger(condition: Condition, threshold: Option<real>, mode: Mode, count: int, seconds: int)

  predicate Crosses(value: real, t: Trigger) {
    t.threshold.Some? &&
    match t.condition
    case Above => value > t.threshold.value
    case Below => value < t.threshold.value
    case Equal => -0.000000001 < value - t.threshold.value < 0.000000001
    case Unknown => false
  }

  /** The newest n readings are there, and all of them cross the threshold. */
  predicate NewestCross(values: seq<real>, n: int, t: Trigger) {
    n <= |values| && forall k :: 0 <= k < n ==> Crosses(values[k], t)
  }

  /** One reading for each full minute of the duration, and never none. */
  function Needed(seconds: int): (n: int)
    ensures seconds < 60 ==> n == 1
    ensures seconds >= 60 ==> 60 * n <= seconds < 60 * (n + 1)
  {
    if seconds / 60 > 1 then seconds / 60 else 1
  }

  predicate Triggered(values: seq<real>, t: Trigger) {
    values != [] &&
    match t.mode
    case Consecutive => NewestCross(values, t.count, t)
    case Duration => NewestCross(values, Needed(t.seconds), t)
    case ConsecutiveAndDuration => NewestCross(values, t.count, t) && NewestCross(values, Needed(t.seconds), t)
    case UnknownMode => false
  }

  /** A reading crosses strictly above or below; equal means less than a billionth away; without a threshold none does. */
  lemma CrossesIff(value: real, t: Trigger)
    ensures t.threshold.None? || t.condition.Unknown? ==> !Crosses(value, t)
    ensures t.threshold.Some? ==>
              var gap := value - t.threshold.value;
              && (t.condition.Above? ==> (Crosses(value, t) <==> gap > 0.0))
              && (t.condition.Below? ==> (Crosses(value, t) <==> gap < 0.0))
              && (t.condition.Equal? ==> (Crosses(value, t) <==> (if gap < 0.0 then -gap else gap) * 1000000000.0 < 1.0))
  {
  }

  /**
   Readings trigger exactly when there are any, and every one among the newest that the mode looks at is there and
   crosses: a number of them, one a full minute but at least one, or both.
   */
  lemma TriggeredIff(values: seq<real>, t: Trigger)
    ensures var minutes := if t.seconds < 60 then 1 else t.seconds / 60;
            Triggered(values, t) <==>
              && values != [] && !t.mode.UnknownMode?
              && (!t.mode.Duration? ==> t.count <= |values|) && (!t.mode.Consecutive? ==> minutes <= |values|)
              && forall k :: 0 <= k < |values| && ((!t.mode.Duration? && k < t.count) || (!t.mode.Consecutive? && k < minutes)) ==> Crosses(values[k], t)
  {
  }

  /** How many of the newest readings cross in a row. */
  method Streak(values: seq<real>, t: Trigger) returns (count: nat)
    ensures forall n: int :: count >= n <==> NewestCross(values, n, t)
  {
    count := 0;
    while count < |values|
      invariant count <= |values| && forall k :: 0 <= k < count ==> Crosses(values[k], t)
    {
      if !Crosses(values[count], t) { break; }
      count := count + 1;
    }
  }

  /** One device's readings against the rule: whether they trigger, and the newest of them. */
  method CheckTrigger(values: seq<real>, t: Trigger) returns (triggered: bool, last: Option<real>)
    ensures triggered <==> Triggered(values, t)
    ensures last == if values == [] || t.mode.UnknownMode? then None else Some(values[0])
  {
    if values == [] { return false, None; }
    last := Some(values[0]);
    match t.mode
    case Consecutive =>
      var count := Streak(values, t);
      triggered := count >= t.count;
    case Duration =>
      var needed := Needed(t.seconds);
      triggered := true;
      var i := 0;
      while i < needed && i < |values|
        invariant 0 <= i <= needed && i <= |values|
        invariant triggered <==> forall k :: 0 <= k < i ==> Crosses(values[k], t)
      {
        if !Crosses(values[i], t) { triggered := false; }
        i := i + 1;
      }
      triggered := triggered && |values| >= needed;
    case ConsecutiveAndDuration =>
      var count := Streak(values, t);
      triggered := count >= t.count && count >= Needed(t.seconds);
    case UnknownMode =>
      return false, None;
  }

  /** A rule fires when any of its devices does, with the newest reading of the first that does. */
  method EvaluateRule(devices: seq<seq<real>>, t: Trigger) returns (fired: bool, last: Option<real>)
    ensures fired <==> exists i :: 0 <= i < |devices| && Triggered(devices[i], t)
    ensures !fired ==> last == None
    ensures fired ==> exists i :: 0 <= i < |devices| && Triggered(devices[i], t) && last == Some(devices[i][0])
                                && forall k :: 0 <= k < i ==> !Triggered(devices[k], t)
  {
    for i := 0 to |devices|
      invariant forall k :: 0 <= k < i ==> !Triggered(devices[k], t)
    {
      var triggered, newest := CheckTrigger(devices[i], t);
      if triggered { return true, newest; }
    }
    return false, None;
  }
}
