/**
 * `RangeException`: interval checks with open or closed ends and infinite default bounds,
 * and the message the exception carries.
 */
module Ranges {
  import opened Wrappers

  /** `RangeType`, a two-bit flags enum: bit 0 closes the left end, bit 1 the right end. */
  datatype RangeType = RangeType(closedLeft: bool, closedRight: bool)

  const Open := RangeType(false, false)
  const ClosedLeft := RangeType(true, false)
  const ClosedRight := RangeType(false, true)
  const Closed := RangeType(true, true)

  /** The enum's underlying value. */
  function Flags(t: RangeType): (n: nat)
    ensures n < 4
    ensures t.closedLeft <==> n % 2 == 1
    ensures t.closedRight <==> n / 2 == 1
  {
    (if t.closedLeft then 1 else 0) + (if t.closedRight then 2 else 0)
  }

  function FromFlags(n: nat): (t: RangeType)
    requires n < 4
    ensures Flags(t) == n
  {
    RangeType(n % 2 == 1, n / 2 == 1)
  }

  lemma FlagValues()
    ensures Flags(Open) == 0 && Flags(ClosedLeft) == 1 && Flags(ClosedRight) == 2 && Flags(Closed) == 3
  {
  }

  /** A bound: a finite double, or one of the infinities the defaults use. */
  datatype Bound = NegInf | Fin(value: real) | PosInf

  const NoMin := NegInf
  const NoMax := PosInf

  predicate Less(v: real, b: Bound) {
    match b
    case NegInf => false
    case Fin(x) => v < x
    case PosInf => true
  }

  predicate Greater(v: real, b: Bound) {
    match b
    case NegInf => true
    case Fin(x) => v > x
    case PosInf => false
  }

  /** The throw condition of `Throw`, clause by clause. */
  predicate Violates(v: real, min: Bound, max: Bound, t: RangeType) {
    || (t.closedLeft && Less(v, min))
    || (t.closedRight && Greater(v, max))
    || (!t.closedLeft && !Greater(v, min))
    || (!t.closedRight && !Less(v, max))
  }

  /** The interval itself, as the bracket notation of the message reads. */
  predicate InInterval(v: real, min: Bound, max: Bound, t: RangeType) {
    && (if t.closedLeft then !Less(v, min) else Greater(v, min))
    && (if t.closedRight then !Greater(v, max) else Less(v, max))
  }

  /** The exception's properties. */
  datatype RangeError = RangeError(min: Bound, max: Bound, rangeType: RangeType, value: Option<real>, name: Option<string>)

  /** `RangeException.Throw(value, name, min, max, type)`; the overloads without a name pass `None`. */
  function Throw(v: real, name: Option<string>, min: Bound, max: Bound, t: RangeType): (r: Result<(), RangeError>)
    ensures r.Err? ==> r.error == RangeError(min, max, t, Some(v), name)
  {
    if Violates(v, min, max, t) then Err(RangeError(min, max, t, Some(v), name)) else Ok(())
  }

  /** `Throw` rejects a value exactly when it lies outside the interval. */
  lemma ThrowAcceptsExactlyTheInterval(v: real, name: Option<string>, min: Bound, max: Bound, t: RangeType)
    ensures Throw(v, name, min, max, t).Ok? <==> InInterval(v, min, max, t)
  {
  }

  /** With the default infinite bounds every finite value passes, whatever the range type. */
  lemma DefaultBoundsAcceptAll(v: real, name: Option<string>, t: RangeType)
    ensures Throw(v, name, NoMin, NoMax, t).Ok?
  {
  }

  /** `ThrowOnClosedRight`: passes exactly `(min, max]`. */
  function ThrowOnClosedRight(v: real, name: Option<string>, min: Bound, max: Bound): (r: Result<(), RangeError>)
    ensures r.Ok? <==> Greater(v, min) && !Greater(v, max)
    ensures r.Err? ==> r.error.rangeType == ClosedRight
  {
    Throw(v, name, min, max, ClosedRight)
  }

  /** `ThrowOnClosedLeft`: passes exactly `[min, max)`. */
  function ThrowOnClosedLeft(v: real, name: Option<string>, min: Bound, max: Bound): (r: Result<(), RangeError>)
    ensures r.Ok? <==> !Less(v, min) && Less(v, max)
    ensures r.Err? ==> r.error.rangeType == ClosedLeft
  {
    Throw(v, name, min, max, ClosedLeft)
  }

  /** `ThrowOnClosed`: passes exactly `[min, max]`. */
  function ThrowOnClosed(v: real, name: Option<string>, min: Bound, max: Bound): (r: Result<(), RangeError>)
    ensures r.Ok? <==> !Less(v, min) && !Greater(v, max)
    ensures r.Err? ==> r.error.rangeType == Closed
  {
    Throw(v, name, min, max, Closed)
  }

  /** `ThrowOnOpen`: passes exactly `(min, max)`. */
  function ThrowOnOpen(v: real, name: Option<string>, min: Bound, max: Bound): (r: Result<(), RangeError>)
    ensures r.Ok? <==> Greater(v, min) && Less(v, max)
    ensures r.Err? ==> r.error.rangeType == Open
  {
    Throw(v, name, min, max, Open)
  }

  /**
   * `CreateMsg`: "{name ?? "Value"} must be in range {l}{min}, {max}{r}{val}". `show` renders a
   * bound and `showValue` the offending value; both stand for .NET's number formatting.
   */
  function CreateMsg(min: Bound, max: Bound, t: RangeType, value: Option<real>, name: Option<string>,
                     show: Bound -> string, showValue: real -> string): (msg: string)
    ensures var head := name.GetOr("Value") + " must be in range ";
      && |head| < |msg|
      && msg[..|head|] == head
      && msg[|head|] == (if t.closedLeft then '[' else '(')
    ensures value.None? ==> msg[|msg| - 1] == (if t.closedRight then ']' else ')')
    ensures value.Some? ==> var tail := " but got " + showValue(value.value);
      |tail| < |msg| && msg[|msg| - |tail|..] == tail
    ensures var head := name.GetOr("Value") + " must be in range ";
      var bounds := show(min) + ", " + show(max);
      var tail := if value.Some? then " but got " + showValue(value.value) else "";
      && |msg| == |head| + 1 + |bounds| + 1 + |tail|
      && msg[|head| + 1..|head| + 1 + |bounds|] == bounds
      && msg[|msg| - |tail| - 1] == (if t.closedRight then ']' else ')')
      && msg[|msg| - |tail|..] == tail
  {
    var l := if t.closedLeft then '[' else '(';
    var r := if t.closedRight then ']' else ')';
    var v := if value.Some? then " but got " + showValue(value.value) else "";
    var head := name.GetOr("Value") + " must be in range ";
    var msg := head + [l] + show(min) + ", " + show(max) + [r] + v;
    assert msg[..|head|] == head;
    var bounds := show(min) + ", " + show(max);
    assert msg == head + [l] + bounds + [r] + v;
    assert msg[|head| + 1..|head| + 1 + |bounds|] == bounds;
    assert msg == (head + [l] + bounds + [r]) + v;
    msg
  }

  /** The brackets tell the range kinds apart: two kinds never give the same message. */
  lemma CreateMsgShowsKind(min: Bound, max: Bound, t1: RangeType, t2: RangeType, value: Option<real>,
                           name: Option<string>, show: Bound -> string, showValue: real -> string)
    requires t1 != t2
    ensures CreateMsg(min, max, t1, value, name, show, showValue) != CreateMsg(min, max, t2, value, name, show, showValue)
  {
    var m1 := CreateMsg(min, max, t1, value, name, show, showValue);
    var m2 := CreateMsg(min, max, t2, value, name, show, showValue);
    var head := name.GetOr("Value") + " must be in range ";
    var tail := if value.Some? then " but got " + showValue(value.value) else "";
    if t1.closedLeft != t2.closedLeft {
      assert m1[|head|] != m2[|head|];
    } else {
      assert m1[|m1| - |tail| - 1] != m2[|m2| - |tail| - 1];
    }
  }

  /** The message of a thrown `RangeError`. */
  function Message(e: RangeError, show: Bound -> string, showValue: real -> string): string {
    CreateMsg(e.min, e.max, e.rangeType, e.value, e.name, show, showValue)
  }
}
