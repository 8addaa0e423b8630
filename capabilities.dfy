/**
 * Deriving a joystick's capabilities from the motion ranges of its input device
 * (`getCapabilitiesFromJni`).
 */
module Capabilities {
  import opened Wrappers
  import opened Joystick
  import opened AxisCodes

  /** Every motion range in the list could be read (and the list itself could). */
  predicate Readable(motionRanges: Option<seq<Option<int>>>)
  {
    motionRanges.Some? && forall i :: 0 <= i < |motionRanges.value| ==> motionRanges.value[i].Some?
  }

  /** One of the first `n` motion ranges has a code that translates to `axis`. */
  predicate Reports(ranges: seq<Option<int>>, n: nat, axis: Axis)
    requires n <= |ranges|
  {
    exists i :: 0 <= i < n && ranges[i].Some? && AndroidAxisToSf(ranges[i].value) == Some(axis)
  }

  /**
   * The capabilities a device with these motion ranges has: nothing when some range
   * is unreadable, otherwise every button and exactly the axes some range reports.
   */
  function CapabilitiesOf(motionRanges: Option<seq<Option<int>>>): (caps: Option<JoystickCaps>)
  {
    if !Readable(motionRanges) then None
    else
      var ranges := motionRanges.value;
      Some(JoystickCaps(ButtonCount, seq(AxisCount, k requires 0 <= k < AxisCount => Reports(ranges, |ranges|, AxisAt(k)))))
  }

  /**
   * `getCapabilitiesFromJni`: walk the motion ranges, give up at the first one that
   * cannot be read, and switch on the axis of every range whose code is known.
   */
  method GetCapabilitiesFromJni(motionRanges: Option<seq<Option<int>>>) returns (r: Option<JoystickCaps>)
    ensures r.None? <==> !Readable(motionRanges)
    ensures r.Some? ==> r.value.buttonCount == ButtonCount && |r.value.axes| == AxisCount
    ensures r.Some? ==> forall axis: Axis ::
      r.value.axes[axis.Index()] <==> Reports(motionRanges.value, |motionRanges.value|, axis)
    ensures r == CapabilitiesOf(motionRanges)
  {
    if motionRanges.None? {
      return None;
    }
    var ranges := motionRanges.value;
    var axes := new bool[AxisCount](_ => false);
    for i := 0 to |ranges|
      invariant forall j :: 0 <= j < i ==> ranges[j].Some?
      invariant forall k :: 0 <= k < AxisCount ==> axes[k] == Reports(ranges, i, AxisAt(k))
    {
      if ranges[i].None? {
        return None;
      }
      var axis := AndroidAxisToSf(ranges[i].value);
      if axis.Some? {
        AxisAtIndex(axis.value);
        axes[axis.value.Index()] := true;
      }
      forall k | 0 <= k < AxisCount
        ensures axes[k] == Reports(ranges, i + 1, AxisAt(k))
      {
        if axes[k] && !Reports(ranges, i, AxisAt(k)) {
          assert ranges[i].Some? && AndroidAxisToSf(ranges[i].value) == Some(AxisAt(k));
        }
      }
    }
    assert axes[..] == seq(AxisCount, k requires 0 <= k < AxisCount => Reports(ranges, |ranges|, AxisAt(k)));
    r := Some(JoystickCaps(ButtonCount, axes[..]));
    forall axis: Axis
      ensures axes[axis.Index()] == Reports(ranges, |ranges|, axis)
    {
      AxisAtIndex(axis);
    }
  }
}
