/**
 * Translation between Android motion-event axis codes (`AMOTION_EVENT_AXIS_*`
 * of the NDK header android/input.h) and the engine's `Joystick::Axis`.
 */
module AxisCodes {
  import opened Wrappers
  import opened Joystick

  const AxisXCode: int := 0         // AMOTION_EVENT_AXIS_X
  const AxisYCode: int := 1         // AMOTION_EVENT_AXIS_Y
  const AxisZCode: int := 11        // AMOTION_EVENT_AXIS_Z
  const AxisRzCode: int := 14       // AMOTION_EVENT_AXIS_RZ
  const AxisHatXCode: int := 15     // AMOTION_EVENT_AXIS_HAT_X
  const AxisHatYCode: int := 16     // AMOTION_EVENT_AXIS_HAT_Y
  const AxisLTriggerCode: int := 17 // AMOTION_EVENT_AXIS_LTRIGGER
  const AxisRTriggerCode: int := 18 // AMOTION_EVENT_AXIS_RTRIGGER

  /** The eight Android axis codes the engine understands. */
  const KnownAxisCodes: set<int> :=
    {AxisXCode, AxisYCode, AxisZCode, AxisRzCode, AxisHatXCode, AxisHatYCode, AxisLTriggerCode, AxisRTriggerCode}

  /** `JoystickImpl::sfAxisToAndroid`: the Android code of an engine axis. */
  function SfAxisToAndroid(axis: Axis): (code: int)
    ensures code in KnownAxisCodes
    ensures code >= 0
  {
    match axis
    case X => AxisXCode
    case Y => AxisYCode
    case Z => AxisZCode
    case R => AxisRzCode
    case U => AxisLTriggerCode
    case V => AxisRTriggerCode
    case PovX => AxisHatXCode
    case PovY => AxisHatYCode
  }

  /**
   * `JoystickImpl::androidAxisToSf`: the engine axis of an Android code, or
   * nothing for a code the engine does not know. It inverts `SfAxisToAndroid`.
   */
  function AndroidAxisToSf(axisCode: int): (r: Option<Axis>)
    ensures r.Some? ==> SfAxisToAndroid(r.value) == axisCode
    ensures r.None? <==> axisCode !in KnownAxisCodes
  {
    if axisCode == AxisXCode then Some(X)
    else if axisCode == AxisYCode then Some(Y)
    else if axisCode == AxisZCode then Some(Z)
    else if axisCode == AxisRzCode then Some(R)
    else if axisCode == AxisLTriggerCode then Some(U)
    else if axisCode == AxisRTriggerCode then Some(V)
    else if axisCode == AxisHatXCode then Some(PovX)
    else if axisCode == AxisHatYCode then Some(PovY)
    else None
  }

  /** Every engine axis survives the trip to an Android code and back. */
  lemma AxisRoundTrip(axis: Axis)
    ensures AndroidAxisToSf(SfAxisToAndroid(axis)) == Some(axis)
  {
  }

  /**
   * Corollary of the two postconditions of `AndroidAxisToSf`: every known Android
   * code survives the trip to an engine axis and back.
   */
  lemma CodeRoundTrip(axisCode: int)
    requires axisCode in KnownAxisCodes
    ensures AndroidAxisToSf(axisCode).Some?
    ensures SfAxisToAndroid(AndroidAxisToSf(axisCode).value) == axisCode
  {
  }

  /** Distinct engine axes have distinct Android codes. */
  lemma SfAxisToAndroidInjective(a: Axis, b: Axis)
    requires SfAxisToAndroid(a) == SfAxisToAndroid(b)
    ensures a == b
  {
  }
}
