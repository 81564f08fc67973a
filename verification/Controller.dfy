/**
 * The phone controller's input shaping (CharacterController/ContentView.swift): a joystick drag is
 * clamped to a disc and normalised by the disc's radius, the vertical slider maps a knob position
 * to a value in [-1, 1], and every change or button press is sent as a JSON object with a single
 * top-level key.
 */
module Controller {
  import opened Options
  import opened Vectors

  /** A JSON value as the controller builds it, before the system serialiser turns it into text. */
  datatype Json =
    | JNumber(n: real)
    | JBool(b: bool)
    | JString(s: string)
    | JObject(fields: map<string, Json>)

  /** One message: the top-level JSON object handed to the transport. */
  type Message = map<string, Json>

  /** Which control a continuous update is about. */
  datatype ControlType = Left | Right | Slider

  /** The two touch pads: the movement pad on the left and the rotation pad in the middle. */
  datatype Pad = LeftPad | RightPad

  /** The one-shot buttons. */
  datatype Command = Thrust | Cloak | Reset

  function KeyOf(changed: ControlType): string {
    match changed
    case Left => "left"
    case Right => "right"
    case Slider => "slider"
  }

  function CommandKey(c: Command): string {
    match c
    case Thrust => "thrust"
    case Cloak => "cloak"
    case Reset => "reset"
  }

  function ChangedBy(pad: Pad): ControlType {
    if pad == LeftPad then Left else Right
  }

  /** The JSON object {"x": v.x, "y": v.y}. */
  function VectorJson(v: Vec2): Json {
    JObject(map["x" := JNumber(v.x), "y" := JNumber(v.y)])
  }

  function Min(a: real, b: real): real {
    if b < a then b else a
  }

  function Max(a: real, b: real): real {
    if b >= a then b else a
  }

  // ---------------------------------------------------------------------------------------------
  // Touch pads

  /** The knob's diameter is this fraction of the pad's size, in the drag clamp and in the message. */
  const KnobFactor: real := 0.13

  /** Radius of the disc the knob centre may reach: half of what the knob leaves of the pad. */
  function MaxRadius(padSize: real): (r: real)
    ensures padSize >= 0.0 ==> 0.0 <= r <= padSize / 2.0
    ensures r == 0.0 <==> padSize == 0.0
  {
    (padSize - padSize * KnobFactor) / 2.0
  }

  /**
   * The stored offset for a drag `(dx, dy)` from the pad centre, `dist` being its length. Inside
   * the disc the drag is kept as it is; outside it is brought back onto the rim along the same
   * angle: cos(atan2(dy, dx)) is dx / dist and sin(atan2(dy, dx)) is dy / dist, and atan2(0, 0)
   * is 0 (a point only outside the disc when the radius is negative).
   */
  function ClampDrag(dx: real, dy: real, dist: real, maxRadius: real): (c: Vec2)
    requires IsLength(Vec2(dx, dy), dist)
    ensures dist <= maxRadius ==> c == Vec2(dx, dy)
  {
    if dist > maxRadius then
      if dist == 0.0 then Vec2(maxRadius, 0.0)
      else Scale2(Vec2(dx, dy), maxRadius / dist)
    else Vec2(dx, dy)
  }

  /** A drag outside the disc is stored on the rim, pointing the way of the drag. */
  lemma ClampDragOutside(dx: real, dy: real, dist: real, maxRadius: real)
    requires IsLength(Vec2(dx, dy), dist)
    requires maxRadius >= 0.0 && dist > maxRadius
    ensures NormSq(ClampDrag(dx, dy, dist, maxRadius)) == maxRadius * maxRadius
    ensures SameDirection(ClampDrag(dx, dy, dist, maxRadius), Vec2(dx, dy))
  {
    var d := Vec2(dx, dy);
    var k := maxRadius / dist;
    assert ClampDrag(dx, dy, dist, maxRadius) == Scale2(d, k);
    FractionInUnit(maxRadius, dist);
    ScaledNormSq(d, k);
    RimLength(k, dist, maxRadius);
    ScaledDirection(d, k);
  }

  /** Whatever the drag, the stored offset lies within the disc. */
  lemma ClampDragWithinDisc(dx: real, dy: real, dist: real, maxRadius: real)
    requires IsLength(Vec2(dx, dy), dist)
    requires maxRadius >= 0.0
    ensures NormSq(ClampDrag(dx, dy, dist, maxRadius)) <= maxRadius * maxRadius
  {
    if dist > maxRadius {
      ClampDragOutside(dx, dy, dist, maxRadius);
    } else {
      MulNonNeg(dist, maxRadius - dist);
      MulNonNeg(maxRadius, maxRadius - dist);
      assert maxRadius * maxRadius - dist * dist
          == dist * (maxRadius - dist) + maxRadius * (maxRadius - dist);
    }
  }

  /** One normalised axis: the offset divided by the radius, guarded against a zero radius. */
  function NormalizeAxis(offset: real, maxRadius: real): (r: real)
    ensures maxRadius == 0.0 ==> r == 0.0
    ensures maxRadius != 0.0 ==> r * maxRadius == offset
  {
    if maxRadius == 0.0 then 0.0 else offset / maxRadius
  }

  /** The joystick vector sent for a stored pad offset. */
  function NormalizeOffset(offset: Vec2, padSize: real): (v: Vec2)
    ensures MaxRadius(padSize) == 0.0 ==> v == Zero2
    ensures MaxRadius(padSize) != 0.0 ==> Scale2(v, MaxRadius(padSize)) == offset
  {
    Vec2(NormalizeAxis(offset.x, MaxRadius(padSize)), NormalizeAxis(offset.y, MaxRadius(padSize)))
  }

  /**
   * Because the message uses the same knob factor as the drag clamp, a clamped offset always
   * normalises into the unit disc, and onto the unit circle when the drag left the disc.
   */
  lemma ClampedOffsetNormalisesIntoUnitDisc(dx: real, dy: real, dist: real, padSize: real)
    requires padSize >= 0.0
    requires IsLength(Vec2(dx, dy), dist)
    ensures NormSq(NormalizeOffset(ClampDrag(dx, dy, dist, MaxRadius(padSize)), padSize)) <= 1.0
    ensures dist > MaxRadius(padSize) > 0.0 ==>
              NormSq(NormalizeOffset(ClampDrag(dx, dy, dist, MaxRadius(padSize)), padSize)) == 1.0
  {
    var m := MaxRadius(padSize);
    var c := ClampDrag(dx, dy, dist, m);
    var n := NormalizeOffset(c, padSize);
    if m != 0.0 {
      ClampDragWithinDisc(dx, dy, dist, m);
      var k := 1.0 / m;
      assert n == Scale2(c, k);
      ScaledNormSq(c, k);
      assert k * k * (m * m) == 1.0;
      MulNonNeg(k * k, m * m - NormSq(c));
      assert k * k * NormSq(c) == k * k * (m * m) - k * k * (m * m - NormSq(c));
      if dist > m {
        ClampDragOutside(dx, dy, dist, m);
      }
    }
  }

  // ---------------------------------------------------------------------------------------------
  // Messages

  /**
   * sendControlUpdate's slider reading: 1 with the knob at the top of the bar, 0 at the bottom or
   * when the slider was never moved. A zero slider height makes the source divide by zero; the
   * IEEE infinities or NaN that result are resolved by Swift's min and max to 0 for a positive
   * position and to 1 otherwise, which the first branch spells out.
   */
  function SliderNorm(sliderY: Option<real>, sliderHeight: real): (r: real)
    ensures 0.0 <= r <= 1.0
    ensures sliderY.None? ==> r == 0.0
  {
    match sliderY
    case None => 0.0
    case Some(y) =>
      var barHeight := sliderHeight * 0.8;
      var knobRadius := sliderHeight * KnobFactor * 0.7;
      var margin := (sliderHeight * KnobFactor - knobRadius) / 2.0;
      var minCenterY := margin + knobRadius / 2.0;
      var maxCenterY := barHeight - margin - knobRadius / 2.0;
      var span := maxCenterY - minCenterY;
      if span == 0.0 then (if y > 0.0 then 0.0 else 1.0)
      else Max(0.0, Min(1.0, 1.0 - (y - minCenterY) / span))
  }

  /** With a real bar, the top of the knob's travel reads 1 and the bottom reads 0. */
  lemma SliderNormEnds(sliderHeight: real)
    requires sliderHeight > 0.0
    ensures SliderNorm(Some(sliderHeight * 0.065), sliderHeight) == 1.0
    ensures SliderNorm(Some(sliderHeight * 0.735), sliderHeight) == 0.0
  {
    var span := sliderHeight * 0.735 - sliderHeight * 0.065;
    assert span == sliderHeight * 0.67;
    assert (sliderHeight * 0.735 - sliderHeight * 0.065) / span == 1.0;
  }

  /**
   * sendControlUpdate: one object with exactly one top-level key, the control that changed,
   * carrying that control's value only.
   */
  function ControlUpdate(left: Vec2, right: Vec2, sliderY: Option<real>, padSize: real,
                         sliderHeight: real, changed: ControlType): (m: Message)
    ensures m.Keys == {KeyOf(changed)}
    ensures changed == Left ==> m["left"] == VectorJson(NormalizeOffset(left, padSize))
    ensures changed == Right ==> m["right"] == VectorJson(NormalizeOffset(right, padSize))
    ensures changed == Slider ==> m["slider"] == JNumber(SliderNorm(sliderY, sliderHeight))
  {
    match changed
    case Left => map["left" := VectorJson(NormalizeOffset(left, padSize))]
    case Right => map["right" := VectorJson(NormalizeOffset(right, padSize))]
    case Slider => map["slider" := JNumber(SliderNorm(sliderY, sliderHeight))]
  }

  /**
   * The message never depends on the controls that did not change: two calls that agree on the
   * changed control send the same object, whatever the other pad and the slider hold.
   */
  lemma ControlUpdateIgnoresOthers(left: Vec2, right: Vec2, sliderY: Option<real>,
                                   left': Vec2, right': Vec2, sliderY': Option<real>,
                                   padSize: real, sliderHeight: real, changed: ControlType)
    requires changed == Left ==> left == left'
    requires changed == Right ==> right == right'
    requires changed == Slider ==> sliderY == sliderY'
    ensures ControlUpdate(left, right, sliderY, padSize, sliderHeight, changed)
         == ControlUpdate(left', right', sliderY', padSize, sliderHeight, changed)
  {
  }

  /** A released pad sends an explicit zero vector for itself, never an absent field. */
  lemma ReleaseSendsZero(pad: Pad, other: Vec2, sliderY: Option<real>, padSize: real)
    ensures var m := if pad == LeftPad then ControlUpdate(Zero2, other, sliderY, padSize, padSize, Left)
                     else ControlUpdate(other, Zero2, sliderY, padSize, padSize, Right);
            m.Keys == {KeyOf(ChangedBy(pad))} && m[KeyOf(ChangedBy(pad))] == VectorJson(Zero2)
  {
  }

  /** The slider's own message: {"slider": value}. */
  function SliderMessage(value: real): (m: Message)
    ensures m.Keys == {"slider"} && m["slider"] == JNumber(value)
  {
    map["slider" := JNumber(value)]
  }

  /** A button press: a single key whose value is true. */
  function CommandMessage(c: Command): (m: Message)
    ensures m.Keys == {CommandKey(c)} && m[CommandKey(c)] == JBool(true)
  {
    map[CommandKey(c) := JBool(true)]
  }

  /** sendButtonCommand: {"button": command}. */
  function ButtonMessage(command: string): (m: Message)
    ensures m.Keys == {"button"} && m["button"] == JString(command)
  {
    map["button" := JString(command)]
  }

  /** The compact text the system serialiser produces for a button press. */
  function CommandText(c: Command): string {
    "{\"" + CommandKey(c) + "\":true}"
  }

  // ---------------------------------------------------------------------------------------------
  // Vertical slider

  /** Knob diameter of the vertical slider, as a fraction of the slider's width. */
  const SliderKnobFactor: real := 0.7

  /** The top end of the knob centre's travel: the margin plus half the knob. */
  function SliderMinY(width: real, margin: real): real {
    margin + width * SliderKnobFactor / 2.0
  }

  /**
   * The bottom end of the knob centre's travel. The travel is the slider's height less both
   * margins and one knob diameter; it is empty or reversed on a slider too short for the knob.
   */
  function SliderMaxY(sliderHeight: real, width: real, margin: real): (y: real)
    ensures y - SliderMinY(width, margin) == sliderHeight - 2.0 * margin - width * SliderKnobFactor
  {
    sliderHeight - margin - width * SliderKnobFactor / 2.0
  }

  /** The drag position held between the ends of the track (max first, then min). */
  function ClampKnob(y: real, lo: real, hi: real): (r: real)
    ensures r <= hi
    ensures lo <= hi ==> lo <= r
    ensures lo <= y <= hi ==> r == y
  {
    Min(Max(y, lo), hi)
  }

  /** The knob's centre for a slider value: 1 at the top of the track, -1 at the bottom. */
  function KnobYForValue(value: real, minY: real, maxY: real): (y: real)
    ensures value == 1.0 ==> y == minY
    ensures value == -1.0 ==> y == maxY
    ensures minY <= maxY && -1.0 <= value <= 1.0 ==> minY <= y <= maxY
  {
    var g := (1.0 - value) / 2.0;
    assert minY <= maxY && 0.0 <= g <= 1.0 ==> 0.0 <= g * (maxY - minY) <= maxY - minY by {
      if minY <= maxY && 0.0 <= g <= 1.0 {
        MulNonNeg(g, maxY - minY);
        MulNonNeg(1.0 - g, maxY - minY);
      }
    }
    g * (maxY - minY) + minY
  }

  /**
   * The value for a drag: the clamped position mapped linearly onto [-1, 1], top to bottom. A
   * track whose ends coincide would divide zero by zero.
   */
  function ValueForDrag(locY: real, minY: real, maxY: real): (v: real)
    requires minY != maxY
    ensures minY < maxY ==> -1.0 <= v <= 1.0
    ensures minY < maxY && locY <= minY ==> v == 1.0
    ensures locY >= maxY ==> v == -1.0
    ensures maxY < minY ==> v == -1.0
  {
    var newY := ClampKnob(locY, minY, maxY);
    var f := (newY - minY) / (maxY - minY);
    assert minY < maxY ==> 0.0 <= f <= 1.0 by {
      if minY < maxY { FractionInUnit(newY - minY, maxY - minY); }
    }
    DivSelf(maxY - minY);
    assert locY >= maxY || maxY < minY ==> newY == maxY;
    assert minY < maxY && locY <= minY ==> newY == minY;
    1.0 - 2.0 * f
  }

  /** The knob is drawn where it was dragged to: the position formula inverts the value formula. */
  lemma KnobFollowsDrag(locY: real, minY: real, maxY: real)
    requires minY < maxY
    ensures KnobYForValue(ValueForDrag(locY, minY, maxY), minY, maxY) == ClampKnob(locY, minY, maxY)
  {
    var newY := ClampKnob(locY, minY, maxY);
    var f := (newY - minY) / (maxY - minY);
    assert f * (maxY - minY) == newY - minY;
    assert (1.0 - (1.0 - 2.0 * f)) / 2.0 == f;
  }

  /** Dragging the knob to where a value is drawn gives that value back. */
  lemma ValueForKnobY(value: real, minY: real, maxY: real)
    requires minY < maxY
    requires -1.0 <= value <= 1.0
    ensures ValueForDrag(KnobYForValue(value, minY, maxY), minY, maxY) == value
  {
    var d := maxY - minY;
    var y := KnobYForValue(value, minY, maxY);
    var g := (1.0 - value) / 2.0;
    assert 0.0 <= g <= 1.0;
    MulNonNeg(g, d);
    MulNonNeg(1.0 - g, d);
    assert y - minY == g * d;
    assert maxY - y == (1.0 - g) * d;
    assert ClampKnob(y, minY, maxY) == y;
    MulDiv(g, d);
  }

  // ---------------------------------------------------------------------------------------------
  // Views with state

  /**
   * The control panel's state: each pad's drawn offset and last clamped value, the slider's
   * stored value (nil until first moved), and the messages handed to the transport so far.
   */
  class ControlPanel {
    var leftPadOffset: Vec2
    var rightPadOffset: Vec2
    var leftPadLastValue: Vec2
    var rightPadLastValue: Vec2
    var sliderY: Option<real>
    var sent: seq<Message>

    constructor ()
      ensures leftPadOffset == rightPadOffset == leftPadLastValue == rightPadLastValue == Zero2
      ensures sliderY == None && sent == []
    {
      leftPadOffset, rightPadOffset := Zero2, Zero2;
      leftPadLastValue, rightPadLastValue := Zero2, Zero2;
      sliderY := None;
      sent := [];
    }

    /** The slider binding's getter: the stored value, 0 while there is none. */
    function SliderValue(): (v: real)
      reads this
      ensures sliderY.None? ==> v == 0.0
      ensures sliderY.Some? ==> v == sliderY.value
    {
      sliderY.GetOr(0.0)
    }

    /**
     * A touch moves on a pad of size `padSize` to (locX, locY); `dist` is the length of the
     * drag from the pad centre. The pad stores the clamped offset as both its drawn offset and
     * its last value and sends a single-key update for itself.
     */
    method PadDragChanged(pad: Pad, padSize: real, locX: real, locY: real, dist: real)
      requires IsLength(Vec2(locX - padSize / 2.0, locY - padSize / 2.0), dist)
      modifies this
      ensures var c := ClampDrag(locX - padSize / 2.0, locY - padSize / 2.0, dist, MaxRadius(padSize));
              if pad == LeftPad then
                && leftPadOffset == leftPadLastValue == c
                && rightPadOffset == old(rightPadOffset) && rightPadLastValue == old(rightPadLastValue)
                && sent == old(sent) + [ControlUpdate(c, rightPadLastValue, sliderY, padSize, padSize, Left)]
              else
                && rightPadOffset == rightPadLastValue == c
                && leftPadOffset == old(leftPadOffset) && leftPadLastValue == old(leftPadLastValue)
                && sent == old(sent) + [ControlUpdate(leftPadLastValue, c, sliderY, padSize, padSize, Right)]
      ensures sliderY == old(sliderY)
    {
      var dx := locX - padSize / 2.0;
      var dy := locY - padSize / 2.0;
      var clamped := ClampDrag(dx, dy, dist, MaxRadius(padSize));
      if pad == LeftPad {
        leftPadOffset := clamped;
        leftPadLastValue := clamped;
        sent := sent + [ControlUpdate(clamped, rightPadLastValue, sliderY, padSize, padSize, Left)];
      } else {
        rightPadOffset := clamped;
        rightPadLastValue := clamped;
        sent := sent + [ControlUpdate(leftPadLastValue, clamped, sliderY, padSize, padSize, Right)];
      }
    }

    /**
     * The touch lifts: only the drawn offset returns to the centre, the last value is kept, and
     * the zero vector is sent twice, once by the update callback and once by the release one.
     */
    method PadDragEnded(pad: Pad, padSize: real)
      modifies this
      ensures leftPadLastValue == old(leftPadLastValue) && rightPadLastValue == old(rightPadLastValue)
      ensures sliderY == old(sliderY)
      ensures if pad == LeftPad then
                && leftPadOffset == Zero2 && rightPadOffset == old(rightPadOffset)
                && var z := ControlUpdate(Zero2, rightPadLastValue, sliderY, padSize, padSize, Left);
                   sent == old(sent) + [z, z]
              else
                && rightPadOffset == Zero2 && leftPadOffset == old(leftPadOffset)
                && var z := ControlUpdate(leftPadLastValue, Zero2, sliderY, padSize, padSize, Right);
                   sent == old(sent) + [z, z]
    {
      if pad == LeftPad {
        leftPadOffset := Zero2;
        sent := sent + [ControlUpdate(Zero2, rightPadLastValue, sliderY, padSize, padSize, Left)];
        sent := sent + [ControlUpdate(Zero2, rightPadLastValue, sliderY, padSize, padSize, Left)];
      } else {
        rightPadOffset := Zero2;
        sent := sent + [ControlUpdate(leftPadLastValue, Zero2, sliderY, padSize, padSize, Right)];
        sent := sent + [ControlUpdate(leftPadLastValue, Zero2, sliderY, padSize, padSize, Right)];
      }
    }

    /** The slider binding's setter: store the value and send it at once. */
    method SliderChanged(newValue: real)
      modifies this
      ensures sliderY == Some(newValue) && SliderValue() == newValue
      ensures sent == old(sent) + [SliderMessage(newValue)]
      ensures leftPadOffset == old(leftPadOffset) && rightPadOffset == old(rightPadOffset)
      ensures leftPadLastValue == old(leftPadLastValue) && rightPadLastValue == old(rightPadLastValue)
    {
      sliderY := Some(newValue);
      sent := sent + [SliderMessage(newValue)];
    }

    /**
     * A drag to `locY` on the vertical slider of the given height, width and margin; its knob
     * centre travels between SliderMinY and SliderMaxY.
     */
    method SliderDragged(locY: real, sliderHeight: real, width: real, margin: real)
      requires SliderMinY(width, margin) != SliderMaxY(sliderHeight, width, margin)
      modifies this
      ensures var value := ValueForDrag(locY, SliderMinY(width, margin), SliderMaxY(sliderHeight, width, margin));
              && sliderY == Some(value)
              && sent == old(sent) + [SliderMessage(value)]
      ensures sliderHeight > 2.0 * margin + width * SliderKnobFactor ==> -1.0 <= SliderValue() <= 1.0
      ensures leftPadOffset == old(leftPadOffset) && rightPadOffset == old(rightPadOffset)
      ensures leftPadLastValue == old(leftPadLastValue) && rightPadLastValue == old(rightPadLastValue)
    {
      var minY := SliderMinY(width, margin);
      var maxY := SliderMaxY(sliderHeight, width, margin);
      SliderChanged(ValueForDrag(locY, minY, maxY));
    }

    method SendThrustCommand()
      modifies this
      ensures sent == old(sent) + [CommandMessage(Thrust)]
      ensures unchanged(this`leftPadOffset, this`rightPadOffset, this`leftPadLastValue,
                        this`rightPadLastValue, this`sliderY)
    {
      sent := sent + [CommandMessage(Thrust)];
    }

    method SendCloakCommand()
      modifies this
      ensures sent == old(sent) + [CommandMessage(Cloak)]
      ensures unchanged(this`leftPadOffset, this`rightPadOffset, this`leftPadLastValue,
                        this`rightPadLastValue, this`sliderY)
    {
      sent := sent + [CommandMessage(Cloak)];
    }

    /** Reset also forgets the slider's value, so the slider reads 0 again. */
    method SendResetCommand()
      modifies this
      ensures sent == old(sent) + [CommandMessage(Reset)]
      ensures sliderY == None && SliderValue() == 0.0
      ensures unchanged(this`leftPadOffset, this`rightPadOffset, this`leftPadLastValue,
                        this`rightPadLastValue)
    {
      sent := sent + [CommandMessage(Reset)];
      sliderY := None;
    }

    method SendButtonCommand(command: string)
      modifies this
      ensures sent == old(sent) + [ButtonMessage(command)]
      ensures unchanged(this`leftPadOffset, this`rightPadOffset, this`leftPadLastValue,
                        this`rightPadLastValue, this`sliderY)
    {
      sent := sent + [ButtonMessage(command)];
    }
  }

  /**
   * The alternative centre slider bar: its knob position is a binding that may be nil, drawn at
   * the bottom of its travel while nil, and held between the ends of its travel on every drag.
   */
  class CenterSliderBar {
    const height: real
    const barWidth: real
    var knobY: Option<real>

    /** The knob position is a binding owned by the enclosing view, which supplies its value. */
    constructor (height: real, barWidth: real, knobY: Option<real>)
      ensures this.height == height && this.barWidth == barWidth && this.knobY == knobY
    {
      this.height := height;
      this.barWidth := barWidth;
      this.knobY := knobY;
    }

    /** The top end of the knob's travel: the knob, as wide as 0.7 of the bar, touches the top. */
    function MinCenterY(): (y: real)
      ensures y == barWidth / 2.0
    {
      (barWidth - barWidth * SliderKnobFactor) / 2.0 + barWidth * SliderKnobFactor / 2.0
    }

    /** The bottom end of the knob's travel, in a bar 0.8 of the view's height. */
    function MaxCenterY(): (y: real)
      ensures y == height * 0.8 - barWidth / 2.0
    {
      height * 0.8 - (barWidth - barWidth * SliderKnobFactor) / 2.0 - barWidth * SliderKnobFactor / 2.0
    }

    /** Where the knob is drawn. */
    function CurrentCenterY(): (y: real)
      reads this
      ensures knobY.None? ==> y == MaxCenterY()
    {
      knobY.GetOr(MaxCenterY())
    }

    /** A drag to `locY`: the knob is stored at, and reported at, the clamped position. */
    method DragChanged(locY: real) returns (reported: real)
      modifies this
      ensures reported == ClampKnob(locY, MinCenterY(), MaxCenterY())
      ensures knobY == Some(reported) && CurrentCenterY() == reported
      ensures reported <= MaxCenterY()
      ensures MinCenterY() <= MaxCenterY() ==> MinCenterY() <= reported
    {
      reported := ClampKnob(locY, MinCenterY(), MaxCenterY());
      knobY := Some(reported);
    }
  }
}
