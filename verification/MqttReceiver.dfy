/**
 * The MQTT receiver (CharacterViewer/Assets/Scripts/MqttController.cs). A message updates only the
 * inputs it carries; button texts trigger one-shot actions, with a running cloak blocking thrust
 * and reset; each frame turns the stored inputs into smoothed motion of the spawned object,
 * turning to face the direction of travel before moving.
 *
 * The class keeps the source's fields and updates them statement by statement; every method is
 * specified by a function on a snapshot of those fields, and the lemmas state what the source
 * promises about those functions.
 */
module MqttReceiver {
  import opened Options
  import opened Vectors
  import opened Text
  import Controller

  const DeadZone: real := 0.1
  const RotationThreshold: real := 0.1
  const VelocitySmoothTime: real := 0.1
  const InitialScale: real := 0.1
  /** Per-frame fractions of the three interpolations in Update. */
  const FaceBlend: real := 0.05
  const RotateBlend: real := 0.2
  const ScaleBlend: real := 0.08

  /** The texts the receiver looks for in a message. */
  const SliderMarker: string := "\"slider\""
  const SliderKey: string := "\"slider\":"
  const ThrustText: string := "\"thrust\":true"
  const CloakText: string := "\"cloak\":true"
  const ResetText: string := "\"reset\":true"

  type PositiveReal = r: real | r > 0.0 witness 1.0

  /**
   * What the JSON library made of a message: it threw (Malformed), or it produced the optional
   * `left` and `right` joystick objects.
   */
  datatype Parsed = Malformed | Fields(left: Option<Vec2>, right: Option<Vec2>)

  /** The magnitudes the engine would compute for the joysticks of a parsed message. */
  predicate LengthsGiven(parsed: Parsed, leftLen: real, rightLen: real) {
    parsed.Fields? ==>
      && (parsed.left.Some? ==> IsLength(parsed.left.value, leftLen))
      && (parsed.right.Some? ==> IsLength(parsed.right.value, rightLen))
  }

  // ---------------------------------------------------------------------------------------------
  // Joystick input

  /**
   * A joystick vector as stored: normalised when longer than 1, then zeroed when shorter than the
   * dead zone (a normalised vector has length 1, so only a short original is zeroed).
   */
  function ShapeJoystick(v: Vec2, len: real): (r: Vec2)
    requires IsLength(v, len)
    ensures r == Zero2 <==> len < DeadZone
    ensures DeadZone <= len <= 1.0 ==> r == v
    ensures len > 1.0 ==> SameDirection(r, v) && NormSq(r) == 1.0
  {
    var input := if len > 1.0 then Scale2(v, 1.0 / len) else v;
    var inputLen := if len > 1.0 then 1.0 else len;
    ShapeFacts(v, len);
    if inputLen < DeadZone then Zero2 else input
  }

  lemma ShapeFacts(v: Vec2, len: real)
    requires IsLength(v, len)
    ensures len > 0.0 ==> v != Zero2
    ensures len > 1.0 ==> Scale2(v, 1.0 / len) != Zero2 && SameDirection(Scale2(v, 1.0 / len), v)
    ensures len > 1.0 ==> NormSq(Scale2(v, 1.0 / len)) == 1.0
  {
    if len > 0.0 {
      MulPos(len, len);
    }
    if len > 1.0 {
      var k := 1.0 / len;
      assert k > 0.0;
      ScaledDirection(v, k);
      ScaledNormSq(v, k);
      assert k * len == 1.0;
      RimLength(k, len, 1.0);
      assert NormSq(Scale2(v, k)) == 1.0;
    }
  }

  /** A stored joystick input is either exactly zero or has a length between the dead zone and 1. */
  lemma ShapedJoystickRange(v: Vec2, len: real)
    requires IsLength(v, len)
    ensures var r := ShapeJoystick(v, len);
            r == Zero2 || DeadZone * DeadZone <= NormSq(r) <= 1.0
  {
    ShapeFacts(v, len);
    if DeadZone <= len <= 1.0 {
      MulNonNeg(len - DeadZone, len + DeadZone);
      MulNonNeg(1.0 - len, 1.0 + len);
      assert len * len - DeadZone * DeadZone == (len - DeadZone) * (len + DeadZone);
      assert 1.0 - len * len == (1.0 - len) * (1.0 + len);
    }
  }

  // ---------------------------------------------------------------------------------------------
  // Slider

  /**
   * The receiver's slider mapping: 0 is the starting scale 0.1, positive values scale up by 0.15
   * per unit and negative values down by 0.05 per unit. The value itself is not clamped.
   */
  function SliderToScale(s: real): (scale: real)
    ensures s >= 0.0 ==> scale >= InitialScale
    ensures s < 0.0 ==> scale < InitialScale
  {
    var startingScale := InitialScale;
    var scaleUpRange := 0.25 - startingScale;
    var scaleDownRange := startingScale - 0.05;
    if s >= 0.0 then startingScale + s * scaleUpRange else startingScale + s * scaleDownRange
  }

  /** The mapping never decreases, and the two pieces meet at 0. */
  lemma SliderToScaleMonotone(a: real, b: real)
    requires a <= b
    ensures SliderToScale(a) <= SliderToScale(b)
  {
  }

  /** The slider's range [-1, 1] gives scales in [0.05, 0.25], with -1, 0 and 1 at 0.05, 0.1, 0.25. */
  lemma SliderToScaleRange(s: real)
    requires -1.0 <= s <= 1.0
    ensures 0.05 <= SliderToScale(s) <= 0.25
    ensures SliderToScale(-1.0) == 0.05 && SliderToScale(0.0) == 0.1 && SliderToScale(1.0) == 0.25
  {
    SliderToScaleMonotone(-1.0, s);
    SliderToScaleMonotone(s, 1.0);
  }

  /** Nothing clamps the value: a slider value beyond the range leaves the scale range too. */
  lemma SliderToScaleUnclamped(s: real)
    ensures s > 1.0 ==> SliderToScale(s) > 0.25
    ensures s < -1.0 ==> SliderToScale(s) < 0.05
  {
  }

  lemma SingleCharAt(s: string, c: char, j: int)
    requires 0 <= j < |s|
    ensures OccursAt(s, [c], j) <==> s[j] == c
  {
    assert s[j..j + 1] == [s[j]];
  }

  /** Some comma or closing brace occurs in `msg` at or after index `from`. */
  predicate DelimiterAfter(msg: string, from: int) {
    exists j :: 0 <= from <= j < |msg| && (msg[j] == ',' || msg[j] == '}')
  }

  /** A character search from `from` fails exactly when the character does not occur from there on. */
  lemma CharNotFound(s: string, c: char, from: nat)
    requires from <= |s|
    ensures IndexOf(s, [c], from) == -1 <==> forall j :: from <= j < |s| ==> s[j] != c
  {
    var r := IndexOf(s, [c], from);
    if r != -1 {
      SingleCharAt(s, c, r);
    } else {
      forall j | from <= j < |s|
        ensures s[j] != c
      {
        SingleCharAt(s, c, j);
      }
    }
  }

  /**
   * `e` is where the slider value ends when it starts at `start`: the first comma from there on,
   * or, when no comma follows at all, the first closing brace.
   */
  predicate ValueEnd(msg: string, start: int, e: int) {
    && 0 <= start <= e < |msg|
    && (forall j :: start <= j < e ==> msg[j] != ',')
    && (msg[e] == ',' || (msg[e] == '}' && forall j :: start <= j < |msg| ==> msg[j] != ','))
    && (msg[e] == '}' ==> forall j :: start <= j < e ==> msg[j] != '}')
  }

  /** Where the scan stops: the next comma from `start` on, else the next closing brace, else -1. */
  function ScanEnd(msg: string, start: nat): int
    requires start <= |msg|
  {
    var comma := IndexOf(msg, ",", start);
    if comma == -1 then IndexOf(msg, "}", start) else comma
  }

  /** The scan stops exactly when some delimiter follows, and then where the value ends. */
  lemma ScanEndIsValueEnd(msg: string, start: nat)
    requires start <= |msg|
    ensures ScanEnd(msg, start) == -1 <==> !DelimiterAfter(msg, start)
    ensures ScanEnd(msg, start) != -1 ==> ValueEnd(msg, start, ScanEnd(msg, start))
  {
    var comma := IndexOf(msg, ",", start);
    var e := ScanEnd(msg, start);
    CharNotFound(msg, ',', start);
    CharNotFound(msg, '}', start);
    if e != -1 {
      if comma == -1 { SingleCharAt(msg, '}', e); } else { SingleCharAt(msg, ',', e); }
      forall j | start <= j < e
        ensures msg[j] != ','
      {
        SingleCharAt(msg, ',', j);
      }
      if comma == -1 {
        forall j | start <= j < e
          ensures msg[j] != '}'
        {
          SingleCharAt(msg, '}', j);
        }
      }
    }
  }

  /**
   * The hand-written slider scan: the text after the first `"slider":`, up to the next comma or,
   * failing that, the next closing brace, trimmed; None when the message has no such key or no
   * delimiter follows it. The value text therefore never holds a comma.
   */
  function SliderValueText(msg: string): (r: Option<string>)
    ensures r.Some? ==> Contains(msg, SliderKey) && ',' !in r.value
    ensures r.None? <==> !Contains(msg, SliderKey)
                         || !DelimiterAfter(msg, IndexOf(msg, SliderKey, 0) + |SliderKey|)
  {
    ContainsIffFound(msg, SliderKey);
    if !Contains(msg, SliderMarker) then
      assert !Contains(msg, SliderKey) by {
        if Contains(msg, SliderKey) { ContainsPrefix(msg, SliderKey, SliderMarker); }
      }
      None
    else
      var sliderIndex := IndexOf(msg, SliderKey, 0);
      if sliderIndex == -1 then None
      else
        var valueStart := sliderIndex + |SliderKey|;
        var valueEnd := ScanEnd(msg, valueStart);
        ScanEndIsValueEnd(msg, valueStart);
        if valueEnd == -1 then None
        else
          var raw := msg[valueStart..valueEnd];
          assert ',' !in raw by {
            forall k | 0 <= k < |raw|
              ensures raw[k] != ','
            {
              assert raw[k] == msg[valueStart + k];
            }
          }
          Some(Trim(raw))
  }

  /**
   * The text the scan hands to the number parser is the trimmed piece of the message from just
   * after the first `"slider":` up to the next comma or, failing that, the next closing brace.
   */
  /**
   * The text the scan hands to the number parser is the trimmed piece of the message from just
   * after the first `"slider":` up to where the value ends: the next comma or, failing that, the
   * next closing brace.
   */
  lemma SliderValueTextSpan(msg: string)
    requires SliderValueText(msg).Some?
    ensures var start := IndexOf(msg, SliderKey, 0) + |SliderKey|;
            && start <= |msg| && ValueEnd(msg, start, ScanEnd(msg, start))
            && SliderValueText(msg).value == Trim(msg[start..ScanEnd(msg, start)])
  {
    ContainsIffFound(msg, SliderKey);
    var start := IndexOf(msg, SliderKey, 0) + |SliderKey|;
    assert Contains(msg, SliderMarker);
    assert IndexOf(msg, SliderKey, 0) != -1;
    assert ScanEnd(msg, start) != -1;
    assert SliderValueText(msg) == Some(Trim(msg[start..ScanEnd(msg, start)]));
    ScanEndIsValueEnd(msg, start);
  }

  /**
   * A message of the form {"slider":N}, N being a number text without white space, commas or
   * braces (as the controller's serialiser writes a number), hands exactly N to the number parser.
   */
  lemma {:induction false} SliderTextRoundTrip(number: string)
    requires ',' !in number && '}' !in number
    requires forall i :: 0 <= i < |number| ==> !IsWhiteSpace(number[i])
    ensures SliderValueText("{" + SliderKey + number + "}") == Some(number)
  {
    var msg := "{" + SliderKey + number + "}";
    assert OccursAt(msg, SliderKey, 1) by {
      assert msg[1..1 + |SliderKey|] == SliderKey;
    }
    assert OccursAt(msg, SliderMarker, 1) by {
      assert msg[1..1 + |SliderMarker|] == SliderMarker;
    }
    assert !OccursAt(msg, SliderKey, 0) by {
      assert msg[0] == '{';
    }
    var valueStart := 1 + |SliderKey|;
    assert IndexOf(msg, SliderKey, 0) == 1;
    assert msg[valueStart..valueStart + |number|] == number;
    forall j | valueStart <= j < |msg|
      ensures !OccursAt(msg, ",", j)
    {
      SingleCharAt(msg, ',', j);
      if j < valueStart + |number| {
        assert msg[j] == number[j - valueStart];
      }
    }
    var close := valueStart + |number|;
    assert OccursAt(msg, "}", close) by {
      SingleCharAt(msg, '}', close);
    }
    forall j | valueStart <= j < close
      ensures !OccursAt(msg, "}", j)
    {
      SingleCharAt(msg, '}', j);
      assert msg[j] == number[j - valueStart];
    }
    assert IndexOf(msg, ",", valueStart) == -1;
    assert IndexOf(msg, "}", valueStart) == close;
  }

  /**
   * The new target scale after the slider scan: the mapped value when a value text was found and
   * parsed, otherwise the current target, untouched; a message without the slider key never
   * changes it.
   */
  function ScannedTargetScale(msg: string, parseFloat: string -> Option<real>, current: real): (t: real)
    ensures !Contains(msg, SliderKey) ==> t == current
  {
    match SliderValueText(msg)
    case None => current
    case Some(text) =>
      match parseFloat(text)
      case None => current
      case Some(sliderValue) => SliderToScale(sliderValue)
  }

  /**
   * A message without the slider key, one where no comma and no closing brace follows the key, or
   * one whose value text does not parse leaves the target where it was.
   */
  lemma FailedSliderScanKeepsTarget(msg: string, parseFloat: string -> Option<real>, current: real)
    requires || !Contains(msg, SliderKey)
             || !DelimiterAfter(msg, IndexOf(msg, SliderKey, 0) + |SliderKey|)
             || parseFloat(SliderValueText(msg).value).None?
    ensures ScannedTargetScale(msg, parseFloat, current) == current
  {
    ContainsIffFound(msg, SliderKey);
  }

  // ---------------------------------------------------------------------------------------------
  // Buttons

  /** Which button commands a message text carries. */
  datatype Commands = Commands(thrust: bool, cloak: bool, reset: bool)

  function CommandsIn(msg: string): Commands {
    Commands(Contains(msg, ThrustText), Contains(msg, CloakText), Contains(msg, ResetText))
  }

  /** Each command is recognised exactly when a search for its text from the start finds it. */
  lemma CommandsFoundBySearch(msg: string)
    ensures CommandsIn(msg).thrust <==> IndexOf(msg, ThrustText, 0) != -1
    ensures CommandsIn(msg).cloak <==> IndexOf(msg, CloakText, 0) != -1
    ensures CommandsIn(msg).reset <==> IndexOf(msg, ResetText, 0) != -1
  {
    ContainsIffFound(msg, ThrustText);
    ContainsIffFound(msg, CloakText);
    ContainsIffFound(msg, ResetText);
  }

  /** A text lacking one of a pattern's characters does not contain the pattern. */
  lemma AbsentChar(s: string, pat: string, k: nat)
    requires k < |pat| && pat[k] !in s
    ensures !Contains(s, pat)
  {
    forall i | 0 <= i <= |s| - |pat|
      ensures !OccursAt(s, pat, i)
    {
      assert s[i..i + |pat|][k] == s[i + k];
    }
  }

  lemma ThrustTextCommands(t: string)
    requires t == Controller.CommandText(Controller.Thrust)
    ensures CommandsIn(t) == Commands(true, false, false) && !Contains(t, SliderMarker)
  {
    assert t == "{\"thrust\":true}";
    assert OccursAt(t, ThrustText, 1);
    AbsentChar(t, CloakText, 1);
    AbsentChar(t, SliderMarker, 2);
    assert |t| == 15 && |ResetText| == 12 && ResetText[0] == '"' && ResetText[1] == 'r';
    forall i | 0 <= i <= |t| - |ResetText|
      ensures !OccursAt(t, ResetText, i)
    {
      if i == 0 {
        assert t[0..13][0] == '{';
      } else if i == 1 {
        assert t[1..13][1] == 't';
      } else if i == 2 {
        assert t[2..14][0] == 't';
      } else {
        assert t[3..15][0] == 'h';
      }
    }
  }

  lemma CloakTextCommands(t: string)
    requires t == Controller.CommandText(Controller.Cloak)
    ensures CommandsIn(t) == Commands(false, true, false) && !Contains(t, SliderMarker)
  {
    assert t == "{\"cloak\":true}";
    assert OccursAt(t, CloakText, 1);
    AbsentChar(t, ThrustText, 2);
    AbsentChar(t, ResetText, 3);
    AbsentChar(t, SliderMarker, 1);
  }

  lemma ResetTextCommands(t: string)
    requires t == Controller.CommandText(Controller.Reset)
    ensures CommandsIn(t) == Commands(false, false, true) && !Contains(t, SliderMarker)
  {
    assert t == "{\"reset\":true}";
    assert OccursAt(t, ResetText, 1);
    AbsentChar(t, ThrustText, 2);
    AbsentChar(t, CloakText, 1);
    AbsentChar(t, SliderMarker, 2);
  }

  /** The text the controller sends for a button is recognised as that command and no other. */
  lemma CommandTextRecognised(c: Controller.Command)
    ensures CommandsIn(Controller.CommandText(c))
         == Commands(c == Controller.Thrust, c == Controller.Cloak, c == Controller.Reset)
    ensures !Contains(Controller.CommandText(c), SliderMarker)
  {
    match c
    case Thrust => ThrustTextCommands(Controller.CommandText(c));
    case Cloak => CloakTextCommands(Controller.CommandText(c));
    case Reset => ResetTextCommands(Controller.CommandText(c));
  }

  // ---------------------------------------------------------------------------------------------
  // Steering

  /**
   * What a frame does with the movement input: nothing inside the dead zone; otherwise turn toward
   * the travel direction while the facing is more than the threshold (in degrees, given by the
   * engine) away from it, and only then travel at the configured speed. The object's front is its
   * negative z axis, so it turns to look along the negated direction.
   */
  datatype Steering = Idle | Rotating(facing: Vec3) | Translating(velocity: Vec3)

  function Steer(moveInput: Vec2, moveLen: real, angleDifference: real, moveSpeed: real): (s: Steering)
    requires IsLength(moveInput, moveLen)
    ensures s.Idle? <==> moveLen <= DeadZone
    ensures s.Rotating? <==> moveLen > DeadZone && angleDifference > RotationThreshold
    ensures s.Translating? ==> s.velocity.y == 0.0
  {
    if moveLen > DeadZone then
      var moveDirection := Vec3(moveInput.x / moveLen, 0.0, moveInput.y / moveLen);
      if angleDifference > RotationThreshold then Rotating(Neg3(moveDirection))
      else Translating(Scale3(moveDirection, moveSpeed))
    else Idle
  }

  /** The velocity a frame steers toward: only travelling has one. */
  function TargetVelocity(s: Steering): Vec3 {
    if s.Translating? then s.velocity else Zero3
  }

  /**
   * Travel is horizontal, along the joystick (x to x, y to z), at exactly the configured speed;
   * turning faces away from that direction, along the horizontal plane.
   */
  lemma {:induction false} SteerAlongInput(moveInput: Vec2, moveLen: real, angleDifference: real, moveSpeed: real)
    requires IsLength(moveInput, moveLen) && moveLen > DeadZone
    ensures var s := Steer(moveInput, moveLen, angleDifference, moveSpeed);
            && (s.Translating? ==>
                  && s.velocity.x * moveLen == moveInput.x * moveSpeed
                  && s.velocity.z * moveLen == moveInput.y * moveSpeed
                  && NormSq3(s.velocity) == moveSpeed * moveSpeed)
            && (s.Rotating? ==>
                  && s.facing.y == 0.0
                  && s.facing.x * moveLen == -moveInput.x
                  && s.facing.z * moveLen == -moveInput.y
                  && NormSq3(s.facing) == 1.0)
  {
    var a := moveInput.x / moveLen;
    var b := moveInput.y / moveLen;
    assert a * moveLen == moveInput.x && b * moveLen == moveInput.y;
    var k := 1.0 / moveLen;
    assert Scale2(moveInput, k) == Vec2(a, b);
    ScaledNormSq(moveInput, k);
    assert k * moveLen == 1.0;
    RimLength(k, moveLen, 1.0);
    assert a * a + b * b == 1.0;
    assert (a * moveSpeed) * (a * moveSpeed) + (b * moveSpeed) * (b * moveSpeed)
        == (a * a + b * b) * (moveSpeed * moveSpeed);
    assert (a * moveSpeed) * moveLen == (a * moveLen) * moveSpeed;
    assert (b * moveSpeed) * moveLen == (b * moveLen) * moveSpeed;
  }

  // ---------------------------------------------------------------------------------------------
  // Receiver state

  /** What is fixed once Start has run: the Inspector values and whether the object was spawned. */
  datatype Settings = Settings(hasPrefab: bool, startingPosition: Vec3, moveSpeed: real,
                               rotateSpeed: real, thrustForce: real, mass: PositiveReal)

  /**
   * The receiver's mutable state as one value: the script's own fields, and the spawned object's
   * position, rotation (as the log of turns applied since the last reset), uniform scale and
   * rigid-body velocities.
   */
  datatype Snapshot = Snapshot(
    hasTarget: bool, position: Vec3, rotation: seq<Turn>, scale: real, targetScale: real,
    moveInput: Vec2, rotateInput: Vec2, currentRotateInput: Vec2, isCloaked: bool,
    currentVelocity: Vec3, targetVelocity: Vec3, isRotatingToFaceMovement: bool,
    bodyVelocity: Vec3, bodyAngularVelocity: Vec3)

  /** Thrust: an upward impulse of thrustForce, i.e. a velocity change of thrustForce / mass. */
  function AfterThrust(s: Snapshot, cfg: Settings): (r: Snapshot)
    ensures r == s.(bodyVelocity := r.bodyVelocity)
    ensures !cfg.hasPrefab || s.isCloaked ==> r == s
    ensures cfg.hasPrefab && !s.isCloaked ==>
              r.bodyVelocity.y * cfg.mass == s.bodyVelocity.y * cfg.mass + cfg.thrustForce
    ensures r.bodyVelocity.x == s.bodyVelocity.x && r.bodyVelocity.z == s.bodyVelocity.z
  {
    if cfg.hasPrefab && !s.isCloaked then
      s.(bodyVelocity := Add3(s.bodyVelocity, Vec3(0.0, cfg.thrustForce / cfg.mass, 0.0)))
    else s
  }

  /** Cloak activation: ignored while a cloak is already running. */
  function AfterCloak(s: Snapshot): (r: Snapshot)
    ensures r.isCloaked
    ensures r == s.(isCloaked := true)
  {
    if s.isCloaked then s else s.(isCloaked := true)
  }

  /** The end of the cloak period. */
  function AfterCloakExpire(s: Snapshot): (r: Snapshot)
    ensures !r.isCloaked
    ensures r == s.(isCloaked := false)
  {
    s.(isCloaked := false)
  }

  /**
   * Reset: back to the starting position, no rotation, the initial scale and target, no
   * rigid-body motion and no stored input; ignored while cloaked or without a spawned object.
   * The smoothed travel velocity is not part of it.
   */
  function AfterReset(s: Snapshot, cfg: Settings): (r: Snapshot)
    ensures !cfg.hasPrefab || s.isCloaked ==> r == s
    ensures cfg.hasPrefab && !s.isCloaked ==>
              && r.position == cfg.startingPosition && r.rotation == []
              && r.scale == InitialScale && r.targetScale == InitialScale
              && r.bodyVelocity == Zero3 && r.bodyAngularVelocity == Zero3
              && r.moveInput == Zero2 && r.rotateInput == Zero2 && r.currentRotateInput == Zero2
    ensures r.hasTarget == s.hasTarget && r.isCloaked == s.isCloaked
    ensures r.currentVelocity == s.currentVelocity && r.targetVelocity == s.targetVelocity
    ensures r.isRotatingToFaceMovement == s.isRotatingToFaceMovement
  {
    if cfg.hasPrefab && !s.isCloaked then
      s.(position := cfg.startingPosition, rotation := [], scale := InitialScale,
         targetScale := InitialScale, bodyVelocity := Zero3, bodyAngularVelocity := Zero3,
         moveInput := Zero2, rotateInput := Zero2, currentRotateInput := Zero2)
    else s
  }

  /**
   * One message: the joysticks it carries, then the slider scan, then thrust, cloak and reset in
   * that order, each recognised by its text; then the target flag. A message the JSON library
   * rejects changes nothing.
   */
  function AfterMessage(s: Snapshot, cfg: Settings, msg: string, parsed: Parsed,
                        leftLen: real, rightLen: real, parseFloat: string -> Option<real>): (r: Snapshot)
    requires LengthsGiven(parsed, leftLen, rightLen)
    ensures parsed.Malformed? ==> r == s
    ensures parsed.Fields? ==> r.hasTarget
  {
    match parsed
    case Malformed => s
    case Fields(left, right) =>
      AfterCommands(AfterInputs(s, msg, parsed, leftLen, rightLen, parseFloat), cfg, CommandsIn(msg)).(hasTarget := true)
  }

  /** The input part of a message: the joysticks it carries, then the slider scan. */
  function AfterInputs(s: Snapshot, msg: string, parsed: Parsed, leftLen: real, rightLen: real,
                       parseFloat: string -> Option<real>): (r: Snapshot)
    requires parsed.Fields? && LengthsGiven(parsed, leftLen, rightLen)
    ensures r == s.(moveInput := r.moveInput, rotateInput := r.rotateInput, targetScale := r.targetScale)
  {
    var s1 := if parsed.left.Some? then s.(moveInput := ShapeJoystick(parsed.left.value, leftLen)) else s;
    var s2 := if parsed.right.Some? then s1.(rotateInput := ShapeJoystick(parsed.right.value, rightLen)) else s1;
    s2.(targetScale := ScannedTargetScale(msg, parseFloat, s2.targetScale))
  }

  /** The command part of a message: thrust, cloak and reset, in that order. */
  function AfterCommands(s: Snapshot, cfg: Settings, commands: Commands): (r: Snapshot)
    ensures r.hasTarget == s.hasTarget
    ensures !commands.reset ==> r.moveInput == s.moveInput && r.rotateInput == s.rotateInput
    ensures commands.cloak ==> r.isCloaked
  {
    var s1 := if commands.thrust then AfterThrust(s, cfg) else s;
    var s2 := if commands.cloak then AfterCloak(s1) else s1;
    if commands.reset then AfterReset(s2, cfg) else s2
  }

  /**
   * One frame: nothing without a spawned object or a target, or while cloaked. Otherwise steer,
   * blend the travel velocity toward its target by dt / 0.1 of the gap, move by it, turn toward
   * the travel direction by 5% when still turning, blend the rotation input by 20% and turn about
   * the vertical axis by it, and close 8% of the gap to the target scale. The angle between the
   * current facing and the travel direction is supplied by the engine.
   */
  function AfterFrame(s: Snapshot, cfg: Settings, dt: real, angleDifference: real, moveLen: real): (r: Snapshot)
    requires IsLength(s.moveInput, moveLen)
    ensures !cfg.hasPrefab || !s.hasTarget || s.isCloaked ==> r == s
    ensures r.moveInput == s.moveInput && r.rotateInput == s.rotateInput
    ensures r.targetScale == s.targetScale && r.isCloaked == s.isCloaked && r.hasTarget == s.hasTarget
    ensures r.bodyVelocity == s.bodyVelocity && r.bodyAngularVelocity == s.bodyAngularVelocity
  {
    if !cfg.hasPrefab || !s.hasTarget || s.isCloaked then s
    else
      var steering := Steer(s.moveInput, moveLen, angleDifference, cfg.moveSpeed);
      Glide(Steered(s, steering), cfg, dt, FacingTurns(steering))
  }

  /** The turn about the vertical axis for a frame, in degrees: the horizontal rotation input. */
  function YawStep(rotateInput: Vec2, rotateSpeed: real, dt: real): (degrees: real)
    ensures rotateInput.x == 0.0 || rotateSpeed == 0.0 || dt == 0.0 ==> degrees == 0.0
    ensures rotateInput.x >= 0.0 && rotateSpeed >= 0.0 && dt >= 0.0 ==> degrees >= 0.0
    ensures rotateInput.x <= 0.0 && rotateSpeed >= 0.0 && dt >= 0.0 ==> degrees <= 0.0
  {
    rotateInput.x * rotateSpeed * dt
  }

  /** The steering part of a frame: the turning flag and the target velocity. */
  function Steered(s: Snapshot, steering: Steering): (r: Snapshot)
    ensures r == s.(isRotatingToFaceMovement := r.isRotatingToFaceMovement, targetVelocity := r.targetVelocity)
    ensures r.isRotatingToFaceMovement <==> steering.Rotating?
    ensures !steering.Translating? ==> r.targetVelocity == Zero3
  {
    s.(isRotatingToFaceMovement := steering.Rotating?, targetVelocity := TargetVelocity(steering))
  }

  /** The turn toward the travel direction, when the frame is still turning. */
  function FacingTurns(steering: Steering): seq<Turn> {
    if steering.Rotating? then [FaceToward(steering.facing, FaceBlend)] else []
  }

  /**
   * The motion part of a frame: blend and apply the travel velocity, apply the given turns and the
   * blended rotation input's turn about the vertical axis, and blend the scale.
   */
  function Glide(s: Snapshot, cfg: Settings, dt: real, turns: seq<Turn>): (r: Snapshot)
    ensures r.moveInput == s.moveInput && r.rotateInput == s.rotateInput
    ensures r.targetScale == s.targetScale && r.isCloaked == s.isCloaked && r.hasTarget == s.hasTarget
    ensures r.bodyVelocity == s.bodyVelocity && r.bodyAngularVelocity == s.bodyAngularVelocity
    ensures r.targetVelocity == s.targetVelocity && r.isRotatingToFaceMovement == s.isRotatingToFaceMovement
  {
    var velocity := Lerp3(s.currentVelocity, s.targetVelocity, dt / VelocitySmoothTime);
    var rotateInput := Lerp2(s.currentRotateInput, s.rotateInput, RotateBlend);
    s.(currentVelocity := velocity,
       position := Add3(s.position, Scale3(velocity, dt)),
       currentRotateInput := rotateInput,
       rotation := s.rotation + turns + [Yaw(YawStep(rotateInput, cfg.rotateSpeed, dt))],
       scale := Lerp(s.scale, s.targetScale, ScaleBlend))
  }

  // ---------------------------------------------------------------------------------------------
  // Properties of messages and frames

  /**
   * A message updates only the inputs it carries: a joystick it does not mention keeps its stored
   * value (unless the message also resets), and one it carries is stored shaped.
   */
  lemma AbsentInputsPersist(s: Snapshot, cfg: Settings, msg: string, parsed: Parsed,
                            leftLen: real, rightLen: real, parseFloat: string -> Option<real>)
    requires LengthsGiven(parsed, leftLen, rightLen) && parsed.Fields?
    requires !CommandsIn(msg).reset
    ensures var r := AfterMessage(s, cfg, msg, parsed, leftLen, rightLen, parseFloat);
            && r.moveInput == (if parsed.left.Some? then ShapeJoystick(parsed.left.value, leftLen) else s.moveInput)
            && r.rotateInput == (if parsed.right.Some? then ShapeJoystick(parsed.right.value, rightLen) else s.rotateInput)
            && r.position == s.position && r.rotation == s.rotation && r.scale == s.scale
  {
  }

  /**
   * Persistence by omission: after three joystick messages carrying no reset, a left-only one, a
   * right-only one and a left-only one with the stick released (or anywhere inside the dead zone),
   * the right stick still holds the value of the second message and the left one is at rest.
   */
  lemma PersistenceByOmission(s: Snapshot, cfg: Settings, m1: string, m2: string, m3: string,
                              parseFloat: string -> Option<real>, left: Vec2, leftLen: real,
                              right: Vec2, rightLen: real, rest: Vec2, restLen: real,
                              s1: Snapshot, s2: Snapshot, s3: Snapshot)
    requires IsLength(left, leftLen) && IsLength(right, rightLen)
    requires IsLength(rest, restLen) && restLen < DeadZone
    requires !CommandsIn(m1).reset && !CommandsIn(m2).reset && !CommandsIn(m3).reset
    requires s1 == AfterMessage(s, cfg, m1, Fields(Some(left), None), leftLen, 0.0, parseFloat)
    requires s2 == AfterMessage(s1, cfg, m2, Fields(None, Some(right)), 0.0, rightLen, parseFloat)
    requires s3 == AfterMessage(s2, cfg, m3, Fields(Some(rest), None), restLen, 0.0, parseFloat)
    ensures s1.moveInput == ShapeJoystick(left, leftLen) && s1.rotateInput == s.rotateInput
    ensures s3.rotateInput == ShapeJoystick(right, rightLen) && s3.moveInput == Zero2
  {
    AbsentInputsPersist(s, cfg, m1, Fields(Some(left), None), leftLen, 0.0, parseFloat);
    AbsentInputsPersist(s1, cfg, m2, Fields(None, Some(right)), 0.0, rightLen, parseFloat);
    AbsentInputsPersist(s2, cfg, m3, Fields(Some(rest), None), restLen, 0.0, parseFloat);
  }


  /** The characters a number text is written with. */
  predicate NumberChar(c: char) {
    '0' <= c <= '9' || c == '-' || c == '+' || c == '.' || c == 'e' || c == 'E'
  }

  /**
   * A slider message {"slider":N} whose number text parses sets the target scale to the mapped
   * value and, besides the target flag, changes nothing else.
   */
  lemma SliderMessageSetsTarget(s: Snapshot, cfg: Settings, number: string, parseFloat: string -> Option<real>)
    requires forall i :: 0 <= i < |number| ==> NumberChar(number[i])
    requires parseFloat(number).Some?
    ensures var msg := "{" + SliderKey + number + "}";
            AfterMessage(s, cfg, msg, Fields(None, None), 0.0, 0.0, parseFloat)
              == s.(targetScale := SliderToScale(parseFloat(number).value), hasTarget := true)
  {
    var msg := "{" + SliderKey + number + "}";
    SliderTextRoundTrip(number);
    NumberMessageCommands(number, msg);
  }

  /** A slider message with a number text carries no button command. */
  lemma NumberMessageCommands(number: string, msg: string)
    requires forall i :: 0 <= i < |number| ==> NumberChar(number[i])
    requires msg == "{" + SliderKey + number + "}"
    ensures CommandsIn(msg) == Commands(false, false, false)
  {
    forall c | c in msg
      ensures c != 't' && c != 'c'
    {
      var i :| 0 <= i < |msg| && msg[i] == c;
      if 1 + |SliderKey| <= i < |msg| - 1 {
        assert msg[i] == number[i - 1 - |SliderKey|];
      } else if i < 1 + |SliderKey| {
        assert msg[i] == ("{" + SliderKey)[i];
      }
    }
    AbsentChar(msg, ThrustText, 1);
    AbsentChar(msg, CloakText, 1);
    AbsentChar(msg, ResetText, 5);
  }

  /** While a cloak runs, every button message only sets the target flag: thrust and reset are ignored. */
  lemma CommandsIgnoredWhileCloaked(s: Snapshot, cfg: Settings, c: Controller.Command,
                                    parseFloat: string -> Option<real>)
    requires s.isCloaked
    ensures AfterMessage(s, cfg, Controller.CommandText(c), Fields(None, None), 0.0, 0.0, parseFloat)
              == s.(hasTarget := true)
  {
    CommandTextRecognised(c);
  }

  /** A second cloak message while the first cloak runs changes nothing. */
  lemma CloakMessageIdempotent(s: Snapshot, cfg: Settings, parseFloat: string -> Option<real>)
    ensures var msg := Controller.CommandText(Controller.Cloak);
            var once := AfterMessage(s, cfg, msg, Fields(None, None), 0.0, 0.0, parseFloat);
            once.isCloaked
            && AfterMessage(once, cfg, msg, Fields(None, None), 0.0, 0.0, parseFloat) == once
  {
    CommandTextRecognised(Controller.Cloak);
  }

  /**
   * A reset message restores the spawn pose, initial scale and zero inputs, but keeps the smoothed
   * travel velocity, so the following frame still moves the object by what is left of it.
   */
  lemma ResetKeepsTravelVelocity(s: Snapshot, cfg: Settings, dt: real, angleDifference: real,
                                 parseFloat: string -> Option<real>)
    requires cfg.hasPrefab && !s.isCloaked
    ensures var r := AfterMessage(s, cfg, Controller.CommandText(Controller.Reset), Fields(None, None), 0.0, 0.0, parseFloat);
            && r.position == cfg.startingPosition && r.rotation == [] && r.scale == InitialScale
            && r.moveInput == Zero2 && r.rotateInput == Zero2 && r.currentVelocity == s.currentVelocity
            && AfterFrame(r, cfg, dt, angleDifference, 0.0).position
               == Add3(cfg.startingPosition, Scale3(Lerp3(s.currentVelocity, Zero3, dt / VelocitySmoothTime), dt))
  {
    CommandTextRecognised(Controller.Reset);
  }

  /** A frame that acts at all. */
  predicate Active(s: Snapshot, cfg: Settings) {
    cfg.hasPrefab && s.hasTarget && !s.isCloaked
  }

  /** Each frame closes 8% of the gap between the scale and its target, never overshooting. */
  lemma FrameScaleApproachesTarget(s: Snapshot, cfg: Settings, dt: real, angleDifference: real, moveLen: real)
    requires IsLength(s.moveInput, moveLen) && Active(s, cfg)
    ensures var r := AfterFrame(s, cfg, dt, angleDifference, moveLen);
            && Abs(r.scale - s.targetScale) == (1.0 - ScaleBlend) * Abs(s.scale - s.targetScale)
            && (s.scale <= s.targetScale ==> s.scale <= r.scale <= s.targetScale)
            && (s.targetScale <= s.scale ==> s.targetScale <= r.scale <= s.scale)
  {
    LerpClosesGap(s.scale, s.targetScale, ScaleBlend);
    LerpBetween(s.scale, s.targetScale, ScaleBlend);
  }

  /**
   * The travel velocity moves toward the steering target along the straight segment between them,
   * reaching it when the frame lasts at least the smoothing time.
   */
  lemma FrameVelocitySmoothing(s: Snapshot, cfg: Settings, dt: real, angleDifference: real, moveLen: real)
    requires IsLength(s.moveInput, moveLen) && Active(s, cfg)
    ensures var r := AfterFrame(s, cfg, dt, angleDifference, moveLen);
            && OnSegment(s.currentVelocity, r.targetVelocity, r.currentVelocity)
            && (dt >= VelocitySmoothTime ==> r.currentVelocity == r.targetVelocity)
            && (dt <= 0.0 ==> r.currentVelocity == s.currentVelocity)
            && (dt == 0.0 ==> r.position == s.position)
  {
    var steering := Steer(s.moveInput, moveLen, angleDifference, cfg.moveSpeed);
    Lerp3OnSegment(s.currentVelocity, TargetVelocity(steering), dt / VelocitySmoothTime);
    if dt <= 0.0 {
      assert dt / VelocitySmoothTime <= 0.0;
    }
  }

  /**
   * Turn before moving: while the facing is off the travel direction the frame only turns toward
   * it and aims for zero velocity; an object at rest therefore stays where it is.
   */
  lemma TurnBeforeMoving(s: Snapshot, cfg: Settings, dt: real, angleDifference: real, moveLen: real)
    requires IsLength(s.moveInput, moveLen) && Active(s, cfg)
    requires moveLen > DeadZone && angleDifference > RotationThreshold
    ensures var r := AfterFrame(s, cfg, dt, angleDifference, moveLen);
            && r.isRotatingToFaceMovement && r.targetVelocity == Zero3
            && |r.rotation| == |s.rotation| + 2 && r.rotation[|s.rotation|].FaceToward?
            && (s.currentVelocity == Zero3 ==> r.position == s.position)
  {
  }

  /**
   * Once facing the travel direction (or with the stick in the dead zone) a frame only applies the
   * rotation-input turn, and aims to travel along the joystick direction (x to x, y to z) at the
   * configured speed.
   */
  lemma MoveWhenFacing(s: Snapshot, cfg: Settings, dt: real, angleDifference: real, moveLen: real)
    requires IsLength(s.moveInput, moveLen) && Active(s, cfg)
    requires angleDifference <= RotationThreshold || moveLen <= DeadZone
    ensures var r := AfterFrame(s, cfg, dt, angleDifference, moveLen);
            && !r.isRotatingToFaceMovement
            && |r.rotation| == |s.rotation| + 1 && r.rotation[|s.rotation|].Yaw?
            && (moveLen <= DeadZone ==> r.targetVelocity == Zero3)
            && (moveLen > DeadZone ==>
                  && r.targetVelocity.x * moveLen == s.moveInput.x * cfg.moveSpeed
                  && r.targetVelocity.z * moveLen == s.moveInput.y * cfg.moveSpeed
                  && r.targetVelocity.y == 0.0
                  && NormSq3(r.targetVelocity) == cfg.moveSpeed * cfg.moveSpeed)
  {
    if moveLen > DeadZone {
      SteerAlongInput(s.moveInput, moveLen, angleDifference, cfg.moveSpeed);
    }
  }

  // ---------------------------------------------------------------------------------------------
  // The receiver script

  /**
   * The receiver script with the spawned object's transform and rigid body folded in. `renderers`
   * holds the enabled flags of the object's renderers (none without a spawned object).
   */
  class MqttController {
    const hasPrefab: bool
    const startingPosition: Vec3
    const moveSpeed: real
    const rotateSpeed: real
    const thrustForce: real
    const mass: PositiveReal
    const renderers: array<bool>

    var hasTarget: bool
    var position: Vec3
    var rotation: seq<Turn>
    var scale: real
    var targetScale: real
    var moveInput: Vec2
    var rotateInput: Vec2
    var currentRotateInput: Vec2
    var isCloaked: bool
    var currentVelocity: Vec3
    var targetVelocity: Vec3
    var isRotatingToFaceMovement: bool
    var bodyVelocity: Vec3
    var bodyAngularVelocity: Vec3

    function Config(): Settings {
      Settings(hasPrefab, startingPosition, moveSpeed, rotateSpeed, thrustForce, mass)
    }

    ghost function State(): Snapshot
      reads this
    {
      Snapshot(hasTarget, position, rotation, scale, targetScale, moveInput, rotateInput,
               currentRotateInput, isCloaked, currentVelocity, targetVelocity,
               isRotatingToFaceMovement, bodyVelocity, bodyAngularVelocity)
    }

    /** A running cloak keeps every renderer of the object hidden. */
    ghost predicate Valid()
      reads this, renderers
    {
      && (!hasPrefab ==> renderers.Length == 0)
      && (isCloaked ==> forall i :: 0 <= i < renderers.Length ==> !renderers[i])
    }

    /**
     * Start: spawn the object (when a prefab and a camera exist, at `spawn`) at the initial scale
     * with the given renderer flags, and set the target flag.
     */
    constructor (spawn: Option<Vec3>, rendererFlags: seq<bool>, moveSpeed: real, rotateSpeed: real,
                 thrustForce: real, mass: PositiveReal)
      ensures Valid()
      ensures hasPrefab == spawn.Some? && moveSpeed == this.moveSpeed && rotateSpeed == this.rotateSpeed
      ensures thrustForce == this.thrustForce && mass == this.mass
      ensures spawn.Some? ==> renderers[..] == rendererFlags && startingPosition == spawn.value
      ensures State() == Snapshot(spawn.Some?, startingPosition, [],
                                  if spawn.Some? then InitialScale else 0.0,
                                  if spawn.Some? then InitialScale else 0.0,
                                  Zero2, Zero2, Zero2, false, Zero3, Zero3, false, Zero3, Zero3)
      ensures fresh(renderers)
    {
      hasPrefab := spawn.Some?;
      startingPosition := spawn.GetOr(Zero3);
      this.moveSpeed := moveSpeed;
      this.rotateSpeed := rotateSpeed;
      this.thrustForce := thrustForce;
      this.mass := mass;
      var flags := if spawn.Some? then rendererFlags else [];
      renderers := new bool[|flags|](i requires 0 <= i < |flags| => flags[i]);
      position := spawn.GetOr(Zero3);
      rotation := [];
      scale := if spawn.Some? then InitialScale else 0.0;
      targetScale := if spawn.Some? then InitialScale else 0.0;
      hasTarget := spawn.Some?;
      moveInput, rotateInput, currentRotateInput := Zero2, Zero2, Zero2;
      isCloaked := false;
      currentVelocity, targetVelocity := Zero3, Zero3;
      isRotatingToFaceMovement := false;
      bodyVelocity, bodyAngularVelocity := Zero3, Zero3;
    }

    /** Switch every renderer of the object on or off. */
    method SetRenderersEnabled(enabled: bool)
      modifies renderers
      ensures forall i :: 0 <= i < renderers.Length ==> renderers[i] == enabled
    {
      for i := 0 to renderers.Length
        invariant forall j :: 0 <= j < i ==> renderers[j] == enabled
      {
        renderers[i] := enabled;
      }
    }

    method ApplyThrust()
      requires Valid()
      modifies this
      ensures Valid()
      ensures State() == AfterThrust(old(State()), Config())
    {
      if hasPrefab && !isCloaked {
        bodyVelocity := Add3(bodyVelocity, Vec3(0.0, thrustForce / mass, 0.0));
      }
    }

    /**
     * Start the cloak unless one runs: the sequence marks the object cloaked and hides it at once,
     * then waits; its second half is CloakExpire.
     */
    method ActivateCloak()
      requires Valid()
      modifies this, renderers
      ensures Valid()
      ensures State() == AfterCloak(old(State()))
      ensures old(isCloaked) ==> unchanged(renderers)
    {
      if isCloaked {
        return;
      }
      isCloaked := true;
      SetRenderersEnabled(false);
    }

    /** The cloak period has passed: show every renderer again and end the cloak. */
    method CloakExpire()
      requires Valid() && isCloaked
      modifies this, renderers
      ensures Valid()
      ensures State() == AfterCloakExpire(old(State()))
      ensures forall i :: 0 <= i < renderers.Length ==> renderers[i]
    {
      SetRenderersEnabled(true);
      isCloaked := false;
    }

    method ResetPrefab()
      requires Valid()
      modifies this
      ensures Valid()
      ensures State() == AfterReset(old(State()), Config())
    {
      if hasPrefab && !isCloaked {
        ResetPose();
        ResetMotion();
      }
    }

    /** The pose part of a reset: back to the spawn point, unturned, at the initial scale. */
    method ResetPose()
      modifies this
      ensures State() == old(State()).(position := startingPosition, rotation := [],
                                       scale := InitialScale, targetScale := InitialScale)
    {
      position := startingPosition;
      rotation := [];
      scale := InitialScale;
      targetScale := InitialScale;
    }

    /** The motion part of a reset: the body and both joysticks at rest. */
    method ResetMotion()
      modifies this
      ensures State() == old(State()).(bodyVelocity := Zero3, bodyAngularVelocity := Zero3,
                                       moveInput := Zero2, rotateInput := Zero2,
                                       currentRotateInput := Zero2)
    {
      bodyVelocity := Zero3;
      bodyAngularVelocity := Zero3;
      moveInput := Zero2;
      rotateInput := Zero2;
      currentRotateInput := Zero2;
    }

    /**
     * Handle one message. `parsed` is what the JSON library made of it, `leftLen` and `rightLen`
     * the magnitudes of the joysticks it carries, `parseFloat` the number parser.
     */
    method DecodeMessage(msg: string, parsed: Parsed, leftLen: real, rightLen: real,
                         parseFloat: string -> Option<real>)
      requires Valid() && LengthsGiven(parsed, leftLen, rightLen)
      modifies this, renderers
      ensures Valid()
      ensures State() == AfterMessage(old(State()), Config(), msg, parsed, leftLen, rightLen, parseFloat)
      ensures !(parsed.Fields? && CommandsIn(msg).cloak && !old(isCloaked)) ==> unchanged(renderers)
    {
      if parsed.Malformed? {
        return;
      }
      ReadInputs(msg, parsed, leftLen, rightLen, parseFloat);
      RunCommands(CommandsIn(msg));
      hasTarget := true;
    }

    /** The input part of a message: the joysticks it carries, then the slider scan. */
    method ReadInputs(msg: string, parsed: Parsed, leftLen: real, rightLen: real,
                      parseFloat: string -> Option<real>)
      requires parsed.Fields? && LengthsGiven(parsed, leftLen, rightLen)
      modifies this
      ensures State() == AfterInputs(old(State()), msg, parsed, leftLen, rightLen, parseFloat)
    {
      if parsed.left.Some? {
        moveInput := ShapeJoystick(parsed.left.value, leftLen);
      }
      if parsed.right.Some? {
        rotateInput := ShapeJoystick(parsed.right.value, rightLen);
      }
      targetScale := ScannedTargetScale(msg, parseFloat, targetScale);
    }

    /** The command part of a message: thrust, cloak and reset, in that order. */
    method RunCommands(commands: Commands)
      requires Valid()
      modifies this, renderers
      ensures Valid()
      ensures State() == AfterCommands(old(State()), Config(), commands)
      ensures !(commands.cloak && !old(isCloaked)) ==> unchanged(renderers)
    {
      if commands.thrust {
        ApplyThrust();
      }
      if commands.cloak {
        ActivateCloak();
      }
      if commands.reset {
        ResetPrefab();
      }
    }

    /**
     * One frame. `angleDifference` is the engine's angle between the current facing and the travel
     * direction; `moveLen` the magnitude of the stored movement input.
     */
    method Update(dt: real, angleDifference: real, moveLen: real)
      requires Valid() && IsLength(moveInput, moveLen)
      modifies this
      ensures Valid()
      ensures State() == AfterFrame(old(State()), Config(), dt, angleDifference, moveLen)
    {
      if !hasPrefab || !hasTarget {
        return;
      }
      if isCloaked {
        return;
      }
      var turns := SteerTowardInput(angleDifference, moveLen);
      MoveAndTurn(dt, turns);
    }

    /**
     * The motion part of a frame: blend the velocity toward its target and move by it, apply the
     * given turns and then the turn about the vertical axis, and blend toward the target scale.
     */
    method MoveAndTurn(dt: real, turns: seq<Turn>)
      modifies this
      ensures State() == Glide(old(State()), Config(), dt, turns)
    {
      currentVelocity := Lerp3(currentVelocity, targetVelocity, dt / VelocitySmoothTime);
      position := Add3(position, Scale3(currentVelocity, dt));
      currentRotateInput := Lerp2(currentRotateInput, rotateInput, RotateBlend);
      var yRotationStep := YawStep(currentRotateInput, rotateSpeed, dt);
      rotation := rotation + turns + [Yaw(yRotationStep)];
      scale := Lerp(scale, targetScale, ScaleBlend);
    }

    /**
     * The steering part of a frame: with the left stick outside the dead zone, either turn toward
     * the travel direction while standing (angle above the threshold) or head along it at the move
     * speed; otherwise stand. Returns the turn toward the travel direction, if any.
     */
    method SteerTowardInput(angleDifference: real, moveLen: real) returns (turns: seq<Turn>)
      requires IsLength(moveInput, moveLen)
      modifies this
      ensures State() == Steered(old(State()), Steer(old(moveInput), moveLen, angleDifference, moveSpeed))
      ensures turns == FacingTurns(Steer(old(moveInput), moveLen, angleDifference, moveSpeed))
    {
      turns := [];
      if moveLen > DeadZone {
        var moveDirection := Vec3(moveInput.x / moveLen, 0.0, moveInput.y / moveLen);
        if angleDifference > RotationThreshold {
          isRotatingToFaceMovement := true;
          turns := [FaceToward(Neg3(moveDirection), FaceBlend)];
          targetVelocity := Zero3;
        } else {
          isRotatingToFaceMovement := false;
          targetVelocity := Scale3(moveDirection, moveSpeed);
        }
      } else {
        targetVelocity := Zero3;
        isRotatingToFaceMovement := false;
      }
    }
  }
}
