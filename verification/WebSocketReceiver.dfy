/**
 * The WebSocket receiver (CharacterViewer/Assets/Scripts/ControllerWebSocketClient.cs): a simpler
 * alternative to the MQTT receiver. Every message is expected to carry both joysticks and the
 * slider and overwrites all three inputs; each frame moves, turns and scales the object directly
 * from them, with no smoothing.
 */
module WebSocketReceiver {
  import opened Options
  import opened Vectors

  /**
   * What the JSON library made of a message: it threw (Malformed), or it produced the `left` and
   * `right` objects (None where the library leaves the field null) and the slider number (0 when
   * the message has none).
   */
  datatype Payload = Malformed | Payload(left: Option<Vec2>, right: Option<Vec2>, slider: real)

  /**
   * The scale for a slider value: linear from scaleMin at 0 to scaleMax at 1, with the value
   * clamped to [0, 1] first.
   */
  function ScaleFor(slider: real, scaleMin: real, scaleMax: real): (scale: real)
    ensures slider <= 0.0 ==> scale == scaleMin
    ensures slider >= 1.0 ==> scale == scaleMax
  {
    Lerp(scaleMin, scaleMax, slider)
  }

  /** Whatever the slider value, the scale stays between scaleMin and scaleMax. */
  lemma ScaleForBetween(slider: real, scaleMin: real, scaleMax: real)
    ensures scaleMin <= scaleMax ==> scaleMin <= ScaleFor(slider, scaleMin, scaleMax) <= scaleMax
    ensures scaleMax <= scaleMin ==> scaleMax <= ScaleFor(slider, scaleMin, scaleMax) <= scaleMin
  {
    LerpBetween(scaleMin, scaleMax, slider);
  }

  /** Within [0, 1] the scale grows with the slider value (for scaleMin <= scaleMax). */
  lemma ScaleForMonotone(a: real, b: real, scaleMin: real, scaleMax: real)
    requires 0.0 <= a <= b <= 1.0 && scaleMin <= scaleMax
    ensures ScaleFor(a, scaleMin, scaleMax) <= ScaleFor(b, scaleMin, scaleMax)
  {
    MulNonNeg(scaleMax - scaleMin, b - a);
    assert (scaleMax - scaleMin) * b - (scaleMax - scaleMin) * a == (scaleMax - scaleMin) * (b - a);
  }

  /** The receiver script with the spawned instance's transform folded in. */
  class ControllerWebSocketClient {
    const hasInstance: bool
    const moveSpeed: real
    const rotateSpeed: real
    const scaleMin: real
    const scaleMax: real

    var moveInput: Vec2
    var rotateInput: Vec2
    var scaleInput: real
    var position: Vec3
    var rotation: seq<Turn>
    var scale: real

    /**
     * Start: the instance is spawned at the origin, unrotated, at the prefab's own scale, when a
     * prefab is assigned. The inputs start at zero and scale input 1.
     */
    constructor (hasPrefab: bool, prefabScale: real, moveSpeed: real, rotateSpeed: real,
                 scaleMin: real, scaleMax: real)
      ensures hasInstance == hasPrefab && this.moveSpeed == moveSpeed && this.rotateSpeed == rotateSpeed
      ensures this.scaleMin == scaleMin && this.scaleMax == scaleMax
      ensures moveInput == Zero2 && rotateInput == Zero2 && scaleInput == 1.0
      ensures position == Zero3 && rotation == [] && scale == prefabScale
    {
      hasInstance := hasPrefab;
      this.moveSpeed := moveSpeed;
      this.rotateSpeed := rotateSpeed;
      this.scaleMin := scaleMin;
      this.scaleMax := scaleMax;
      moveInput, rotateInput, scaleInput := Zero2, Zero2, 1.0;
      position, rotation, scale := Zero3, [], prefabScale;
    }

    /**
     * One message. The three inputs are assigned in turn; a null joystick object makes the
     * handler throw at that assignment, so the inputs assigned before it keep their new values
     * and the rest keep their old ones. A rejected message changes nothing.
     */
    method OnMessage(payload: Payload)
      modifies this
      ensures payload.Malformed? || payload.left.None? ==>
                moveInput == old(moveInput) && rotateInput == old(rotateInput) && scaleInput == old(scaleInput)
      ensures payload.Payload? && payload.left.Some? ==> moveInput == payload.left.value
      ensures payload.Payload? && payload.left.Some? && payload.right.None? ==>
                rotateInput == old(rotateInput) && scaleInput == old(scaleInput)
      ensures payload.Payload? && payload.left.Some? && payload.right.Some? ==>
                rotateInput == payload.right.value && scaleInput == ScaleFor(payload.slider, scaleMin, scaleMax)
      ensures position == old(position) && rotation == old(rotation) && scale == old(scale)
    {
      if payload.Malformed? {
        return;
      }
      if payload.left.None? {
        return;
      }
      moveInput := payload.left.value;
      if payload.right.None? {
        return;
      }
      rotateInput := payload.right.value;
      scaleInput := ScaleFor(payload.slider, scaleMin, scaleMax);
    }

    /**
     * One frame: move horizontally by the movement input, turn about the vertical axis by the
     * horizontal rotation input and about the horizontal axis against the vertical one, and set
     * the scale to the scale input. Nothing happens without an instance.
     */
    method Update(dt: real)
      modifies this
      ensures moveInput == old(moveInput) && rotateInput == old(rotateInput) && scaleInput == old(scaleInput)
      ensures !hasInstance ==> position == old(position) && rotation == old(rotation) && scale == old(scale)
      ensures hasInstance ==>
                && position.y == old(position.y)
                && position.x == old(position.x) + moveInput.x * moveSpeed * dt
                && position.z == old(position.z) + moveInput.y * moveSpeed * dt
                && scale == scaleInput
      ensures hasInstance ==> |rotation| == |old(rotation)| + 2 && rotation[..|old(rotation)|] == old(rotation)
      ensures hasInstance ==> rotation[|old(rotation)|] == Yaw(rotateInput.x * rotateSpeed * dt)
      ensures hasInstance ==> rotation[|old(rotation)| + 1] == Pitch(-rotateInput.y * rotateSpeed * dt)
    {
      if !hasInstance {
        return;
      }
      var move := Scale3(Scale3(Vec3(moveInput.x, 0.0, moveInput.y), moveSpeed), dt);
      position := Add3(position, move);
      var yRotation := rotateInput.x * rotateSpeed * dt;
      var xRotation := -rotateInput.y * rotateSpeed * dt;
      rotation := rotation + [Yaw(yRotation), Pitch(xRotation)];
      scale := scaleInput;
    }
  }
}
