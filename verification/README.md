# PocketPilot control model

PocketPilot drives a 3D object in Unity from a phone. The SwiftUI controller turns touch-pad drags,
a vertical slider and three buttons into small JSON messages. Two Unity receivers turn those
messages into motion:

- the MQTT receiver takes partial messages and smooths motion each frame. It keeps the inputs a
  message does not mention, provided the JSON library leaves a missing object null;
- the simpler WebSocket receiver overwrites every input on each message.

This project models these three pieces and proves what they promise:

- **`Controller`** (`Controller.dfy`) models the controller:
  - the drag clamp onto the pad's disc;
  - normalisation by the disc radius;
  - the slider reading;
  - the single-key message built for each change or button;
  - the vertical slider's value/position mappings and the centre slider bar.

  `Controller.ControlPanel` holds the view state that is updated in place. Its `sent` field is the
  sequence of messages handed to the transport.
- **`MqttReceiver`** (`MqttReceiver.dfy`) models the MQTT receiver:
  - joystick shaping;
  - the hand-written slider scan and the slider-to-scale mapping;
  - command recognition by text;
  - the rotate-before-move steering;
  - the receiver script as the class `MqttReceiver.MqttController`.

  Each method of the class is specified by a function on a `Snapshot` of its fields, such as
  `AfterMessage` or `AfterFrame`. The lemmas about those functions state the receiver's
  guarantees:
  - persistence by omission;
  - commands ignored while cloaked;
  - idempotent cloak;
  - the reset pose;
  - turn-before-move;
  - velocity and scale smoothing.
- **`WebSocketReceiver`** (`WebSocketReceiver.dfy`) models the WebSocket receiver: whole-message
  overwrite, clamped slider interpolation, and direct integration per frame.
- **Support modules**:
  - `Vectors` holds the vector arithmetic and Unity's clamped interpolation;
  - `Text` holds ordinal `IndexOf`/`Contains` and .NET `Trim`;
  - `Options` holds an option type.

Floating-point values are modelled as exact reals. Each square root the source takes becomes a
parameter constrained by `IsLength(v, len)` (`len >= 0 && len * len == |v|²`). Other engine
results are also parameters of the operation that uses them:

- the angle between two rotations;
- what the JSON library makes of a message (`Parsed`, `Payload`);
- the result of `float.TryParse` (`parseFloat`).

A rotation is the sequence of turns applied since the last reset, with `[]` meaning the identity
rotation. The object's uniform scale is one real.

## Model

| member | source | states |
|---|---|---|
| `Controller.MaxRadius` | CharacterController/ContentView.swift:224 | the knob centre's reach is between 0 and half the pad, and 0 exactly for a zero-sized pad |
| `Controller.ClampDrag` | CharacterController/ContentView.swift:352-362 | a drag within the disc is kept unchanged |
| `Controller.ClampDragOutside` | CharacterController/ContentView.swift:357-359 | a drag beyond the disc is stored on the rim (length = radius) in the drag's own direction |
| `Controller.ClampDragWithinDisc` | CharacterController/ContentView.swift:352-364 | every stored pad offset lies within the disc |
| `Controller.NormalizeAxis` | CharacterController/ContentView.swift:225-228 | a zero radius sends 0; otherwise the sent value times the radius is the offset |
| `Controller.NormalizeOffset` | CharacterController/ContentView.swift:225-228 | a pad offset is sent divided by the disc radius (the sent vector times the radius is the offset), and as zero for a zero radius |
| `Controller.ClampedOffsetNormalisesIntoUnitDisc` | CharacterController/ContentView.swift:222-228 | a clamped offset always normalises into the unit disc, and onto the unit circle when the drag left the disc |
| `Controller.SliderNorm` | CharacterController/ContentView.swift:229-238 | the slider reading is always within [0, 1] and is 0 while the slider was never moved |
| `Controller.SliderNormEnds` | CharacterController/ContentView.swift:230-237 | the top of the knob's travel reads 1 and the bottom reads 0 |
| `Controller.ControlUpdate` | CharacterController/ContentView.swift:239-247 | an update carries exactly one key, the control that changed, with that control's normalised value |
| `Controller.ControlUpdateIgnoresOthers` | CharacterController/ContentView.swift:222-247 | the message does not depend on the controls that did not change |
| `Controller.ReleaseSendsZero` | CharacterController/ContentView.swift:367-373 | a release sends an explicit zero vector for that pad, not an absent field |
| `Controller.SliderMessage` | CharacterController/ContentView.swift:200 | the slider's message is the single key `slider` with the new value |
| `Controller.CommandMessage` | CharacterController/ContentView.swift:83-104 | a button press is the single key of its command with the value true |
| `Controller.ButtonMessage` | CharacterController/ContentView.swift:75-81 | the generic button message is the single key `button` with the command string |
| `Controller.ClampKnob` | CharacterController/ContentView.swift:412 | the drag position is held between the track ends and is unchanged when already between them |
| `Controller.SliderMaxY` | CharacterController/ContentView.swift:391-393 | the knob centre's travel, from `SliderMinY` (margin plus half the knob) to `SliderMaxY`, is the slider's height less both margins and one knob (0.7 of the width) |
| `Controller.KnobYForValue` | CharacterController/ContentView.swift:394 | value 1 draws the knob at the top end, -1 at the bottom end, and values in [-1, 1] within the travel |
| `Controller.ValueForDrag` | CharacterController/ContentView.swift:411-414 | the slider value is within [-1, 1]: 1 at or above the top end, -1 at or below the bottom end |
| `Controller.KnobFollowsDrag` | CharacterController/ContentView.swift:394 | the knob is drawn exactly at the clamped drag position (the position formula inverts the value formula) |
| `Controller.ValueForKnobY` | CharacterController/ContentView.swift:413 | dragging to where a value in [-1, 1] is drawn yields that value again |
| `Controller.ControlPanel.constructor` | CharacterController/ContentView.swift:68-72 | pads start centred with zero last values, the slider unset, nothing sent |
| `Controller.ControlPanel.SliderValue` | CharacterController/ContentView.swift:194-196 | the binding reads the stored slider value, 0 while unset |
| `Controller.ControlPanel.PadDragChanged` | CharacterController/ContentView.swift:351-366 | the clamped drag becomes that pad's offset and last value, the other pad is untouched, and one update for that pad is sent |
| `Controller.ControlPanel.PadDragEnded` | CharacterController/ContentView.swift:367-374 | only the drawn offset returns to centre, and the zero update is sent twice (update callback and release callback) |
| `Controller.ControlPanel.SliderChanged` | CharacterController/ContentView.swift:197-205 | the binding stores the value and sends it immediately, leaving the pads alone |
| `Controller.ControlPanel.SliderDragged` | CharacterController/ContentView.swift:389-414 | a drag on the vertical slider stores and sends the value for the slider's own track ends, within [-1, 1] whenever the slider is tall enough for its knob |
| `Controller.ControlPanel.SendThrustCommand` | CharacterController/ContentView.swift:83-89 | sends the thrust command and changes nothing else |
| `Controller.ControlPanel.SendCloakCommand` | CharacterController/ContentView.swift:91-97 | sends the cloak command and changes nothing else |
| `Controller.ControlPanel.SendResetCommand` | CharacterController/ContentView.swift:99-108 | sends the reset command and unsets the slider, which then reads 0 |
| `Controller.ControlPanel.SendButtonCommand` | CharacterController/ContentView.swift:75-81 | sends the generic button message and changes nothing else |
| `Controller.CenterSliderBar.constructor` | CharacterController/ContentView.swift:255-259 | the bar keeps its height and width, and the knob position is the value the enclosing view's binding holds (nil when unset) |
| `Controller.CenterSliderBar.MinCenterY` | CharacterController/ContentView.swift:263-265 | the top end of the knob's travel is half the bar width down, where the knob touches the top |
| `Controller.CenterSliderBar.MaxCenterY` | CharacterController/ContentView.swift:262-266 | the bottom end is half the bar width above the bottom of a bar 0.8 of the view's height |
| `Controller.CenterSliderBar.CurrentCenterY` | CharacterController/ContentView.swift:267 | an unset knob is drawn at the bottom end of its travel |
| `Controller.CenterSliderBar.DragChanged` | CharacterController/ContentView.swift:283-287 | a drag stores and reports the clamped position, never past the ends of the travel |
| `Vectors.Lerp` | CharacterViewer/Assets/Scripts/MqttController.cs:371 | clamped interpolation: at or below 0 gives the start, at or above 1 the end |
| `Vectors.LerpBetween` | CharacterViewer/Assets/Scripts/ControllerWebSocketClient.cs:79 | the interpolated value always lies between the two ends |
| `Vectors.LerpClosesGap` | CharacterViewer/Assets/Scripts/MqttController.cs:371 | interpolation by t leaves (1 - t) of the gap to the end, clamped t |
| `Vectors.Lerp3OnSegment` | CharacterViewer/Assets/Scripts/MqttController.cs:359 | a 3D interpolation lies on the segment between its ends, reaching the end for t >= 1 |
| `Vectors.Clamp01` | CharacterViewer/Assets/Scripts/MqttController.cs:359 | the interpolation fraction is held within [0, 1] and left alone inside it |
| `Vectors.Lerp2` | CharacterViewer/Assets/Scripts/MqttController.cs:365 | a 2D interpolation gives the start at or below 0 and the end at or above 1 |
| `Vectors.Lerp3` | CharacterViewer/Assets/Scripts/MqttController.cs:359 | a 3D interpolation gives the start at or below 0 and the end at or above 1 |
| `Text.IndexOf` | CharacterViewer/Assets/Scripts/MqttController.cs:180-185 | the result is -1 or an occurrence at or after the start index, and no earlier occurrence exists |
| `Text.ContainsIffFound` | CharacterViewer/Assets/Scripts/MqttController.cs:175-181 | Contains holds exactly when IndexOf from 0 finds something |
| `Text.ContainsPrefix` | CharacterViewer/Assets/Scripts/MqttController.cs:175-181 | a message holding the key `"slider":` always passes the `"slider"` guard |
| `Text.Trim` | CharacterViewer/Assets/Scripts/MqttController.cs:189 | the result is `s` between a white-space prefix and a white-space suffix and neither starts nor ends with white space (so exactly the leading and trailing white space is removed); a text without white space is unchanged |
| `MqttReceiver.ShapeJoystick` | CharacterViewer/Assets/Scripts/MqttController.cs:150-157 | the input is zeroed exactly when shorter than the dead zone, kept when between the dead zone and 1, and stored at unit length in its own direction when longer than 1 |
| `MqttReceiver.ShapedJoystickRange` | CharacterViewer/Assets/Scripts/MqttController.cs:150-153 | a stored joystick input is zero or has length within [0.1, 1] |
| `MqttReceiver.SliderToScale` | CharacterViewer/Assets/Scripts/MqttController.cs:194-210 | non-negative slider values scale up from 0.1, negative ones scale down from it |
| `MqttReceiver.SliderToScaleMonotone` | CharacterViewer/Assets/Scripts/MqttController.cs:201-210 | the piecewise mapping never decreases |
| `MqttReceiver.SliderToScaleRange` | CharacterViewer/Assets/Scripts/MqttController.cs:194-198 | slider -1, 0 and 1 give scales 0.05, 0.1 and 0.25, and [-1, 1] stays within [0.05, 0.25] |
| `MqttReceiver.SliderToScaleUnclamped` | CharacterViewer/Assets/Scripts/MqttController.cs:190-212 | a slider value outside [-1, 1] gives a scale outside [0.05, 0.25]: nothing clamps it |
| `MqttReceiver.SliderValueText` | CharacterViewer/Assets/Scripts/MqttController.cs:175-189 | a value text exists only when the message holds the `"slider":` key, and it never contains a comma; the scan fails exactly when the key is missing or no comma and no closing brace follows it |
| `MqttReceiver.ScanEndIsValueEnd` | CharacterViewer/Assets/Scripts/MqttController.cs:184-187 | the scan finds an end exactly when a comma or closing brace follows the start, and then that end is the next comma or, without one, the next closing brace |
| `MqttReceiver.SliderValueTextSpan` | CharacterViewer/Assets/Scripts/MqttController.cs:180-189 | the value text is the trimmed piece of the message from just after the first `"slider":` up to where the value ends (`ValueEnd`): the next comma or, when no comma follows, the next closing brace |
| `MqttReceiver.SliderTextRoundTrip` | CharacterViewer/Assets/Scripts/MqttController.cs:180-189 | for the message `{"slider":N}` the scan hands exactly N to the number parser |
| `MqttReceiver.ScannedTargetScale` | CharacterViewer/Assets/Scripts/MqttController.cs:174-219 | a message without the slider key leaves the target scale alone |
| `MqttReceiver.FailedSliderScanKeepsTarget` | CharacterViewer/Assets/Scripts/MqttController.cs:187-218 | a message without the key, one where no comma or closing brace follows the key, or one whose value text does not parse leaves the target scale alone |
| `MqttReceiver.CommandsFoundBySearch` | CharacterViewer/Assets/Scripts/MqttController.cs:231-245 | each command is recognised exactly when a search for its text from the start of the message finds it |
| `MqttReceiver.CommandTextRecognised` | CharacterViewer/Assets/Scripts/MqttController.cs:230-246 | the text the controller sends for a button triggers exactly that command and no slider scan |
| `MqttReceiver.Steer` | CharacterViewer/Assets/Scripts/MqttController.cs:320-356 | idle exactly inside the dead zone; turning exactly when outside it and the facing is off by more than the threshold; travel is horizontal |
| `MqttReceiver.SteerAlongInput` | CharacterViewer/Assets/Scripts/MqttController.cs:323-348 | travel follows the stick direction at exactly moveSpeed; the turn aims at the unit vector opposite the stick |
| `MqttReceiver.AfterThrust` | CharacterViewer/Assets/Scripts/MqttController.cs:256-264 | thrust only changes the body velocity, adding thrustForce / mass upward and keeping the horizontal components, and does nothing while cloaked or without an object |
| `MqttReceiver.AfterCloak` | CharacterViewer/Assets/Scripts/MqttController.cs:266-279 | activation only sets the cloak flag (a second activation changes nothing) |
| `MqttReceiver.AfterCloakExpire` | CharacterViewer/Assets/Scripts/MqttController.cs:296-307 | the end of the cloak only clears the flag |
| `MqttReceiver.AfterReset` | CharacterViewer/Assets/Scripts/MqttController.cs:381-410 | reset restores spawn position, identity rotation, scale and target 0.1, zero body motion and inputs, and is ignored while cloaked; flags and smoothed velocity are kept |
| `MqttReceiver.AfterMessage` | CharacterViewer/Assets/Scripts/MqttController.cs:139-254 | a rejected message changes nothing; an accepted one sets the target flag |
| `MqttReceiver.AfterInputs` | CharacterViewer/Assets/Scripts/MqttController.cs:146-228 | the input part changes only the two joystick inputs and the target scale |
| `MqttReceiver.AfterCommands` | CharacterViewer/Assets/Scripts/MqttController.cs:230-246 | commands never touch the target flag, inputs change only by reset, and a cloak command leaves the object cloaked |
| `MqttReceiver.AfterFrame` | CharacterViewer/Assets/Scripts/MqttController.cs:310-379 | a frame does nothing without object or target or while cloaked, and never changes inputs, target scale, flags or body velocities |
| `MqttReceiver.Glide` | CharacterViewer/Assets/Scripts/MqttController.cs:358-372 | the motion part changes only velocity, position, rotation, blended rotation input and scale |
| `MqttReceiver.Steered` | CharacterViewer/Assets/Scripts/MqttController.cs:332-356 | steering changes only the turning flag, set exactly while turning, and the target velocity, zero unless travelling |
| `MqttReceiver.YawStep` | CharacterViewer/Assets/Scripts/MqttController.cs:366 | the turn about the vertical axis is zero without horizontal input, speed or time, and follows the sign of the horizontal input |
| `MqttReceiver.AbsentInputsPersist` | CharacterViewer/Assets/Scripts/MqttController.cs:146-172 | a joystick absent from a message keeps its stored value; a present one is stored shaped; the pose is untouched |
| `MqttReceiver.PersistenceByOmission` | CharacterViewer/Assets/Scripts/MqttController.cs:146-172 | after left-only, right-only and left-released (or dead-zone) messages without a reset the right input still holds the second message's value and the left is zero |
| `MqttReceiver.SliderMessageSetsTarget` | CharacterViewer/Assets/Scripts/MqttController.cs:174-229 | a parsable `{"slider":N}` sets the target scale to the mapped value and changes nothing else but the target flag |
| `MqttReceiver.CommandsIgnoredWhileCloaked` | CharacterViewer/Assets/Scripts/MqttController.cs:256-264 | while cloaked, any button message changes only the target flag |
| `MqttReceiver.CloakMessageIdempotent` | CharacterViewer/Assets/Scripts/MqttController.cs:266-275 | a second cloak message during a cloak changes nothing |
| `MqttReceiver.ResetKeepsTravelVelocity` | CharacterViewer/Assets/Scripts/MqttController.cs:381-410 | a reset restores the spawn pose but keeps the smoothed velocity, so the next frame still moves the object |
| `MqttReceiver.FrameScaleApproachesTarget` | CharacterViewer/Assets/Scripts/MqttController.cs:369-372 | each frame closes 8% of the gap to the target scale without overshooting |
| `MqttReceiver.FrameVelocitySmoothing` | CharacterViewer/Assets/Scripts/MqttController.cs:358-362 | the new velocity lies between the old one and the target, reaching it when dt >= 0.1 |
| `MqttReceiver.TurnBeforeMoving` | CharacterViewer/Assets/Scripts/MqttController.cs:332-343 | while off-facing, the frame turns toward travel with zero target velocity, and an object at rest stays put |
| `MqttReceiver.MoveWhenFacing` | CharacterViewer/Assets/Scripts/MqttController.cs:344-356 | once facing (or idle), only the yaw turn is applied and the target velocity is horizontal, along the stick (x to x, y to z) at moveSpeed, and zero when idle |
| `MqttReceiver.MqttController.constructor` | CharacterViewer/Assets/Scripts/MqttController.cs:61-115 | spawning sets position, scale 0.1 and the target flag; without a spawn there is no object and no target |
| `MqttReceiver.MqttController.SetRenderersEnabled` | CharacterViewer/Assets/Scripts/MqttController.cs:284-288 | every renderer ends up with the requested enabled flag |
| `MqttReceiver.MqttController.ApplyThrust` | CharacterViewer/Assets/Scripts/MqttController.cs:256-264 | the new state is `AfterThrust` of the old |
| `MqttReceiver.MqttController.ActivateCloak` | CharacterViewer/Assets/Scripts/MqttController.cs:266-291 | the new state is `AfterCloak` of the old, the renderers are hidden, and a repeated activation leaves them alone |
| `MqttReceiver.MqttController.CloakExpire` | CharacterViewer/Assets/Scripts/MqttController.cs:293-307 | all renderers are shown again and the cloak ends |
| `MqttReceiver.MqttController.ResetPrefab` | CharacterViewer/Assets/Scripts/MqttController.cs:381-410 | the new state is `AfterReset` of the old |
| `MqttReceiver.MqttController.ResetPose` | CharacterViewer/Assets/Scripts/MqttController.cs:385-394 | the pose goes back to the spawn point, unturned, at the initial scale and target scale; nothing else changes |
| `MqttReceiver.MqttController.ResetMotion` | CharacterViewer/Assets/Scripts/MqttController.cs:396-406 | the body's velocities and all three joystick inputs go to zero; nothing else changes |
| `MqttReceiver.MqttController.DecodeMessage` | CharacterViewer/Assets/Scripts/MqttController.cs:139-254 | the new state is `AfterMessage` of the old; renderers change only when a cloak starts |
| `MqttReceiver.MqttController.ReadInputs` | CharacterViewer/Assets/Scripts/MqttController.cs:146-228 | the new state is `AfterInputs` of the old |
| `MqttReceiver.MqttController.RunCommands` | CharacterViewer/Assets/Scripts/MqttController.cs:230-246 | the new state is `AfterCommands` of the old |
| `MqttReceiver.MqttController.Update` | CharacterViewer/Assets/Scripts/MqttController.cs:310-379 | the new state is `AfterFrame` of the old, and a running cloak keeps every renderer hidden |
| `MqttReceiver.MqttController.SteerTowardInput` | CharacterViewer/Assets/Scripts/MqttController.cs:319-356 | the new state is `Steered` by the steering choice `Steer` makes from the stick and the angle, and the returned turns are that choice's facing turns |
| `MqttReceiver.MqttController.MoveAndTurn` | CharacterViewer/Assets/Scripts/MqttController.cs:358-372 | the new state is `Glide` of the old with the given turns |
| `WebSocketReceiver.ScaleFor` | CharacterViewer/Assets/Scripts/ControllerWebSocketClient.cs:79 | slider at or below 0 gives scaleMin, at or above 1 gives scaleMax |
| `WebSocketReceiver.ScaleForBetween` | CharacterViewer/Assets/Scripts/ControllerWebSocketClient.cs:79 | the scale input always lies between scaleMin and scaleMax |
| `WebSocketReceiver.ScaleForMonotone` | CharacterViewer/Assets/Scripts/ControllerWebSocketClient.cs:79 | within [0, 1] a larger slider value never gives a smaller scale |
| `WebSocketReceiver.ControllerWebSocketClient.constructor` | CharacterViewer/Assets/Scripts/ControllerWebSocketClient.cs:33-48 | the instance starts at the origin unrotated; inputs start at zero and scale input at 1 |
| `WebSocketReceiver.ControllerWebSocketClient.OnMessage` | CharacterViewer/Assets/Scripts/ControllerWebSocketClient.cs:68-85 | a complete message overwrites all three inputs; a rejected one or one without `left` changes nothing; one without `right` changes only the movement input; the pose never changes |
| `WebSocketReceiver.ControllerWebSocketClient.Update` | CharacterViewer/Assets/Scripts/ControllerWebSocketClient.cs:90-110 | height never changes, position advances by input x speed x dt, yaw then pitch turns are appended, scale becomes the scale input, inputs are untouched; nothing happens without an instance |

## Left out

- Transport is not modelled:
  - the MQTT client (`MQTTManager`, broker settings, TLS trust, topic subscription);
  - the WebSocket connection and its message queue;
  - the app entry file and the SwiftUI layout.

  A message reaches the model as text plus what the JSON library made of it. The library
  dispatches queued messages at the start of a frame; the model leaves each call to the caller.
- Library results are parameters of the operations that use them:
  - JSON parsing (`JsonUtility`);
  - JSON serialisation (`JSONSerialization`): `Controller.CommandText` is the compact text it
    writes for a button, and `MqttReceiver.SliderTextRoundTrip` assumes the number text it writes
    has no white space, commas or braces;
  - `float.TryParse`;
  - the engine's magnitude, normalisation and `Quaternion.Angle`.

  Whether `JsonUtility` leaves a missing nested object null is also a parameter, not something the
  model proves.
- Rotation composition is not modelled. Rotations are a log of turns (`FaceToward`, `Yaw`,
  `Pitch`). So `Quaternion.Slerp` and `LookRotation` are only recorded, not computed.
- Rigid-body physics is not modelled: drag, integration of the body velocity into the position,
  and gravity. Only the impulse of thrust and the reset of the body velocities are.
- The cloak timer is modelled as two steps, `ActivateCloak` and a separate `CloakExpire` event. The
  three-second wait and the coroutine handle are not modelled.
- IEEE floating point is not modelled: rounding, `Mathf.Approximately`, and NaN. The
  `Mathf.Approximately` zero test after the dead zone can only match vectors the dead zone has
  already zeroed, so it adds nothing over exact reals.
- A slider bar of zero height makes the source divide by zero. The model writes out what Swift's
  `min`/`max` make of the resulting infinities or NaN rather than computing with IEEE values.
- Controller.ValueForDrag requires the two ends of the track to differ. When they coincide the
  source computes 0/0 and stores NaN, which exact reals cannot express.
- Controller.ControlPanel.SliderDragged has the same requirement, for the same reason.
- Text.IndexOf is ordinal. The .NET `string` overloads of `IndexOf(string)` are culture-sensitive;
  for the ASCII keys used here the results agree, but culture-specific ignorable characters are not
  modelled.
- MqttReceiver.MqttController.Update takes the engine's angle between the current facing and the
  travel direction as a parameter. It is not derived from the rotation log.
- MqttReceiver.MqttController.DecodeMessage takes the slider's backup parse through `JsonUtility`
  only for logging, and that parse is left out. The `spawnDistance`, `cloakDuration`, `scaleMin`
  and `scaleMax` fields are not used by the modelled logic (the first two are folded into the spawn
  position and the expiry event).
- The controller's `scaleValue` state is never read and is left out.
- Logging (`Debug.Log`, `Debug.LogError`) is left out everywhere.
