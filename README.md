# EyeTrackerOSC, modelled in Dafny

EyeTrackerOSC forwards eye and face tracking data from an OpenXR headset as
OSC bundles over UDP. It comes as three programs:

- `EyeTracker/main.cpp` takes an optional IP, port and sleep time on the
  command line. Every loop iteration it sends `/tracking/eye/EyesClosedAmount`
  (the mean of the two eyelid weights) and `/tracking/eye/LeftRightPitchYaw`
  (four gaze angles).
- `FaceTracker/main.cpp` takes the same arguments. At startup it reads one
  scale factor per face expression from `rate.txt` and one OSC address per
  expression from `address.txt`. Each iteration with a valid expression status
  sends one message per expression.
- `src/main.cpp` is a third eye program. Its destination is fixed at
  `127.0.0.1:9000` and its period at 33 ms. Its eyelid value is the sum of the
  two weights, not the mean.

The model covers the parts of these programs that decide what is sent:

- the argument switch;
- the configuration loader;
- the `euler` quaternion decomposition;
- the validity gating of each iteration's locals;
- the assembly of the bundle.

Modules, one per concern:

- `Wrappers`: Option and Result.
- `OpenXr`: the runtime data the loops read (gazes, expression weights) and
  the header constants (63 expressions, eyelid indices 12 and 13).
- `Osc`: messages, the `osc::OutboundPacketStream` as a class, and what one
  iteration does (at most one datagram, then a sleep).
- `Orientation`: `euler`. `atan2` and `asin` are a parameter, so every result
  holds for any interpretation of them.
- `Arguments`: the fall-through switch on `argc`, shared by the two programs
  that have it.
- `EyeLocals`: the six per-iteration locals of the two eye programs. `None`
  marks a local the iteration left unassigned. Its value is then taken from
  a caller-supplied `LocalValues` record `junk`: the content of an
  uninitialised C++ local.
- `EyeTracker`, `FaceTracker`, `Standalone` (for `src/main.cpp`): one
  iteration as a method that builds the bundle by successive appends; the
  loop cut to a finite sequence of iterations as `Run`.
- `EyeVariants`: the two eye programs compared.

The two eye programs read their angle and eyelid locals even when the
validity flag left them unassigned. The model makes this explicit: in
that case the bundle carries the `junk` values
(`EyeTracker.InvalidGazeSendsIndeterminate`), whatever the orientations.
The right gaze's own `isValid` flag is never consulted
(`EyeLocals.RightValidityIgnored`). A short `rate.txt` is reported with the
text "No enable.txt" (`FaceTracker.StartupFailures`).

## Model

| member | source | states |
|---|---|---|
| `Orientation.Euler` | EyeTracker/main.cpp:24-33 | The model of `euler`, stated through `Sy`, `Unlocked` and the three argument pairs. src/main.cpp:29-38 is the same text and shares it. Its properties are the lemmas below. |
| `Orientation.NegatedDegrees` | EyeTracker/main.cpp:161-164 | `-angle / PI * 180`, the conversion that `EyeLocals.AnglesAreNegatedDegrees` states for each gaze angle. |
| `Orientation.EulerComponents` | EyeTracker/main.cpp:24-33 | The second component is always `asin(sy)`. Unlocked: the first and third components are the non-degenerate atan2 formulas. Locked: the first is the degenerate formula and the third is 0. |
| `Orientation.LockedArgsDiffer` | EyeTracker/main.cpp:25-29 | In gimbal lock, the two pitch formulas receive different atan2 arguments. |
| `Orientation.PitchFormulaIffUnlocked` | EyeTracker/main.cpp:25-29 | For all atan2/asin, the first component is the non-degenerate formula exactly when `|sy| < 0.99999` (both directions). |
| `Orientation.RollFormulaIffUnlocked` | EyeTracker/main.cpp:25-31 | For all atan2, the third component is the non-degenerate formula exactly when `|sy| < 0.99999`. In lock it is 0 for every interpretation. |
| `Orientation.IdentityOrientation` | src/main.cpp:29-38 | The identity quaternion is not locked. Its components are atan2(0, 1), asin(0), atan2(0, 1). |
| `Arguments.ParseArgs` | EyeTracker/main.cpp:40-53 | The clamped switch gives a result equal to the field-by-field reference `Arguments.ArgsConfig`: argv[1] is the IP, argv[2] the port and argv[3] the sleep time when present; otherwise the defaults 127.0.0.1, 9000 and 33. |
| `Arguments.NoArgumentsDefaults` | EyeTracker/main.cpp:40-42 | With no argument, the configuration is 127.0.0.1, 9000, 33. |
| `Arguments.FallThrough` | EyeTracker/main.cpp:44-50 | When argv[k] is used, every argv[j] with 1 <= j < k is used too. |
| `Arguments.OnlyFirstThreeArgumentsRead` | EyeTracker/main.cpp:44 | Two argument vectors give the same configuration when they agree on argv[1..min(argc,4)]. |
| `Arguments.ExtraArgumentsIgnored` | FaceTracker/main.cpp:32-41 | Arguments after the third do not change the configuration. |
| `EyeLocals.AssignLocals` | EyeTracker/main.cpp:152-172 | The two gated `if` blocks assign the locals as the gating specification `EyeLocals.AssignedLocals` says. |
| `EyeLocals.GazeGating` | EyeTracker/main.cpp:158-165 | The four angles are assigned exactly when the LEFT gaze is valid. |
| `EyeLocals.RightValidityIgnored` | src/main.cpp:147-154 | Flipping the right gaze's validity flag changes nothing. |
| `EyeLocals.AnglesAreNegatedDegrees` | EyeTracker/main.cpp:159-164 | With a valid left gaze, each angle is the negated `euler` component times 180/PI: pitch from x, yaw from y, for each eye's own orientation. |
| `EyeLocals.EyelidGating` | src/main.cpp:158-161 | The eyelid values are assigned exactly when the expression status is valid. They come from weights 12 and 13. |
| `EyeLocals.IdentityGazeZero` | EyeTracker/main.cpp:158-165 | With a valid left gaze and atan2(0,1) = asin(0) = 0, identity orientations give four zero angles. |
| `EyeTracker.Tick` | EyeTracker/main.cpp:151-189 | The streamed bundle, its destination and the sleep equal the iteration specification `EyeTracker.TickEffectOf`. |
| `EyeTracker.Run` | EyeTracker/main.cpp:44-190 | With the configuration `Arguments.ArgsConfig`, iteration i produces exactly `EyeTracker.TickEffectOf` of input i. |
| `EyeTracker.OneBundleEveryTick` | EyeTracker/main.cpp:174-189 | Every iteration sends one bundle to the configured endpoint and sleeps the configured time. The bundle is EyesClosedAmount (1 argument) then LeftRightPitchYaw (4 arguments). |
| `EyeTracker.EyesClosedIsMean` | EyeTracker/main.cpp:169-178 | With a valid status, the eyelid argument is `(w[12] + w[13]) / 2`. |
| `EyeTracker.PitchYawOrder` | EyeTracker/main.cpp:158-185 | With a valid left gaze, the arguments are leftPitch, leftYaw, rightPitch, rightYaw, in that order. |
| `EyeTracker.InvalidGazeSendsIndeterminate` | EyeTracker/main.cpp:152-165 | With an invalid left gaze, the four arguments are the uninitialised contents of the locals. |
| `EyeTracker.InvalidExpressionKeepsGaze` | EyeTracker/main.cpp:152-185 | With an invalid status, the eyelid argument comes from uninitialised locals. The pitch-yaw message does not depend on the expression data. |
| `EyeTracker.IdentityGazeScenario` | EyeTracker/main.cpp:158-185 | With a valid left gaze and atan2(0,1) = asin(0) = 0, identity orientations put [0, 0, 0, 0] in LeftRightPitchYaw. |
| `Standalone.Tick` | src/main.cpp:140-177 | The streamed bundle, its destination and the sleep equal the iteration specification `Standalone.TickEffectOf`. |
| `Standalone.Run` | src/main.cpp:136-178 | Iteration i produces exactly `Standalone.TickEffectOf` of input i. |
| `Standalone.FixedDestinationAndShape` | src/main.cpp:136-177 | Every iteration sends one two-message bundle to 127.0.0.1:9000 (1 argument, then 4) and sleeps 33. |
| `Standalone.EyesClosedIsSum` | src/main.cpp:158-167 | With a valid status, the eyelid argument is `w[12] + w[13]`, not averaged. |
| `EyeVariants.SumIsTwiceMean` | src/main.cpp:165-175 | Given the same inputs, the eyelid argument is twice EyeTracker's and the pitch-yaw message is identical. |
| `FaceTracker.LoadMapping` | FaceTracker/main.cpp:43-65 | The two getline loops equal the reference loader `FaceTracker.ReadMapping`: rate file first, at least 63 lines each, line i gives entry i. |
| `FaceTracker.Tick` | FaceTracker/main.cpp:142-157 | The streamed bundle (or no send) and the sleep equal the iteration specification `FaceTracker.TickEffectOf`. |
| `FaceTracker.Run` | FaceTracker/main.cpp:23-157 | When `FaceTracker.ReadMapping` fails, no iteration runs and `main` ends with status -1 and that error's diagnostic. Otherwise iteration i produces `FaceTracker.TickEffectOf` of input i, with the configuration `Arguments.ArgsConfig` and the loaded mapping. |
| `FaceTracker.StartupFailures` | FaceTracker/main.cpp:47-64 | Startup fails exactly when a file is short. The rate file is checked first ("No enable.txt"), then the address file ("No address.txt"). The -1 status is in `FaceTracker.Run`'s contract. |
| `FaceTracker.Diagnostic` | FaceTracker/main.cpp:47-64 | The text printed before `return -1`: "No enable.txt" for a short `rate.txt`, "No address.txt" for a short `address.txt`. |
| `FaceTracker.MappingContents` | FaceTracker/main.cpp:54-60 | `rate[i]` is `atof` of rate line i up to its first NUL (`str.c_str()`) and `address[i]` is address line i, for every i < 63. |
| `FaceTracker.ExtraLinesIgnored` | FaceTracker/main.cpp:48-60 | Lines after the 63rd in either file do not change the mapping. |
| `FaceTracker.TickChannels` | FaceTracker/main.cpp:146-156 | A send happens exactly when the status is valid, and the sleep happens always. A send carries 63 messages in index order; message i has address[i] cut at its first NUL (`FaceTracker.CStr`, as `c_str()` passes it) and the single argument weights[i]*rate[i]. |
| `FaceTracker.CStr` | FaceTracker/main.cpp:151 | `address[i].c_str()` as a C string: the longest prefix of the line without NUL, ending where the line's first NUL is. |
| `FaceTracker.CStrCut` | FaceTracker/main.cpp:151 | A line without NUL is sent whole; a line `s + "\0" + t` is sent as `s`. |
| `FaceTracker.ZeroRateSilences` | FaceTracker/main.cpp:151 | A zero rate makes its channel's argument 0. |
| `FaceTracker.ConfidencesIgnored` | FaceTracker/main.cpp:127-151 | The confidences never influence what is sent. |
| `Osc.PacketStream.constructor` | EyeTracker/main.cpp:175 | A new stream is empty, outside any bundle. |
| `Osc.PacketStream.BeginBundleImmediate` | EyeTracker/main.cpp:176 | It opens the bundle and leaves the messages unchanged. |
| `Osc.PacketStream.BeginMessage` | EyeTracker/main.cpp:177 | It opens a message with the given address and no arguments. |
| `Osc.PacketStream.PushFloat` | EyeTracker/main.cpp:178 | It appends one float to the open message's arguments. |
| `Osc.PacketStream.EndMessage` | EyeTracker/main.cpp:179 | The open message becomes the last element of the bundle. |
| `Osc.PacketStream.EndBundle` | EyeTracker/main.cpp:186 | It closes the bundle and leaves the messages unchanged. |

## Left out

- OpenXR bootstrap is not modelled: instance, system, session, tracker and reference-space creation, and the `xrGetInstanceProcAddr` lookups. This includes every `CHK_XR` failure path and src/main.cpp's non-aborting `CHK_XR`. These are foreign calls into the runtime. Each iteration's gazes and weights are inputs instead.
- The D3D11 graphics and platform plugins are not modelled. They exist only because the runtime API demands them.
- Console output is not modelled, including the banners and "OK!". The one exception is the loader's diagnostic text, which `FaceTracker.Diagnostic` gives.
- OSC byte encoding is not modelled: padding, bundle header, immediate time tag. A bundle is a sequence of address-plus-floats messages.
- The 6144-byte buffer limit is not modelled. oscpack enforces it and this code never checks it. `Osc.PacketStream`'s preconditions limit the stream to the one order the three programs use: one bundle, then messages inside it, each opened, filled and closed in turn. oscpack itself also allows nested bundles and messages outside a bundle, and those are not modelled.
- `UdpTransmitSocket::Send` and `Sleep` are recorded as the effect of an iteration (destination, bundle, sleep time), not performed.
- `TickEffect.sleepTime` records the signed `int` from `atoi`. The conversion to `Sleep`'s unsigned DWORD is not modelled: a negative sleep time becomes a very long wait (-1 is INFINITE), so the loop in effect stops after its first iteration (in FaceTracker, possibly before any send).
- File reading is not modelled: `std::ifstream` and `std::getline` splitting into lines. Each file is given as its line sequence, and a file that cannot be opened is an empty sequence. Lines are bytes in the source and `string`s of Unicode characters in the model; no encoding is modelled, and the only byte given a meaning is NUL, which ends a C string (`FaceTracker.CStr`). `atoi` and `atof` are function parameters. `atof` is applied to `CStr` of the rate line, since the source passes it `str.c_str()`.
- Floating point is not modelled: numbers are reals. float32 rounding of products, sums, the `/ PI * 180` conversion, the `0.99999f` threshold and `PI` itself is not captured. `atan2` and `asin` are uninterpreted.
- The infinite `while (1)` loop is modelled as a finite sequence of iterations. Each iteration has its own `junk` stack contents.
- The unused `XrFrameState` local is not modelled. Neither are the gaze position, the gaze confidence and the `isEyeFollowingBlendshapesValid` status flag, which no program reads.
- The OpenXR header values (63 expressions, 2 confidences, `EYES_CLOSED_L` = 12, `EYES_CLOSED_R` = 13) come from the XR_FB_face_tracking extension header. That header is not part of this model.
