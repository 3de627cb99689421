# Force-feedback backends for the Sidewinder Force Feedback Pro and Wheel

This project models the two device backends of a USB force-feedback adapter.
The adapter turns USB PID reports from the host into the native messages of
Microsoft's Sidewinder force-feedback devices. Two backends are modelled:

- `ffb-pro.c`: the joystick (Force Feedback Pro). It speaks MIDI on channel 6:
  Control Change, Key Pressure, Program Change and System Exclusive blocks.
- `ffb-wheel.c` with the layouts of `ffb-wheel.h`: the Force Feedback Wheel.
  It frames its own commands:
  - an effect operation `F2, op|chk, id`, with a nibble-xor checksum;
  - a 6-byte modify `F1, chk, 0x40|addr, id, lo, hi`, with a byte-sum
    checksum taken modulo 0x80;
  - a device control `F3, code`.

Modules:

- `Ffb` (ffb.dfy) holds what both backends share:
  - the C integer widths;
  - the USB report records;
  - the transport, as a `Link` object that logs every send, wait, delay,
    X1 pulse and set-param request in order;
  - `Externals`: the constants and helpers that ffb.h and ffb.c only declare
    (USB_EFFECT_* codes, infinite durations, the unit conversions).
  Every fact is proved for all choices of these externals.
- `FfbPro` (pro.dfy) defines each Pro report translator as a function. It maps
  an effect slot to the new slot and the requests it makes, and lemmas state
  what each one writes and requests.
- `FfbProDevice` (pro_device.dfy) is the imperative side of the Pro:
  - a `ProEffect` class whose fields the handlers update in place;
  - the startup pulse loop;
  - the frame senders.
  Each method is proved to leave exactly the state and log that the `FfbPro`
  functions describe.
- `FfbWheelLayout` (wheel_layout.dfy) gives the byte offsets and sizes of the
  `ffb-wheel.h` structs, computed from their member lists.
- `FfbWheel` (wheel.dfy) covers the Wheel as values:
  - frames are `bv8` sequences, so C's `uint8_t` wrap-around, shifts and
    masks are exact;
  - checksums and their uniqueness;
  - the startup block, read as modify frames;
  - the effect-memory rule, the data lengths, and the defaults written into a
    new effect's bytes, compared with the captures quoted in the source.
- `FfbWheelDevice` (wheel_device.dfy) is the imperative side of the Wheel:
  frames built in arrays, the effect-memory counting loop, and the defaults
  written in place into the effect's data array. Each method is proved to
  agree with `FfbWheel`.

## Model

| member | source | states |
|---|---|---|
| FfbPro.UsbToMidiEffectType | ffb-pro.c:35-56 | returns 0 exactly for USB types past the 12-entry table; every table entry is a nonzero code |
| FfbPro.UsbToMidiEffectTypeIsInjective | ffb-pro.c:37-50 | the Pro gives each of the 12 USB effect types its own native code |
| FfbPro.EffectOperFrameIsMidi | ffb-pro.c:176-198 | a start, stop or free frame is a well-formed MIDI message exactly when the effect id is below 0x80 |
| FfbPro.ModifyFramesCarryMaskedValue | ffb-pro.c:203-217 | the value frame is valid MIDI and carries the 14-bit quantity of the packed word; two values give the same frames iff they agree on `value & 0x7F7F` |
| FfbPro.Pack9IsMidiSplit | ffb-pro.c:577-582 | a 9-bit quantity packed as `(x & 0x7F) + ((x & 0x180) << 1)` reaches the wire as `x & 0x7F, x >> 7` and unpacks to `x` |
| FfbPro.TriggerButtonIsOneBit | ffb-pro.c:576-582 | trigger button b (0..8) becomes exactly bit b of the 14-bit trigger value sent |
| FfbPro.ConstantForceFoldIsSignMagnitude | ffb-pro.c:491-500 | a force m and its one's complement -m-1 get the same 7-bit magnitude; param1 is 0x0101 iff m < 0 and 0x007F iff m >= 0; the magnitude is abs/2 in range |
| FfbPro.ConstantForceFoldExamples | ffb-pro.c:494-500 | -1 folds to (0, 0x0101); 255 to (0x7F, 0x007F); -256 to (0x7F, 0x0101) |
| FfbPro.RampStartFoldRoundTrip | ffb-pro.c:536-541 | the ramp start word `0x100 \| -(start+1)` unfolds back to the start; bit 8 is set iff the start is negative; the word stays below 0x180 |
| FfbPro.RampStartFoldIsInjective | ffb-pro.c:538-541 | distinct ramp starts give distinct param1 words |
| FfbPro.PeriodicFrequencyBands | ffb-pro.c:413-417 | periods up to 5 ms give 169 Hz; periods below 1000 ms give the converted 1000/period, which is between 1 and 166; longer periods give 1 Hz |
| FfbPro.PeriodicFrequencyExamples | ffb-pro.c:414-417 | 1000 / period truncates: 500 ms gives 2, 6 ms gives 166, 999 ms gives 1 |
| FfbPro.SetEnvelope | ffb-pro.c:226-293 | every event is a set-param request for the report's effect, naming a field that now holds the requested value; only the four envelope fields change |
| FfbPro.SetEnvelopeRequests | ffb-pro.c:274-292 | caches the three USB values and requests fade time, attack time, fade level and attack level in that order; both levels are at most 0x7F; the fade time is infinite or the converted duration minus fade |
| FfbPro.SetEnvelopeFadeTimeWraps | ffb-pro.c:280-283 | a fade longer than the cached duration is not guarded: the subtraction wraps modulo 2^16 to a value larger than the duration |
| FfbPro.SetCondition | ffb-pro.c:295-373 | only requests for the report's effect, each agreeing with the new slot; of the named-field record, only the four coefficient and offset fields change (the byte overlay is listed under Left out) |
| FfbPro.SetConditionWrites | ffb-pro.c:327-372 | axis 0 iff the whole parameterBlockOffset byte is 0; spring, damper and inertia write coefficient and offset; friction writes only the coefficient; other waveforms write nothing |
| FfbPro.SetConditionOffsetSpecialCase | ffb-pro.c:345-348 | with a signed cpOffset the 0x80 test never fires and axis 1 always gets the negated offset; with an unsigned field, 0x80 gives 0x007F |
| FfbPro.SetPeriodic | ffb-pro.c:375-444 | only requests for the report's effect, each agreeing with the new slot; only frequency, waveform, param1 and param2 change |
| FfbPro.SetPeriodicWrites | ffb-pro.c:409-441 | requests the frequency first; a sine becomes a cosine iff the phase is in 32..224 and then gets max and min from offset/2 and magnitude/2; other waveforms get 0x007F and 0x0101 with no request |
| FfbPro.SetPeriodicOffsetTruncates | ffb-pro.c:432-437 | offset/2 truncates toward zero, so offsets -1, 0 and 1 give identical results |
| FfbPro.SetConstantForce | ffb-pro.c:446-507 | only requests for the report's effect, each agreeing with the new slot; only magnitude, param1 and param2 change |
| FfbPro.SetConstantForceWrites | ffb-pro.c:489-506 | requests the folded magnitude and sign word in that order, and clears param2 without a request |
| FfbPro.SetRampForce | ffb-pro.c:509-548 | only requests for the report's effect, each agreeing with the new slot; only param1 and param2 change |
| FfbPro.SetRampForceWrites | ffb-pro.c:536-547 | requests param1 then param2; the start can be read back from param1; param2 is the converted end |
| FfbPro.ModifyDuration | ffb-pro.c:219-224 | only a request for the given effect, agreeing with the new slot; only the duration field changes |
| FfbPro.ModifyDurationWrites | ffb-pro.c:219-224 | exactly one 14-bit request at the duration address; the cached USB duration is left alone |
| FfbPro.SetEffect | ffb-pro.c:550-647 | only requests for the report's effect, each agreeing with the new slot; only trigger button, gain, direction and fade time change |
| FfbPro.SetEffectWrites | ffb-pro.c:576-647 | always requests the trigger word first; constant, ramp and periodic types also request gain (at most 0x7F), direction (unpacking to 2 x directionX) and the recomputed fade time; other types request nothing else |
| FfbPro.EffectFadeTimeCases | ffb-pro.c:627-642 | the fade time is infinite when the duration or cached fade is; otherwise the guarded subtraction is positive, or the native duration is kept |
| FfbPro.SetEffectLengthByClass | ffb-pro.c:573-698 | the returned length is the spring/inertia/damper size for conditions, the friction size for friction, and the basic size for everything else (Custom and unknown codes included) |
| FfbPro.CreateNewEffect | ffb-pro.c:701-734 | of the named-field record, only the thirteen defaulted native fields change (the byte overlay is listed under Left out) |
| FfbPro.CreateNewEffectDefaults | ffb-pro.c:712-733 | param2 is 0 iff the type code is 1; waveform, duration, direction, param1 and the USB cache are kept; magnitude 0x7F, frequency word 0x0001 (1 Hz), attack and fade levels and times 0, gain 0x7F, command 0x23, unknown1 0x7F, no trigger button, 100 Hz sample rate and truncate 0x4E10 |
| FfbPro.GetSysExHeader | ffb-pro.c:167-172 | the reported length is the header's length, and the header starts with SysEx status 0xF0 |
| FfbPro.AutoCenterDisableIsModify | ffb-pro.c:148-158 | the disable block is the modify "address 0x7C of effect 0x7F := 0x7F" followed by Program Change 6; enable is Program Change 1 |
| FfbPro.AutoCenterTraceObserved | ffb-pro.c:148-165 | auto-centre never pulses; disabling waits 70 ms and enabling does not wait |
| FfbPro.StartupResetIsSysEx | ffb-pro.c:72-76 | the startup init block is the Pro SysEx header around 10 05 6B |
| FfbPro.StartupMemory1IsFramed | ffb-pro.c:78-96 | the first memory block is eight modifies of effect 0x7F and the address select of a ninth |
| FfbPro.StartupMemory2IsFramed | ffb-pro.c:98-110 | the second block is that ninth modify's value followed by five more modifies |
| FfbPro.StartupBlocksAreFramed | ffb-pro.c:78-110 | together the blocks are fourteen modifies of effect 0x7F at addresses 0x40..0x74 |
| FfbPro.PulseBurstObserved | ffb-pro.c:58-64 | InitPulses(n) makes n pulses and 100n us of delays |
| FfbPro.StartupPulsesObserved | ffb-pro.c:112-132 | the pulse train makes 17 pulses and spends 298.6 ms in waits and delays |
| FfbPro.StartupMessagesObserved | ffb-pro.c:134-145 | the message phase makes no pulse and waits 217 ms |
| FfbPro.StartupTraceObserved | ffb-pro.c:66-146 | the whole startup makes 17 X1 pulses and spends 515.6 ms in waits and delays |
| FfbProDevice.InitPulses | ffb-pro.c:58-64 | the countdown loop appends exactly PulseBurst(count) to the log |
| FfbProDevice.SetAutoCenter | ffb-pro.c:148-165 | appends the auto-centre trace for `enable` |
| FfbProDevice.EnableInterrupts | ffb-pro.c:66-146 | appends the whole startup trace |
| FfbProDevice.SendPulseTrain | ffb-pro.c:112-132 | appends the pulse groups and the waits between them |
| FfbProDevice.SendStartupMessages | ffb-pro.c:134-145 | appends the MIDI half of the startup |
| FfbProDevice.SendEffectOper | ffb-pro.c:176-183 | sends the one operation frame |
| FfbProDevice.StartEffect | ffb-pro.c:185-188 | sends `B5 20 id` |
| FfbProDevice.StopEffect | ffb-pro.c:190-193 | sends `B5 30 id` |
| FfbProDevice.FreeEffect | ffb-pro.c:195-198 | sends `B5 10 id` |
| FfbProDevice.SendModify | ffb-pro.c:203-217 | sends the address frame, then the value frame |
| FfbProDevice.ProEffect.ModifyDuration | ffb-pro.c:219-224 | the object and log end up as `FfbPro.ModifyDuration` says |
| FfbProDevice.ProEffect.SetEnvelope | ffb-pro.c:226-293 | the object and log end up as `FfbPro.SetEnvelope` says |
| FfbProDevice.ProEffect.SetCondition | ffb-pro.c:295-373 | the object and log end up as `FfbPro.SetCondition` says |
| FfbProDevice.ProEffect.SetPeriodic | ffb-pro.c:375-444 | the object and log end up as `FfbPro.SetPeriodic` says |
| FfbProDevice.ProEffect.SetConstantForce | ffb-pro.c:446-507 | the object and log end up as `FfbPro.SetConstantForce` says |
| FfbProDevice.ProEffect.SetRampForce | ffb-pro.c:509-548 | the object and log end up as `FfbPro.SetRampForce` says |
| FfbProDevice.ProEffect.SetEffect | ffb-pro.c:550-699 | the object and log end up as `FfbPro.SetEffect` says; the returned length is `SetEffectLength` |
| FfbProDevice.ProEffect.CreateNewEffect | ffb-pro.c:701-734 | the object ends up as `FfbPro.CreateNewEffect` says; nothing is sent |
| FfbWheelLayout.SharedPrefix | ffb-wheel.h:47-102 | two layouts that agree on their first members agree on those members' offsets |
| FfbWheelLayout.CommonHeaderShared | ffb-wheel.h:57-102 | every effect struct starts with the 6-byte common header at the same offsets |
| FfbWheelLayout.CommonOffsets | ffb-wheel.h:47-55 | command 0, waveForm 1, unknown1 2, duration 3, direction 5; size 6 |
| FfbWheelLayout.PeriodicRampOffsets | ffb-wheel.h:57-71 | the periodic/ramp members sit at 6, 7, 9, 10, 12, 13, 15, 16 and 18; size 19 |
| FfbWheelLayout.ConstantForceOffsets | ffb-wheel.h:73-84 | the constant-force members sit at 6, 7, 8, 10, 11, 13 and 14; size 15 |
| FfbWheelLayout.SpringInertiaDamperOffsets | ffb-wheel.h:86-95 | unknown3 6, negativeCoeff 7, unknown4 8..12, positiveCoeff 13; size 14 |
| FfbWheelLayout.FrictionOffsets | ffb-wheel.h:97-102 | coeff 6; size 7 |
| FfbWheelLayout.FrameOffsets | ffb-wheel.h:31-45 | the operation frame is 3 bytes; the modify frame is 6 bytes with its value at 4..5 |
| FfbWheel.UsbToMidiEffectType | ffb-wheel.c:30-51 | returns 0 exactly for Custom (11) and for types past the table |
| FfbWheel.UsbToMidiEffectTypeCollisions | ffb-wheel.c:32-45 | two distinct USB types share a Wheel code iff both are among Ramp, SawtoothDown and SawtoothUp (code 5) or both are Custom-or-unknown (0) |
| FfbWheel.FrameXor | ffb-wheel.c:188-189 | the xor of all nibbles of a frame is itself a nibble |
| FfbWheel.OperationChecksum | ffb-wheel.c:188-189 | the checksum fits in the low nibble |
| FfbWheel.OperationFrameCancels | ffb-wheel.c:180-195 | the nibbles of an operation frame xor to 0; the command is F2, the high nibble of byte 1 is the operation, byte 2 is the id |
| FfbWheel.OperationChecksumUnique | ffb-wheel.c:187-192 | the checksum is the only low nibble that makes the frame's nibbles xor to 0 |
| FfbWheel.OperationsDistinct | ffb-wheel.c:197-210 | start, stop and free carry operation nibbles 2, 3 and 1 |
| FfbWheel.DeviceControlFrame | ffb-wheel.c:149-154 | a frame exists exactly for controls 1 to 6 |
| FfbWheel.DeviceControlFramesCancel | ffb-wheel.c:140-147 | each table code holds its own checksum, and each control frame's nibbles xor to 0 |
| FfbWheel.DeviceControlInjective | ffb-wheel.c:140-154 | the six controls send six different frames |
| FfbWheel.WordRoundTrip | ffb-wheel.h:44 | a uint16_t stored low byte first reads back unchanged, and so do its two bytes |
| FfbWheel.Complement7Balances | ffb-wheel.c:224-225 | `(0x80 - sum) & 0x7F` is below 0x80, brings the sum to 0 modulo 0x80, and is the only such byte |
| FfbWheel.ModifyBytesChecksum | ffb-wheel.c:214-228 | every modify frame built this way satisfies the checksum rule |
| FfbWheel.ModifyFrameChecksum | ffb-wheel.c:214-228 | the frame of SendModify satisfies the checksum rule |
| FfbWheel.ModifyChecksumUnique | ffb-wheel.c:224-225 | in a valid frame the checksum byte is the only 7-bit value that satisfies the rule |
| FfbWheel.ModifyFrameFields | ffb-wheel.c:216-221 | command F1; byte 3 is the effect id; bytes 4..5 read back as the value |
| FfbWheel.ModifyAddressDecodes | ffb-wheel.c:219 | bit 6 of the address byte is always set; masking it gives the address back iff the address had bit 6 clear |
| FfbWheel.HeaderAddressesDecode | ffb-wheel.h:129-132 | the four FFW_MIDI_MODIFY_* addresses come back from their frames unchanged |
| FfbWheel.GainLevelHalves | ffb-wheel.c:237-241 | the device gain sent is `(gain >> 1) & 0x7F`, the USB 0..255 range halved into 7 bits |
| FfbWheel.GainLevelMonotone | ffb-wheel.c:237-241 | a larger USB gain never sends a smaller level |
| FfbWheel.DeviceGainFullScale | ffb-wheel.c:239-240 | with address 0, gain 0xFF sends `F1 10 40 00 7F 00`, the maximum the source comment quotes |
| FfbWheel.GetSysExHeader | ffb-wheel.c:171-176 | the reported length is 5, the header's length, and the header starts with 0xF0 |
| FfbWheel.SysExHeaderVersusPro | ffb-wheel.c:173 | the Wheel's header has the Pro's length and first four bytes and differs in the fifth (device id 0x15) |
| FfbWheel.StartupBlockIsModifies | ffb-wheel.c:113-118 | rows 1, 3 and 4 are SendModify frames for effect 1 at addresses 3, 5 and 6; row 2 is a valid frame for address 4 with the default flag clear; all four rows satisfy the checksum |
| FfbWheel.EnableInterruptsResets | ffb-wheel.c:109-124 | the reset frame `F3 1D` sent first and the frame DeviceControl sends for USB reset are the same, and its nibbles xor to 0 |
| FfbWheel.SeenTypes | ffb-wheel.c:59-86 | the loop looks at MAX_EFFECTS codes: the new effect's first, then those of ids 2 to MAX_EFFECTS |
| FfbWheel.MemFullIgnoresOrder | ffb-wheel.c:53-97 | the answer depends only on how often each code is seen |
| FfbWheel.MemFullIgnoresOtherCodes | ffb-wheel.c:62-84 | a code that is neither rejected nor counted (among them the Wheel's condition codes 8..B) changes nothing |
| FfbWheel.MemFullMonotone | ffb-wheel.c:53-97 | once full, memory stays full however many more codes are seen |
| FfbWheel.MemFullAtThree | ffb-wheel.c:90-92 | three of a counted code fill memory |
| FfbWheel.MemFullNotAtTwo | ffb-wheel.c:90-94 | two of a counted code do not |
| FfbWheel.SetEffectLength | ffb-wheel.c:294-335 | as written: 0 for Custom and unknown types; the struct size for periodic, ramp, constant and friction; and for spring, damper and inertia the friction size, which is smaller than their struct |
| FfbWheel.SetEffectIntendedLength | ffb-wheel.c:316-328 | with the `break`, every type's length is its struct's size (0 without one), and it differs from the as-written length exactly for the conditions |
| FfbWheel.Put16 | ffb-wheel.h:53 | a uint16_t member write reads back and touches only its two bytes |
| FfbWheel.CreateNewEffectHeader | ffb-wheel.c:343-347 | every new effect gets command 0x20, unknown1 0x7F and direction 0x40 for periodic/ramp or 0 otherwise; it keeps its wave form and duration; no byte past its struct changes |
| FfbWheel.RampMatchesCapture | ffb-wheel.c:349 | for any buffer, a new ramp's bytes 5..18 are the captured ramp's; with wave form 5 and duration 0x1E6E it reproduces all 19 captured bytes |
| FfbWheel.WaveformMatchesDefaults | ffb-wheel.c:353-402 | a new sine, square, triangle or sawtooth gets the documented defaults from phase to offset and precise direction 0x7F |
| FfbWheel.ConstantForceDecodes | ffb-wheel.c:407-419 | a new constant force gets full levels and magnitude, no attack time, the infinite fade time and force direction 0 |
| FfbWheel.FrictionDefaultsHold | ffb-wheel.c:436-441 | a new friction effect gets coefficient 0x7E at byte 6 and direction 0, and no byte past its 7-byte struct changes |
| FfbWheel.ConditionAsWritten | ffb-wheel.c:421-440 | as written, a new spring, damper or inertia gets its defaults, then the friction coefficient 0x7E on top of unknown3 |
| FfbWheel.DamperMissesCapture | ffb-wheel.c:350 | as written, a new damper differs from the captured damper in exactly byte 6 |
| FfbWheel.DamperMatchesCaptureIntended | ffb-wheel.c:350 | with the `break`, a new damper reproduces the 14 captured damper bytes |
| FfbWheel.CreateNewEffectIntendedFitsLength | ffb-wheel.c:274-450 | with the `break` in both handlers, the length SetEffect returns is exactly the number of bytes CreateNewEffect fills, and nothing past it changes |
| FfbWheelDevice.SendEffectOper | ffb-wheel.c:180-195 | the frame built in place is `OperationFrame`, sent once |
| FfbWheelDevice.StartEffect | ffb-wheel.c:197-200 | sends the operation frame with operation 2 |
| FfbWheelDevice.StopEffect | ffb-wheel.c:202-205 | sends the operation frame with operation 3 |
| FfbWheelDevice.FreeEffect | ffb-wheel.c:207-210 | sends the operation frame with operation 1 |
| FfbWheelDevice.SendModify | ffb-wheel.c:214-228 | the frame built in place is `ModifyFrame`, sent once |
| FfbWheelDevice.ModifyDuration | ffb-wheel.c:230-235 | one 14-bit request at the duration address, and the field it targets holds the duration |
| FfbWheelDevice.ModifyDeviceGain | ffb-wheel.c:237-241 | sends `DeviceGainFrame` for the USB gain |
| FfbWheelDevice.DeviceControl | ffb-wheel.c:129-157 | answers 1 and sends the control frame exactly for controls 1 to 6; otherwise answers 0 and sends nothing |
| FfbWheelDevice.EnableInterrupts | ffb-wheel.c:106-127 | appends `EnableInterruptsTrace` |
| FfbWheelDevice.EffectMemFull | ffb-wheel.c:53-97 | the counting loop with its early returns answers `MemFull` of the codes it sees |
| FfbWheelDevice.Store16 | ffb-wheel.h:53 | two byte writes do what `Put16` says |
| FfbWheelDevice.CreateNewEffect | ffb-wheel.c:340-450 | the data array ends up as `FfbWheel.CreateNewEffect` of its old contents |
| FfbWheelDevice.SetEffect | ffb-wheel.c:274-338 | returns `FfbWheel.SetEffect`, which is the struct size for every type except the conditions |

## Left out

- Timing and hardware: `WaitMs`, `_delay_us10`, `FfbPulseX1` and `FfbSendData` are logged events. Their durations and electrical effect are not modelled.
- The set-param primitive FfbSetParamMidi_7bit/_14bit lives in ffb.c, which is not part of this model. Each call is a field write plus a `SetParam` request in the log. Its suppression of requests whose value did not change, and its use of the effect state, are not modelled.
- The constants and conversion helpers of ffb.h and ffb.c (USB_EFFECT_*, USB_/MIDI_DURATION_INFINITE, USB_TRIGGERBUTTON_NULL, UsbInt8ToMidiInt14, UsbUint16ToMidiUint14, UsbUint16ToMidiUint14_Time) are fields of `Externals`. Every property holds for any choice of them.
- The FFP_MIDI_MODIFY_* addresses and struct sizes come from ffb-pro.h, which is not part of this model, so they are parameters. The Pro payload is a record of named fields, not a byte buffer.
- FfbPro.SetCondition: in the C the Basic, Spring_Inertia_Damper and Friction records are three views of one byte buffer. Per the layouts in the comments of ffb-pro.c, coeffAxis0..offsetAxis1 occupy bytes 7-14, the same bytes as Basic's direction, gain, sampleRate, truncate and attackLevel. `ProData` keeps all 21 fields disjoint, so the `UnchangedExcept` clause holds of the named-field record only. The model does not capture that SetCondition overwrites the bytes that Basic reads as direction and gain. The record layout is in ffb-pro.h, which is not part of this model.
- FfbPro.CreateNewEffect: for the same overlay, its `UnchangedExcept` clause holds of the named-field record only. In the C, its gain, sampleRate, truncate and attackLevel writes land on a condition's coefficient and offset bytes. A new spring therefore starts with coeffAxis1 = 0x647F, offsetAxis0 = 0x1000 and offsetAxis1 = 0x004E, which the model does not capture.
- FfbPro.ModifyDuration: the `midi_data_param` pointer is chosen by the caller in ffb.c. The model assumes it points at the effect's `duration` field, and that is the field it writes.
- The FFW_MIDI_MODIFY_DURATION and FFW_MIDI_MODIFY_DEVICEGAIN addresses and MAX_EFFECTS are parameters (`WheelEnv`), for the same reason.
- `volatile` access, interrupts and concurrent access to effect slots are not modelled. The debug logging in the Pro handlers (DoDebug, LogText, LogBinary) is left out because it affects no state or output.
- The second half of FfbwheelDeviceControl (ffb-wheel.c:158-168) follows an unconditional `return`, so it is unreachable and not modelled.
- FfbPro.TriggerBits: `1 << triggerButton` overflows a 16-bit `int` on the AVR for buttons of 15 and more, which is undefined behaviour in C. The model keeps the value modulo 2^16.
- FfbWheel.MemFull: the tests `count_waveform > 10` and `count_friction > 2` can never be true, because both counters return at their first increment. The model leaves them out of the rule, and `FfbWheelDevice.EffectMemFull` still evaluates them.
- FfbWheel.SeenTypes: GetMidiEffectType lives in ffb.c, so it is the parameter `typeOf`. The extra read of id MAX_EFFECTS + 1 after the last test is not logged. MAX_EFFECTS is required to be at most 253, so that the `uint8_t` loop counter cannot wrap.
- FfbWheelDevice.EffectMemFull: the codes it switches on (0x02-0x06, 0x0D-0x10) are the Pro's native codes. The Wheel's own condition codes 0x08-0x0B are never counted. The model keeps the code as written and proves that fact (`MemFullIgnoresOtherCodes`).
- FfbWheel.CreateNewEffect: the spring capture quoted in the source (unknown4 `3e 4e 3e 2f 7d`) differs from the defaults the code writes (`3e 3f 3e 3f 7d`). Only the damper capture is compared.
- FfbWheelDevice.ModifyDuration: the `midi_data_param` pointer is chosen by the caller in ffb.c, so the value written through it is returned instead.
- FfbwheelSetEnvelope, FfbwheelSetCondition, FfbwheelSetPeriodic, FfbwheelSetConstantForce and FfbwheelSetRampForce have empty bodies (ffb-wheel.c:244-272). They change nothing and send nothing, so there is nothing to model.

## Findings

| source | as written | input that shows it | evidently intended | confidence | as-written member | corrected member |
|---|---|---|---|---|---|---|
| ffb-wheel.c:316-328 | the spring/damper/inertia case of FfbwheelSetEffect has no `break`, so its length is overwritten by the friction size: 7 bytes | a Damper SetEffect report: the length is 7, but the struct is 14 bytes | the condition struct's size, 14 | not executed; high (the struct layout and the capture both have 14 bytes) | `FfbWheel.SetEffectLength` | `FfbWheel.SetEffectIntendedLength` |
| ffb-wheel.c:421-440 | the same missing `break` in FfbwheelCreateNewEffect writes the friction coefficient 0x7E over unknown3 (byte 6) of a new spring, damper or inertia | a new Damper with wave form 9 and duration 0x1E6E: byte 6 is 0x7E, but the quoted capture has 0x00 there | byte 6 stays 0x00, matching the capture and the struct's "always 0x00" note | not executed; high | `FfbWheel.DamperMissesCapture` | `FfbWheel.DamperMatchesCaptureIntended` |

The device methods (`FfbWheelDevice.SetEffect`, `FfbWheelDevice.CreateNewEffect`) follow the code as written. `FfbWheel.CreateNewEffectIntendedFitsLength` states the property the corrected pair restores: the length sent covers exactly the bytes that were filled in.
