/** The Microsoft Sidewinder Force Feedback Wheel backend (ffb-wheel.c), as values.

    The Wheel frames its commands itself instead of using MIDI channel
    messages: an effect operation is `F2, op|chk, id` with a nibble-xor
    checksum, a parameter change is the 6-byte `F1` modify frame with a
    mod-0x80 byte-sum checksum, and a device control is `F3, code`. Frame
    bytes are `bv8`, so C's uint8_t arithmetic (wrap-around sums, shifts,
    masks) is the bit-vector arithmetic here. A new effect's defaults are
    written into the slot's byte buffer through the ffb-wheel.h struct views
    of FfbWheelLayout. FfbWheelDevice performs the same steps on arrays and is
    proved to agree with the functions here. */
module FfbWheel {
  import opened Ffb
  import opened FfbWheelLayout
  import FfbPro

  /** What the Wheel takes from ffb.h besides `Externals`:
      FFW_MIDI_MODIFY_DURATION, FFW_MIDI_MODIFY_DEVICEGAIN and MAX_EFFECTS. */
  datatype WheelEnv = WheelEnv(ext: Externals, durationAddress: Byte, deviceGainAddress: bv8, maxEffects: Byte)

  /** The bytes of a frame as FfbSendData receives them. */
  function Wire(f: seq<bv8>): (w: seq<Byte>)
    ensures |w| == |f| && forall i :: 0 <= i < |f| ==> w[i] == f[i] as int
  {
    seq(|f|, i requires 0 <= i < |f| => f[i] as int)
  }

  // ---------------------------------------------------------------------
  // Effect types
  // ---------------------------------------------------------------------

  /** Native waveform codes by USB type index: Constant, Ramp, Square, Sine,
      Triangle, SawtoothDown, SawtoothUp, Spring, Damper, Inertia, Friction,
      Custom. */
  const UsbToMidiTable: seq<Byte> :=
    [0x06, 0x05, 0x03, 0x02, 0x04, 0x05, 0x05, 0x08, 0x09, 0x0A, 0x0B, 0x00]

  /** FfbwheelUsbToMidiEffectType: the code is 0 exactly for Custom (index 11)
      and for every index past the table. */
  function UsbToMidiEffectType(usbType: Byte): (midi: Byte)
    ensures midi == 0 <==> usbType >= 11
  {
    if usbType >= |UsbToMidiTable| then 0 else UsbToMidiTable[usbType]
  }

  /** Two USB types share a native code exactly when both are among Ramp (1),
      SawtoothDown (5) and SawtoothUp (6), or both are Custom or unknown. */
  lemma UsbToMidiEffectTypeCollisions(a: Byte, b: Byte)
    requires a != b
    ensures UsbToMidiEffectType(a) == UsbToMidiEffectType(b)
        <==> (a in {1, 5, 6} && b in {1, 5, 6}) || (a >= 11 && b >= 11)
  {
    if a < 11 && b < 11 {
      assert UsbToMidiEffectType(a) == UsbToMidiTable[a] && UsbToMidiEffectType(b) == UsbToMidiTable[b];
    }
  }

  // ---------------------------------------------------------------------
  // Nibble-checksummed frames: effect operations and device control
  // ---------------------------------------------------------------------

  const OperationCmd: bv8 := 0xF2
  const ModifyCmd: bv8 := 0xF1
  const DeviceControlCmd: bv8 := 0xF3

  const OpFree: bv8 := 1
  const OpStart: bv8 := 2
  const OpStop: bv8 := 3

  /** The xor of all the nibbles of a frame. */
  function FrameXor(f: seq<bv8>): (x: bv8)
    ensures x < 16
  {
    if f == [] then 0 else (f[0] >> 4) ^ (f[0] & 0x0F) ^ FrameXor(f[1..])
  }

  lemma FrameXor2(f: seq<bv8>)
    requires |f| == 2
    ensures FrameXor(f) == (f[0] >> 4) ^ (f[0] & 0x0F) ^ (f[1] >> 4) ^ (f[1] & 0x0F)
  {
    assert f[1..][1..] == [];
  }

  lemma FrameXor3(f: seq<bv8>)
    requires |f| == 3
    ensures FrameXor(f) == (f[0] >> 4) ^ (f[0] & 0x0F) ^ (f[1] >> 4) ^ (f[1] & 0x0F) ^ (f[2] >> 4) ^ (f[2] & 0x0F)
  {
    FrameXor2(f[1..]);
  }

  /** The checksum FfbwheelSendEffectOper computes before merging it in:
      0xF ^ 0x2 ^ (oc >> 4) ^ (id >> 4) ^ (id & 0x0F), where oc is the
      operation shifted into the high nibble of a byte. */
  function OperationChecksum(effectId: bv8, operation: bv8): (sum: bv8)
    ensures sum < 16
  {
    0xF ^ 0x2 ^ ((operation << 4) >> 4) ^ (effectId >> 4) ^ (effectId & 0x0F)
  }

  /** FFW_MIDI_Effect_Operation_t as sent: cmd, the operation in the high
      nibble and the checksum in the low nibble, then the effect id. */
  function OperationFrame(effectId: bv8, operation: bv8): seq<bv8>
  {
    [OperationCmd, ((operation << 4) & 0xF0) | OperationChecksum(effectId, operation), effectId]
  }

  /** The nibbles of an operation frame xor to 0; the low four bits of the
      operation and the whole effect id are carried. */
  lemma OperationFrameCancels(effectId: bv8, operation: bv8)
    ensures var f := OperationFrame(effectId, operation);
      && FrameXor(f) == 0
      && f[0] == OperationCmd && f[1] >> 4 == operation & 0x0F && f[2] == effectId
  {
    FrameXor3(OperationFrame(effectId, operation));
  }

  /** The checksum nibble is the only low nibble that makes the frame's
      nibbles xor to 0. */
  lemma OperationChecksumUnique(effectId: bv8, operation: bv8, c: bv8)
    requires c < 16
    ensures FrameXor([OperationCmd, ((operation << 4) & 0xF0) | c, effectId]) == 0
        <==> c == OperationFrame(effectId, operation)[1] & 0x0F
  {
    FrameXor3([OperationCmd, ((operation << 4) & 0xF0) | c, effectId]);
  }

  /** Start, stop and free are the operations 2, 3 and 1, and their frames
      differ in the operation nibble. */
  lemma OperationsDistinct(effectId: bv8)
    ensures OperationFrame(effectId, OpStart)[1] >> 4 == 2
    ensures OperationFrame(effectId, OpStop)[1] >> 4 == 3
    ensures OperationFrame(effectId, OpFree)[1] >> 4 == 1
  {
  }

  /** The Wheel's device-control codes, by USB control 1..6: enable
      actuators, disable actuators, stop all, reset, pause, continue. */
  const DeviceControlTable: seq<bv8> := [0x2E, 0x3F, 0x6A, 0x1D, 0x48, 0x59]

  /** FfbwheelDeviceControl's frame: controls 1..6 are sent as `F3, code`;
      anything else is unsupported and sends nothing. */
  function DeviceControlFrame(control: Byte): (r: Option<seq<bv8>>)
    ensures r.Some? <==> 1 <= control <= 6
  {
    if control < 1 || control > 6 then None
    else Some([DeviceControlCmd, DeviceControlTable[control - 1]])
  }

  /** Every device-control code carries its checksum: its low nibble is
      0xF ^ 0x3 ^ its high nibble, so the nibbles of each frame xor to 0,
      and the six codes are distinct. */
  lemma DeviceControlFramesCancel(control: Byte)
    requires 1 <= control <= 6
    ensures var code := DeviceControlTable[control - 1];
      && code & 0x0F == 0xF ^ 0x3 ^ (code >> 4)
      && FrameXor(DeviceControlFrame(control).value) == 0
  {
    FrameXor2(DeviceControlFrame(control).value);
  }

  /** Distinct supported controls send distinct frames. */
  lemma DeviceControlInjective(a: Byte, b: Byte)
    requires 1 <= a <= 6 && 1 <= b <= 6
    ensures DeviceControlFrame(a) == DeviceControlFrame(b) <==> a == b
  {
    if a != b {
      assert DeviceControlFrame(a).value[1] != DeviceControlFrame(b).value[1];
    }
  }

  // ---------------------------------------------------------------------
  // The modify frame
  // ---------------------------------------------------------------------

  /** The low and high byte of a uint16_t, as it lies in memory on the AVR. */
  function Lo(v: bv16): bv8 { (v & 0xFF) as bv8 }
  function Hi(v: bv16): bv8 { (v >> 8) as bv8 }

  /** The uint16_t stored little-endian in two bytes. */
  function Word(lo: bv8, hi: bv8): bv16 { ((hi as bv16) << 8) | lo as bv16 }

  lemma WordRoundTrip(v: bv16, lo: bv8, hi: bv8)
    ensures Word(Lo(v), Hi(v)) == v
    ensures Lo(Word(lo, hi)) == lo && Hi(Word(lo, hi)) == hi
  {
  }

  /** The uint8_t sum the checksum balances: cmd, the address byte with bit 6
      masked off (`& ~0x40`), the effect id and both value bytes. */
  function ModifySum(cmd: bv8, defAndAddress: bv8, effectId: bv8, lo: bv8, hi: bv8): bv8
  {
    cmd + (defAndAddress & !0x40) + effectId + lo + hi
  }

  /** `(0x80 - sum) & 0x7f`. The C expression is evaluated on the promoted
      int; taken modulo 0x100 first, as here, its low seven bits are the same. */
  function Complement7(sum: bv8): bv8
  {
    (0x80 - sum) & 0x7F
  }

  /** The modify frame's checksum rule: a 7-bit checksum that brings the
      byte sum to a multiple of 0x80. */
  predicate ModifyChecksumHolds(f: seq<bv8>)
  {
    |f| == 6 && f[1] < 0x80 && (ModifySum(f[0], f[2], f[3], f[4], f[5]) + f[1]) & 0x7F == 0
  }

  /** FFW_MIDI_Modify_t with its value bytes given: cmd, checksum,
      def_and_address, effect_id, value low byte, value high byte. */
  function ModifyBytes(effectId: bv8, address: bv8, lo: bv8, hi: bv8): seq<bv8>
  {
    [ModifyCmd, Complement7(ModifySum(ModifyCmd, 0x40 | address, effectId, lo, hi)), 0x40 | address, effectId, lo, hi]
  }

  /** FFW_MIDI_Modify_t as FfbwheelSendModify sends it: the uint16_t value
      lies in memory low byte first. */
  function ModifyFrame(effectId: bv8, address: bv8, value: bv16): seq<bv8>
  {
    ModifyBytes(effectId, address, Lo(value), Hi(value))
  }

  /** The complement is below 0x80, brings the sum to a multiple of 0x80,
      and is the only byte below 0x80 that does. */
  lemma Complement7Balances(sum: bv8, c: bv8)
    ensures Complement7(sum) < 0x80 && (sum + Complement7(sum)) & 0x7F == 0
    ensures c < 0x80 && (sum + c) & 0x7F == 0 ==> c == Complement7(sum)
  {
  }

  lemma ModifyBytesChecksum(effectId: bv8, address: bv8, lo: bv8, hi: bv8)
    ensures ModifyChecksumHolds(ModifyBytes(effectId, address, lo, hi))
  {
    Complement7Balances(ModifySum(ModifyCmd, 0x40 | address, effectId, lo, hi), 0);
    assert ModifyBytes(effectId, address, lo, hi)[1] < 0x80;
    assert (ModifySum(ModifyCmd, 0x40 | address, effectId, lo, hi) + ModifyBytes(effectId, address, lo, hi)[1]) & 0x7F == 0;
  }

  /** Every modify frame satisfies the checksum rule. */
  lemma ModifyFrameChecksum(effectId: bv8, address: bv8, value: bv16)
    ensures ModifyChecksumHolds(ModifyFrame(effectId, address, value))
  {
    ModifyBytesChecksum(effectId, address, Lo(value), Hi(value));
  }

  /** A frame's checksum is the only byte below 0x80 that satisfies the rule
      with the rest of the frame. */
  lemma ModifyChecksumUnique(f: seq<bv8>, c: bv8)
    requires ModifyChecksumHolds(f) && c < 0x80
    ensures ModifyChecksumHolds(f[1 := c]) <==> c == f[1]
  {
    Complement7Balances(ModifySum(f[0], f[2], f[3], f[4], f[5]), c);
    Complement7Balances(ModifySum(f[0], f[2], f[3], f[4], f[5]), f[1]);
  }

  /** The frame carries the effect id and the whole 16-bit value, neither
      byte masked to seven bits. */
  lemma ModifyFrameFields(effectId: bv8, address: bv8, value: bv16)
    ensures var f := ModifyFrame(effectId, address, value);
      f[0] == ModifyCmd && f[3] == effectId && Word(f[4], f[5]) == value
  {
    WordRoundTrip(value, 0, 0);
  }

  /** Bit 6 of the address byte is always set, marking a value that is not
      the default; the checksum's `& ~0x40` gives back the rest of the
      address, so the whole address exactly when its own bit 6 is clear. */
  lemma ModifyAddressDecodes(effectId: bv8, address: bv8, value: bv16)
    ensures var f := ModifyFrame(effectId, address, value);
      && f[2] & 0x40 == 0x40
      && f[2] & !0x40 == address & !0x40
      && (f[2] & !0x40 == address <==> address & 0x40 == 0)
  {
  }

  /** The FFW_MIDI_MODIFY_* addresses of ffb-wheel.h. */
  const ModifyMagnitude: bv8 := 0x06
  const ModifyForceDirection: bv8 := 0x09
  const ModifyPositiveCoeff: bv8 := 0x06
  const ModifyNegativeCoeff: bv8 := 0x03

  /** All the header's addresses are below 0x40, so each round-trips through
      the address byte of a modify frame. */
  lemma HeaderAddressesDecode(effectId: bv8, value: bv16)
    ensures forall a :: a in {ModifyMagnitude, ModifyForceDirection, ModifyPositiveCoeff, ModifyNegativeCoeff} ==>
      ModifyFrame(effectId, a, value)[2] & !0x40 == a
  {
    ModifyAddressDecodes(effectId, ModifyMagnitude, value);
    ModifyAddressDecodes(effectId, ModifyForceDirection, value);
    ModifyAddressDecodes(effectId, ModifyNegativeCoeff, value);
  }

  /** `(usb_gain >> 1) & 0x7f`: the USB gain halved into seven bits. */
  function GainLevel(gain: bv8): bv16
  {
    ((gain >> 1) & 0x7F) as bv16
  }

  /** FfbwheelModifyDeviceGain's frame: effect 0, the device-gain address. */
  function DeviceGainFrame(env: WheelEnv, gain: bv8): seq<bv8>
  {
    ModifyFrame(0, env.deviceGainAddress, GainLevel(gain))
  }

  /** The gain level is the USB gain halved, which is the shared 7-bit
      scaling Ffb.Level7. */
  lemma GainLevelHalves(gain: bv8)
    ensures GainLevel(gain) as int == Level7(gain as int)
  {
    assert GainLevel(gain) == (gain >> 1) as bv16;
    assert (gain >> 1) as int == gain as int / 2;
  }

  /** A larger USB gain never gives a smaller level. */
  lemma GainLevelMonotone(gain: bv8, other: bv8)
    requires gain <= other
    ensures GainLevel(gain) <= GainLevel(other)
  {
  }

  /** Full USB gain gives the frame F1 10 40 00 7F 00 that ffb-wheel.c
      documents as maximum gain, when the gain address is 0. */
  lemma DeviceGainFullScale(env: WheelEnv)
    requires env.deviceGainAddress == 0
    ensures DeviceGainFrame(env, 0xFF) == [0xF1, 0x10, 0x40, 0x00, 0x7F, 0x00]
  {
  }

  // ---------------------------------------------------------------------
  // Startup and SysEx framing
  // ---------------------------------------------------------------------

  const SysExHeader: seq<Byte> := [0xF0, 0x00, 0x01, 0x0A, 0x15]

  /** FfbwheelGetSysExHeader: the header and the length it reports. */
  function GetSysExHeader(): (r: (seq<Byte>, Byte))
    ensures r.1 == |r.0| == 5 && r.0[0] == 0xF0
  {
    (SysExHeader, 5)
  }

  /** The Wheel's header differs from the Pro's only in its last byte, the
      device id after the shared manufacturer bytes. */
  lemma SysExHeaderVersusPro()
    ensures GetSysExHeader().1 == FfbPro.GetSysExHeader().1
    ensures GetSysExHeader().0[..4] == FfbPro.GetSysExHeader().0[..4]
    ensures GetSysExHeader().0[4] != FfbPro.GetSysExHeader().0[4]
  {
  }

  /** startupFfbWheelData_0. */
  const StartupReset: seq<bv8> := [0xF3, 0x1D]

  // The four 6-byte frames of startupFfbWheelData_1.
  const StartupRow1: seq<bv8> := [0xF1, 0x0E, 0x43, 0x01, 0x00, 0x7D]
  const StartupRow2: seq<bv8> := [0xF1, 0x7E, 0x04, 0x01, 0x3E, 0x4E]
  const StartupRow3: seq<bv8> := [0xF1, 0x1C, 0x45, 0x01, 0x3E, 0x2F]
  const StartupRow4: seq<bv8> := [0xF1, 0x0B, 0x46, 0x01, 0x7D, 0x00]

  const StartupBlock: seq<bv8> := StartupRow1 + StartupRow2 + StartupRow3 + StartupRow4

  /** FfbwheelEnableInterrupts: wait, the reset code, the 24-byte block in one
      send, the reset again through DeviceControl, wait. */
  function EnableInterruptsTrace(): seq<Event>
  {
    [WaitMs(100), Send(Wire(StartupReset)), Send(Wire(StartupBlock)), Send(Wire(DeviceControlFrame(4).value)), WaitMs(100)]
  }

  /** The startup block is four modify frames for effect 1: addresses 3, 5
      and 6 as SendModify would build them, and address 4 sent with the
      default flag (bit 6) clear; all four satisfy the checksum rule. */
  lemma StartupBlockIsModifies()
    ensures StartupRow1 == ModifyFrame(1, 3, 0x7D00)
    ensures StartupRow3 == ModifyFrame(1, 5, 0x2F3E)
    ensures StartupRow4 == ModifyFrame(1, 6, 0x007D)
    ensures ModifyChecksumHolds(StartupRow2) && StartupRow2[2] & 0x40 == 0
    ensures StartupRow2[2] == 4 && StartupRow2[3] == 1 && Word(StartupRow2[4], StartupRow2[5]) == 0x4E3E
    ensures forall i :: 0 <= i < 4 ==> ModifyChecksumHolds(StartupBlock[6 * i..6 * i + 6])
  {
    assert StartupBlock[0..6] == StartupRow1;
    assert StartupBlock[6..12] == StartupRow2;
    assert StartupBlock[12..18] == StartupRow3;
    assert StartupBlock[18..24] == StartupRow4;
    ModifyFrameChecksum(1, 3, 0x7D00);
    ModifyFrameChecksum(1, 5, 0x2F3E);
    ModifyFrameChecksum(1, 6, 0x007D);
  }

  /** Startup resets the device twice, around the block, and both resets are
      the device-control frame for USB_DCTRL_RESET (4). */
  lemma EnableInterruptsResets()
    ensures EnableInterruptsTrace()[1] == EnableInterruptsTrace()[3] == Send(Wire(DeviceControlFrame(4).value))
    ensures FrameXor(StartupReset) == 0
  {
    DeviceControlFramesCancel(4);
  }

  // ---------------------------------------------------------------------
  // Effect memory
  // ---------------------------------------------------------------------

  /** The native codes FfbwheelEffectMemFull switches on, in order: the new
      effect's, then GetMidiEffectType(id) for the ids 2 to MAX_EFFECTS. The
      type of id MAX_EFFECTS + 1 is fetched after the last test and never
      looked at, and with MAX_EFFECTS = 0 not even the new effect is. */
  function SeenTypes(newType: Byte, typeOf: Byte -> Byte, maxEffects: Byte): (s: seq<Byte>)
    requires maxEffects <= 253
    ensures |s| == maxEffects
    ensures maxEffects > 0 ==> s[0] == newType
    ensures forall i :: 1 <= i < maxEffects ==> s[i] == typeOf(i + 1)
  {
    if maxEffects == 0 then [] else [newType] + seq(maxEffects - 1, i requires 0 <= i < maxEffects - 1 => typeOf(i + 2))
  }

  /** Codes the loop rejects at once: 0x02..0x05 (the waveforms as the Pro
      numbers them) and 0x10 (the Pro's friction). */
  predicate Unsupported(t: Byte)
  {
    t == 0x02 || t == 0x03 || t == 0x04 || t == 0x05 || t == 0x10
  }

  /** Codes the loop counts, at most two of each: 0x06 constant, 0x0D
      spring, 0x0E damper, 0x0F inertia. */
  predicate Limited(t: Byte)
  {
    t == 0x06 || t == 0x0D || t == 0x0E || t == 0x0F
  }

  /** How often `code` occurs in `s`. */
  function Count(s: seq<Byte>, code: Byte): nat
  {
    multiset(s)[code]
  }

  /** What FfbwheelEffectMemFull answers for the codes it sees: 1 if any is
      rejected outright or some counted code occurs more than twice. */
  function MemFull(s: seq<Byte>): Byte
  {
    if exists i :: 0 <= i < |s| && Unsupported(s[i]) then 1
    else if Count(s, 0x06) > 2 || Count(s, 0x0D) > 2 || Count(s, 0x0E) > 2 || Count(s, 0x0F) > 2 then 1
    else 0
  }

  /** The answer depends only on which codes are seen how often, not on the
      slots they sit in. */
  lemma MemFullIgnoresOrder(s: seq<Byte>, t: seq<Byte>)
    requires multiset(s) == multiset(t)
    ensures MemFull(s) == MemFull(t)
  {
    if exists i :: 0 <= i < |s| && Unsupported(s[i]) {
      var i :| 0 <= i < |s| && Unsupported(s[i]);
      assert s[i] in multiset(t);
    }
    if exists i :: 0 <= i < |t| && Unsupported(t[i]) {
      var i :| 0 <= i < |t| && Unsupported(t[i]);
      assert t[i] in multiset(s);
    }
  }

  /** Seeing one more code that is neither rejected nor counted changes
      nothing; among those are the Wheel's own condition codes 0x08..0x0B
      and Custom's 0x00, which the loop does not recognise. */
  lemma MemFullIgnoresOtherCodes(s: seq<Byte>, t: Byte)
    requires !Unsupported(t) && !Limited(t)
    ensures MemFull(s + [t]) == MemFull(s)
  {
    assert multiset(s + [t]) == multiset(s) + multiset{t};
    if exists i :: 0 <= i < |s + [t]| && Unsupported((s + [t])[i]) {
      var i :| 0 <= i < |s + [t]| && Unsupported((s + [t])[i]);
      assert i < |s| && (s + [t])[i] == s[i];
    }
    if exists i :: 0 <= i < |s| && Unsupported(s[i]) {
      var i :| 0 <= i < |s| && Unsupported(s[i]);
      assert (s + [t])[i] == s[i];
    }
  }

  /** Once full, memory stays full however many more codes are seen. */
  lemma MemFullMonotone(s: seq<Byte>, t: seq<Byte>)
    requires MemFull(s) == 1
    ensures MemFull(s + t) == 1
  {
    assert multiset(s + t) == multiset(s) + multiset(t);
    if exists i :: 0 <= i < |s| && Unsupported(s[i]) {
      var i :| 0 <= i < |s| && Unsupported(s[i]);
      assert (s + t)[i] == s[i];
    }
  }

  /** Three of a counted code fill memory. */
  lemma MemFullAtThree(code: Byte)
    requires Limited(code)
    ensures MemFull([code, code, code]) == 1
  {
    assert Count([code, code, code], code) == 3;
  }

  /** Two of a counted code do not. */
  lemma MemFullNotAtTwo(code: Byte)
    requires Limited(code)
    ensures MemFull([code, code]) == 0
  {
    assert multiset([code, code]) == multiset{code, code};
  }

  // ---------------------------------------------------------------------
  // SetEffect: the length of the effect data
  // ---------------------------------------------------------------------

  /** The ffb-wheel.h struct each USB effect type's data is laid out as. */
  function PayloadLayout(k: UsbEffect): Option<Layout>
  {
    if IsWaveform(k) || k == Ramp then Some(PeriodicRampLayout)
    else if k == Constant then Some(ConstantForceLayout)
    else if IsCondition(k) then Some(SpringInertiaDamperLayout)
    else if k == Friction then Some(FrictionLayout)
    else None
  }

  /** FfbwheelSetEffect as written: the sizeof of the case's struct. The
      spring, damper and inertia case has no `break`, so it falls into the
      friction case and returns the friction struct's size. */
  function SetEffect(ext: Externals, d: SetEffectReport): Byte
  {
    match KindOf(ext, d.effectType)
    case None => 0
    case Some(k) =>
      if IsWaveform(k) || k == Ramp then PeriodicRampSize
      else if k == Constant then ConstantForceSize
      else if IsCondition(k) || k == Friction then FrictionSize
      else 0
  }

  /** The length is the size of the effect's struct, 0 for Custom and unknown
      types, except for the conditions, whose 14-byte struct is cut to the
      7 bytes of the friction struct. */
  lemma SetEffectLength(ext: Externals, d: SetEffectReport)
    ensures var k := KindOf(ext, d.effectType);
      && (k.None? || PayloadLayout(k.value).None? ==> SetEffect(ext, d) == 0)
      && (k.Some? && PayloadLayout(k.value).Some? && !IsCondition(k.value) ==>
            SetEffect(ext, d) == Size(PayloadLayout(k.value).value))
      && (k.Some? && IsCondition(k.value) ==>
            SetEffect(ext, d) == Size(FrictionLayout) < Size(PayloadLayout(k.value).value))
  {
    PeriodicRampOffsets();
    ConstantForceOffsets();
    SpringInertiaDamperOffsets();
    FrictionOffsets();
  }

  /** FfbwheelSetEffect with the `break` the condition case evidently lacks. */
  function SetEffectIntended(ext: Externals, d: SetEffectReport): Byte
  {
    match KindOf(ext, d.effectType)
    case None => 0
    case Some(k) =>
      if IsWaveform(k) || k == Ramp then PeriodicRampSize
      else if k == Constant then ConstantForceSize
      else if IsCondition(k) then SpringInertiaDamperSize
      else if k == Friction then FrictionSize
      else 0
  }

  /** With the `break`, every effect's length is its struct's size, and the
      two versions differ exactly on the conditions. */
  lemma SetEffectIntendedLength(ext: Externals, d: SetEffectReport)
    ensures var k := KindOf(ext, d.effectType);
      && SetEffectIntended(ext, d) == (if k.Some? && PayloadLayout(k.value).Some? then Size(PayloadLayout(k.value).value) else 0)
      && (SetEffectIntended(ext, d) != SetEffect(ext, d) <==> k.Some? && IsCondition(k.value))
  {
    PeriodicRampOffsets();
    ConstantForceOffsets();
    SpringInertiaDamperOffsets();
    FrictionOffsets();
  }

  // ---------------------------------------------------------------------
  // CreateNewEffect: the defaults written into the effect's data
  // ---------------------------------------------------------------------

  /** The uint16_t stored at a byte offset, low byte first. */
  function Get16(s: seq<Byte>, at: nat): U16
    requires at + 1 < |s|
  {
    s[at] as int + 0x100 * s[at + 1] as int
  }

  /** Storing a uint16_t at a byte offset, low byte first, as a struct member
      write does on the AVR; nothing else changes and it reads back. */
  function Put16(s: seq<Byte>, at: nat, v: U16): (r: seq<Byte>)
    requires at + 1 < |s|
    ensures |r| == |s| && Get16(r, at) == v
    ensures forall i :: 0 <= i < |s| && i != at && i != at + 1 ==> r[i] == s[i]
  {
    s[at := v % 0x100][at + 1 := v / 0x100]
  }

  /** The common header: command 0x20, unknown1 0x7F, direction 0; the wave
      form and the duration are left as they are. */
  function CommonDefaults(s: seq<Byte>): seq<Byte>
    requires |s| >= CommonSize
  {
    s[CmCommand := 0x20][CmUnknown1 := 0x7F][CmDirection := 0x00]
  }

  /** The periodic and ramp defaults; phase, fade time and frequency differ
      between the ramp and the other waveforms. */
  function PeriodicRampDefaults(s: seq<Byte>, ramp: bool): seq<Byte>
    requires |s| >= PeriodicRampSize
  {
    var s1 := s[CmDirection := 0x40][PrPreciseDir := 0x7F][PrAttackLevel := 0x7F];
    var s2 := Put16(s1, PrAttackTime, 0x0000)[PrMagnitude := 0x7F][PrFadeLevel := 0x7F][PrOffset := 0x3E];
    if ramp then Put16(Put16(Put16(s2, PrPhase, 0x0000), PrFadeTime, 0x1E6E), PrFrequency, 0x1E6E)
    else Put16(Put16(Put16(s2, PrPhase, 0x4000), PrFadeTime, 0x1265), PrFrequency, 0x0374)
  }

  /** The constant-force defaults; the fade time is MIDI_DURATION_INFINITE. */
  function ConstantForceDefaults(ext: Externals, s: seq<Byte>): seq<Byte>
    requires |s| >= ConstantForceSize
  {
    var s1 := s[CfUnknown2 := 0x7F][CfAttackLevel := 0x7F];
    var s2 := Put16(s1, CfAttackTime, 0x0000)[CfMagnitude := 0x7F];
    Put16(s2, CfFadeTime, ext.midiDurationInfinite)[CfFadeLevel := 0x7F][CfForceDirection := 0x00]
  }

  /** The spring, damper and inertia defaults. */
  function SpringInertiaDamperDefaults(s: seq<Byte>): seq<Byte>
    requires |s| >= SpringInertiaDamperSize
  {
    s[SidUnknown3 := 0x00][SidNegativeCoeff := 0x7D]
     [SidUnknown4 := 0x3E][SidUnknown4 + 1 := 0x3F][SidUnknown4 + 2 := 0x3E][SidUnknown4 + 3 := 0x3F][SidUnknown4 + 4 := 0x7D]
     [SidPositiveCoeff := 0x00]
  }

  /** The friction default. */
  function FrictionDefaults(s: seq<Byte>): seq<Byte>
    requires |s| >= FrictionSize
  {
    s[FrCoeff := 0x7E]
  }

  /** FfbwheelCreateNewEffect as written, on the effect's data buffer (which
      holds at least the largest struct). The spring, damper and inertia
      case has no `break` and goes on into the friction case. */
  function CreateNewEffect(ext: Externals, d: CreateNewEffectReport, s: seq<Byte>): seq<Byte>
    requires |s| >= PeriodicRampSize
  {
    var c := CommonDefaults(s);
    match KindOf(ext, d.effectType)
    case None => c
    case Some(k) =>
      if IsWaveform(k) || k == Ramp then PeriodicRampDefaults(c, d.effectType == ext.effectCode(Ramp))
      else if k == Constant then ConstantForceDefaults(ext, c)
      else if IsCondition(k) then FrictionDefaults(SpringInertiaDamperDefaults(c))
      else if k == Friction then FrictionDefaults(c)
      else c
  }

  /** FfbwheelCreateNewEffect with the `break` the condition case evidently lacks. */
  function CreateNewEffectIntended(ext: Externals, d: CreateNewEffectReport, s: seq<Byte>): seq<Byte>
    requires |s| >= PeriodicRampSize
  {
    var k := KindOf(ext, d.effectType);
    if k.Some? && IsCondition(k.value) then SpringInertiaDamperDefaults(CommonDefaults(s))
    else CreateNewEffect(ext, d, s)
  }

  /** The bytes an effect type's defaults reach: its struct, or the common
      header for Custom and unknown types. */
  function WrittenSize(k: Option<UsbEffect>): nat
  {
    if k.Some? && PayloadLayout(k.value).Some? then Size(PayloadLayout(k.value).value) else CommonSize
  }

  /** Every new effect gets the common header, keeps the wave form and the
      duration it had, and no byte past its struct is touched. */
  lemma CreateNewEffectHeader(ext: Externals, d: CreateNewEffectReport, s: seq<Byte>)
    requires |s| >= PeriodicRampSize
    ensures var r := CreateNewEffect(ext, d, s);
      var k := KindOf(ext, d.effectType);
      && |r| == |s|
      && r[CmCommand] == 0x20 && r[CmUnknown1] == 0x7F
      && r[CmWaveForm] == s[CmWaveForm] && Get16(r, CmDuration) == Get16(s, CmDuration)
      && r[CmDirection] == (if k.Some? && (IsWaveform(k.value) || k.value == Ramp) then 0x40 else 0x00)
      && forall i :: WrittenSize(k) <= i < |s| ==> r[i] == s[i]
  {
    PeriodicRampOffsets();
    ConstantForceOffsets();
    SpringInertiaDamperOffsets();
    FrictionOffsets();
    CommonOffsets();
  }

  /** The ramp effect's data as a capture of the original driver shows it
      (the SysEx payload after the header, before the checksum), for wave
      form 0x05 and duration 0x1E6E. */
  const RampCapture: seq<Byte> :=
    [0x20, 0x05, 0x7F, 0x6E, 0x1E, 0x40, 0x7F, 0x00, 0x00, 0x7F, 0x00, 0x00, 0x7F, 0x6E, 0x1E, 0x7F, 0x6E, 0x1E, 0x3E]

  /** The damper effect's data as a capture shows it, for wave form 0x09. */
  const DamperCapture: seq<Byte> :=
    [0x20, 0x09, 0x7F, 0x6E, 0x1E, 0x00, 0x00, 0x7D, 0x3E, 0x3F, 0x3E, 0x3F, 0x7D, 0x00]

  /** The documented waveform defaults from phase to offset: x-offset 00 40,
      envelope y1 7f, x1 00 00, amplitude 7f, x2 65 12, y2 7f, x-hz 74 03,
      y-offset 3e. */
  const WaveformDefaults: seq<Byte> :=
    [0x00, 0x40, 0x7F, 0x00, 0x00, 0x7F, 0x65, 0x12, 0x7F, 0x74, 0x03, 0x3E]

  /** Whatever the buffer held, a new ramp's bytes from the direction on are
      the captured ramp's; with the captured wave form and duration it
      reproduces the whole capture. */
  lemma RampMatchesCapture(ext: Externals, d: CreateNewEffectReport, s: seq<Byte>)
    requires |s| >= PeriodicRampSize
    requires KindOf(ext, d.effectType) == Some(Ramp)
    ensures CreateNewEffect(ext, d, s)[CmDirection..PeriodicRampSize] == RampCapture[CmDirection..]
    ensures s[CmWaveForm] == 0x05 && s[CmDuration] == 0x6E && s[CmDuration + 1] == 0x1E ==>
      CreateNewEffect(ext, d, s)[..PeriodicRampSize] == RampCapture
  {
    var r := CreateNewEffect(ext, d, s);
    assert r[CmDirection..PeriodicRampSize] == RampCapture[CmDirection..] by {
      forall i | CmDirection <= i < PeriodicRampSize
        ensures r[i] == RampCapture[i]
      {
      }
    }
    if s[CmWaveForm] == 0x05 && s[CmDuration] == 0x6E && s[CmDuration + 1] == 0x1E {
      assert r[..PeriodicRampSize] == RampCapture by {
        forall i | 0 <= i < PeriodicRampSize
          ensures r[i] == RampCapture[i]
        {
        }
      }
    }
  }

  /** A new non-ramp waveform gets the documented defaults, direction 0x40
      and precise direction 0x7F. */
  lemma WaveformMatchesDefaults(ext: Externals, d: CreateNewEffectReport, s: seq<Byte>)
    requires |s| >= PeriodicRampSize
    requires var k := KindOf(ext, d.effectType); k.Some? && IsWaveform(k.value)
    ensures var r := CreateNewEffect(ext, d, s);
      && r[CmDirection] == 0x40 && r[PrPreciseDir] == 0x7F
      && r[PrPhase..PeriodicRampSize] == WaveformDefaults
  {
    var r := CreateNewEffect(ext, d, s);
    assert r[PrPhase..PeriodicRampSize] == WaveformDefaults by {
      forall i | 0 <= i < |WaveformDefaults|
        ensures r[PrPhase + i] == WaveformDefaults[i]
      {
      }
    }
  }

  /** A new constant force: full attack, magnitude and fade levels, no
      attack time, an infinite fade time and a full counter-clockwise force. */
  lemma ConstantForceDecodes(ext: Externals, d: CreateNewEffectReport, s: seq<Byte>)
    requires |s| >= PeriodicRampSize
    requires KindOf(ext, d.effectType) == Some(Constant)
    ensures var r := CreateNewEffect(ext, d, s);
      && r[CmDirection] == 0x00 && r[CfUnknown2] == 0x7F && r[CfAttackLevel] == 0x7F
      && Get16(r, CfAttackTime) == 0 && r[CfMagnitude] == 0x7F
      && Get16(r, CfFadeTime) == ext.midiDurationInfinite
      && r[CfFadeLevel] == 0x7F && r[CfForceDirection] == 0x00
  {
  }

  /** As written, a new spring, damper or inertia gets its defaults and then
      the friction coefficient 0x7E on top of its unknown3 byte. */
  lemma ConditionAsWritten(ext: Externals, d: CreateNewEffectReport, s: seq<Byte>)
    requires |s| >= PeriodicRampSize
    requires var k := KindOf(ext, d.effectType); k.Some? && IsCondition(k.value)
    ensures var r := CreateNewEffect(ext, d, s);
      && r[SidUnknown3] == 0x7E
      && r[SidNegativeCoeff..SpringInertiaDamperSize] == DamperCapture[SidNegativeCoeff..]
  {
    var r := CreateNewEffect(ext, d, s);
    assert r[SidNegativeCoeff..SpringInertiaDamperSize] == DamperCapture[SidNegativeCoeff..] by {
      forall i | SidNegativeCoeff <= i < SpringInertiaDamperSize
        ensures r[i] == DamperCapture[i]
      {
      }
    }
  }

  /** A new friction effect gets the coefficient 0x7E at byte 6, after the
      common header, and nothing past its struct changes. */
  lemma FrictionDefaultsHold(ext: Externals, d: CreateNewEffectReport, s: seq<Byte>)
    requires |s| >= PeriodicRampSize
    requires KindOf(ext, d.effectType) == Some(Friction)
    ensures var r := CreateNewEffect(ext, d, s);
      && r[FrCoeff] == 0x7E && r[CmDirection] == 0x00
      && forall i :: FrictionSize <= i < |s| ==> r[i] == s[i]
  {
  }

  /** As written, a new damper differs from the captured damper in exactly
      byte 6, which holds the friction coefficient. */
  lemma DamperMissesCapture(ext: Externals, d: CreateNewEffectReport, s: seq<Byte>)
    requires |s| >= PeriodicRampSize
    requires KindOf(ext, d.effectType) == Some(Damper)
    requires s[CmWaveForm] == 0x09 && s[CmDuration] == 0x6E && s[CmDuration + 1] == 0x1E
    ensures CreateNewEffect(ext, d, s)[..SpringInertiaDamperSize] != DamperCapture
    ensures CreateNewEffect(ext, d, s)[..SpringInertiaDamperSize][SidUnknown3 := 0x00] == DamperCapture
  {
    var r := CreateNewEffect(ext, d, s);
    assert r[SidUnknown3] != DamperCapture[SidUnknown3];
    assert r[..SpringInertiaDamperSize][SidUnknown3 := 0x00] == DamperCapture by {
      forall i | 0 <= i < SpringInertiaDamperSize
        ensures r[..SpringInertiaDamperSize][SidUnknown3 := 0x00][i] == DamperCapture[i]
      {
      }
    }
  }

  /** With the `break`, a new damper reproduces the captured damper bytes. */
  lemma DamperMatchesCaptureIntended(ext: Externals, d: CreateNewEffectReport, s: seq<Byte>)
    requires |s| >= PeriodicRampSize
    requires KindOf(ext, d.effectType) == Some(Damper)
    requires s[CmWaveForm] == 0x09 && s[CmDuration] == 0x6E && s[CmDuration + 1] == 0x1E
    ensures CreateNewEffectIntended(ext, d, s)[..SpringInertiaDamperSize] == DamperCapture
  {
    var r := CreateNewEffectIntended(ext, d, s);
    assert r[..SpringInertiaDamperSize] == DamperCapture by {
      forall i | 0 <= i < SpringInertiaDamperSize
        ensures r[i] == DamperCapture[i]
      {
      }
    }
  }

  /** With the `break` in both functions, the bytes a new effect's defaults
      reach are exactly the bytes its data length covers: the length is the
      written size, and nothing at or past it changes. */
  lemma CreateNewEffectIntendedFitsLength(ext: Externals, d: CreateNewEffectReport, e: SetEffectReport, s: seq<Byte>)
    requires |s| >= PeriodicRampSize
    requires e.effectType == d.effectType
    requires var k := KindOf(ext, d.effectType); k.Some? && PayloadLayout(k.value).Some?
    ensures var r := CreateNewEffectIntended(ext, d, s);
      && SetEffectIntended(ext, e) as nat == WrittenSize(KindOf(ext, d.effectType))
      && |r| == |s|
      && forall i :: SetEffectIntended(ext, e) <= i < |s| ==> r[i] == s[i]
  {
    SetEffectIntendedLength(ext, e);
    CreateNewEffectHeader(ext, d, s);
  }
}
