/** The Wheel backend as the firmware runs it: frames built byte by byte in
    arrays and handed to the transport, the effect-memory loop with its
    counters, and the defaults written into an effect's data buffer in
    place. Every method is proved to send, answer and write exactly what
    the value-level definitions of FfbWheel say, so the properties proved
    there hold of these methods. */
module FfbWheelDevice {
  import opened Ffb
  import opened FfbWheelLayout
  import opened FfbWheel

  // ---------------------------------------------------------------------
  // Effect operations
  // ---------------------------------------------------------------------

  /** FfbwheelSendEffectOper: the operation in the high nibble, then the
      checksum of the command, operation and id nibbles in the low one. */
  method SendEffectOper(link: Link, effectId: bv8, operation: bv8)
    modifies link
    ensures link.log == old(link.log) + [Send(Wire(OperationFrame(effectId, operation)))]
  {
    var op := new bv8[3];
    op[0] := OperationCmd;
    op[2] := effectId;
    op[1] := operation << 4;
    var sum := 0xF ^ 0x2 ^ (op[1] >> 4) ^ (op[2] >> 4) ^ (op[2] & 0x0F);
    assert sum == OperationChecksum(effectId, operation);
    op[1] := op[1] & 0xF0;
    op[1] := op[1] | sum;
    assert op[..] == OperationFrame(effectId, operation);
    link.Transmit(Wire(op[..]));
  }

  /** FfbwheelStartEffect. */
  method StartEffect(link: Link, effectId: bv8)
    modifies link
    ensures link.log == old(link.log) + [Send(Wire(OperationFrame(effectId, OpStart)))]
  {
    SendEffectOper(link, effectId, OpStart);
  }

  /** FfbwheelStopEffect. */
  method StopEffect(link: Link, effectId: bv8)
    modifies link
    ensures link.log == old(link.log) + [Send(Wire(OperationFrame(effectId, OpStop)))]
  {
    SendEffectOper(link, effectId, OpStop);
  }

  /** FfbwheelFreeEffect. */
  method FreeEffect(link: Link, effectId: bv8)
    modifies link
    ensures link.log == old(link.log) + [Send(Wire(OperationFrame(effectId, OpFree)))]
  {
    SendEffectOper(link, effectId, OpFree);
  }

  // ---------------------------------------------------------------------
  // Modify operations
  // ---------------------------------------------------------------------

  /** FfbwheelSendModify: the frame with the value stored low byte first, and
      its checksum computed over the other five bytes with the default flag
      masked out. */
  method SendModify(link: Link, effectId: bv8, address: bv8, value: bv16)
    modifies link
    ensures link.log == old(link.log) + [Send(Wire(ModifyFrame(effectId, address, value)))]
  {
    var d := new bv8[6];
    d[0] := ModifyCmd;
    d[2] := 0x40 | address;
    d[3] := effectId;
    d[4], d[5] := Lo(value), Hi(value);
    var sum := ModifySum(d[0], d[2], d[3], d[4], d[5]);
    d[1] := Complement7(sum);
    assert d[..] == ModifyFrame(effectId, address, value);
    link.Transmit(Wire(d[..]));
  }

  /** FfbwheelModifyDuration: the request to the set-param primitive for the
      duration address; `stored` is what it leaves in the field the caller
      points it at. */
  method ModifyDuration(env: WheelEnv, link: Link, effectId: Byte, duration: U16) returns (stored: U16)
    modifies link
    ensures stored == duration
    ensures link.log == old(link.log) + [SetParam(Duration, effectId, env.durationAddress, duration, Bits14)]
  {
    stored := duration;
    link.Request(Duration, effectId, env.durationAddress, duration, Bits14);
  }

  /** FfbwheelModifyDeviceGain: the USB gain halved into 7 bits, sent as a
      modify of effect 0. */
  method ModifyDeviceGain(env: WheelEnv, link: Link, usbGain: bv8)
    modifies link
    ensures link.log == old(link.log) + [Send(Wire(DeviceGainFrame(env, usbGain)))]
  {
    SendModify(link, 0x00, env.deviceGainAddress, ((usbGain >> 1) & 0x7F) as bv16);
  }

  // ---------------------------------------------------------------------
  // Device control and startup
  // ---------------------------------------------------------------------

  /** FfbwheelDeviceControl: controls 1 to 6 are sent and answered with 1,
      any other is answered with 0 and sends nothing. */
  method DeviceControl(link: Link, usbControl: Byte) returns (supported: Byte)
    modifies link
    ensures supported == (if DeviceControlFrame(usbControl).Some? then 1 else 0)
    ensures link.log == old(link.log)
      + (if DeviceControlFrame(usbControl).Some? then [Send(Wire(DeviceControlFrame(usbControl).value))] else [])
  {
    if usbControl < 1 || usbControl > 6 {
      return 0;
    }
    var command := new bv8[2];
    command[0] := DeviceControlCmd;
    command[1] := DeviceControlTable[usbControl - 1];
    assert command[..] == DeviceControlFrame(usbControl).value;
    link.Transmit(Wire(command[..]));
    return 1;
  }

  /** FfbwheelEnableInterrupts. */
  method EnableInterrupts(link: Link)
    modifies link
    ensures link.log == old(link.log) + EnableInterruptsTrace()
  {
    link.Wait(100);
    link.Transmit(Wire(StartupReset));
    link.Transmit(Wire(StartupBlock));
    var _ := DeviceControl(link, 4);
    link.Wait(100);
  }

  // ---------------------------------------------------------------------
  // Effect memory
  // ---------------------------------------------------------------------

  /** FfbwheelEffectMemFull: the counting loop over the new effect's code and
      the codes of ids 2 to MAX_EFFECTS, answering 1 at the first rejected
      code; `typeOf` stands for GetMidiEffectType. */
  method EffectMemFull(env: WheelEnv, newType: Byte, typeOf: Byte -> Byte) returns (full: Byte)
    requires env.maxEffects <= 253
    ensures full == MemFull(SeenTypes(newType, typeOf, env.maxEffects))
  {
    ghost var seen := SeenTypes(newType, typeOf, env.maxEffects);
    ghost var prefix: seq<Byte> := [];
    var countWaveform, countConstant, countSpring, countDamper, countInertia, countFriction := 0, 0, 0, 0, 0, 0;
    var midiType := newType;
    var id: int := 2;
    while id <= env.maxEffects + 1
      invariant 2 <= id <= env.maxEffects + 2
      invariant prefix == seen[..id - 2]
      invariant id - 2 < env.maxEffects ==> midiType == seen[id - 2]
      invariant forall i :: 0 <= i < |prefix| ==> !Unsupported(prefix[i])
      invariant countWaveform == 0 && countFriction == 0
      invariant countConstant == Count(prefix, 0x06)
      invariant countSpring == Count(prefix, 0x0D)
      invariant countDamper == Count(prefix, 0x0E)
      invariant countInertia == Count(prefix, 0x0F)
    {
      CountAppend(prefix, midiType);
      if midiType == 0x06 {
        countConstant := countConstant + 1;
      } else if midiType == 0x05 || midiType == 0x03 || midiType == 0x02 || midiType == 0x04 {
        countWaveform := countWaveform + 1;
        assert Unsupported(seen[id - 2]);
        return 1;
      } else if midiType == 0x0D {
        countSpring := countSpring + 1;
      } else if midiType == 0x0E {
        countDamper := countDamper + 1;
      } else if midiType == 0x0F {
        countInertia := countInertia + 1;
      } else if midiType == 0x10 {
        countFriction := countFriction + 1;
        assert Unsupported(seen[id - 2]);
        return 1;
      }
      prefix := prefix + [midiType];
      midiType := typeOf(id);
      id := id + 1;
    }
    assert prefix == seen;
    if countConstant > 2 || countWaveform > 10 || countSpring > 2 || countDamper > 2
       || countInertia > 2 || countFriction > 2 {
      return 1;
    } else {
      return 0;
    }
  }

  /** One more code seen adds one to its own count and nothing to others. */
  lemma CountAppend(s: seq<Byte>, t: Byte)
    ensures forall code :: Count(s + [t], code) == Count(s, code) + (if t == code then 1 else 0)
  {
    assert multiset(s + [t]) == multiset(s) + multiset{t};
  }

  // ---------------------------------------------------------------------
  // New effects
  // ---------------------------------------------------------------------

  /** A uint16_t member write through a struct view: low byte, then high. */
  method Store16(data: array<Byte>, at: nat, v: U16)
    requires at + 1 < data.Length
    modifies data
    ensures data[..] == Put16(old(data[..]), at, v)
  {
    data[at] := v % 0x100;
    data[at + 1] := v / 0x100;
  }

  /** FfbwheelCreateNewEffect: the common header, then the defaults of the
      effect type's struct, written in place into the effect's data. */
  method CreateNewEffect(ext: Externals, d: CreateNewEffectReport, data: array<Byte>)
    requires data.Length >= PeriodicRampSize
    modifies data
    ensures data[..] == FfbWheel.CreateNewEffect(ext, d, old(data[..]))
  {
    data[CmCommand] := 0x20;
    data[CmUnknown1] := 0x7F;
    data[CmDirection] := 0x00;
    var kind := KindOf(ext, d.effectType);
    if kind.Some? && (IsWaveform(kind.value) || kind.value == Ramp) {
      data[CmDirection] := 0x40;
      data[PrPreciseDir] := 0x7F;
      data[PrAttackLevel] := 0x7F;
      Store16(data, PrAttackTime, 0x0000);
      data[PrMagnitude] := 0x7F;
      data[PrFadeLevel] := 0x7F;
      data[PrOffset] := 0x3E;
      if d.effectType == ext.effectCode(Ramp) {
        Store16(data, PrPhase, 0x0000);
        Store16(data, PrFadeTime, 0x1E6E);
        Store16(data, PrFrequency, 0x1E6E);
      } else {
        Store16(data, PrPhase, 0x4000);
        Store16(data, PrFadeTime, 0x1265);
        Store16(data, PrFrequency, 0x0374);
      }
    } else if kind == Some(Constant) {
      data[CfUnknown2] := 0x7F;
      data[CfAttackLevel] := 0x7F;
      Store16(data, CfAttackTime, 0x0000);
      data[CfMagnitude] := 0x7F;
      Store16(data, CfFadeTime, ext.midiDurationInfinite);
      data[CfFadeLevel] := 0x7F;
      data[CfForceDirection] := 0x00;
    } else if kind.Some? && (IsCondition(kind.value) || kind.value == Friction) {
      if IsCondition(kind.value) {
        data[SidUnknown3] := 0x00;
        data[SidNegativeCoeff] := 0x7D;
        data[SidUnknown4] := 0x3E;
        data[SidUnknown4 + 1] := 0x3F;
        data[SidUnknown4 + 2] := 0x3E;
        data[SidUnknown4 + 3] := 0x3F;
        data[SidUnknown4 + 4] := 0x7D;
        data[SidPositiveCoeff] := 0x00;
      }
      data[FrCoeff] := 0x7E;
    }
  }

  /** FfbwheelSetEffect: the length of the effect's native data. */
  method SetEffect(ext: Externals, d: SetEffectReport) returns (length: Byte)
    ensures length == FfbWheel.SetEffect(ext, d)
    ensures var k := KindOf(ext, d.effectType);
      k.Some? && PayloadLayout(k.value).Some? && !IsCondition(k.value) ==> length == Size(PayloadLayout(k.value).value)
  {
    SetEffectLength(ext, d);
    length := 0;
    var kind := KindOf(ext, d.effectType);
    if kind.Some? && (IsWaveform(kind.value) || kind.value == Ramp) {
      length := PeriodicRampSize;
    } else if kind == Some(Constant) {
      length := ConstantForceSize;
    } else if kind.Some? && (IsCondition(kind.value) || kind.value == Friction) {
      if IsCondition(kind.value) {
        length := SpringInertiaDamperSize;
      }
      length := FrictionSize;
    }
  }
}
