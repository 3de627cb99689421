/** The Pro backend as the firmware runs it: an effect object whose fields the
    report handlers update in place, and the transport the frames go out on.
    Every method is proved to leave the object and the log exactly as the
    value-level definitions of FfbPro say, so the properties proved there
    hold of these methods. */
module FfbProDevice {
  import opened Ffb
  import opened FfbPro

  // ---------------------------------------------------------------------
  // Frames and fixed sequences
  // ---------------------------------------------------------------------

  /** FfbproInitPulses: `count` X1 pulses, each followed by a 100 us delay. */
  method InitPulses(link: Link, count: Byte)
    modifies link
    ensures link.log == old(link.log) + PulseBurst(count)
  {
    var left := count;
    while left > 0
      invariant 0 <= left <= count
      invariant link.log == old(link.log) + PulseBurst(count - left)
    {
      link.PulseX1();
      link.DelayTens(10);
      left := left - 1;
    }
  }

  /** FfbproSetAutoCenter. */
  method SetAutoCenter(link: Link, enable: Byte)
    modifies link
    ensures link.log == old(link.log) + AutoCenterTrace(enable)
  {
    link.Transmit(AutoCenterEnable);
    if enable == 0 {
      link.Wait(70);
      link.Transmit(AutoCenterDisable);
    }
  }

  /** FfbproEnableInterrupts: the startup handshake, an X1 pulse train and
      then the MIDI messages. */
  method EnableInterrupts(link: Link)
    modifies link
    ensures link.log == old(link.log) + StartupTrace()
  {
    SendPulseTrain(link);
    SendStartupMessages(link);
  }

  /** The first half of FfbproEnableInterrupts: the pulse groups and the waits
      between them. */
  method SendPulseTrain(link: Link)
    modifies link
    ensures link.log == old(link.log) + StartupPulses()
  {
    link.Wait(100);
    link.PulseX1();
    link.Wait(7);
    InitPulses(link, 4);
    link.Wait(35);
    InitPulses(link, 3);
    link.Wait(14);
    InitPulses(link, 2);
    link.Wait(78);
    InitPulses(link, 2);
    link.Wait(4);
    InitPulses(link, 3);
    link.Wait(59);
    InitPulses(link, 2);
    AppendFourteen(old(link.log), [WaitMs(100)], [Pulse], [WaitMs(7)], PulseBurst(4), [WaitMs(35)], PulseBurst(3),
      [WaitMs(14)], PulseBurst(2), [WaitMs(78)], PulseBurst(2), [WaitMs(4)], PulseBurst(3), [WaitMs(59)], PulseBurst(2));
  }

  /** Regrouping of a log extended piece by piece. */
  lemma AppendFourteen<T>(o: seq<T>, a1: seq<T>, a2: seq<T>, a3: seq<T>, a4: seq<T>, a5: seq<T>, a6: seq<T>,
                          a7: seq<T>, a8: seq<T>, a9: seq<T>, a10: seq<T>, a11: seq<T>, a12: seq<T>, a13: seq<T>,
                          a14: seq<T>)
    ensures o + a1 + a2 + a3 + a4 + a5 + a6 + a7 + a8 + a9 + a10 + a11 + a12 + a13 + a14
         == o + (a1 + a2 + a3 + a4 + a5 + a6 + a7 + a8 + a9 + a10 + a11 + a12 + a13 + a14)
  {
  }

  /** The second half of FfbproEnableInterrupts: program change, reset, the
      effect memory blocks, auto-centre off, and the final wait. */
  method SendStartupMessages(link: Link)
    modifies link
    ensures link.log == old(link.log) + StartupMessages()
  {
    link.Transmit(StartupProgramChange);
    link.Wait(20);
    link.Transmit(StartupReset);
    link.Wait(57);
    link.Transmit(StartupMemory1);
    link.Transmit(StartupMemory2);
    SetAutoCenter(link, 0);
    link.Wait(70);
  }

  /** FfbproSendEffectOper. */
  method SendEffectOper(link: Link, effectId: Byte, operation: Byte)
    modifies link
    ensures link.log == old(link.log) + [Send(EffectOperFrame(effectId, operation))]
  {
    var frame := [ControlChange, operation, effectId];
    link.Transmit(frame);
  }

  method StartEffect(link: Link, effectId: Byte)
    modifies link
    ensures link.log == old(link.log) + [Send([0xB5, 0x20, effectId])]
  {
    SendEffectOper(link, effectId, OpStart);
  }

  method StopEffect(link: Link, effectId: Byte)
    modifies link
    ensures link.log == old(link.log) + [Send([0xB5, 0x30, effectId])]
  {
    SendEffectOper(link, effectId, OpStop);
  }

  method FreeEffect(link: Link, effectId: Byte)
    modifies link
    ensures link.log == old(link.log) + [Send([0xB5, 0x10, effectId])]
  {
    SendEffectOper(link, effectId, OpFree);
  }

  /** FfbproSendModify: the address select, then the value. */
  method SendModify(link: Link, effectId: Byte, address: Byte, value: U16)
    modifies link
    ensures link.log == old(link.log)
      + [Send(ModifyFrames(effectId, address, value)[0]), Send(ModifyFrames(effectId, address, value)[1])]
  {
    link.Transmit([ControlChange, address, effectId]);
    link.Transmit([KeyPressure, value % 0x80, (value / 0x100) % 0x80]);
  }

  // ---------------------------------------------------------------------
  // The effect object
  // ---------------------------------------------------------------------

  /** One effect slot (TEffectState): the cached USB values the handlers
      update field by field, and the native payload they write through the
      set-param primitive: a write of one field of `data` followed by
      `link.Request`. */
  class ProEffect {
    var usbDuration: U16
    var usbFadeTime: U16
    var usbAttackLevel: Byte
    var usbFadeLevel: Byte
    var usbMagnitude: int
    var data: ProData

    /** The object's state as a value. */
    function Snapshot(): ProSlot
      reads this
    {
      ProSlot(usbDuration, usbFadeTime, usbAttackLevel, usbFadeLevel, usbMagnitude, data)
    }

    constructor (s: ProSlot)
      ensures Snapshot() == s
    {
      usbDuration, usbFadeTime, usbAttackLevel, usbFadeLevel, usbMagnitude :=
        s.usbDuration, s.usbFadeTime, s.usbAttackLevel, s.usbFadeLevel, s.usbMagnitude;
      data := s.data;
    }

    /** FfbproModifyDuration, with the native duration field as its target. */
    method ModifyDuration(env: ProEnv, link: Link, effectId: Byte, newDuration: U16)
      modifies this, link
      ensures Snapshot() == FfbPro.ModifyDuration(env, old(Snapshot()), effectId, newDuration).slot
      ensures link.log == old(link.log) + FfbPro.ModifyDuration(env, old(Snapshot()), effectId, newDuration).events
    {
      data := data.(duration := newDuration);
      link.Request(Duration, effectId, env.addr.duration, newDuration, Bits14);
    }

    /** FfbproSetEnvelope. */
    method SetEnvelope(env: ProEnv, link: Link, d: SetEnvelopeReport)
      modifies this, link
      ensures Snapshot() == FfbPro.SetEnvelope(env, old(Snapshot()), d).slot
      ensures link.log == old(link.log) + FfbPro.SetEnvelope(env, old(Snapshot()), d).events
    {
      ghost var r := FfbPro.SetEnvelope(env, Snapshot(), d);
      ghost var log0 := link.log;
      var eid := d.effectBlockIndex;
      usbAttackLevel := d.attackLevel;
      usbFadeLevel := d.fadeLevel;
      usbFadeTime := d.fadeTime;
      var midiFadeTime: U16;
      if d.fadeTime == env.ext.usbDurationInfinite {
        midiFadeTime := env.ext.midiDurationInfinite;
      } else {
        midiFadeTime := env.ext.timeToMidi14(Wrap16(usbDuration - usbFadeTime));
      }
      data := data.(fadeTime := midiFadeTime);
      link.Request(FadeTime, eid, env.addr.fadeTime, midiFadeTime, Bits14);
      var midiAttackTime := env.ext.timeToMidi14(d.attackTime);
      data := data.(attackTime := midiAttackTime);
      link.Request(AttackTime, eid, env.addr.attackTime, midiAttackTime, Bits14);
      var midiFadeLevel := Level7(d.fadeLevel);
      data := data.(fadeLevel := midiFadeLevel);
      link.Request(FadeLevel, eid, env.addr.fade, midiFadeLevel, Bits7);
      var midiAttackLevel := Level7(d.attackLevel);
      data := data.(attackLevel := midiAttackLevel);
      link.Request(AttackLevel, eid, env.addr.attack, midiAttackLevel, Bits7);
      assert Snapshot() == r.slot;
      assert link.log == log0 + r.events;
    }

    /** FfbproSetCondition: the axis picked by the parameter block offset. */
    method SetCondition(env: ProEnv, link: Link, d: SetConditionReport)
      modifies this, link
      ensures Snapshot() == FfbPro.SetCondition(env, old(Snapshot()), d).slot
      ensures link.log == old(link.log) + FfbPro.SetCondition(env, old(Snapshot()), d).events
    {
      ghost var r := FfbPro.SetCondition(env, Snapshot(), d);
      ghost var log0 := link.log;
      var eid := d.effectBlockIndex;
      var coeff := env.ext.int8ToMidi14(d.positiveCoefficient);
      var offset := CpOffsetValue(env.ext, d.cpOffset);
      var waveForm := data.waveForm;
      if waveForm == 0x0D || waveForm == 0x0E || waveForm == 0x0F {
        if d.parameterBlockOffset == 0 {
          data := data.(coeffAxis0 := coeff);
          link.Request(CoeffAxis0, eid, env.addr.coeffAxis0, coeff, Bits14);
          var midiOffset := env.ext.int8ToMidi14(offset);
          data := data.(offsetAxis0 := midiOffset);
          link.Request(OffsetAxis0, eid, env.addr.offsetAxis0, midiOffset, Bits14);
        } else {
          data := data.(coeffAxis1 := coeff);
          link.Request(CoeffAxis1, eid, env.addr.coeffAxis1, coeff, Bits14);
          var midiOffset: U16;
          if offset == 0x80 {
            midiOffset := 0x007F;
          } else {
            midiOffset := env.ext.int8ToMidi14(-offset);
          }
          data := data.(offsetAxis1 := midiOffset);
          link.Request(OffsetAxis1, eid, env.addr.offsetAxis1, midiOffset, Bits14);
        }
      } else if waveForm == 0x10 {
        if d.parameterBlockOffset == 0 {
          data := data.(coeffAxis0 := coeff);
          link.Request(CoeffAxis0, eid, env.addr.coeffAxis0, coeff, Bits14);
        } else {
          data := data.(coeffAxis1 := coeff);
          link.Request(CoeffAxis1, eid, env.addr.coeffAxis1, coeff, Bits14);
        }
      }
      assert Snapshot() == r.slot;
      assert link.log == log0 + r.events;
    }

    /** FfbproSetPeriodic. */
    method SetPeriodic(env: ProEnv, link: Link, d: SetPeriodicReport)
      modifies this, link
      ensures Snapshot() == FfbPro.SetPeriodic(env, old(Snapshot()), d).slot
      ensures link.log == old(link.log) + FfbPro.SetPeriodic(env, old(Snapshot()), d).events
    {
      ghost var r := FfbPro.SetPeriodic(env, Snapshot(), d);
      ghost var log0 := link.log;
      var eid := d.effectBlockIndex;
      var midiParam1, midiParam2, midiFrequency: U16 := 0x007F, 0x0101, 0x0001;
      usbMagnitude := d.magnitude;
      if d.period <= 5 {
        midiFrequency := 0x0129;
      } else if d.period < 1000 {
        midiFrequency := env.ext.uint16ToMidi14(1000 / d.period);
      }
      data := data.(frequency := midiFrequency);
      link.Request(Frequency, eid, env.addr.frequency, midiFrequency, Bits14);
      if data.waveForm == 2 || data.waveForm == 3 {
        if d.phase >= 32 && d.phase <= 224 {
          data := data.(waveForm := 3);
        } else {
          data := data.(waveForm := 2);
        }
        var magnitude := d.magnitude / 2;
        midiParam1 := env.ext.int8ToMidi14(HalfTowardZero(d.offset) + magnitude);
        data := data.(param1 := midiParam1);
        link.Request(Param1, eid, env.addr.param1, midiParam1, Bits14);
        midiParam2 := env.ext.int8ToMidi14(HalfTowardZero(d.offset) - magnitude);
        data := data.(param2 := midiParam2);
        link.Request(Param2, eid, env.addr.param2, midiParam2, Bits14);
      } else {
        data := data.(param1 := midiParam1, param2 := midiParam2);
      }
      assert Snapshot() == r.slot;
      assert link.log == log0 + r.events;
    }

    /** FfbproSetConstantForce. */
    method SetConstantForce(env: ProEnv, link: Link, d: SetConstantForceReport)
      modifies this, link
      ensures Snapshot() == FfbPro.SetConstantForce(env, old(Snapshot()), d).slot
      ensures link.log == old(link.log) + FfbPro.SetConstantForce(env, old(Snapshot()), d).events
    {
      ghost var r := FfbPro.SetConstantForce(env, Snapshot(), d);
      ghost var log0 := link.log;
      var eid := d.effectBlockIndex;
      usbMagnitude := d.magnitude;
      var midiMagnitude: Byte;
      var midiParam1: U16;
      if d.magnitude >= 0 {
        midiMagnitude := (d.magnitude / 2) % 0x80;
        midiParam1 := 0x007F;
      } else {
        midiMagnitude := ((-(d.magnitude + 1)) / 2) % 0x80;
        midiParam1 := 0x0101;
      }
      data := data.(magnitude := midiMagnitude);
      link.Request(Magnitude, eid, env.addr.magnitude, midiMagnitude, Bits7);
      data := data.(param1 := midiParam1);
      link.Request(Param1, eid, env.addr.param1, midiParam1, Bits14);
      data := data.(param2 := 0x0000);
      assert Snapshot() == r.slot;
      assert link.log == log0 + r.events;
    }

    /** FfbproSetRampForce. */
    method SetRampForce(env: ProEnv, link: Link, d: SetRampForceReport)
      modifies this, link
      ensures Snapshot() == FfbPro.SetRampForce(env, old(Snapshot()), d).slot
      ensures link.log == old(link.log) + FfbPro.SetRampForce(env, old(Snapshot()), d).events
    {
      ghost var r := FfbPro.SetRampForce(env, Snapshot(), d);
      ghost var log0 := link.log;
      var eid := d.effectBlockIndex;
      var midiParam1: U16;
      if d.start < 0 {
        midiParam1 := 0x0100 + (-(d.start + 1));
      } else {
        midiParam1 := d.start;
      }
      data := data.(param1 := midiParam1);
      link.Request(Param1, eid, env.addr.param1, midiParam1, Bits14);
      var midiParam2 := env.ext.int8ToMidi14(d.end);
      data := data.(param2 := midiParam2);
      link.Request(Param2, eid, env.addr.param2, midiParam2, Bits14);
      assert Snapshot() == r.slot;
      assert link.log == log0 + r.events;
    }

    /** FfbproSetEffect: the writes, and the native payload length it returns. */
    method SetEffect(env: ProEnv, link: Link, d: SetEffectReport) returns (length: Byte)
      modifies this, link
      ensures Snapshot() == FfbPro.SetEffect(env, old(Snapshot()), d).slot
      ensures link.log == old(link.log) + FfbPro.SetEffect(env, old(Snapshot()), d).events
      ensures length == SetEffectLength(env, d.effectType)
    {
      ghost var r := FfbPro.SetEffect(env, Snapshot(), d);
      ghost var log0 := link.log;
      var eid := d.effectBlockIndex;
      length := env.size.basic;
      var buttonBits := TriggerBits(env.ext, d.triggerButton);
      var midiButtons := Pack9(buttonBits);
      data := data.(triggerButton := midiButtons);
      link.Request(TriggerButton, eid, env.addr.triggerButton, midiButtons, Bits14);
      var kind := KindOf(env.ext, d.effectType);
      if IsBasic(kind) {
        var midiGain := Level7(d.gain);
        data := data.(gain := midiGain);
        link.Request(Gain, eid, env.addr.gain, midiGain, Bits7);
        var usbDirection: U16 := d.directionX;
        usbDirection := usbDirection * 2;
        var midiDirection := Pack9(usbDirection);
        data := data.(direction := midiDirection);
        link.Request(Direction, eid, env.addr.direction, midiDirection, Bits14);
        var midiFadeTime: U16;
        if d.duration == env.ext.usbDurationInfinite {
          midiFadeTime := env.ext.midiDurationInfinite;
        } else if usbFadeTime == env.ext.usbDurationInfinite {
          midiFadeTime := env.ext.midiDurationInfinite;
        } else if usbDuration > usbFadeTime {
          midiFadeTime := env.ext.timeToMidi14(usbDuration - usbFadeTime);
        } else {
          midiFadeTime := data.duration;
        }
        data := data.(fadeTime := midiFadeTime);
        link.Request(FadeTime, eid, env.addr.fadeTime, midiFadeTime, Bits14);
      } else if kind.Some? && IsCondition(kind.value) {
        length := env.size.springInertiaDamper;
      } else if kind == Some(Friction) {
        length := env.size.friction;
      }
      assert Snapshot() == r.slot;
      assert link.log == log0 + r.events;
    }

    /** FfbproCreateNewEffect: fills in the defaults, sends nothing. */
    method CreateNewEffect(d: CreateNewEffectReport)
      modifies this
      ensures Snapshot() == FfbPro.CreateNewEffect(old(Snapshot()), d)
    {
      data := data.(magnitude := 0x7F, frequency := 0x0001, attackLevel := 0x00, attackTime := 0x0000,
                    fadeLevel := 0x00, fadeTime := 0x0000, gain := 0x7F);
      data := data.(command := 0x23, unknown1 := 0x7F, triggerButton := 0x0000, sampleRate := 0x0064,
                    truncate := 0x4E10);
      if d.effectType == 0x01 {
        data := data.(param2 := 0x0000);
      } else {
        data := data.(param2 := 0x0101);
      }
    }
  }
}
