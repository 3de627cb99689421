/** The Microsoft Sidewinder Force Feedback Pro backend (ffb-pro.c), as values.

    The Pro speaks MIDI 1.0 on channel 6: Control Change (0xB5), Polyphonic
    Key Pressure (0xA5), Program Change (0xC5) and System Exclusive blocks.
    Each report translator is a function from the slot it is handed to the slot
    it leaves behind and the events it produces; FfbProDevice performs the
    same steps in place on an effect object and is proved to agree with them. */
module FfbPro {
  import opened Ffb

  /** The FFP_MIDI_MODIFY_* parameter addresses of ffb-pro.h. */
  datatype ProAddresses = ProAddresses(
    duration: Byte, triggerButton: Byte, direction: Byte, gain: Byte,
    attackTime: Byte, attack: Byte, fadeTime: Byte, fade: Byte, magnitude: Byte,
    frequency: Byte, param1: Byte, param2: Byte,
    coeffAxis0: Byte, coeffAxis1: Byte, offsetAxis0: Byte, offsetAxis1: Byte)

  /** The sizes of FFP_MIDI_Effect_Basic, _Spring_Inertia_Damper and _Friction. */
  datatype ProSizes = ProSizes(basic: Byte, springInertiaDamper: Byte, friction: Byte)

  datatype ProEnv = ProEnv(ext: Externals, addr: ProAddresses, size: ProSizes)

  // ---------------------------------------------------------------------
  // Effect types
  // ---------------------------------------------------------------------

  /** Native waveform codes by USB type index: Constant, Ramp, Square, Sine,
      Triangle, SawtoothDown, SawtoothUp, Spring, Damper, Inertia, Friction,
      Custom. */
  const UsbToMidiTable: seq<Byte> :=
    [0x12, 0x06, 0x05, 0x02, 0x08, 0x0A, 0x0B, 0x0D, 0x0E, 0x0F, 0x10, 0x01]

  /** FfbproUsbToMidiEffectType: every index of the table has a nonzero code,
      and 0 ("no match") is returned exactly past its end. */
  function UsbToMidiEffectType(usbType: Byte): (midi: Byte)
    ensures midi == 0 <==> usbType >= 12
  {
    if usbType >= |UsbToMidiTable| then 0 else UsbToMidiTable[usbType]
  }

  /** The Pro tells every USB effect type apart. */
  lemma UsbToMidiEffectTypeIsInjective(a: Byte, b: Byte)
    requires a < 12 && b < 12
    requires UsbToMidiEffectType(a) == UsbToMidiEffectType(b)
    ensures a == b
  {
  }

  // ---------------------------------------------------------------------
  // MIDI frames
  // ---------------------------------------------------------------------

  const ControlChange: Byte := 0xB5   // Control Change, channel 6
  const KeyPressure: Byte := 0xA5     // Polyphonic Key Pressure, channel 6
  const ProgramChange: Byte := 0xC5   // Program Change, channel 6

  const OpStart: Byte := 0x20
  const OpStop: Byte := 0x30
  const OpFree: Byte := 0x10

  /** A MIDI 1.0 message: one status byte (bit 7 set), then data bytes (bit 7 clear). */
  predicate IsMidiMessage(f: seq<Byte>)
  {
    |f| >= 1 && f[0] >= 0x80 && forall i :: 1 <= i < |f| ==> f[i] < 0x80
  }

  /** The frame of FfbproSendEffectOper. */
  function EffectOperFrame(effectId: Byte, operation: Byte): seq<Byte>
  {
    [ControlChange, operation, effectId]
  }

  /** The two frames of FfbproSendModify: select `address` of the effect, then
      send `value & 0x7F` and `(value & 0x7F00) >> 8`. */
  function ModifyFrames(effectId: Byte, address: Byte, value: U16): seq<seq<Byte>>
  {
    [[ControlChange, address, effectId], [KeyPressure, value % 0x80, (value / 0x100) % 0x80]]
  }

  /** `v & 0x7F7F`: the bits of a native word that reach the wire. */
  function Mask7F7F(v: U16): U16
  {
    v % 0x80 + (v / 0x100) % 0x80 * 0x100
  }

  /** The 14-bit MIDI quantity a packed native word carries: bits 0-6 in its
      low byte and bits 7-13 in its high byte. */
  function Unpack14(v: U16): nat
  {
    v % 0x80 + (v / 0x100) % 0x80 * 0x80
  }

  /** `(x & 0x7F) + ((x & 0x0180) << 1)`: bits 0-8 of x in packed form. */
  function Pack9(x: U16): U16
  {
    x % 0x80 + (x / 0x80) % 4 * 0x100
  }

  /** A start, stop or free frame is a well-formed MIDI Control Change message
      exactly when the effect id fits in a data byte. */
  lemma EffectOperFrameIsMidi(effectId: Byte, operation: Byte)
    requires operation == OpStart || operation == OpStop || operation == OpFree
    ensures IsMidiMessage(EffectOperFrame(effectId, operation)) <==> effectId < 0x80
  {
    var f := EffectOperFrame(effectId, operation);
    if effectId >= 0x80 {
      assert f[2] >= 0x80;
    }
  }

  /** The value frame of a modify is always valid MIDI and carries the 14-bit
      quantity `Unpack14(value)`; two values produce the same frames exactly
      when they agree on `value & 0x7F7F`, so bits 7 and 15 never reach the wire. */
  lemma ModifyFramesCarryMaskedValue(effectId: Byte, address: Byte, value: U16, other: U16)
    ensures var f := ModifyFrames(effectId, address, value);
      |f| == 2 && IsMidiMessage(f[1]) && f[1][1] as int + 0x80 * (f[1][2] as int) == Unpack14(value)
    ensures ModifyFrames(effectId, address, value) == ModifyFrames(effectId, address, other)
            <==> Mask7F7F(value) == Mask7F7F(other)
  {
    var f, g := ModifyFrames(effectId, address, value), ModifyFrames(effectId, address, other);
    if Mask7F7F(value) == Mask7F7F(other) {
      assert value % 0x80 == other % 0x80;
      assert f[1] == g[1];
    }
    if f == g {
      assert f[1][1] == g[1][1] && f[1][2] == g[1][2];
    }
  }

  /** A 9-bit quantity written as `Pack9(x)` reaches the wire as a proper
      MIDI 14-bit split: `x & 0x7F`, then `(x >> 7) & 3`. */
  lemma Pack9IsMidiSplit(effectId: Byte, address: Byte, x: U16)
    requires x < 0x200
    ensures ModifyFrames(effectId, address, Pack9(x))[1] == [KeyPressure, x % 0x80, x / 0x80]
    ensures Unpack14(Pack9(x)) == x
  {
  }

  // ---------------------------------------------------------------------
  // Value folds
  // ---------------------------------------------------------------------

  /** The sign fold of FfbproSetConstantForce: (native magnitude, param1). */
  function ConstantForceFold(m: I16): (Byte, U16)
  {
    if m >= 0 then ((m / 2) % 0x80, 0x007F)
    else (((-(m + 1)) / 2) % 0x80, 0x0101)
  }

  /** The fold gives m and its one's complement -m-1 the same 7-bit magnitude,
      and param1 tells them apart: 0x0101 exactly for negative forces. */
  lemma ConstantForceFoldIsSignMagnitude(m: I16)
    ensures ConstantForceFold(m).0 == ConstantForceFold(-1 - m).0
    ensures ConstantForceFold(m).1 == 0x0101 <==> m < 0
    ensures ConstantForceFold(m).1 == 0x007F <==> m >= 0
    ensures -0x100 <= m < 0x100 ==> ConstantForceFold(m).0 == (if m >= 0 then m as int else -1 - m as int) / 2
  {
  }

  lemma ConstantForceFoldExamples()
    ensures ConstantForceFold(-1) == (0, 0x0101)
    ensures ConstantForceFold(255) == (0x7F, 0x007F)
    ensures ConstantForceFold(-256) == (0x7F, 0x0101)
  {
  }

  /** The ramp start fold: `0x0100 | (-(start + 1))` for negative starts. */
  function RampStartFold(start: I8): U16
  {
    if start < 0 then 0x100 + (-(start + 1)) else start
  }

  /** The signed start a folded word stands for. */
  function RampStartUnfold(p: U16): int
  {
    if p >= 0x100 then -(p - 0x100) - 1 else p
  }

  /** The fold loses nothing: it is undone by RampStartUnfold, bit 8 is set
      exactly for negative starts, and the word stays below 0x180. */
  lemma RampStartFoldRoundTrip(start: I8)
    ensures RampStartUnfold(RampStartFold(start)) == start
    ensures (RampStartFold(start) / 0x100) % 2 == 1 <==> start < 0
    ensures RampStartFold(start) < 0x180
  {
  }

  lemma {:induction false} RampStartFoldIsInjective(a: I8, b: I8)
    requires RampStartFold(a) == RampStartFold(b)
    ensures a == b
  {
    RampStartFoldRoundTrip(a);
    RampStartFoldRoundTrip(b);
  }

  /** The frequency word of FfbproSetPeriodic: 169 Hz for periods up to 5 ms,
      the truncated quotient 1000 / period below 1000 ms, 1 Hz otherwise. */
  function PeriodicFrequency(ext: Externals, period: U16): U16
  {
    if period <= 5 then 0x0129
    else if period < 1000 then ext.uint16ToMidi14(1000 / period)
    else 0x0001
  }

  lemma PeriodicFrequencyBands(ext: Externals, period: U16)
    ensures period <= 5 ==> Unpack14(PeriodicFrequency(ext, period)) == 169
    ensures 6 <= period < 1000 ==>
      1 <= 1000 / period <= 166 && PeriodicFrequency(ext, period) == ext.uint16ToMidi14(1000 / period)
    ensures period >= 1000 ==> Unpack14(PeriodicFrequency(ext, period)) == 1
  {
  }

  /** 1000 / period truncates rather than rounds. */
  lemma PeriodicFrequencyExamples(ext: Externals)
    ensures PeriodicFrequency(ext, 3) == 0x0129
    ensures PeriodicFrequency(ext, 500) == ext.uint16ToMidi14(2)
    ensures PeriodicFrequency(ext, 6) == ext.uint16ToMidi14(166)
    ensures PeriodicFrequency(ext, 999) == ext.uint16ToMidi14(1)
  {
  }

  /** Phases in 32..224 (45 to 315 degrees) turn a sine into a cosine. */
  predicate CosinePhase(phase: Byte)
  {
    32 <= phase <= 224
  }

  /** `1 << n`. */
  function Pow2(n: nat): nat
  {
    if n == 0 then 1 else 2 * Pow2(n - 1)
  }

  /** `1 << button` kept to 16 bits. */
  function TriggerBits(ext: Externals, button: Byte): U16
  {
    if button == ext.triggerButtonNull then 0 else Wrap16(Pow2(button))
  }

  lemma {:induction false} Pow2Grows(a: nat, b: nat)
    requires a <= b
    ensures Pow2(a) <= Pow2(b)
  {
    if a < b {
      Pow2Grows(a, b - 1);
    }
  }

  lemma SmallWordWrapsToItself(x: int)
    requires 0 <= x < 0x1_0000
    ensures Wrap16(x) == x
  {
  }

  /** Trigger button b (0..8) becomes bit b of the 14-bit value on the wire. */
  lemma TriggerButtonIsOneBit(ext: Externals, button: Byte)
    requires button != ext.triggerButtonNull && button <= 8
    ensures Unpack14(Pack9(TriggerBits(ext, button))) == Pow2(button)
  {
    var bit := Pow2(button);
    Pow2Grows(button, 8);
    assert Pow2(8) == 0x100;
    SmallWordWrapsToItself(bit);
    assert TriggerBits(ext, button) == bit;
    Pack9IsMidiSplit(0, 0, bit);
    assert Unpack14(Pack9(bit)) == bit;
  }

  // ---------------------------------------------------------------------
  // The effect slot
  // ---------------------------------------------------------------------

  /** The native fields of the Pro's payload records (FFP_MIDI_Effect_Basic and
      the records that overlay it), by name. */
  datatype ProData = ProData(
    command: Byte, waveForm: Byte, unknown1: Byte, duration: U16, triggerButton: U16,
    direction: U16, gain: Byte, sampleRate: U16, truncate: U16, attackLevel: Byte,
    attackTime: U16, magnitude: Byte, fadeTime: U16, fadeLevel: Byte, frequency: U16,
    param1: U16, param2: U16,
    coeffAxis0: U16, coeffAxis1: U16, offsetAxis0: U16, offsetAxis1: U16)
  {
    function Get(f: Field): int
    {
      match f
      case Command => command
      case WaveForm => waveForm
      case Unknown1 => unknown1
      case Duration => duration
      case TriggerButton => triggerButton
      case Direction => direction
      case Gain => gain
      case SampleRate => sampleRate
      case Truncate => truncate
      case AttackLevel => attackLevel
      case AttackTime => attackTime
      case Magnitude => magnitude
      case FadeTime => fadeTime
      case FadeLevel => fadeLevel
      case Frequency => frequency
      case Param1 => param1
      case Param2 => param2
      case CoeffAxis0 => coeffAxis0
      case CoeffAxis1 => coeffAxis1
      case OffsetAxis0 => offsetAxis0
      case OffsetAxis1 => offsetAxis1
    }
  }

  /** One slot as a value: the cached USB values of TEffectState and its
      native payload. */
  datatype ProSlot = ProSlot(
    usbDuration: U16, usbFadeTime: U16, usbAttackLevel: Byte, usbFadeLevel: Byte,
    usbMagnitude: int, data: ProData)

  /** What a translator leaves: the new slot and what it did, in order. */
  datatype Step = Step(slot: ProSlot, events: seq<Event>)

  /** Every event is a set-param request for effect `eid`: the translators
      never write to the transport themselves. */
  predicate RequestsFor(events: seq<Event>, eid: Byte)
  {
    forall i :: 0 <= i < |events| ==> events[i].SetParam? && events[i].effectId == eid
  }

  /** Every set-param request names a field that now holds the requested value. */
  predicate Agrees(s: ProSlot, events: seq<Event>)
  {
    forall i :: 0 <= i < |events| && events[i].SetParam? ==> s.data.Get(events[i].field) == events[i].value
  }

  /** The native fields outside `fields` are as they were. */
  predicate UnchangedExcept(s: ProSlot, t: ProSlot, fields: set<Field>)
  {
    forall f :: f !in fields ==> t.data.Get(f) == s.data.Get(f)
  }

  function FieldsOf(events: seq<Event>): seq<Field>
    requires forall i :: 0 <= i < |events| ==> events[i].SetParam?
  {
    seq(|events|, i requires 0 <= i < |events| => events[i].field)
  }

  // ---------------------------------------------------------------------
  // Report translators
  // ---------------------------------------------------------------------

  /** FfbproSetEnvelope. */
  function SetEnvelope(env: ProEnv, s: ProSlot, d: SetEnvelopeReport): (r: Step)
    ensures RequestsFor(r.events, d.effectBlockIndex) && Agrees(r.slot, r.events)
    ensures UnchangedExcept(s, r.slot, {FadeTime, AttackTime, FadeLevel, AttackLevel})
  {
    var ext, eid := env.ext, d.effectBlockIndex;
    var s1 := s.(usbAttackLevel := d.attackLevel, usbFadeLevel := d.fadeLevel, usbFadeTime := d.fadeTime);
    var fadeTime :=
      if d.fadeTime == ext.usbDurationInfinite then ext.midiDurationInfinite
      else ext.timeToMidi14(Wrap16(s1.usbDuration - s1.usbFadeTime));
    var attackTime := ext.timeToMidi14(d.attackTime);
    var fadeLevel := Level7(d.fadeLevel);
    var attackLevel := Level7(d.attackLevel);
    Step(s1.(data := s1.data.(fadeTime := fadeTime, attackTime := attackTime, fadeLevel := fadeLevel,
                              attackLevel := attackLevel)),
         [SetParam(FadeTime, eid, env.addr.fadeTime, fadeTime, Bits14),
          SetParam(AttackTime, eid, env.addr.attackTime, attackTime, Bits14),
          SetParam(FadeLevel, eid, env.addr.fade, fadeLevel, Bits7),
          SetParam(AttackLevel, eid, env.addr.attack, attackLevel, Bits7)])
  }

  /** SetEnvelope caches the three USB values and requests exactly four writes,
      in order: fade time, attack time, fade level, attack level; both levels
      fit in 7 bits. */
  lemma SetEnvelopeRequests(env: ProEnv, s: ProSlot, d: SetEnvelopeReport)
    ensures var r := SetEnvelope(env, s, d);
      && FieldsOf(r.events) == [FadeTime, AttackTime, FadeLevel, AttackLevel]
      && r.slot.usbAttackLevel == d.attackLevel && r.slot.usbFadeLevel == d.fadeLevel
      && r.slot.usbFadeTime == d.fadeTime && r.slot.usbDuration == s.usbDuration
      && r.slot.data.fadeLevel <= 0x7F && r.slot.data.attackLevel <= 0x7F
      && r.slot.data.attackTime == env.ext.timeToMidi14(d.attackTime)
      && r.slot.data.fadeTime ==
           if d.fadeTime == env.ext.usbDurationInfinite then env.ext.midiDurationInfinite
           else env.ext.timeToMidi14(Wrap16(s.usbDuration - d.fadeTime))
  {
  }

  /** The fade-time subtraction is not guarded: a fade longer than the
      cached duration wraps around to a fade time near 0xFFFF. */
  lemma SetEnvelopeFadeTimeWraps(env: ProEnv, s: ProSlot, d: SetEnvelopeReport)
    requires d.fadeTime != env.ext.usbDurationInfinite && d.fadeTime > s.usbDuration
    ensures SetEnvelope(env, s, d).slot.data.fadeTime
            == env.ext.timeToMidi14(0x1_0000 + s.usbDuration - d.fadeTime)
    ensures 0x1_0000 + s.usbDuration - d.fadeTime > s.usbDuration
  {
  }

  /** FfbproSetCondition. */
  function SetCondition(env: ProEnv, s: ProSlot, d: SetConditionReport): (r: Step)
    ensures RequestsFor(r.events, d.effectBlockIndex) && Agrees(r.slot, r.events)
    ensures UnchangedExcept(s, r.slot, {CoeffAxis0, CoeffAxis1, OffsetAxis0, OffsetAxis1})
  {
    var ext, eid := env.ext, d.effectBlockIndex;
    var coeff := ext.int8ToMidi14(d.positiveCoefficient);
    var offset := CpOffsetValue(ext, d.cpOffset);
    if s.data.waveForm == 0x0D || s.data.waveForm == 0x0E || s.data.waveForm == 0x0F then
      if d.parameterBlockOffset == 0 then
        var offset0 := ext.int8ToMidi14(offset);
        Step(s.(data := s.data.(coeffAxis0 := coeff, offsetAxis0 := offset0)),
             [SetParam(CoeffAxis0, eid, env.addr.coeffAxis0, coeff, Bits14),
              SetParam(OffsetAxis0, eid, env.addr.offsetAxis0, offset0, Bits14)])
      else
        var offset1 := if offset == 0x80 then 0x007F else ext.int8ToMidi14(-offset);
        Step(s.(data := s.data.(coeffAxis1 := coeff, offsetAxis1 := offset1)),
             [SetParam(CoeffAxis1, eid, env.addr.coeffAxis1, coeff, Bits14),
              SetParam(OffsetAxis1, eid, env.addr.offsetAxis1, offset1, Bits14)])
    else if s.data.waveForm == 0x10 then
      if d.parameterBlockOffset == 0 then
        Step(s.(data := s.data.(coeffAxis0 := coeff)), [SetParam(CoeffAxis0, eid, env.addr.coeffAxis0, coeff, Bits14)])
      else
        Step(s.(data := s.data.(coeffAxis1 := coeff)), [SetParam(CoeffAxis1, eid, env.addr.coeffAxis1, coeff, Bits14)])
    else
      Step(s, [])
  }

  /** SetCondition acts only on the native condition waveforms 0x0D-0x10.
      Axis 0 is chosen exactly when the whole parameterBlockOffset byte is 0;
      spring, damper and inertia write that axis's coefficient and offset
      (the offset negated on axis 1), friction only the coefficient. */
  lemma SetConditionWrites(env: ProEnv, s: ProSlot, d: SetConditionReport)
    ensures var r := SetCondition(env, s, d);
      var axis0 := d.parameterBlockOffset == 0;
      var coeff := env.ext.int8ToMidi14(d.positiveCoefficient);
      var offset := CpOffsetValue(env.ext, d.cpOffset);
      && (r.events == [] <==> !(0x0D <= s.data.waveForm <= 0x10))
      && (r.events == [] ==> r.slot == s)
      && (0x0D <= s.data.waveForm <= 0x0F ==>
            if axis0 then FieldsOf(r.events) == [CoeffAxis0, OffsetAxis0]
                          && r.slot.data.coeffAxis0 == coeff && r.slot.data.offsetAxis0 == env.ext.int8ToMidi14(offset)
            else FieldsOf(r.events) == [CoeffAxis1, OffsetAxis1]
                 && r.slot.data.coeffAxis1 == coeff
                 && r.slot.data.offsetAxis1 == if offset == 0x80 then 0x007F else env.ext.int8ToMidi14(-offset))
      && (s.data.waveForm == 0x10 ==>
            if axis0 then FieldsOf(r.events) == [CoeffAxis0] && r.slot.data.coeffAxis0 == coeff
            else FieldsOf(r.events) == [CoeffAxis1] && r.slot.data.coeffAxis1 == coeff)
  {
  }

  /** With cpOffset declared int8_t its promoted value never equals 0x80, so
      the special case is dead and axis 1 always gets the negated offset;
      only an unsigned field reaches it. */
  lemma SetConditionOffsetSpecialCase(env: ProEnv, s: ProSlot, d: SetConditionReport)
    requires 0x0D <= s.data.waveForm <= 0x0F && d.parameterBlockOffset != 0
    ensures env.ext.cpOffsetSigned ==>
      SetCondition(env, s, d).slot.data.offsetAxis1 == env.ext.int8ToMidi14(-CpOffsetValue(env.ext, d.cpOffset))
    ensures !env.ext.cpOffsetSigned && d.cpOffset == 0x80 ==>
      SetCondition(env, s, d).slot.data.offsetAxis1 == 0x007F
  {
  }

  /** FfbproSetPeriodic. */
  function SetPeriodic(env: ProEnv, s: ProSlot, d: SetPeriodicReport): (r: Step)
    ensures RequestsFor(r.events, d.effectBlockIndex) && Agrees(r.slot, r.events)
    ensures UnchangedExcept(s, r.slot, {Frequency, WaveForm, Param1, Param2})
  {
    var ext, eid := env.ext, d.effectBlockIndex;
    var frequency := PeriodicFrequency(ext, d.period);
    var s1 := s.(usbMagnitude := d.magnitude, data := s.data.(frequency := frequency));
    var request := [SetParam(Frequency, eid, env.addr.frequency, frequency, Bits14)];
    if s1.data.waveForm == 2 || s1.data.waveForm == 3 then
      var magnitude := d.magnitude / 2;
      var max := ext.int8ToMidi14(HalfTowardZero(d.offset) + magnitude);
      var min := ext.int8ToMidi14(HalfTowardZero(d.offset) - magnitude);
      Step(s1.(data := s1.data.(waveForm := if CosinePhase(d.phase) then 3 else 2, param1 := max, param2 := min)),
           request + [SetParam(Param1, eid, env.addr.param1, max, Bits14),
                      SetParam(Param2, eid, env.addr.param2, min, Bits14)])
    else
      Step(s1.(data := s1.data.(param1 := 0x007F, param2 := 0x0101)), request)
  }

  /** SetPeriodic always requests the frequency first. A sine or cosine
      becomes a cosine exactly for phases 32..224, by a plain field write,
      and then requests max and min from the truncated offset/2 and
      magnitude/2; any other waveform keeps its code and gets param1 0x007F
      and param2 0x0101 written directly, with no request. */
  lemma SetPeriodicWrites(env: ProEnv, s: ProSlot, d: SetPeriodicReport)
    ensures var r := SetPeriodic(env, s, d);
      var sine := s.data.waveForm == 2 || s.data.waveForm == 3;
      && r.slot.usbMagnitude == d.magnitude
      && r.events[0] == SetParam(Frequency, d.effectBlockIndex, env.addr.frequency,
                                 PeriodicFrequency(env.ext, d.period), Bits14)
      && (sine ==>
            && FieldsOf(r.events) == [Frequency, Param1, Param2]
            && (r.slot.data.waveForm == 3 <==> 32 <= d.phase <= 224)
            && (r.slot.data.waveForm == 2 <==> !(32 <= d.phase <= 224))
            && r.slot.data.param1 == env.ext.int8ToMidi14(HalfTowardZero(d.offset) + d.magnitude / 2)
            && r.slot.data.param2 == env.ext.int8ToMidi14(HalfTowardZero(d.offset) - d.magnitude / 2))
      && (!sine ==>
            && FieldsOf(r.events) == [Frequency]
            && r.slot.data.waveForm == s.data.waveForm
            && r.slot.data.param1 == 0x007F && r.slot.data.param2 == 0x0101)
  {
  }

  /** offset / 2 truncates toward zero, so offsets -1, 0 and 1 all give the
      same min and max. */
  lemma SetPeriodicOffsetTruncates(env: ProEnv, s: ProSlot, d: SetPeriodicReport)
    ensures SetPeriodic(env, s, d.(offset := -1)) == SetPeriodic(env, s, d.(offset := 0))
    ensures SetPeriodic(env, s, d.(offset := 1)) == SetPeriodic(env, s, d.(offset := 0))
  {
  }

  /** FfbproSetConstantForce. */
  function SetConstantForce(env: ProEnv, s: ProSlot, d: SetConstantForceReport): (r: Step)
    ensures RequestsFor(r.events, d.effectBlockIndex) && Agrees(r.slot, r.events)
    ensures UnchangedExcept(s, r.slot, {Magnitude, Param1, Param2})
  {
    var eid := d.effectBlockIndex;
    var fold := ConstantForceFold(d.magnitude);
    Step(s.(usbMagnitude := d.magnitude, data := s.data.(magnitude := fold.0, param1 := fold.1, param2 := 0x0000)),
         [SetParam(Magnitude, eid, env.addr.magnitude, fold.0, Bits7),
          SetParam(Param1, eid, env.addr.param1, fold.1, Bits14)])
  }

  /** SetConstantForce requests the folded magnitude and the sign word, and
      clears param2 without a request. */
  lemma SetConstantForceWrites(env: ProEnv, s: ProSlot, d: SetConstantForceReport)
    ensures var r := SetConstantForce(env, s, d);
      && FieldsOf(r.events) == [Magnitude, Param1]
      && r.slot.usbMagnitude == d.magnitude
      && (r.slot.data.magnitude, r.slot.data.param1) == ConstantForceFold(d.magnitude)
      && r.slot.data.param2 == 0
  {
  }

  /** FfbproSetRampForce. */
  function SetRampForce(env: ProEnv, s: ProSlot, d: SetRampForceReport): (r: Step)
    ensures RequestsFor(r.events, d.effectBlockIndex) && Agrees(r.slot, r.events)
    ensures UnchangedExcept(s, r.slot, {Param1, Param2})
  {
    var eid := d.effectBlockIndex;
    var start := RampStartFold(d.start);
    var end := env.ext.int8ToMidi14(d.end);
    Step(s.(data := s.data.(param1 := start, param2 := end)),
         [SetParam(Param1, eid, env.addr.param1, start, Bits14),
          SetParam(Param2, eid, env.addr.param2, end, Bits14)])
  }

  /** SetRampForce requests the folded start in param1, then the converted end
      in param2; the start can be read back from the slot. */
  lemma SetRampForceWrites(env: ProEnv, s: ProSlot, d: SetRampForceReport)
    ensures var r := SetRampForce(env, s, d);
      && FieldsOf(r.events) == [Param1, Param2]
      && RampStartUnfold(r.slot.data.param1) == d.start
      && r.slot.data.param2 == env.ext.int8ToMidi14(d.end)
  {
    RampStartFoldRoundTrip(d.start);
  }

  /** FfbproModifyDuration, on the duration word it is handed. */
  function ModifyDuration(env: ProEnv, s: ProSlot, effectId: Byte, duration: U16): (r: Step)
    ensures RequestsFor(r.events, effectId) && Agrees(r.slot, r.events)
    ensures UnchangedExcept(s, r.slot, {Duration})
  {
    Step(s.(data := s.data.(duration := duration)), [SetParam(Duration, effectId, env.addr.duration, duration, Bits14)])
  }

  /** ModifyDuration is one 14-bit request at the duration address; the
      cached USB duration is left alone. */
  lemma ModifyDurationWrites(env: ProEnv, s: ProSlot, effectId: Byte, duration: U16)
    ensures var r := ModifyDuration(env, s, effectId, duration);
      && r.events == [SetParam(Duration, effectId, env.addr.duration, duration, Bits14)]
      && r.slot.data.duration == duration && r.slot.usbDuration == s.usbDuration
  {
  }

  /** The USB types whose native record is FFP_MIDI_Effect_Basic. */
  predicate IsBasic(k: Option<UsbEffect>)
  {
    k.Some? && (IsWaveform(k.value) || k.value == Constant || k.value == Ramp)
  }

  /** The fade time SetEffect recomputes from the cached USB durations. */
  function EffectFadeTime(ext: Externals, s: ProSlot, duration: U16): U16
  {
    if duration == ext.usbDurationInfinite then ext.midiDurationInfinite
    else if s.usbFadeTime == ext.usbDurationInfinite then ext.midiDurationInfinite
    else if s.usbDuration > s.usbFadeTime then ext.timeToMidi14(s.usbDuration - s.usbFadeTime)
    else s.data.duration
  }

  /** FfbproSetEffect's writes. */
  function SetEffect(env: ProEnv, s: ProSlot, d: SetEffectReport): (r: Step)
    ensures RequestsFor(r.events, d.effectBlockIndex) && Agrees(r.slot, r.events)
    ensures UnchangedExcept(s, r.slot, {TriggerButton, Gain, Direction, FadeTime})
  {
    var ext, eid := env.ext, d.effectBlockIndex;
    var buttons := Pack9(TriggerBits(ext, d.triggerButton));
    var s1 := s.(data := s.data.(triggerButton := buttons));
    var trigger := [SetParam(TriggerButton, eid, env.addr.triggerButton, buttons, Bits14)];
    if IsBasic(KindOf(ext, d.effectType)) then
      var gain := Level7(d.gain);
      var direction := Pack9(d.directionX * 2);
      var fadeTime := EffectFadeTime(ext, s1, d.duration);
      Step(s1.(data := s1.data.(gain := gain, direction := direction, fadeTime := fadeTime)),
           trigger + [SetParam(Gain, eid, env.addr.gain, gain, Bits7),
                      SetParam(Direction, eid, env.addr.direction, direction, Bits14),
                      SetParam(FadeTime, eid, env.addr.fadeTime, fadeTime, Bits14)])
    else
      Step(s1, trigger)
  }

  /** FfbproSetEffect's return value: the payload size for the effect's class. */
  function SetEffectLength(env: ProEnv, effectType: Byte): Byte
  {
    match KindOf(env.ext, effectType)
    case Some(Spring) => env.size.springInertiaDamper
    case Some(Damper) => env.size.springInertiaDamper
    case Some(Inertia) => env.size.springInertiaDamper
    case Some(Friction) => env.size.friction
    case _ => env.size.basic
  }

  /** SetEffect always requests the trigger word (0 for no button); only the
      constant, ramp and periodic types also request gain, direction (twice
      directionX, carried exactly) and the recomputed fade time. */
  lemma SetEffectWrites(env: ProEnv, s: ProSlot, d: SetEffectReport)
    ensures var r := SetEffect(env, s, d);
      var basic := IsBasic(KindOf(env.ext, d.effectType));
      && r.events[0] == SetParam(TriggerButton, d.effectBlockIndex, env.addr.triggerButton,
                                 if d.triggerButton == env.ext.triggerButtonNull then 0
                                 else Pack9(Wrap16(Pow2(d.triggerButton))), Bits14)
      && (basic ==> FieldsOf(r.events) == [TriggerButton, Gain, Direction, FadeTime])
      && (!basic ==> FieldsOf(r.events) == [TriggerButton])
      && (basic ==>
            && r.slot.data.gain == Level7(d.gain) && r.slot.data.gain <= 0x7F
            && Unpack14(r.slot.data.direction) == 2 * d.directionX
            && r.slot.data.fadeTime == EffectFadeTime(env.ext, s, d.duration))
  {
    var ext, eid := env.ext, d.effectBlockIndex;
    var buttons := Pack9(TriggerBits(ext, d.triggerButton));
    var trigger := SetParam(TriggerButton, eid, env.addr.triggerButton, buttons, Bits14);
    var r := SetEffect(env, s, d);
    assert d.triggerButton == ext.triggerButtonNull ==> buttons == 0;
    if IsBasic(KindOf(ext, d.effectType)) {
      var s1 := s.(data := s.data.(triggerButton := buttons));
      var gain, direction, fadeTime := Level7(d.gain), Pack9(d.directionX * 2), EffectFadeTime(ext, s1, d.duration);
      assert r.events == [trigger,
                          SetParam(Gain, eid, env.addr.gain, gain, Bits7),
                          SetParam(Direction, eid, env.addr.direction, direction, Bits14),
                          SetParam(FadeTime, eid, env.addr.fadeTime, fadeTime, Bits14)];
      assert r.slot.data.gain == gain && r.slot.data.direction == direction && r.slot.data.fadeTime == fadeTime;
      assert EffectFadeTime(ext, s1, d.duration) == EffectFadeTime(ext, s, d.duration);
      Pack9IsMidiSplit(0, 0, d.directionX * 2);
    } else {
      assert r.events == [trigger];
    }
  }

  /** The recomputed fade time is infinite when the new duration or the cached
      fade time is; otherwise the subtraction is guarded and never wraps, and
      when the fade is not shorter than the duration the native duration is
      kept as the fade time. */
  lemma EffectFadeTimeCases(ext: Externals, s: ProSlot, duration: U16)
    ensures duration == ext.usbDurationInfinite || s.usbFadeTime == ext.usbDurationInfinite
            ==> EffectFadeTime(ext, s, duration) == ext.midiDurationInfinite
    ensures duration != ext.usbDurationInfinite && s.usbFadeTime != ext.usbDurationInfinite ==>
      if s.usbDuration > s.usbFadeTime
      then 0 < s.usbDuration - s.usbFadeTime
           && EffectFadeTime(ext, s, duration) == ext.timeToMidi14(s.usbDuration - s.usbFadeTime)
      else EffectFadeTime(ext, s, duration) == s.data.duration
  {
  }

  /** The length depends on the effect type alone: condition types get the
      Spring_Inertia_Damper size, friction the Friction size, and everything
      else, Custom and unknown codes included, the Basic size. */
  lemma SetEffectLengthByClass(env: ProEnv, effectType: Byte)
    ensures var k := KindOf(env.ext, effectType);
      SetEffectLength(env, effectType) ==
        if k.Some? && IsCondition(k.value) then env.size.springInertiaDamper
        else if k == Some(Friction) then env.size.friction
        else env.size.basic
  {
  }

  /** FfbproCreateNewEffect: the defaults it fills in. */
  function CreateNewEffect(s: ProSlot, d: CreateNewEffectReport): (r: ProSlot)
    ensures UnchangedExcept(s, r, {Magnitude, Frequency, AttackLevel, AttackTime, FadeLevel, FadeTime,
                                   Gain, Command, Unknown1, TriggerButton, SampleRate, Truncate, Param2})
  {
    s.(data := s.data.(
      magnitude := 0x7F, frequency := 0x0001, attackLevel := 0x00, attackTime := 0x0000,
      fadeLevel := 0x00, fadeTime := 0x0000, gain := 0x7F,
      command := 0x23, unknown1 := 0x7F, triggerButton := 0x0000, sampleRate := 0x0064,
      truncate := 0x4E10,
      param2 := if d.effectType == 0x01 then 0x0000 else 0x0101))
  }

  /** A new effect gets param2 = 0 exactly when its type code is 1 (constant),
      keeps its waveform, duration, direction, param1 and cached USB values,
      and gets every other default: full magnitude and gain, 1 Hz, an empty
      envelope, command 0x23, unknown1 0x7F, no trigger button, 100 Hz sample
      rate and truncate 0x4E10. */
  lemma CreateNewEffectDefaults(s: ProSlot, d: CreateNewEffectReport)
    ensures var r := CreateNewEffect(s, d);
      && (r.data.param2 == 0 <==> d.effectType == 1)
      && r.data.waveForm == s.data.waveForm && r.data.duration == s.data.duration
      && r.data.direction == s.data.direction
      && r.data.param1 == s.data.param1
      && r.usbDuration == s.usbDuration && r.usbFadeTime == s.usbFadeTime
      && r.usbMagnitude == s.usbMagnitude
      && r.data.magnitude == 0x7F && r.data.frequency == 0x0001 && Unpack14(r.data.frequency) == 1
      && r.data.attackLevel == 0 && r.data.attackTime == 0 && r.data.fadeLevel == 0 && r.data.fadeTime == 0
      && r.data.gain == 0x7F && r.data.command == 0x23 && r.data.unknown1 == 0x7F
      && r.data.triggerButton == 0 && r.data.sampleRate == 100 && r.data.truncate == 0x4E10
  {
  }

  // ---------------------------------------------------------------------
  // Startup, auto-center and SysEx framing
  // ---------------------------------------------------------------------

  const SysExHeader: seq<Byte> := [0xF0, 0x00, 0x01, 0x0A, 0x01]
  const SysExEnd: Byte := 0xF7

  /** FfbproGetSysExHeader: the header and the length it reports. */
  function GetSysExHeader(): (r: (seq<Byte>, Byte))
    ensures |r.0| == r.1 > 0 && r.0[0] == 0xF0
  {
    (SysExHeader, 5)
  }

  const StartupProgramChange: seq<Byte> := [0xC5, 0x01]
  const StartupReset: seq<Byte> := [0xF0, 0x00, 0x01, 0x0A, 0x01, 0x10, 0x05, 0x6B, 0xF7]
  const StartupMemory1: seq<Byte> := [
    0xB5, 0x40, 0x7F, 0xA5, 0x72, 0x57] + [
    0xB5, 0x44, 0x7F, 0xA5, 0x3C, 0x43] + [
    0xB5, 0x48, 0x7F, 0xA5, 0x7E, 0x00] + [
    0xB5, 0x4C, 0x7F, 0xA5, 0x04, 0x00] + [
    0xB5, 0x50, 0x7F, 0xA5, 0x02, 0x00] + [
    0xB5, 0x54, 0x7F, 0xA5, 0x02, 0x00] + [
    0xB5, 0x58, 0x7F, 0xA5, 0x00, 0x7E] + [
    0xB5, 0x5C, 0x7F, 0xA5, 0x3C, 0x00] + [
    0xB5, 0x60, 0x7F]
  const StartupMemory2: seq<Byte> := [
    0xA5, 0x14, 0x65] + [
    0xB5, 0x64, 0x7F, 0xA5, 0x7E, 0x6B] + [
    0xB5, 0x68, 0x7F, 0xA5, 0x36, 0x00] + [
    0xB5, 0x6C, 0x7F, 0xA5, 0x28, 0x00] + [
    0xB5, 0x70, 0x7F, 0xA5, 0x66, 0x4C] + [
    0xB5, 0x74, 0x7F, 0xA5, 0x7E, 0x01]

  const AutoCenterEnable: seq<Byte> := [0xC5, 0x01]
  const AutoCenterDisable: seq<Byte> := [0xB5, 0x7C, 0x7F, 0xA5, 0x7F, 0x00, 0xC5, 0x06]

  /** The bytes of FfbproSendModify's two frames, back to back. */
  function ModifyBytes(effectId: Byte, address: Byte, value: U16): seq<Byte>
  {
    ModifyFrames(effectId, address, value)[0] + ModifyFrames(effectId, address, value)[1]
  }

  /** FfbproInitPulses(n): n X1 pulses, each followed by a 100 us delay. */
  function PulseBurst(n: nat): seq<Event>
  {
    if n == 0 then [] else PulseBurst(n - 1) + [Pulse, Delay10us(10)]
  }

  /** FfbproSetAutoCenter: enable, and to disable, wait and send the disable block. */
  function AutoCenterTrace(enable: Byte): seq<Event>
  {
    [Send(AutoCenterEnable)] + (if enable == 0 then [WaitMs(70), Send(AutoCenterDisable)] else [])
  }

  /** FfbproEnableInterrupts: the X1 pulse train, then the MIDI messages. */
  function StartupTrace(): seq<Event>
  {
    StartupPulses() + StartupMessages()
  }

  function StartupPulses(): seq<Event>
  {
    [WaitMs(100)] + [Pulse] + [WaitMs(7)]
    + PulseBurst(4) + [WaitMs(35)]
    + PulseBurst(3) + [WaitMs(14)]
    + PulseBurst(2) + [WaitMs(78)]
    + PulseBurst(2) + [WaitMs(4)]
    + PulseBurst(3) + [WaitMs(59)]
    + PulseBurst(2)
  }

  function StartupMessages(): seq<Event>
  {
    [Send(StartupProgramChange)] + [WaitMs(20)] + [Send(StartupReset)] + [WaitMs(57)]
    + [Send(StartupMemory1)] + [Send(StartupMemory2)]
    + AutoCenterTrace(0) + [WaitMs(70)]
  }

  /** The number of X1 pulses in a trace. */
  function PulseCount(t: seq<Event>): nat
  {
    if t == [] then 0 else PulseCount(t[..|t| - 1]) + (if t[|t| - 1].Pulse? then 1 else 0)
  }

  /** The time a trace spends in explicit waits and delays, in microseconds. */
  function WaitedUs(t: seq<Event>): nat
  {
    if t == [] then 0
    else WaitedUs(t[..|t| - 1]) + match t[|t| - 1]
      case WaitMs(ms) => 1000 * ms
      case Delay10us(tens) => 10 * tens
      case _ => 0
  }

  lemma {:induction false} ObserveAppend(a: seq<Event>, b: seq<Event>)
    ensures PulseCount(a + b) == PulseCount(a) + PulseCount(b)
    ensures WaitedUs(a + b) == WaitedUs(a) + WaitedUs(b)
  {
    if b == [] {
      assert a + b == a;
    } else {
      var b' := b[..|b| - 1];
      assert (a + b)[..|a + b| - 1] == a + b';
      ObserveAppend(a, b');
    }
  }

  /** The observers read a one-event trace directly. */
  lemma ObserveSimple(e: Event)
    ensures PulseCount([e]) == (if e.Pulse? then 1 else 0)
    ensures WaitedUs([e]) == (if e.WaitMs? then 1000 * e.ms else if e.Delay10us? then 10 * e.tens else 0)
  {
    assert [e][..0] == [];
  }

  /** A burst of n pulses takes n * 100 us. */
  lemma {:induction false} PulseBurstObserved(n: nat)
    ensures PulseCount(PulseBurst(n)) == n && WaitedUs(PulseBurst(n)) == 100 * n
  {
    if n > 0 {
      PulseBurstObserved(n - 1);
      ObserveSimple(Pulse);
      ObserveSimple(Delay10us(10));
      ObserveAppend([Pulse], [Delay10us(10)]);
      assert [Pulse, Delay10us(10)] == [Pulse] + [Delay10us(10)];
      ObserveAppend(PulseBurst(n - 1), [Pulse, Delay10us(10)]);
    }
  }

  /** The disable block of SetAutoCenter is the modify "address 0x7C of
      effect 0x7F := 0x7F" followed by Program Change 6. */
  lemma AutoCenterDisableIsModify()
    ensures AutoCenterDisable == ModifyBytes(0x7F, 0x7C, 0x007F) + [ProgramChange, 0x06]
    ensures AutoCenterEnable == [ProgramChange, 0x01]
  {
  }

  /** SetAutoCenter never pulses; disabling waits 70 ms before the disable block. */
  lemma AutoCenterTraceObserved(enable: Byte)
    ensures PulseCount(AutoCenterTrace(enable)) == 0
    ensures WaitedUs(AutoCenterTrace(enable)) == if enable == 0 then 70_000 else 0
  {
    ObserveSimple(Send(AutoCenterEnable));
    if enable == 0 {
      ObserveSimple(WaitMs(70));
      ObserveSimple(Send(AutoCenterDisable));
      ObserveAppend([WaitMs(70)], [Send(AutoCenterDisable)]);
      assert [WaitMs(70), Send(AutoCenterDisable)] == [WaitMs(70)] + [Send(AutoCenterDisable)];
      ObserveAppend([Send(AutoCenterEnable)], [WaitMs(70), Send(AutoCenterDisable)]);
    } else {
      assert AutoCenterTrace(enable) == [Send(AutoCenterEnable)];
    }
  }

  /** The startup's SysEx block is the Pro header around the payload 10 05 6B. */
  lemma StartupResetIsSysEx()
    ensures StartupReset == SysExHeader + [0x10, 0x05, 0x6B] + [SysExEnd]
  {
  }

  /** The first memory block: eight modifies of effect 0x7F, then the address
      select of a ninth. */
  lemma StartupMemory1IsFramed()
    ensures StartupMemory1 ==
      ModifyBytes(0x7F, 0x40, 0x5772) + ModifyBytes(0x7F, 0x44, 0x433C)
      + ModifyBytes(0x7F, 0x48, 0x007E) + ModifyBytes(0x7F, 0x4C, 0x0004)
      + ModifyBytes(0x7F, 0x50, 0x0002) + ModifyBytes(0x7F, 0x54, 0x0002)
      + ModifyBytes(0x7F, 0x58, 0x7E00) + ModifyBytes(0x7F, 0x5C, 0x003C)
      + ModifyFrames(0x7F, 0x60, 0x6514)[0]
  {
    assert ModifyBytes(0x7F, 0x40, 0x5772) == [0xB5, 0x40, 0x7F, 0xA5, 0x72, 0x57];
    assert ModifyBytes(0x7F, 0x44, 0x433C) == [0xB5, 0x44, 0x7F, 0xA5, 0x3C, 0x43];
    assert ModifyBytes(0x7F, 0x48, 0x007E) == [0xB5, 0x48, 0x7F, 0xA5, 0x7E, 0x00];
    assert ModifyBytes(0x7F, 0x4C, 0x0004) == [0xB5, 0x4C, 0x7F, 0xA5, 0x04, 0x00];
    assert ModifyBytes(0x7F, 0x50, 0x0002) == [0xB5, 0x50, 0x7F, 0xA5, 0x02, 0x00];
    assert ModifyBytes(0x7F, 0x54, 0x0002) == [0xB5, 0x54, 0x7F, 0xA5, 0x02, 0x00];
    assert ModifyBytes(0x7F, 0x58, 0x7E00) == [0xB5, 0x58, 0x7F, 0xA5, 0x00, 0x7E];
    assert ModifyBytes(0x7F, 0x5C, 0x003C) == [0xB5, 0x5C, 0x7F, 0xA5, 0x3C, 0x00];
  }

  /** The second memory block: the value of that ninth modify, then five more. */
  lemma StartupMemory2IsFramed()
    ensures StartupMemory2 ==
      ModifyFrames(0x7F, 0x60, 0x6514)[1]
      + ModifyBytes(0x7F, 0x64, 0x6B7E) + ModifyBytes(0x7F, 0x68, 0x0036)
      + ModifyBytes(0x7F, 0x6C, 0x0028) + ModifyBytes(0x7F, 0x70, 0x4C66)
      + ModifyBytes(0x7F, 0x74, 0x017E)
  {
    assert ModifyBytes(0x7F, 0x64, 0x6B7E) == [0xB5, 0x64, 0x7F, 0xA5, 0x7E, 0x6B];
    assert ModifyBytes(0x7F, 0x68, 0x0036) == [0xB5, 0x68, 0x7F, 0xA5, 0x36, 0x00];
    assert ModifyBytes(0x7F, 0x6C, 0x0028) == [0xB5, 0x6C, 0x7F, 0xA5, 0x28, 0x00];
    assert ModifyBytes(0x7F, 0x70, 0x4C66) == [0xB5, 0x70, 0x7F, 0xA5, 0x66, 0x4C];
    assert ModifyBytes(0x7F, 0x74, 0x017E) == [0xB5, 0x74, 0x7F, 0xA5, 0x7E, 0x01];
  }

  /** Together the two memory blocks are fourteen modifies of effect 0x7F at
      addresses 0x40, 0x44, ..., 0x74, split between the ninth address select
      and its value. */
  lemma StartupBlocksAreFramed()
    ensures StartupMemory1 + StartupMemory2 ==
      ModifyBytes(0x7F, 0x40, 0x5772) + ModifyBytes(0x7F, 0x44, 0x433C)
      + ModifyBytes(0x7F, 0x48, 0x007E) + ModifyBytes(0x7F, 0x4C, 0x0004)
      + ModifyBytes(0x7F, 0x50, 0x0002) + ModifyBytes(0x7F, 0x54, 0x0002)
      + ModifyBytes(0x7F, 0x58, 0x7E00) + ModifyBytes(0x7F, 0x5C, 0x003C)
      + ModifyBytes(0x7F, 0x60, 0x6514) + ModifyBytes(0x7F, 0x64, 0x6B7E)
      + ModifyBytes(0x7F, 0x68, 0x0036) + ModifyBytes(0x7F, 0x6C, 0x0028)
      + ModifyBytes(0x7F, 0x70, 0x4C66) + ModifyBytes(0x7F, 0x74, 0x017E)
  {
    StartupMemory1IsFramed();
    StartupMemory2IsFramed();
  }

  /** One event, then a burst, then a wait. */
  lemma {:induction false} ObserveGroup(t: seq<Event>, n: nat, ms: nat)
    ensures PulseCount(t + PulseBurst(n) + [WaitMs(ms)]) == PulseCount(t) + n
    ensures WaitedUs(t + PulseBurst(n) + [WaitMs(ms)]) == WaitedUs(t) + 100 * n + 1000 * ms
  {
    PulseBurstObserved(n);
    ObserveSimple(WaitMs(ms));
    ObserveAppend(t, PulseBurst(n));
    ObserveAppend(t + PulseBurst(n), [WaitMs(ms)]);
  }

  /** The first three pulse groups: 8 pulses, 156 ms of waits and 800 us of
      delays. */
  lemma StartupPulsesHead()
    ensures var t := [WaitMs(100)] + [Pulse] + [WaitMs(7)] + PulseBurst(4) + [WaitMs(35)] + PulseBurst(3) + [WaitMs(14)];
      PulseCount(t) == 8 && WaitedUs(t) == 156_700
  {
    var t0 := [WaitMs(100)] + [Pulse] + [WaitMs(7)];
    ObserveSimple(WaitMs(100));
    ObserveSimple(Pulse);
    ObserveSimple(WaitMs(7));
    ObserveAppend([WaitMs(100)], [Pulse]);
    ObserveAppend([WaitMs(100)] + [Pulse], [WaitMs(7)]);
    assert PulseCount(t0) == 1 && WaitedUs(t0) == 107_000;
    var t1 := t0 + PulseBurst(4) + [WaitMs(35)];
    ObserveGroup(t0, 4, 35);
    assert PulseCount(t1) == 5 && WaitedUs(t1) == 142_400;
    ObserveGroup(t1, 3, 14);
  }

  /** The pulse train: 17 pulses (1, 4, 3, 2, 2, 3 and 2), 16 of them followed
      by a 100 us delay, with 297 ms of waits between the groups. */
  lemma StartupPulsesObserved()
    ensures PulseCount(StartupPulses()) == 17
    ensures WaitedUs(StartupPulses()) == 297_000 + 1_600
  {
    var t2 := [WaitMs(100)] + [Pulse] + [WaitMs(7)] + PulseBurst(4) + [WaitMs(35)] + PulseBurst(3) + [WaitMs(14)];
    StartupPulsesHead();
    var t3 := t2 + PulseBurst(2) + [WaitMs(78)];
    ObserveGroup(t2, 2, 78);
    assert PulseCount(t3) == 10 && WaitedUs(t3) == 234_900;
    var t4 := t3 + PulseBurst(2) + [WaitMs(4)];
    ObserveGroup(t3, 2, 4);
    assert PulseCount(t4) == 12 && WaitedUs(t4) == 239_100;
    var t5 := t4 + PulseBurst(3) + [WaitMs(59)];
    ObserveGroup(t4, 3, 59);
    assert PulseCount(t5) == 15 && WaitedUs(t5) == 298_400;
    PulseBurstObserved(2);
    ObserveAppend(t5, PulseBurst(2));
    assert StartupPulses() == t5 + PulseBurst(2);
  }

  /** The message phase: no pulses and 20 + 57 + 70 + 70 ms of waits. */
  lemma StartupMessagesObserved()
    ensures PulseCount(StartupMessages()) == 0
    ensures WaitedUs(StartupMessages()) == 217_000
  {
    var t1 := [Send(StartupProgramChange)] + [WaitMs(20)];
    ObserveSimple(Send(StartupProgramChange));
    ObserveSimple(WaitMs(20));
    ObserveAppend([Send(StartupProgramChange)], [WaitMs(20)]);
    var t2 := t1 + [Send(StartupReset)];
    ObserveSimple(Send(StartupReset));
    ObserveAppend(t1, [Send(StartupReset)]);
    var t3 := t2 + [WaitMs(57)];
    ObserveSimple(WaitMs(57));
    ObserveAppend(t2, [WaitMs(57)]);
    var t4 := t3 + [Send(StartupMemory1)];
    ObserveSimple(Send(StartupMemory1));
    ObserveAppend(t3, [Send(StartupMemory1)]);
    var t5 := t4 + [Send(StartupMemory2)];
    ObserveSimple(Send(StartupMemory2));
    ObserveAppend(t4, [Send(StartupMemory2)]);
    var t6 := t5 + AutoCenterTrace(0);
    AutoCenterTraceObserved(0);
    ObserveAppend(t5, AutoCenterTrace(0));
    ObserveSimple(WaitMs(70));
    ObserveAppend(t6, [WaitMs(70)]);
  }

  /** The whole startup sequence issues 17 X1 pulses and spends 515.6 ms in
      explicit waits and delays. */
  lemma StartupTraceObserved()
    ensures PulseCount(StartupTrace()) == 17
    ensures WaitedUs(StartupTrace()) == 515_600
  {
    StartupPulsesObserved();
    StartupMessagesObserved();
    ObserveAppend(StartupPulses(), StartupMessages());
  }
}
