/** Types and collaborators shared by the Pro and the Wheel backends.

    This module stands for what both backends take from ffb.h and ffb.c, which
    are not part of this model: the C integer widths, the outbound transport
    (an ordered log of what was sent, waited and pulsed), the request made to
    the set-param primitive, the USB PID report records, and the constants and
    conversion helpers that are only declared there. Those constants and
    helpers are fields of `Externals`, so that every fact proved here holds
    whatever their definitions are. */
module Ffb {

  type Byte = x: int | 0 <= x < 0x100     // uint8_t
  type U16 = x: int | 0 <= x < 0x1_0000   // uint16_t
  type I8 = x: int | -0x80 <= x < 0x80    // int8_t
  type I16 = x: int | -0x8000 <= x < 0x8000  // int16_t

  datatype Option<T> = None | Some(value: T)

  /** Conversion of an `int` to `uint16_t`: the value modulo 2^16. */
  function Wrap16(x: int): U16
  {
    x % 0x1_0000
  }

  /** C's `x / 2` on a signed operand, which truncates toward zero
      (Dafny's `/` is Euclidean and rounds negative odd values down). */
  function HalfTowardZero(x: int): int
  {
    if x >= 0 then x / 2 else -((-x) / 2)
  }

  /** `(x >> 1) & 0x7f` on an unsigned byte: the USB 0..255 range halved
      into MIDI's 7-bit range. */
  function Level7(x: Byte): Byte
  {
    (x / 2) % 0x80
  }

  // ---------------------------------------------------------------------
  // The native fields a set-param request can name, and the transport log
  // ---------------------------------------------------------------------

  /** The native (MIDI-side) fields of an effect slot. */
  datatype Field =
    | Command | WaveForm | Unknown1 | Duration | TriggerButton | Direction | Gain
    | SampleRate | Truncate | AttackLevel | AttackTime | Magnitude | FadeTime | FadeLevel
    | Frequency | Param1 | Param2 | CoeffAxis0 | CoeffAxis1 | OffsetAxis0 | OffsetAxis1

  /** Which set-param primitive was called: FfbSetParamMidi_7bit or _14bit. */
  datatype Width = Bits7 | Bits14

  /** One observable action of a backend. */
  datatype Event =
    | Send(bytes: seq<Byte>)       // FfbSendData(bytes, |bytes|)
    | WaitMs(ms: nat)              // WaitMs(ms)
    | Delay10us(tens: nat)         // _delay_us10(tens)
    | Pulse                        // FfbPulseX1()
    | SetParam(field: Field, effectId: Byte, address: Byte, value: U16, width: Width)
      // FfbSetParamMidi_7bit/_14bit(state, &field, effectId, address, value)

  /** The outbound transport, modelled as the log of everything done on it. */
  class Link {
    var log: seq<Event>

    constructor ()
      ensures log == []
    {
      log := [];
    }

    method Transmit(bytes: seq<Byte>)
      modifies this
      ensures log == old(log) + [Send(bytes)]
    {
      log := log + [Send(bytes)];
    }

    method Wait(ms: nat)
      modifies this
      ensures log == old(log) + [WaitMs(ms)]
    {
      log := log + [WaitMs(ms)];
    }

    method DelayTens(tens: nat)
      modifies this
      ensures log == old(log) + [Delay10us(tens)]
    {
      log := log + [Delay10us(tens)];
    }

    method PulseX1()
      modifies this
      ensures log == old(log) + [Pulse]
    {
      log := log + [Pulse];
    }

    /** The request half of the set-param primitive; the field write is done
        by the caller, on the slot it owns. */
    method Request(field: Field, effectId: Byte, address: Byte, value: U16, width: Width)
      modifies this
      ensures log == old(log) + [SetParam(field, effectId, address, value, width)]
    {
      log := log + [SetParam(field, effectId, address, value, width)];
    }
  }

  // ---------------------------------------------------------------------
  // USB side: effect types, reports, and what ffb.h declares
  // ---------------------------------------------------------------------

  /** The USB PID effect types named by the USB_EFFECT_* constants. */
  datatype UsbEffect =
    | Constant | Ramp | Square | Sine | Triangle | SawtoothDown | SawtoothUp
    | Spring | Damper | Inertia | Friction | Custom

  /** Constants and helpers that ffb.h and ffb.c define and this model does not:
      the model is proved for every choice of them. */
  datatype Externals = Externals(
    usbDurationInfinite: U16,       // USB_DURATION_INFINITE
    midiDurationInfinite: U16,      // MIDI_DURATION_INFINITE
    triggerButtonNull: Byte,        // USB_TRIGGERBUTTON_NULL
    effectCode: UsbEffect -> Byte,  // USB_EFFECT_CONSTANT ... USB_EFFECT_CUSTOM
    cpOffsetSigned: bool,           // whether the condition report declares cpOffset as int8_t
    int8ToMidi14: int -> U16,       // UsbInt8ToMidiInt14, applied to the promoted argument
    uint16ToMidi14: U16 -> U16,     // UsbUint16ToMidiUint14
    timeToMidi14: U16 -> U16)       // UsbUint16ToMidiUint14_Time

  /** The case of a C `switch (effectType)` over the USB_EFFECT_* labels that
      the code `t` selects. The labels of one switch are distinct constants,
      so testing them in a fixed order selects the same case as C does. */
  function KindOf(ext: Externals, t: Byte): Option<UsbEffect>
  {
    if t == ext.effectCode(Constant) then Some(Constant)
    else if t == ext.effectCode(Ramp) then Some(Ramp)
    else if t == ext.effectCode(Square) then Some(Square)
    else if t == ext.effectCode(Sine) then Some(Sine)
    else if t == ext.effectCode(Triangle) then Some(Triangle)
    else if t == ext.effectCode(SawtoothDown) then Some(SawtoothDown)
    else if t == ext.effectCode(SawtoothUp) then Some(SawtoothUp)
    else if t == ext.effectCode(Spring) then Some(Spring)
    else if t == ext.effectCode(Damper) then Some(Damper)
    else if t == ext.effectCode(Inertia) then Some(Inertia)
    else if t == ext.effectCode(Friction) then Some(Friction)
    else if t == ext.effectCode(Custom) then Some(Custom)
    else None
  }

  predicate IsWaveform(k: UsbEffect)
  {
    k == Square || k == Sine || k == Triangle || k == SawtoothDown || k == SawtoothUp
  }

  predicate IsCondition(k: UsbEffect)
  {
    k == Spring || k == Damper || k == Inertia
  }

  /** The value of the condition report's cpOffset after C's integer
      promotion: negative for bytes >= 0x80 only when the field is signed. */
  function CpOffsetValue(ext: Externals, raw: Byte): int
  {
    if ext.cpOffsetSigned && raw >= 0x80 then raw - 0x100 else raw
  }

  datatype CreateNewEffectReport = CreateNewEffectReport(effectType: Byte, byteCount: U16)

  datatype SetEffectReport = SetEffectReport(
    effectBlockIndex: Byte, effectType: Byte, duration: U16, triggerRepeatInterval: U16,
    samplePeriod: U16, gain: Byte, triggerButton: Byte, enableAxis: Byte,
    directionX: Byte, directionY: Byte)

  datatype SetEnvelopeReport = SetEnvelopeReport(
    effectBlockIndex: Byte, attackLevel: Byte, fadeLevel: Byte, attackTime: U16, fadeTime: U16)

  /** cpOffset holds the raw report byte; CpOffsetValue gives its C value. */
  datatype SetConditionReport = SetConditionReport(
    effectBlockIndex: Byte, parameterBlockOffset: Byte, cpOffset: Byte, positiveCoefficient: Byte)

  datatype SetPeriodicReport = SetPeriodicReport(
    effectBlockIndex: Byte, magnitude: Byte, offset: I8, phase: Byte, period: U16)

  datatype SetConstantForceReport = SetConstantForceReport(effectBlockIndex: Byte, magnitude: I16)

  datatype SetRampForceReport = SetRampForceReport(effectBlockIndex: Byte, start: I8, end: I8)
}
