/** The byte layouts of ffb-wheel.h.

    Every struct there is a packed sequence of uint8_t and little-endian
    uint16_t members (AVR-GCC inserts no padding), so a layout is the list of
    its members' widths and a member's offset is the sum of the widths before
    it. The named offsets below are the ones the Wheel backend writes at; the
    lemmas check them, and the struct sizes, against the member lists. */
module FfbWheelLayout {

  /** The widths of a struct's members, in declaration order. */
  type Layout = seq<nat>

  /** The byte offset of member `i`: the widths of the members before it. */
  function Offset(l: Layout, i: nat): nat
    requires i <= |l|
  {
    if i == 0 then 0 else Offset(l, i - 1) + l[i - 1]
  }

  /** sizeof: the end of the last member. */
  function Size(l: Layout): nat
  {
    Offset(l, |l|)
  }

  /** FFW_MIDI_Effect_Operation_t: cmd, operation_and_checksum, effect_id. */
  const OperationLayout: Layout := [1, 1, 1]
  /** FFW_MIDI_Modify_t: cmd, checksum, def_and_address, effect_id, value. */
  const ModifyLayout: Layout := [1, 1, 1, 1, 2]
  /** FFW_MIDI_Effect_Common_t: command, waveForm, unknown1, duration, direction. */
  const CommonLayout: Layout := [1, 1, 1, 2, 1]
  /** FFW_MIDI_Effect_Periodic_Ramp_t: common, precise_dir, phase, attackLevel,
      attackTime, magnitude, fadeTime, fadeLevel, frequency, offset. */
  const PeriodicRampLayout: Layout := [1, 1, 1, 2, 1, 1, 2, 1, 2, 1, 2, 1, 2, 1]
  /** FFW_MIDI_Effect_ConstantForce_t: common, unknown2, attackLevel, attackTime,
      magnitude, fadeTime, fadeLevel, forceDirection. */
  const ConstantForceLayout: Layout := [1, 1, 1, 2, 1, 1, 1, 2, 1, 2, 1, 1]
  /** FFW_MIDI_Effect_Spring_Inertia_Damper_t: common, unknown3, negativeCoeff,
      unknown4[5], positiveCoeff. */
  const SpringInertiaDamperLayout: Layout := [1, 1, 1, 2, 1, 1, 1, 5, 1]
  /** FFW_MIDI_Effect_Friction_t: common, coeff. */
  const FrictionLayout: Layout := [1, 1, 1, 2, 1, 1]

  // Offsets in the Common header, shared by every effect struct.
  const CmCommand: nat := 0
  const CmWaveForm: nat := 1
  const CmUnknown1: nat := 2
  const CmDuration: nat := 3
  const CmDirection: nat := 5

  // Offsets in FFW_MIDI_Effect_Periodic_Ramp_t.
  const PrPreciseDir: nat := 6
  const PrPhase: nat := 7
  const PrAttackLevel: nat := 9
  const PrAttackTime: nat := 10
  const PrMagnitude: nat := 12
  const PrFadeTime: nat := 13
  const PrFadeLevel: nat := 15
  const PrFrequency: nat := 16
  const PrOffset: nat := 18

  // Offsets in FFW_MIDI_Effect_ConstantForce_t.
  const CfUnknown2: nat := 6
  const CfAttackLevel: nat := 7
  const CfAttackTime: nat := 8
  const CfMagnitude: nat := 10
  const CfFadeTime: nat := 11
  const CfFadeLevel: nat := 13
  const CfForceDirection: nat := 14

  // Offsets in FFW_MIDI_Effect_Spring_Inertia_Damper_t.
  const SidUnknown3: nat := 6
  const SidNegativeCoeff: nat := 7
  const SidUnknown4: nat := 8
  const SidPositiveCoeff: nat := 13

  // Offset in FFW_MIDI_Effect_Friction_t.
  const FrCoeff: nat := 6

  // sizeof of the effect structs.
  const CommonSize: nat := 6
  const PeriodicRampSize: nat := 19
  const ConstantForceSize: nat := 15
  const SpringInertiaDamperSize: nat := 14
  const FrictionSize: nat := 7

  /** Two layouts that agree on their first members place those members at
      the same offsets. */
  lemma {:induction false} SharedPrefix(l: Layout, m: Layout, i: nat)
    requires i <= |l| && i <= |m| && l[..i] == m[..i]
    ensures Offset(l, i) == Offset(m, i)
  {
    if i > 0 {
      assert l[..i - 1] == m[..i - 1] by {
        assert l[..i - 1] == l[..i][..i - 1] && m[..i - 1] == m[..i][..i - 1];
      }
      assert l[i - 1] == l[..i][i - 1] == m[..i][i - 1] == m[i - 1];
      SharedPrefix(l, m, i - 1);
    }
  }

  /** Every effect struct begins with the Common header, so the header's
      members sit at the same offsets whichever view the buffer is read through. */
  lemma CommonHeaderShared(i: nat)
    requires i <= |CommonLayout|
    ensures Offset(PeriodicRampLayout, i) == Offset(CommonLayout, i)
    ensures Offset(ConstantForceLayout, i) == Offset(CommonLayout, i)
    ensures Offset(SpringInertiaDamperLayout, i) == Offset(CommonLayout, i)
    ensures Offset(FrictionLayout, i) == Offset(CommonLayout, i)
  {
    assert PeriodicRampLayout[..5] == CommonLayout;
    assert ConstantForceLayout[..5] == CommonLayout;
    assert SpringInertiaDamperLayout[..5] == CommonLayout;
    assert FrictionLayout[..5] == CommonLayout;
    SharedPrefix(PeriodicRampLayout, CommonLayout, i);
    SharedPrefix(ConstantForceLayout, CommonLayout, i);
    SharedPrefix(SpringInertiaDamperLayout, CommonLayout, i);
    SharedPrefix(FrictionLayout, CommonLayout, i);
  }

  lemma CommonOffsets()
    ensures Offset(CommonLayout, 0) == CmCommand && Offset(CommonLayout, 1) == CmWaveForm
    ensures Offset(CommonLayout, 2) == CmUnknown1 && Offset(CommonLayout, 3) == CmDuration
    ensures Offset(CommonLayout, 4) == CmDirection && Size(CommonLayout) == CommonSize
  {
  }

  lemma PeriodicRampOffsets()
    ensures Offset(PeriodicRampLayout, 5) == PrPreciseDir && Offset(PeriodicRampLayout, 6) == PrPhase
    ensures Offset(PeriodicRampLayout, 7) == PrAttackLevel && Offset(PeriodicRampLayout, 8) == PrAttackTime
    ensures Offset(PeriodicRampLayout, 9) == PrMagnitude && Offset(PeriodicRampLayout, 10) == PrFadeTime
    ensures Offset(PeriodicRampLayout, 11) == PrFadeLevel && Offset(PeriodicRampLayout, 12) == PrFrequency
    ensures Offset(PeriodicRampLayout, 13) == PrOffset && Size(PeriodicRampLayout) == PeriodicRampSize
  {
    var l := PeriodicRampLayout;
    assert Offset(l, 5) == 6;
    assert Offset(l, 7) == 9;
    assert Offset(l, 9) == 12;
    assert Offset(l, 11) == 15;
    assert Offset(l, 13) == 18;
  }

  lemma ConstantForceOffsets()
    ensures Offset(ConstantForceLayout, 5) == CfUnknown2 && Offset(ConstantForceLayout, 6) == CfAttackLevel
    ensures Offset(ConstantForceLayout, 7) == CfAttackTime && Offset(ConstantForceLayout, 8) == CfMagnitude
    ensures Offset(ConstantForceLayout, 9) == CfFadeTime && Offset(ConstantForceLayout, 10) == CfFadeLevel
    ensures Offset(ConstantForceLayout, 11) == CfForceDirection && Size(ConstantForceLayout) == ConstantForceSize
  {
    var l := ConstantForceLayout;
    assert Offset(l, 5) == 6;
    assert Offset(l, 7) == 8;
    assert Offset(l, 9) == 11;
    assert Offset(l, 11) == 14;
  }

  lemma SpringInertiaDamperOffsets()
    ensures Offset(SpringInertiaDamperLayout, 5) == SidUnknown3
    ensures Offset(SpringInertiaDamperLayout, 6) == SidNegativeCoeff
    ensures Offset(SpringInertiaDamperLayout, 7) == SidUnknown4
    ensures Offset(SpringInertiaDamperLayout, 8) == SidPositiveCoeff
    ensures Size(SpringInertiaDamperLayout) == SpringInertiaDamperSize
  {
    var l := SpringInertiaDamperLayout;
    assert Offset(l, 5) == 6;
    assert Offset(l, 7) == 8;
  }

  /** Friction's coeff is the byte Spring_Inertia_Damper calls unknown3: a
      write through one view is a write to the other. */
  lemma FrictionOffsets()
    ensures Offset(FrictionLayout, 5) == FrCoeff == Offset(SpringInertiaDamperLayout, 5)
    ensures Size(FrictionLayout) == FrictionSize
  {
    assert Offset(FrictionLayout, 5) == 6;
    SpringInertiaDamperOffsets();
  }

  /** Each frame member is one byte except the modify value, which occupies
      bytes 4 and 5. */
  lemma FrameOffsets()
    ensures forall i :: 0 <= i <= 3 ==> Offset(OperationLayout, i) == i
    ensures forall i :: 0 <= i <= 4 ==> Offset(ModifyLayout, i) == i
    ensures Size(ModifyLayout) == 6
  {
    assert Offset(OperationLayout, 3) == 3;
    assert Offset(ModifyLayout, 4) == 4;
  }
}
