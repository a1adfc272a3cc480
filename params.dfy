/** The parameter registry and address codec of the firmware layout version
    (src/enums.ts with src/utils/paramsHelpers.ts): static tables of index,
    bit width, maximum and title, the mapping of a fully qualified parameter
    instance to a MIDI (channel, CC) pair in the normal and the POLY regime,
    and the modulation binding index. */
module Params {
  import opened Common

  datatype Param =
    // settings
    | PlayMode | LedBrightness | Transpose | Tunning | MidiReceiveChannel | SeqSteps
    | Quantize | Legato | Velocity | Portamento | Polyphony
    // patch
    | Lfo
    // channel
    | Al | Fb | Ams | Fms
    // stereo routing: it has an index, a width and a title, but belongs to no enumeration
    | St
    // operator
    | Ar | D1 | Sl | D2 | Rr | Tl | Mul | Det | Rs | Am

  /** The values of each enumeration, in declaration order. */
  const SettingParams: seq<Param> :=
    [PlayMode, LedBrightness, Transpose, Tunning, MidiReceiveChannel, SeqSteps,
     Quantize, Legato, Velocity, Portamento, Polyphony]
  const PatchParams: seq<Param> := [Lfo]
  const ChannelParams: seq<Param> := [Al, Fb, Ams, Fms]
  const OperatorParams: seq<Param> := [Ar, D1, Sl, D2, Rr, Tl, Mul, Det, Rs, Am]

  datatype Kind = SettingKind | PatchKind | ChannelKind | OperatorKind | NoKind

  /** The enumeration a parameter belongs to. */
  function KindOf(p: Param): Kind
  {
    match p
    case PlayMode | LedBrightness | Transpose | Tunning | MidiReceiveChannel | SeqSteps
       | Quantize | Legato | Velocity | Portamento | Polyphony => SettingKind
    case Lfo => PatchKind
    case Al | Fb | Ams | Fms => ChannelKind
    case St => NoKind
    case Ar | D1 | Sl | D2 | Rr | Tl | Mul | Det | Rs | Am => OperatorKind
  }

  /** isSettingParam and its siblings: membership in the enumeration's values. */
  predicate IsSettingParam(p: Param) { KindOf(p) == SettingKind }
  predicate IsPatchParam(p: Param) { KindOf(p) == PatchKind }
  predicate IsChannelParam(p: Param) { KindOf(p) == ChannelKind }
  predicate IsOperatorParam(p: Param) { KindOf(p) == OperatorKind }

  /** The kind tests are the `includes` over each enumeration's values, and
      `st` passes none of them. */
  lemma KindIsMembership(p: Param)
    ensures IsSettingParam(p) <==> p in SettingParams
    ensures IsPatchParam(p) <==> p in PatchParams
    ensures IsChannelParam(p) <==> p in ChannelParams
    ensures IsOperatorParam(p) <==> p in OperatorParams
    ensures KindOf(p) == NoKind <==> p == St
  {
    MembersHaveKind();
    match p
    case PlayMode => assert p == SettingParams[0];
    case LedBrightness => assert p == SettingParams[1];
    case Transpose => assert p == SettingParams[2];
    case Tunning => assert p == SettingParams[3];
    case MidiReceiveChannel => assert p == SettingParams[4];
    case SeqSteps => assert p == SettingParams[5];
    case Quantize => assert p == SettingParams[6];
    case Legato => assert p == SettingParams[7];
    case Velocity => assert p == SettingParams[8];
    case Portamento => assert p == SettingParams[9];
    case Polyphony => assert p == SettingParams[10];
    case Lfo => assert p == PatchParams[0];
    case Al => assert p == ChannelParams[0];
    case Fb => assert p == ChannelParams[1];
    case Ams => assert p == ChannelParams[2];
    case Fms => assert p == ChannelParams[3];
    case St =>
    case Ar => assert p == OperatorParams[0];
    case D1 => assert p == OperatorParams[1];
    case Sl => assert p == OperatorParams[2];
    case D2 => assert p == OperatorParams[3];
    case Rr => assert p == OperatorParams[4];
    case Tl => assert p == OperatorParams[5];
    case Mul => assert p == OperatorParams[6];
    case Det => assert p == OperatorParams[7];
    case Rs => assert p == OperatorParams[8];
    case Am => assert p == OperatorParams[9];
  }

  /** Every value of an enumeration has that enumeration's kind. */
  lemma MembersHaveKind()
    ensures forall i :: 0 <= i < |SettingParams| ==> IsSettingParam(SettingParams[i])
    ensures forall i :: 0 <= i < |PatchParams| ==> IsPatchParam(PatchParams[i])
    ensures forall i :: 0 <= i < |ChannelParams| ==> IsChannelParam(ChannelParams[i])
    ensures forall i :: 0 <= i < |OperatorParams| ==> IsOperatorParam(OperatorParams[i])
  {
  }

  /** The string value of each enumeration member (the `id` of the parameter). */
  function Label(p: Param): string
  {
    match p
    case PlayMode => "pm"
    case LedBrightness => "lb"
    case Transpose => "tr"
    case Tunning => "tu"
    case MidiReceiveChannel => "rc"
    case SeqSteps => "stp"
    case Quantize => "quantize"
    case Legato => "legato"
    case Velocity => "velocity"
    case Portamento => "portamento"
    case Polyphony => "polyphony"
    case Lfo => "lfo"
    case Al => "al"
    case Fb => "fb"
    case Ams => "ams"
    case Fms => "fms"
    case St => "st"
    case Ar => "ar"
    case D1 => "d1"
    case Sl => "sl"
    case D2 => "d2"
    case Rr => "rr"
    case Tl => "tl"
    case Mul => "mul"
    case Det => "det"
    case Rs => "rs"
    case Am => "am"
  }

  /** PARAM_INDEXES: the position of a parameter inside its address block.
      It must stay in sync with the firmware. */
  function ParamIndex(p: Param): (r: nat)
    ensures r < OP_PARAM_COUNT
    ensures IsChannelParam(p) || p == St ==> r < CH_PARAM_COUNT
  {
    match p
    case Quantize => 0
    case Legato => 1
    case Velocity => 2
    case PlayMode => 3
    case LedBrightness => 4
    case Transpose => 5
    case Tunning => 6
    case MidiReceiveChannel => 7
    case Portamento => 8
    case Polyphony => 8
    case SeqSteps => 9
    case Lfo => 9
    case Al => 0
    case Fb => 1
    case Ams => 2
    case Fms => 3
    case St => 4
    case Ar => 0
    case D1 => 1
    case Sl => 2
    case D2 => 3
    case Rr => 4
    case Tl => 5
    case Mul => 6
    case Det => 7
    case Rs => 8
    case Am => 9
  }

  /** paramBitness: the width in bits of each parameter's value. */
  function Bitness(p: Param): (r: nat)
    ensures 1 <= r <= 7
  {
    match p
    case PlayMode => 7
    case LedBrightness => 7
    case Transpose => 7
    case Tunning => 7
    case MidiReceiveChannel => 7
    case SeqSteps => 7
    case Quantize => 1
    case Legato => 1
    case Velocity => 1
    case Portamento => 1
    case Polyphony => 7
    case Lfo => 3
    case St => 2
    case Ams => 2
    case Fms => 3
    case Al => 3
    case Fb => 3
    case Ar => 5
    case D1 => 5
    case Sl => 4
    case D2 => 5
    case Rr => 4
    case Tl => 7
    case Mul => 4
    case Det => 3
    case Rs => 2
    case Am => 1
  }

  function Title(p: Param): string
  {
    match p
    case PlayMode => "Play Mode"
    case LedBrightness => "Led Brightness"
    case Transpose => "Transpose"
    case Tunning => "Tunning"
    case MidiReceiveChannel => "Midi Receive Channel"
    case SeqSteps => "Seq Mode steps"
    case Quantize => "Quantize"
    case Legato => "Legato"
    case Velocity => "Velocity"
    case Portamento => "Portamento"
    case Polyphony => "Polyphony"
    case Lfo => "Low Frequency Oscillator"
    case St => "Stereo Mode"
    case Ams => "Amplitude Modulation Sensitivity"
    case Fms => "Frequency Modulation Sensitivity"
    case Al => "Algorithm"
    case Fb => "Feedback (op1)"
    case Ar => "Attack Rate (angle)"
    case D1 => "Decay1 Rate (angle)"
    case Sl => "Sustain Level (attenuation)"
    case D2 => "Decay2 Rate (angle)"
    case Rr => "Release Rate (angle)"
    case Tl => "Total Level (attenuation)"
    case Mul => "Multiplier"
    case Det => "Detune"
    case Rs => "Rate Scaling"
    case Am => "Amplitude Modulation"
  }

  /** paramMax, built from the bit-width table as 2 ** bits - 1. */
  function ParamMax(p: Param): (r: nat)
    ensures 1 <= r <= 127
  {
    var b := Bitness(p);
    assert 2 <= Pow2(b) <= 128 by {
      assert b == 1 || b == 2 || b == 3 || b == 4 || b == 5 || b == 6 || b == 7;
      assert Pow2(1) == 2 && Pow2(2) == 4 && Pow2(3) == 8 && Pow2(4) == 16;
      assert Pow2(5) == 32 && Pow2(6) == 64 && Pow2(7) == 128;
    }
    Pow2(b) - 1
  }

  datatype ParamMeta = ParamMeta(title: string, max: int, bits: int)

  /** getParamMeta: the table entries of one parameter; the largest legal
      value is all ones in a field of `bits` bits, and every width is 1..7,
      so every legal value fits a 7-bit CC. */
  function GetParamMeta(p: Param): (r: ParamMeta)
    ensures r.bits == Bitness(p) && r.title == Title(p)
    ensures 1 <= r.bits <= 7
    ensures r.max == Pow2(r.bits) - 1 && 1 <= r.max <= 127
  {
    ParamMeta(Title(p), ParamMax(p), Bitness(p))
  }

  const PlayModeNames: seq<string> := ["MONO", "DUO", "TRIO", "CHORD", "SEQ", "RAND", "POLY"]
  const MidiChannelNames: seq<string> :=
    ["CH1", "CH2", "CH3", "CH4", "CH5", "CH6", "CH7", "CH8", "CH9", "CH10",
     "CH11", "CH12", "CH13", "CH14", "CH15", "CH16", "OMNI", "FORWARD", "MULTITRACK"]

  /** PlayModeEnum.POLY: the mode in which operator addresses collapse. */
  const POLY := 6

  /** getParamOptions: the option labels of the two enumerable settings (the
      member names of the numeric enumeration, in value order), empty otherwise. */
  function GetParamOptions(p: Param): (r: seq<string>)
    ensures |r| > 0 <==> p == PlayMode || p == MidiReceiveChannel
    ensures p == PlayMode ==> |r| == 7 && r[POLY] == "POLY"
    ensures p == MidiReceiveChannel ==> |r| == 19 && r[0] == "CH1" && r[15] == "CH16"
  {
    match p
    case PlayMode => PlayModeNames
    case MidiReceiveChannel => MidiChannelNames
    case _ => []
  }

  const CH_PARAM_OFFSET := 10
  const CH_PARAM_COUNT := 5
  const OP_PARAM_OFFSET := 40
  const OP_PARAM_COUNT := 10
  const CH_BINDING_OFFSET := 10
  const OP_BINDING_OFFSET := 20

  /** getParamMidiCc: the (channel, CC) pair of a parameter instance in the
      normal regime. Every address is a valid MIDI channel and a CC below 100. */
  function GetParamMidiCc(p: Param, pid: PatchId, cid: ChannelId, op: OperatorId): (a: Address)
    ensures 0 <= a.ch < 16 && 0 <= a.cc < 100
  {
    var index := ParamIndex(p);
    if IsSettingParam(p) then Address(15, 0 + index)
    else if p == Lfo then Address(pid * 4, index)
    else if p == St then Address(0, CH_PARAM_OFFSET + cid * CH_PARAM_COUNT + index)
    else if IsChannelParam(p) then Address(pid * 4, CH_PARAM_OFFSET + cid * CH_PARAM_COUNT + index)
    else Address(pid * 4 + op, OP_PARAM_OFFSET + cid * OP_PARAM_COUNT + index)
  }

  /** getPolyParamMidiCc: in POLY mode operator parameters leave the patch and
      channel out of their address; every other parameter keeps its normal one. */
  function GetPolyParamMidiCc(p: Param, pid: PatchId, cid: ChannelId, op: OperatorId): (a: Address)
    ensures IsOperatorParam(p) ==> a.ch == 0 && 40 <= a.cc < 80
    ensures !IsOperatorParam(p) ==> a == GetParamMidiCc(p, pid, cid, op)
  {
    if IsOperatorParam(p) then
      var index := ParamIndex(p);
      Address(0, OP_PARAM_OFFSET + op * OP_PARAM_COUNT + index)
    else
      GetParamMidiCc(p, pid, cid, op)
  }

  /** getParamBindingIndex: the slot of a parameter in the modulation table;
      None stands for `undefined` (the parameter cannot be bound). */
  function GetParamBindingIndex(p: Param, op: OperatorId): (r: Option<int>)
    ensures r.Some? ==> 0 <= r.value < 64
  {
    if p == Lfo then Some(2)
    else if IsChannelParam(p) then Some(CH_BINDING_OFFSET + ParamIndex(p))
    else if IsOperatorParam(p) && p != Am && p != Rs then
      Some(OP_BINDING_OFFSET + OP_PARAM_COUNT * op + ParamIndex(p))
    else None
  }

  // ---------------------------------------------------------------------------
  // Kinds and tables

  /** Inside each operator or channel block the index is the enumeration
      position, so it selects the parameter back. */
  lemma {:induction false} BlockIndexIsPosition(p: Param)
    ensures IsOperatorParam(p) ==> ParamIndex(p) < 10 && OperatorParams[ParamIndex(p)] == p
    ensures IsChannelParam(p) ==> ParamIndex(p) < 4 && ChannelParams[ParamIndex(p)] == p
    ensures IsSettingParam(p) ==> ParamIndex(p) < 10
  {
  }

  // ---------------------------------------------------------------------------
  // Addresses in the normal regime

  /** A fully qualified parameter instance. */
  datatype Instance = Instance(p: Param, pid: PatchId, cid: ChannelId, op: OperatorId)

  /** An instance whose indices that do not address it are zero. `st` is
      addressed the same way from every patch, so its patch index is one of them. */
  predicate Canonical(i: Instance)
  {
    if IsSettingParam(i.p) then i.pid == 0 && i.cid == 0 && i.op == 0
    else if i.p == Lfo then i.cid == 0 && i.op == 0
    else if i.p == St then i.pid == 0 && i.op == 0
    else if IsChannelParam(i.p) then i.op == 0
    else true
  }

  function AddressOf(i: Instance): Address
  {
    GetParamMidiCc(i.p, i.pid, i.cid, i.op)
  }

  /** The setting that owns each CC on the command channel; CC 8 is claimed by
      both `portamento` and `polyphony` and reads back as `portamento`. */
  function SettingAt(cc: int): Option<Param>
  {
    match cc
    case 0 => Some(Quantize)
    case 1 => Some(Legato)
    case 2 => Some(Velocity)
    case 3 => Some(PlayMode)
    case 4 => Some(LedBrightness)
    case 5 => Some(Transpose)
    case 6 => Some(Tunning)
    case 7 => Some(MidiReceiveChannel)
    case 8 => Some(Portamento)
    case 9 => Some(SeqSteps)
    case _ => None
  }

  /** The instance a normal-regime address belongs to: the decoder the
      firmware applies to an incoming CC. */
  function InstanceAt(a: Address): (r: Option<Instance>)
    ensures r.Some? ==> Canonical(r.value)
  {
    if a.ch == 15 && 0 <= a.cc < 10 then
      match SettingAt(a.cc)
      case Some(s) => Some(Instance(s, 0, 0, 0))
      case None => None
    else if !(0 <= a.ch < 16) then None
    else if a.cc == 9 then
      if a.ch % 4 == 0 then Some(Instance(Lfo, a.ch / 4, 0, 0)) else None
    else if 10 <= a.cc < 40 then
      var cid, idx := (a.cc - 10) / 5, (a.cc - 10) % 5;
      if idx == 4 then
        if a.ch == 0 then Some(Instance(St, 0, cid, 0)) else None
      else if a.ch % 4 == 0 then Some(Instance(ChannelParams[idx], a.ch / 4, cid, 0))
      else None
    else if 40 <= a.cc < 100 then
      var cid, idx := (a.cc - 40) / 10, (a.cc - 40) % 10;
      Some(Instance(OperatorParams[idx], a.ch / 4, cid, a.ch % 4))
    else None
  }

  /** `st` ignores the patch: every patch sends routing to channel 0. */
  lemma StIgnoresPatch(pid: PatchId, pid': PatchId, cid: ChannelId, op: OperatorId, op': OperatorId)
    ensures GetParamMidiCc(St, pid, cid, op) == GetParamMidiCc(St, pid', cid, op')
    ensures GetParamMidiCc(St, pid, cid, op) == Address(0, 10 + cid * 5 + 4)
  {
  }

  /** Settings live on channel 15 at CC `PARAM_INDEXES[id]`, 0..9. */
  lemma SettingAddress(p: Param, pid: PatchId, cid: ChannelId, op: OperatorId)
    requires IsSettingParam(p)
    ensures GetParamMidiCc(p, pid, cid, op) == Address(15, ParamIndex(p))
    ensures ParamIndex(p) < 10
  {
  }

  /** Patch, channel and operator blocks: LFO at CC 9, channel parameters in
      10..39 on the patch's first channel, operator parameters in 40..99 on
      channel pid*4+op. */
  lemma BlockAddress(p: Param, pid: PatchId, cid: ChannelId, op: OperatorId)
    ensures p == Lfo ==> GetParamMidiCc(p, pid, cid, op) == Address(pid * 4, 9)
    ensures IsChannelParam(p) ==>
      var a := GetParamMidiCc(p, pid, cid, op);
      a.ch == pid * 4 && 10 <= a.cc < 40 && (a.cc - 10) / 5 == cid && (a.cc - 10) % 5 == ParamIndex(p)
    ensures IsOperatorParam(p) ==>
      var a := GetParamMidiCc(p, pid, cid, op);
      a.ch == pid * 4 + op && 40 <= a.cc < 100 && (a.cc - 40) / 10 == cid && (a.cc - 40) % 10 == ParamIndex(p)
  {
    BlockIndexIsPosition(p);
  }

  /** Decoding an address gives back the instance that produced it; the only
      instance this fails for is `polyphony`, which reads back as `portamento`. */
  lemma {:induction false} AddressRoundTrip(i: Instance)
    requires Canonical(i)
    ensures i.p != Polyphony ==> InstanceAt(AddressOf(i)) == Some(i)
    ensures i.p == Polyphony ==> InstanceAt(AddressOf(i)) == Some(Instance(Portamento, 0, 0, 0))
  {
    BlockIndexIsPosition(i.p);
    var a := AddressOf(i);
    match KindOf(i.p)
    case SettingKind =>
    case PatchKind =>
      assert a == Address(i.pid * 4, 9);
    case ChannelKind =>
      assert a == Address(i.pid * 4, 10 + i.cid * 5 + ParamIndex(i.p));
      assert (a.cc - 10) / 5 == i.cid && (a.cc - 10) % 5 == ParamIndex(i.p);
    case NoKind =>
      assert (a.cc - 10) / 5 == i.cid && (a.cc - 10) % 5 == 4;
    case OperatorKind =>
      assert a == Address(i.pid * 4 + i.op, 40 + i.cid * 10 + ParamIndex(i.p));
      assert (a.cc - 40) / 10 == i.cid && (a.cc - 40) % 10 == ParamIndex(i.p);
      assert a.ch / 4 == i.pid && a.ch % 4 == i.op;
  }

  /** Distinct canonical instances have distinct addresses, except that
      `polyphony` and `portamento` share (15, 8). */
  lemma {:induction false} AddressInjective(i: Instance, j: Instance)
    requires Canonical(i) && Canonical(j)
    requires AddressOf(i) == AddressOf(j)
    ensures i == j || {i.p, j.p} == {Polyphony, Portamento}
  {
    AddressRoundTrip(i);
    AddressRoundTrip(j);
  }

  /** The one collision of the normal regime. */
  lemma PolyphonyPortamentoShare()
    ensures AddressOf(Instance(Polyphony, 0, 0, 0)) == AddressOf(Instance(Portamento, 0, 0, 0)) == Address(15, 8)
  {
  }

  /** Patch 3's operator 3 shares channel 15 with the settings, on CCs that do not meet. */
  lemma CommandChannelSharedWithoutClash(p: Param, q: Param, cid: ChannelId)
    requires IsOperatorParam(p) && IsSettingParam(q)
    ensures GetParamMidiCc(p, 3, cid, 3).ch == 15 == GetParamMidiCc(q, 0, 0, 0).ch
    ensures GetParamMidiCc(p, 3, cid, 3).cc >= 40 > GetParamMidiCc(q, 0, 0, 0).cc
  {
  }

  // ---------------------------------------------------------------------------
  // Addresses in the POLY regime

  /** The operator parameter and operator a POLY address belongs to. */
  function PolyOperatorAt(a: Address): Option<(Param, OperatorId)>
  {
    if a.ch == 0 && 40 <= a.cc < 80 then
      Some((OperatorParams[(a.cc - 40) % 10], (a.cc - 40) / 10))
    else None
  }

  /** In POLY mode an operator parameter's address depends on the operator and
      the parameter only, and decodes back to both. */
  lemma {:induction false} PolyRoundTrip(p: Param, pid: PatchId, cid: ChannelId, op: OperatorId, pid': PatchId, cid': ChannelId)
    requires IsOperatorParam(p)
    ensures GetPolyParamMidiCc(p, pid, cid, op) == GetPolyParamMidiCc(p, pid', cid', op)
    ensures PolyOperatorAt(GetPolyParamMidiCc(p, pid, cid, op)) == Some((p, op))
  {
    BlockIndexIsPosition(p);
  }

  /** Consequently POLY operator addresses are injective in (parameter, operator). */
  lemma PolyInjective(p: Param, q: Param, pid: PatchId, cid: ChannelId, op: OperatorId,
                      pid': PatchId, cid': ChannelId, op': OperatorId)
    requires IsOperatorParam(p) && IsOperatorParam(q)
    requires GetPolyParamMidiCc(p, pid, cid, op) == GetPolyParamMidiCc(q, pid', cid', op')
    ensures p == q && op == op'
  {
    PolyRoundTrip(p, pid, cid, op, pid, cid);
    PolyRoundTrip(q, pid', cid', op', pid', cid');
  }

  // ---------------------------------------------------------------------------
  // Binding indices

  /** The parameter (and operator, for operator parameters) of a binding index. */
  function BindingAt(bi: int): Option<(Param, OperatorId)>
  {
    if bi == 2 then Some((Lfo, 0))
    else if 10 <= bi < 14 then Some((ChannelParams[bi - 10], 0))
    else if 20 <= bi < 60 && (bi - 20) % 10 < 8 then
      Some((OperatorParams[(bi - 20) % 10], (bi - 20) / 10))
    else None
  }

  /** Exactly the LFO, the four channel parameters and the operator parameters
      other than `am` and `rs` have a binding index. */
  lemma BindableExactly(p: Param, op: OperatorId)
    ensures GetParamBindingIndex(p, op).Some? <==>
      p == Lfo || IsChannelParam(p) || (IsOperatorParam(p) && p != Am && p != Rs)
  {
  }

  /** Concrete indices: LFO 2, channel parameters 10 + index, operator
      parameters 20 + 10*op + index. */
  lemma BindingValues(p: Param, op: OperatorId)
    ensures p == Lfo ==> GetParamBindingIndex(p, op) == Some(2)
    ensures IsChannelParam(p) ==> GetParamBindingIndex(p, op) == Some(10 + ParamIndex(p))
    ensures IsOperatorParam(p) && p != Am && p != Rs ==>
      GetParamBindingIndex(p, op) == Some(20 + 10 * op + ParamIndex(p))
  {
  }

  /** A binding index decodes back to its parameter, and to its operator when
      the parameter is an operator parameter. */
  lemma {:induction false} BindingRoundTrip(p: Param, op: OperatorId)
    requires GetParamBindingIndex(p, op).Some?
    ensures BindingAt(GetParamBindingIndex(p, op).value) == Some((p, if IsOperatorParam(p) then op else 0))
  {
    BlockIndexIsPosition(p);
  }

  /** Binding indices are pairwise distinct over (parameter, operator), and
      both the unbind value `bi` and the bind value `64 + bi` fit a CC value. */
  lemma BindingInjective(p: Param, op: OperatorId, q: Param, op': OperatorId)
    requires GetParamBindingIndex(p, op).Some? && GetParamBindingIndex(p, op) == GetParamBindingIndex(q, op')
    ensures p == q
    ensures IsOperatorParam(p) ==> op == op'
    ensures 0 <= GetParamBindingIndex(p, op).value && 64 + GetParamBindingIndex(p, op).value < 128
  {
    BindingRoundTrip(p, op);
    BindingRoundTrip(q, op');
  }

  // ---------------------------------------------------------------------------
  // Value ranges

  /** The largest legal values of the parameters held in bit fields, grouped
      by width. */
  lemma Max127(p: Param)
    requires p == Tl || p == LedBrightness || p == Transpose || p == Tunning
    ensures ParamMax(p) == 127
  {
  }

  lemma Max31(p: Param)
    requires p == Ar || p == D1 || p == D2
    ensures ParamMax(p) == 31
  {
  }

  lemma Max15(p: Param)
    requires p == Sl || p == Rr || p == Mul
    ensures ParamMax(p) == 15
  {
  }

  lemma Max7(p: Param)
    requires p == Det || p == Al || p == Fb || p == Fms
    ensures ParamMax(p) == 7
  {
  }

  lemma Max3(p: Param)
    requires p == Rs || p == Ams || p == St
    ensures ParamMax(p) == 3
  {
  }

  lemma Max1(p: Param)
    requires p == Am || p == Quantize || p == Legato || p == Velocity
    ensures ParamMax(p) == 1
  {
  }
}
