/** The parameter tables and address codec that src/context.tsx carries for
    itself, a different version from the firmware layout tables in module
    Params: ten settings in their own order (with `bl` bindable), `st` as the
    fifth channel parameter, and every operator parameter bindable. The editor
    state operations use this version; it also holds the flat-key encoder. */
module LegacyParams {
  import opened Common
  import opened FlatKey

  datatype Param =
    // settings, in the order of their enumeration
    | PatchZone | Blend | BlendMode | PlayMode | LedBrightness | Transpose | Tunning
    | MidiReceiveChannel | AttenuverterMode | SeqSteps
    // patch
    | Lfo
    // channel
    | Al | Fb | Ams | Fms | St
    // operator
    | Ar | D1 | Sl | D2 | Rr | Tl | Mul | Det | Rs | Am

  const SettingParams: seq<Param> :=
    [PatchZone, Blend, BlendMode, PlayMode, LedBrightness, Transpose, Tunning,
     MidiReceiveChannel, AttenuverterMode, SeqSteps]
  const ChannelParams: seq<Param> := [Al, Fb, Ams, Fms, St]
  const OperatorParams: seq<Param> := [Ar, D1, Sl, D2, Rr, Tl, Mul, Det, Rs, Am]

  datatype Kind = SettingKind | PatchKind | ChannelKind | OperatorKind

  function KindOf(p: Param): Kind
  {
    match p
    case PatchZone | Blend | BlendMode | PlayMode | LedBrightness | Transpose | Tunning
       | MidiReceiveChannel | AttenuverterMode | SeqSteps => SettingKind
    case Lfo => PatchKind
    case Al | Fb | Ams | Fms | St => ChannelKind
    case Ar | D1 | Sl | D2 | Rr | Tl | Mul | Det | Rs | Am => OperatorKind
  }

  predicate IsSettingParam(p: Param) { KindOf(p) == SettingKind }
  predicate IsPatchParam(p: Param) { KindOf(p) == PatchKind }
  predicate IsChannelParam(p: Param) { KindOf(p) == ChannelKind }
  predicate IsOperatorParam(p: Param) { KindOf(p) == OperatorKind }

  /** The kind tests are membership in each enumeration's values, and every
      parameter passes exactly one of them. */
  lemma KindIsMembership(p: Param)
    ensures IsSettingParam(p) <==> p in SettingParams
    ensures IsPatchParam(p) <==> p == Lfo
    ensures IsChannelParam(p) <==> p in ChannelParams
    ensures IsOperatorParam(p) <==> p in OperatorParams
  {
    MembersHaveKind();
    match p
    case PatchZone => assert p == SettingParams[0];
    case Blend => assert p == SettingParams[1];
    case BlendMode => assert p == SettingParams[2];
    case PlayMode => assert p == SettingParams[3];
    case LedBrightness => assert p == SettingParams[4];
    case Transpose => assert p == SettingParams[5];
    case Tunning => assert p == SettingParams[6];
    case MidiReceiveChannel => assert p == SettingParams[7];
    case AttenuverterMode => assert p == SettingParams[8];
    case SeqSteps => assert p == SettingParams[9];
    case Lfo =>
    case Al => assert p == ChannelParams[0];
    case Fb => assert p == ChannelParams[1];
    case Ams => assert p == ChannelParams[2];
    case Fms => assert p == ChannelParams[3];
    case St => assert p == ChannelParams[4];
    case Ar => assert p == OperatorParams[0];
    case D1 => assert p == OperatorParams[1];
    case Sl => assert p == OperatorParams[2];
    case D2 => assert p == OperatorParams[3];
    case Rr => assert p == OperatorParams[4];
    case Tl => assert p == OperatorParams[5];
    case Mul => assert p == OperatorParams[6];
    case Det => assert p == OperatorParams[7];
    case Rs => assert p == OperatorParams[8];
    case Am => assert p == OperatorParams[9];
  }

  /** Every value of an enumeration has that enumeration's kind. */
  lemma MembersHaveKind()
    ensures forall i :: 0 <= i < |SettingParams| ==> IsSettingParam(SettingParams[i])
    ensures forall i :: 0 <= i < |ChannelParams| ==> IsChannelParam(ChannelParams[i])
    ensures forall i :: 0 <= i < |OperatorParams| ==> IsOperatorParam(OperatorParams[i])
  {
  }

  function Label(p: Param): string
  {
    match p
    case PatchZone => "pz"
    case Blend => "bl"
    case BlendMode => "bm"
    case PlayMode => "pm"
    case LedBrightness => "lb"
    case Transpose => "tr"
    case Tunning => "tu"
    case MidiReceiveChannel => "rc"
    case AttenuverterMode => "atm"
    case SeqSteps => "stp"
    case Lfo => "lfo"
    case Al => "al"
    case Fb => "fb"
    case Ams => "ams"
    case Fms => "fms"
    case St => "st"
    case Ar => "ar"
    case D1 => "d1"
    case Sl => "sl"
    case D2 => "d2"
    case Rr => "rr"
    case Tl => "tl"
    case Mul => "mul"
    case Det => "det"
    case Rs => "rs"
    case Am => "am"
  }

  /** The parameter whose enumeration value is `s`, if any: the test behind
      isSettingParam and its siblings, which look a string up among the
      values of each enumeration. */
  function ParamOfLabel(s: string): Option<Param>
  {
    if s == "pz" then Some(PatchZone)
    else if s == "bl" then Some(Blend)
    else if s == "bm" then Some(BlendMode)
    else if s == "pm" then Some(PlayMode)
    else if s == "lb" then Some(LedBrightness)
    else if s == "tr" then Some(Transpose)
    else if s == "tu" then Some(Tunning)
    else if s == "rc" then Some(MidiReceiveChannel)
    else if s == "atm" then Some(AttenuverterMode)
    else if s == "stp" then Some(SeqSteps)
    else if s == "lfo" then Some(Lfo)
    else if s == "al" then Some(Al)
    else if s == "fb" then Some(Fb)
    else if s == "ams" then Some(Ams)
    else if s == "fms" then Some(Fms)
    else if s == "st" then Some(St)
    else if s == "ar" then Some(Ar)
    else if s == "d1" then Some(D1)
    else if s == "sl" then Some(Sl)
    else if s == "d2" then Some(D2)
    else if s == "rr" then Some(Rr)
    else if s == "tl" then Some(Tl)
    else if s == "mul" then Some(Mul)
    else if s == "det" then Some(Det)
    else if s == "rs" then Some(Rs)
    else if s == "am" then Some(Am)
    else None
  }

  /** Every label names its parameter back, and none contains the key separator. */
  lemma LabelRoundTrip(p: Param)
    ensures ParamOfLabel(Label(p)) == Some(p)
    ensures '-' !in Label(p)
  {
    match KindOf(p)
    case SettingKind => SettingLabel(p);
    case PatchKind =>
    case ChannelKind => ChannelLabel(p);
    case OperatorKind =>
      if p in {Ar, D1, Sl, D2, Rr} { EnvelopeLabel(p); }
      else if p in {Tl, Mul, Det} { OperatorLabel(p); }
      else { ModulationLabel(p); }
  }

  lemma SettingLabel(p: Param)
    requires IsSettingParam(p)
    ensures ParamOfLabel(Label(p)) == Some(p) && '-' !in Label(p)
  {
  }

  lemma ChannelLabel(p: Param)
    requires IsChannelParam(p)
    ensures ParamOfLabel(Label(p)) == Some(p) && '-' !in Label(p)
  {
  }

  lemma EnvelopeLabel(p: Param)
    requires p == Ar || p == D1 || p == Sl || p == D2 || p == Rr
    ensures ParamOfLabel(Label(p)) == Some(p) && '-' !in Label(p)
  {
  }

  lemma OperatorLabel(p: Param)
    requires p == Tl || p == Mul || p == Det
    ensures ParamOfLabel(Label(p)) == Some(p) && '-' !in Label(p)
  {
  }

  lemma ModulationLabel(p: Param)
    requires p == Rs || p == Am
    ensures ParamOfLabel(Label(p)) == Some(p) && '-' !in Label(p)
  {
  }

  lemma LabelInjective(p: Param, q: Param)
    requires Label(p) == Label(q)
    ensures p == q
  {
    LabelRoundTrip(p);
    LabelRoundTrip(q);
  }

  /** `Object.values(Enum).indexOf(id)`: the position of a parameter in its enumeration. */
  function Position(p: Param): nat
  {
    match p
    case PatchZone => 0
    case Blend => 1
    case BlendMode => 2
    case PlayMode => 3
    case LedBrightness => 4
    case Transpose => 5
    case Tunning => 6
    case MidiReceiveChannel => 7
    case AttenuverterMode => 8
    case SeqSteps => 9
    case Lfo => 0
    case Al => 0
    case Fb => 1
    case Ams => 2
    case Fms => 3
    case St => 4
    case Ar => 0
    case D1 => 1
    case Sl => 2
    case D2 => 3
    case Rr => 4
    case Tl => 5
    case Mul => 6
    case Det => 7
    case Rs => 8
    case Am => 9
  }

  /** The position is the index into the enumeration's values. */
  lemma PositionIsIndex(p: Param)
    ensures IsSettingParam(p) ==> Position(p) < 10 && SettingParams[Position(p)] == p
    ensures IsChannelParam(p) ==> Position(p) < 5 && ChannelParams[Position(p)] == p
    ensures IsOperatorParam(p) ==> Position(p) < 10 && OperatorParams[Position(p)] == p
  {
  }

  function Bitness(p: Param): (r: nat)
    ensures 1 <= r <= 7
  {
    match p
    case PatchZone => 7
    case Blend => 7
    case BlendMode => 7
    case PlayMode => 7
    case LedBrightness => 7
    case Transpose => 7
    case Tunning => 7
    case MidiReceiveChannel => 7
    case AttenuverterMode => 7
    case SeqSteps => 7
    case Lfo => 3
    case St => 2
    case Ams => 2
    case Fms => 3
    case Al => 3
    case Fb => 3
    case Ar => 5
    case D1 => 5
    case Sl => 4
    case D2 => 5
    case Rr => 4
    case Tl => 7
    case Mul => 4
    case Det => 3
    case Rs => 2
    case Am => 1
  }

  function Title(p: Param): string
  {
    match p
    case PatchZone => "Patch Zone"
    case Blend => "Blend"
    case BlendMode => "Blend Mode"
    case PlayMode => "Play Mode"
    case LedBrightness => "Led Brightness"
    case Transpose => "Transpose"
    case Tunning => "Tunning"
    case MidiReceiveChannel => "Midi Receive Channel"
    case AttenuverterMode => "Attenuverter Mode"
    case SeqSteps => "Seq Mode steps"
    case Lfo => "Low Frequency Oscillator"
    case St => "Stereo Mode"
    case Ams => "Amplitude Modulation Sensitivity"
    case Fms => "Frequency Modulation Sensitivity"
    case Al => "Algorithm"
    case Fb => "Feedback (op1)"
    case Ar => "Attack Rate (angle)"
    case D1 => "Decay1 Rate (angle)"
    case Sl => "Sustain Level (attenuation)"
    case D2 => "Decay2 Rate (angle)"
    case Rr => "Release Rate (angle)"
    case Tl => "Total Level (attenuation)"
    case Mul => "Multiplier"
    case Det => "Detune"
    case Rs => "Rate Scaling"
    case Am => "Amplitude Modulation"
  }

  const PlayModeNames: seq<string> := ["MONO", "DUO", "TRIO", "CHORD", "SEQ", "RAND", "POLY"]
  const MidiChannelNames: seq<string> :=
    ["CH1", "CH2", "CH3", "CH4", "CH5", "CH6", "CH7", "CH8", "CH9", "CH10",
     "CH11", "CH12", "CH13", "CH14", "CH15", "CH16", "OMNI", "FORWARD", "MULTITRACK"]
  const StepNames: seq<string> :=
    ["1", "2", "3", "4", "5", "6", "7", "8", "9", "10", "11", "12", "13", "14", "15", "16"]

  /** PlayModeEnum.POLY. */
  const POLY := 6

  function GetParamOptions(p: Param): (r: seq<string>)
    ensures |r| > 0 <==> p in {PatchZone, BlendMode, PlayMode, MidiReceiveChannel, AttenuverterMode, SeqSteps}
    ensures p == PlayMode ==> |r| == 7 && r[POLY] == "POLY"
    ensures p == SeqSteps ==> |r| == 16
  {
    match p
    case PatchZone => ["A- B", "B - C", "C - D"]
    case BlendMode => ["KNOB ONLY", "KNOB + X MOD", "X MOD"]
    case PlayMode => PlayModeNames
    case MidiReceiveChannel => MidiChannelNames
    case AttenuverterMode => ["AUTO", "OFFSET", "ATTENUVERTER"]
    case SeqSteps => StepNames
    case _ => []
  }

  const CH_PARAM_OFFSET := 10
  const OP_PARAM_OFFSET := 40
  const CH_BINDING_OFFSET := 10
  const OP_BINDING_OFFSET := 20

  /** getParamMidiCc of context.tsx. `playMode` is the table's `pm-0-0-0`
      entry (None when absent); operator parameters switch regime when it is POLY. */
  function GetParamMidiCc(p: Param, playMode: Option<int>, op: OperatorId, pid: PatchId, cid: ChannelId): (a: Address)
    ensures 0 <= a.ch < 16 && 0 <= a.cc < 100
  {
    if IsSettingParam(p) then Address(15, 0 + Position(p))
    else if IsPatchParam(p) then Address(pid * 4, 9)
    else if IsChannelParam(p) then Address(pid * 4, CH_PARAM_OFFSET + cid * |ChannelParams| + Position(p))
    else if playMode == Some(POLY) then Address(0, OP_PARAM_OFFSET + op * |OperatorParams| + Position(p))
    else Address(pid * 4 + op, OP_PARAM_OFFSET + cid * |OperatorParams| + Position(p))
  }

  /** getParamBindingIndex of context.tsx: `bl`, the LFO, every channel
      parameter and every operator parameter are bindable. */
  function GetParamBindingIndex(p: Param, op: OperatorId): (r: Option<int>)
    ensures r.Some? ==> 0 < r.value < 64
  {
    if p == Blend then Some(1)
    else if p == Lfo then Some(2)
    else if IsChannelParam(p) then Some(CH_BINDING_OFFSET + Position(p))
    else if IsOperatorParam(p) then Some(OP_BINDING_OFFSET + |OperatorParams| * op + Position(p))
    else None
  }

  /** encodeKey: zero the indices a parameter kind does not use. The id is a
      string; one that is no label of this version is treated as an operator
      parameter, as the fall-through of the source does. */
  function EncodeKey(id: string, pid: PatchId, cid: ChannelId, op: OperatorId): (k: Key)
    ensures k.id == id
  {
    match ParamOfLabel(id)
    case Some(p) =>
      if IsSettingParam(p) then Key(id, 0, 0, 0)
      else if IsPatchParam(p) then Key(id, pid, 0, 0)
      else if IsChannelParam(p) then Key(id, pid, cid, 0)
      else Key(id, pid, cid, op)
    case None => Key(id, pid, cid, op)
  }

  /** The key of one instance of a parameter of this version: its label with
      the indices its kind uses, the others zero. */
  function KeyOf(p: Param, pid: PatchId, cid: ChannelId, op: OperatorId): Key
  {
    match KindOf(p)
    case SettingKind => Key(Label(p), 0, 0, 0)
    case PatchKind => Key(Label(p), pid, 0, 0)
    case ChannelKind => Key(Label(p), pid, cid, 0)
    case OperatorKind => Key(Label(p), pid, cid, op)
  }

  /** An instance key's id names its parameter back and has no '-'. */
  lemma KeyOfNames(p: Param, pid: PatchId, cid: ChannelId, op: OperatorId)
    ensures ParamOfLabel(KeyOf(p, pid, cid, op).id) == Some(p) && '-' !in KeyOf(p, pid, cid, op).id
  {
    LabelRoundTrip(p);
  }

  /** encodeKey applied to a parameter's label computes that instance's key:
      settings keep no index, patch parameters only the patch, channel
      parameters the patch and channel, operator parameters all three. */
  lemma {:induction false} EncodeKeyCanonical(p: Param, pid: PatchId, cid: ChannelId, op: OperatorId)
    ensures EncodeKey(Label(p), pid, cid, op) == KeyOf(p, pid, cid, op)
  {
    LabelRoundTrip(p);
  }

  /** Encoding is idempotent: re-encoding a key's own parts gives the key. */
  lemma {:induction false} EncodeKeyIdempotent(id: string, pid: PatchId, cid: ChannelId, op: OperatorId)
    ensures var k := EncodeKey(id, pid, cid, op); EncodeKey(k.id, k.pid, k.cid, k.op) == k
  {
  }

  /** The flat-key round trip: decoding the string of an encoded key gives the
      parameter's label with its canonical indices. */
  lemma {:induction false} FlatKeyRoundTrip(p: Param, pid: PatchId, cid: ChannelId, op: OperatorId)
    ensures var d := DecodeKey(KeyString(KeyOf(p, pid, cid, op)));
      && d.id == Label(p)
      && d.pid == Some(if IsSettingParam(p) then 0 else pid)
      && d.cid == Some(if IsSettingParam(p) || IsPatchParam(p) then 0 else cid)
      && d.op == Some(if IsOperatorParam(p) then op else 0)
  {
    LabelRoundTrip(p);
    EncodeKeyCanonical(p, pid, cid, op);
    DecodeKeyString(KeyOf(p, pid, cid, op));
  }

  /** A key the editor can hold: the label of a parameter of this version,
      with its canonical indices. */
  predicate IsLegacyKey(k: Key)
  {
    ParamOfLabel(k.id).Some? && EncodeKey(k.id, k.pid, k.cid, k.op) == k
  }

  /** The parameter a legacy key belongs to. */
  function ParamOfKey(k: Key): (p: Param)
    requires IsLegacyKey(k)
    ensures Label(p) == k.id
  {
    var p := ParamOfLabel(k.id).value;
    LabelOfParam(k.id, p);
    p
  }

  /** The converse: a string that names a parameter is that parameter's label. */
  lemma LabelOfParam(s: string, p: Param)
    requires ParamOfLabel(s) == Some(p)
    ensures Label(p) == s
  {
    match KindOf(p)
    case SettingKind => SettingOfLabel(s, p);
    case PatchKind =>
    case ChannelKind => ChannelOfLabel(s, p);
    case OperatorKind =>
      if p in {Ar, D1, Sl, D2, Rr} { EnvelopeOfLabel(s, p); } else { OperatorOfLabel(s, p); }
  }

  lemma SettingOfLabel(s: string, p: Param)
    requires ParamOfLabel(s) == Some(p) && IsSettingParam(p)
    ensures Label(p) == s
  {
  }

  lemma ChannelOfLabel(s: string, p: Param)
    requires ParamOfLabel(s) == Some(p) && IsChannelParam(p)
    ensures Label(p) == s
  {
  }

  lemma EnvelopeOfLabel(s: string, p: Param)
    requires ParamOfLabel(s) == Some(p) && (p == Ar || p == D1 || p == Sl || p == D2 || p == Rr)
    ensures Label(p) == s
  {
  }

  lemma OperatorOfLabel(s: string, p: Param)
    requires ParamOfLabel(s) == Some(p) && (p == Tl || p == Mul || p == Det || p == Rs || p == Am)
    ensures Label(p) == s
  {
  }

  /** Every label of this version is at most three characters long. */
  lemma ShortLabel(p: Param)
    ensures |Label(p)| <= 3
  {
  }

  /** A longer string is no label: encodeKey files it with the operator parameters. */
  lemma NotALabel(s: string)
    requires |s| > 3
    ensures ParamOfLabel(s) == None
  {
    if ParamOfLabel(s).Some? {
      ShortLabel(ParamOfLabel(s).value);
    }
  }

  /** Which keys are legacy keys: exactly the encodings of legacy parameters. */
  lemma {:induction false} LegacyKeyIsEncoding(k: Key)
    ensures IsLegacyKey(k) <==> exists p: Param :: Label(p) == k.id && KeyOf(p, k.pid, k.cid, k.op) == k
  {
    if IsLegacyKey(k) {
      var p := ParamOfKey(k);
      assert Label(p) == k.id && KeyOf(p, k.pid, k.cid, k.op) == k;
    }
    if exists p: Param :: Label(p) == k.id && KeyOf(p, k.pid, k.cid, k.op) == k {
      var p :| Label(p) == k.id && KeyOf(p, k.pid, k.cid, k.op) == k;
      LabelRoundTrip(p);
    }
  }

  datatype ParamMeta = ParamMeta(key: Key, title: string, id: string, cc: int, ch: int,
                                 max: int, bits: int, options: seq<string>, bi: Option<int>)

  /** getParamMeta of context.tsx: the key, address, tables and binding index
      of one instance; `max` is computed as `127 >> (7 - bits)`, which is the
      largest value a field of `bits` bits holds. */
  function GetParamMeta(p: Param, playMode: Option<int>, op: OperatorId, pid: PatchId, cid: ChannelId): (r: ParamMeta)
    ensures r.key == KeyOf(p, pid, cid, op) && r.id == Label(p)
    ensures Address(r.ch, r.cc) == GetParamMidiCc(p, playMode, op, pid, cid)
    ensures r.bits == Bitness(p) && 1 <= r.bits <= 7 && r.max == Pow2(r.bits) - 1
    ensures r.bi == GetParamBindingIndex(p, op)
  {
    var a := GetParamMidiCc(p, playMode, op, pid, cid);
    var bits := Bitness(p);
    MaxByShift(bits);
    EncodeKeyCanonical(p, pid, cid, op);
    ParamMeta(EncodeKey(Label(p), pid, cid, op), Title(p), Label(p), a.cc, a.ch,
              Shr(127, 7 - bits), bits, GetParamOptions(p), GetParamBindingIndex(p, op))
  }

  // ---------------------------------------------------------------------------
  // 7-bit value scaling

  /** `127 >> (7 - bits)` is 2^bits - 1 for every width 1..7. */
  lemma MaxByShift(bits: int)
    requires 1 <= bits <= 7
    ensures Shr(127, 7 - bits) == Pow2(bits) - 1
  {
    assert Pow2(1) == 2 && Pow2(2) == 4 && Pow2(3) == 8 && Pow2(4) == 16;
    assert Pow2(5) == 32 && Pow2(6) == 64 && Pow2(7) == 128;
  }

  lemma ScaledBound(val: int, bits: int)
    requires 1 <= bits <= 7 && 0 <= val <= Pow2(bits) - 1
    ensures 0 <= val * Pow2(7 - bits) <= 127
  {
    var s := 7 - bits;
    var k := Pow2(s);
    var m := Pow2(bits);
    Pow2Add(bits, s);
    assert Pow2(7) == 128;
    assert m * k == 128;
    assert (m - 1) * k == m * k - k;
    MulMonotone(val, m - 1, k);
  }

  /** A legal value sent as `val << (7 - bits)` stays within a CC value, and
      the firmware's `>> (7 - bits)` gets the value back. */
  lemma ScaleRoundTrip(val: int, bits: int)
    requires 1 <= bits <= 7 && 0 <= val <= Pow2(bits) - 1
    ensures 0 <= Shl(val, 7 - bits) <= 127
    ensures Shr(Shl(val, 7 - bits), 7 - bits) == val
  {
    var s := 7 - bits;
    var k := Pow2(s);
    ScaledBound(val, bits);
    ShlSmall(val, s);
    assert Int32(val * k) == val * k;
    MulDivCancel(val, k);
  }

  // ---------------------------------------------------------------------------
  // Addresses

  /** Settings go to channel 15 at their enumeration position; channel
      parameters (st included) occupy CCs 10..39. */
  lemma {:induction false} LegacyAddressBlocks(p: Param, playMode: Option<int>, op: OperatorId, pid: PatchId, cid: ChannelId)
    ensures IsSettingParam(p) ==> GetParamMidiCc(p, playMode, op, pid, cid) == Address(15, Position(p))
    ensures IsPatchParam(p) ==> GetParamMidiCc(p, playMode, op, pid, cid) == Address(pid * 4, 9)
    ensures IsChannelParam(p) ==>
      var a := GetParamMidiCc(p, playMode, op, pid, cid);
      a.ch == pid * 4 && 10 <= a.cc < 40 && (a.cc - 10) / 5 == cid && (a.cc - 10) % 5 == Position(p)
  {
    PositionIsIndex(p);
  }

  /** Operator parameters collapse onto (0, 40 + op*10 + idx) exactly when
      `pm-0-0-0` holds POLY, and use (pid*4 + op, 40 + cid*10 + idx) otherwise. */
  lemma {:induction false} LegacyOperatorAddress(p: Param, playMode: Option<int>, op: OperatorId, pid: PatchId, cid: ChannelId)
    requires IsOperatorParam(p)
    ensures playMode == Some(POLY) ==>
      GetParamMidiCc(p, playMode, op, pid, cid) == Address(0, 40 + op * 10 + Position(p))
    ensures playMode != Some(POLY) ==>
      GetParamMidiCc(p, playMode, op, pid, cid) == Address(pid * 4 + op, 40 + cid * 10 + Position(p))
    ensures Position(p) < 10
  {
    PositionIsIndex(p);
  }

  /** A fully qualified instance of this version, with unused indices zero. */
  datatype Instance = Instance(p: Param, pid: PatchId, cid: ChannelId, op: OperatorId)

  predicate Canonical(i: Instance)
  {
    match KindOf(i.p)
    case SettingKind => i.pid == 0 && i.cid == 0 && i.op == 0
    case PatchKind => i.cid == 0 && i.op == 0
    case ChannelKind => i.op == 0
    case OperatorKind => true
  }

  /** The decoder of the non-POLY regime. */
  function InstanceAt(a: Address): (r: Option<Instance>)
    ensures r.Some? ==> Canonical(r.value)
  {
    if a.ch == 15 && 0 <= a.cc < 10 then Some(Instance(SettingParams[a.cc], 0, 0, 0))
    else if !(0 <= a.ch < 16) then None
    else if a.cc == 9 then
      if a.ch % 4 == 0 then Some(Instance(Lfo, a.ch / 4, 0, 0)) else None
    else if 10 <= a.cc < 40 then
      if a.ch % 4 == 0 then Some(Instance(ChannelParams[(a.cc - 10) % 5], a.ch / 4, (a.cc - 10) / 5, 0))
      else None
    else if 40 <= a.cc < 100 then
      Some(Instance(OperatorParams[(a.cc - 40) % 10], a.ch / 4, (a.cc - 40) / 10, a.ch % 4))
    else None
  }

  /** Outside POLY this version has no collision at all: every canonical
      instance decodes back from its address. */
  lemma {:induction false} LegacyAddressRoundTrip(i: Instance, playMode: Option<int>)
    requires Canonical(i) && playMode != Some(POLY)
    ensures InstanceAt(GetParamMidiCc(i.p, playMode, i.op, i.pid, i.cid)) == Some(i)
  {
    PositionIsIndex(i.p);
    var a := GetParamMidiCc(i.p, playMode, i.op, i.pid, i.cid);
    match KindOf(i.p)
    case SettingKind =>
    case PatchKind =>
    case ChannelKind =>
      assert a == Address(i.pid * 4, 10 + i.cid * 5 + Position(i.p));
      assert (a.cc - 10) / 5 == i.cid && (a.cc - 10) % 5 == Position(i.p);
    case OperatorKind =>
      assert a == Address(i.pid * 4 + i.op, 40 + i.cid * 10 + Position(i.p));
      assert (a.cc - 40) / 10 == i.cid && (a.cc - 40) % 10 == Position(i.p);
      assert a.ch / 4 == i.pid && a.ch % 4 == i.op;
  }

  lemma LegacyAddressInjective(i: Instance, j: Instance, playMode: Option<int>)
    requires Canonical(i) && Canonical(j) && playMode != Some(POLY)
    requires GetParamMidiCc(i.p, playMode, i.op, i.pid, i.cid) == GetParamMidiCc(j.p, playMode, j.op, j.pid, j.cid)
    ensures i == j
  {
    LegacyAddressRoundTrip(i, playMode);
    LegacyAddressRoundTrip(j, playMode);
  }

  // ---------------------------------------------------------------------------
  // Binding indices

  function BindingAt(bi: int): Option<(Param, OperatorId)>
  {
    if bi == 1 then Some((Blend, 0))
    else if bi == 2 then Some((Lfo, 0))
    else if 10 <= bi < 15 then Some((ChannelParams[bi - 10], 0))
    else if 20 <= bi < 60 then Some((OperatorParams[(bi - 20) % 10], (bi - 20) / 10))
    else None
  }

  /** Legacy binding indices decode back to (parameter, operator), so they are
      pairwise distinct, never 0, and below 64. */
  lemma {:induction false} LegacyBindingRoundTrip(p: Param, op: OperatorId)
    ensures GetParamBindingIndex(p, op).Some? <==> p == Blend || p == Lfo || IsChannelParam(p) || IsOperatorParam(p)
    ensures GetParamBindingIndex(p, op).Some? ==>
      BindingAt(GetParamBindingIndex(p, op).value) == Some((p, if IsOperatorParam(p) then op else 0))
  {
    PositionIsIndex(p);
  }
}
