/** The firmware's packed image of the editor state and its checksum
    (src/utils/checksum.ts, `calculate_crc32`): the four patches, then the
    three binding slots, then the settings, laid out as the C structs of the
    file's header describe them, followed by the CRC-32 of module Crc over
    that image.

    Each item of the image is the 32-bit pattern of the number the source
    pushes, which is all that `crc32_push` looks at. Table entries are read
    through `encodeKey`; an absent entry is JavaScript's `undefined`, which
    the bitwise operators read as 0. The binding index of a parameter is the
    one of the firmware version's getParamBindingIndex. */
module Checksum {
  import opened Common
  import opened FlatKey
  import Params
  import LegacyParams
  import Crc

  // ---------------------------------------------------------------------------
  // Reading the parameter table

  /** The key `encodeKey(id, pid, cid, op)` builds for a firmware parameter,
      by the classification of context.tsx's enumerations: its settings lose
      all three indices, the LFO keeps the patch, the channel parameters
      (`st` among them) keep patch and channel, and everything else, the
      settings context.tsx does not know included, keeps all three. */
  function KeyFor(p: Params.Param, pid: PatchId, cid: ChannelId, op: OperatorId): (k: Key)
    ensures k.id == Params.Label(p)
    ensures (k.pid == pid || k.pid == 0) && (k.cid == cid || k.cid == 0) && (k.op == op || k.op == 0)
  {
    match p
    case PlayMode | LedBrightness | Transpose | Tunning | MidiReceiveChannel | SeqSteps =>
      Key(Params.Label(p), 0, 0, 0)
    case Lfo => Key(Params.Label(p), pid, 0, 0)
    case Al | Fb | Ams | Fms | St => Key(Params.Label(p), pid, cid, 0)
    case _ => Key(Params.Label(p), pid, cid, op)
  }

  /** The parameter of the same label among context.tsx's enumerations, if any. */
  function LegacyOf(p: Params.Param): Option<LegacyParams.Param>
  {
    match p
    case PlayMode => Some(LegacyParams.PlayMode)
    case LedBrightness => Some(LegacyParams.LedBrightness)
    case Transpose => Some(LegacyParams.Transpose)
    case Tunning => Some(LegacyParams.Tunning)
    case MidiReceiveChannel => Some(LegacyParams.MidiReceiveChannel)
    case SeqSteps => Some(LegacyParams.SeqSteps)
    case Lfo => Some(LegacyParams.Lfo)
    case Al => Some(LegacyParams.Al)
    case Fb => Some(LegacyParams.Fb)
    case Ams => Some(LegacyParams.Ams)
    case Fms => Some(LegacyParams.Fms)
    case St => Some(LegacyParams.St)
    case Ar => Some(LegacyParams.Ar)
    case D1 => Some(LegacyParams.D1)
    case Sl => Some(LegacyParams.Sl)
    case D2 => Some(LegacyParams.D2)
    case Rr => Some(LegacyParams.Rr)
    case Tl => Some(LegacyParams.Tl)
    case Mul => Some(LegacyParams.Mul)
    case Det => Some(LegacyParams.Det)
    case Rs => Some(LegacyParams.Rs)
    case Am => Some(LegacyParams.Am)
    case Quantize | Legato | Velocity | Portamento | Polyphony => None
  }

  /** The legacy parameter carries the same label; a label with no legacy
      parameter is longer than any legacy label. */
  lemma LegacyOfLabel(p: Params.Param)
    ensures LegacyOf(p).Some? ==> LegacyParams.Label(LegacyOf(p).value) == Params.Label(p)
    ensures LegacyOf(p).None? ==> |Params.Label(p)| > 3
  {
    match p
    case PlayMode | LedBrightness | Transpose | Tunning | MidiReceiveChannel | SeqSteps | Lfo =>
      SharedSettingLabel(p);
    case Al | Fb | Ams | Fms | St => SharedChannelLabel(p);
    case Ar | D1 | Sl | D2 | Rr => SharedEnvelopeLabel(p);
    case Tl | Mul | Det | Rs | Am => SharedOperatorLabel(p);
    case Quantize | Legato | Velocity | Portamento | Polyphony => NewSettingLabel(p);
  }

  lemma SharedSettingLabel(p: Params.Param)
    requires p == Params.PlayMode || p == Params.LedBrightness || p == Params.Transpose || p == Params.Tunning
          || p == Params.MidiReceiveChannel || p == Params.SeqSteps || p == Params.Lfo
    ensures LegacyOf(p).Some? && LegacyParams.Label(LegacyOf(p).value) == Params.Label(p)
  {
  }

  lemma SharedChannelLabel(p: Params.Param)
    requires p == Params.Al || p == Params.Fb || p == Params.Ams || p == Params.Fms || p == Params.St
    ensures LegacyOf(p).Some? && LegacyParams.Label(LegacyOf(p).value) == Params.Label(p)
  {
  }

  lemma SharedEnvelopeLabel(p: Params.Param)
    requires p == Params.Ar || p == Params.D1 || p == Params.Sl || p == Params.D2 || p == Params.Rr
    ensures LegacyOf(p).Some? && LegacyParams.Label(LegacyOf(p).value) == Params.Label(p)
  {
  }

  lemma SharedOperatorLabel(p: Params.Param)
    requires p == Params.Tl || p == Params.Mul || p == Params.Det || p == Params.Rs || p == Params.Am
    ensures LegacyOf(p).Some? && LegacyParams.Label(LegacyOf(p).value) == Params.Label(p)
  {
  }

  lemma NewSettingLabel(p: Params.Param)
    requires p == Params.Quantize || p == Params.Legato || p == Params.Velocity
          || p == Params.Portamento || p == Params.Polyphony
    ensures LegacyOf(p).None? && |Params.Label(p)| > 3
  {
  }

  /** KeyFor keeps the indices the legacy kind of the label keeps, and all
      three for a label the legacy enumerations lack. */
  lemma KeyForShape(p: Params.Param, pid: PatchId, cid: ChannelId, op: OperatorId)
    ensures match LegacyOf(p)
      case Some(lp) =>
        KeyFor(p, pid, cid, op) ==
          (if LegacyParams.IsSettingParam(lp) then Key(Params.Label(p), 0, 0, 0)
           else if LegacyParams.IsPatchParam(lp) then Key(Params.Label(p), pid, 0, 0)
           else if LegacyParams.IsChannelParam(lp) then Key(Params.Label(p), pid, cid, 0)
           else Key(Params.Label(p), pid, cid, op))
      case None => KeyFor(p, pid, cid, op) == Key(Params.Label(p), pid, cid, op)
  {
    match p
    case PlayMode | LedBrightness | Transpose | Tunning | MidiReceiveChannel | SeqSteps =>
      SettingKey(p, pid, cid, op);
    case Lfo =>
    case Al | Fb | Ams | Fms | St => ChannelKey(p, pid, cid, op);
    case Ar | D1 | Sl | D2 | Rr => EnvelopeKey(p, pid, cid, op);
    case Tl | Mul | Det | Rs | Am => OperatorKey(p, pid, cid, op);
    case Quantize | Legato | Velocity | Portamento | Polyphony => NewSettingKey(p, pid, cid, op);
  }

  lemma SettingKey(p: Params.Param, pid: PatchId, cid: ChannelId, op: OperatorId)
    requires p == Params.PlayMode || p == Params.LedBrightness || p == Params.Transpose
          || p == Params.Tunning || p == Params.MidiReceiveChannel || p == Params.SeqSteps
    ensures LegacyOf(p).Some? && LegacyParams.IsSettingParam(LegacyOf(p).value)
    ensures KeyFor(p, pid, cid, op) == Key(Params.Label(p), 0, 0, 0)
  {
  }

  lemma ChannelKey(p: Params.Param, pid: PatchId, cid: ChannelId, op: OperatorId)
    requires p == Params.Al || p == Params.Fb || p == Params.Ams || p == Params.Fms || p == Params.St
    ensures LegacyOf(p).Some? && LegacyParams.IsChannelParam(LegacyOf(p).value)
    ensures !LegacyParams.IsSettingParam(LegacyOf(p).value) && !LegacyParams.IsPatchParam(LegacyOf(p).value)
    ensures KeyFor(p, pid, cid, op) == Key(Params.Label(p), pid, cid, 0)
  {
  }

  lemma EnvelopeKey(p: Params.Param, pid: PatchId, cid: ChannelId, op: OperatorId)
    requires p == Params.Ar || p == Params.D1 || p == Params.Sl || p == Params.D2 || p == Params.Rr
    ensures LegacyOf(p).Some? && LegacyParams.IsOperatorParam(LegacyOf(p).value)
    ensures KeyFor(p, pid, cid, op) == Key(Params.Label(p), pid, cid, op)
  {
  }

  lemma OperatorKey(p: Params.Param, pid: PatchId, cid: ChannelId, op: OperatorId)
    requires p == Params.Tl || p == Params.Mul || p == Params.Det || p == Params.Rs || p == Params.Am
    ensures LegacyOf(p).Some? && LegacyParams.IsOperatorParam(LegacyOf(p).value)
    ensures KeyFor(p, pid, cid, op) == Key(Params.Label(p), pid, cid, op)
  {
  }

  lemma NewSettingKey(p: Params.Param, pid: PatchId, cid: ChannelId, op: OperatorId)
    requires p == Params.Quantize || p == Params.Legato || p == Params.Velocity
          || p == Params.Portamento || p == Params.Polyphony
    ensures LegacyOf(p).None?
    ensures KeyFor(p, pid, cid, op) == Key(Params.Label(p), pid, cid, op)
  {
  }

  /** KeyFor is encodeKey on the parameter's label: a label both versions
      share is classified by the legacy enumerations, and the five settings
      the legacy enumerations lack fall through to the operator case. */
  lemma KeyForIsEncodeKey(p: Params.Param, pid: PatchId, cid: ChannelId, op: OperatorId)
    ensures KeyFor(p, pid, cid, op) == LegacyParams.EncodeKey(Params.Label(p), pid, cid, op)
  {
    KeyForShape(p, pid, cid, op);
    LegacyOfLabel(p);
    match LegacyOf(p)
    case Some(lp) =>
      LegacyParams.LabelRoundTrip(lp);
      LegacyParams.EncodeKeyCanonical(lp, pid, cid, op);
    case None =>
      LegacyParams.NotALabel(Params.Label(p));
  }

  /** `get(id, pid, cid, op)`: the entry under the encoded key, None for `undefined`. */
  function Get(ms: map<Key, int>, p: Params.Param, pid: PatchId, cid: ChannelId, op: OperatorId): Option<int>
  {
    var k := KeyFor(p, pid, cid, op);
    if k in ms then Some(ms[k]) else None
  }

  /** The 32-bit pattern ToInt32 makes of a value; `undefined` becomes 0. */
  function Word(v: Option<int>): bv32
  {
    match v
    case None => 0
    case Some(x) => ToBv32(x)
  }

  /** The reader calculate_crc32 lays the image out with: `get` over one table. */
  type Getter = (Params.Param, PatchId, ChannelId, OperatorId) -> Option<int>

  function Reader(ms: map<Key, int>): (get: Getter)
    ensures forall p, pid, cid, op :: get(p, pid, cid, op) == Get(ms, p, pid, cid, op)
  {
    (p: Params.Param, pid: PatchId, cid: ChannelId, op: OperatorId) => Get(ms, p, pid, cid, op)
  }

  function W(get: Getter, p: Params.Param, pid: PatchId, cid: ChannelId, op: OperatorId): bv32
  {
    Word(get(p, pid, cid, op))
  }

  /** A small stored value keeps its magnitude as a 32-bit pattern. */
  lemma WordOfSmall(v: int, bound: bv32)
    requires 0 <= v < bound as int && bound <= 256
    ensures Word(Some(v)) < bound
  {
    assert v % 0x1_0000_0000 == v;
  }

  // ---------------------------------------------------------------------------
  // Patch bytes

  /** The ten operator fields (operator_t). */
  datatype OpFields = OpFields(ar: bv32, d1: bv32, sl: bv32, d2: bv32, rr: bv32,
                               tl: bv32, mul: bv32, det: bv32, rs: bv32, am: bv32)

  function OpFieldsOf(get: Getter, pid: PatchId, cid: ChannelId, op: OperatorId): OpFields
  {
    OpFields(W(get, Params.Ar, pid, cid, op), W(get, Params.D1, pid, cid, op),
             W(get, Params.Sl, pid, cid, op), W(get, Params.D2, pid, cid, op),
             W(get, Params.Rr, pid, cid, op), W(get, Params.Tl, pid, cid, op),
             W(get, Params.Mul, pid, cid, op), W(get, Params.Det, pid, cid, op),
             W(get, Params.Rs, pid, cid, op), W(get, Params.Am, pid, cid, op))
  }

  /** DT1_MUL, TL, RS_AR, AM_D1R, D2R, D1L_RR. */
  function PackOp(f: OpFields): (b: seq<bv32>)
    ensures |b| == 6
  {
    [f.mul | (f.det << 4), f.tl, f.ar | (f.rs << 6), f.d1 | (f.am << 7), f.d2, f.rr | (f.sl << 4)]
  }

  /** How the firmware's bit fields read the six bytes back. */
  function UnpackOp(b: seq<bv32>): OpFields
    requires |b| == 6
  {
    OpFields(ar := b[2] & 31, d1 := b[3] & 31, sl := (b[5] >> 4) & 15, d2 := b[4] & 31,
             rr := b[5] & 15, tl := b[1] & 127, mul := b[0] & 15, det := (b[0] >> 4) & 7,
             rs := (b[2] >> 6) & 3, am := (b[3] >> 7) & 1)
  }

  /** Every field within the width of its bit field. */
  predicate OpInRange(f: OpFields)
  {
    f.ar < 32 && f.d1 < 32 && f.sl < 16 && f.d2 < 32 && f.rr < 16
    && f.tl < 128 && f.mul < 16 && f.det < 8 && f.rs < 4 && f.am < 2
  }

  /** In-range fields pack into bytes and read back unchanged. */
  lemma OpRoundTrip(f: OpFields)
    requires OpInRange(f)
    ensures UnpackOp(PackOp(f)) == f
    ensures forall j :: 0 <= j < 6 ==> PackOp(f)[j] < 256
  {
  }

  /** The channel fields (ch_fb_alg_t, ch_lr_ams_fms_t). */
  datatype ChannelFields = ChannelFields(al: bv32, fb: bv32, ams: bv32, fms: bv32, st: bv32)

  function ChannelFieldsOf(get: Getter, pid: PatchId, cid: ChannelId): ChannelFields
  {
    ChannelFields(W(get, Params.Al, pid, cid, 0), W(get, Params.Fb, pid, cid, 0),
                  W(get, Params.Ams, pid, cid, 0), W(get, Params.Fms, pid, cid, 0),
                  W(get, Params.St, pid, cid, 0))
  }

  function PackChannel(f: ChannelFields): seq<bv32>
  {
    [f.al | (f.fb << 3), f.fms | (f.ams << 3) | (f.st << 6)]
  }

  function UnpackChannel(b: seq<bv32>): ChannelFields
    requires |b| == 2
  {
    ChannelFields(al := b[0] & 7, fb := (b[0] >> 3) & 7, ams := (b[1] >> 3) & 3,
                  fms := b[1] & 7, st := (b[1] >> 6) & 3)
  }

  predicate ChannelInRange(f: ChannelFields)
  {
    f.al < 8 && f.fb < 8 && f.ams < 4 && f.fms < 8 && f.st < 4
  }

  lemma ChannelRoundTrip(f: ChannelFields)
    requires ChannelInRange(f)
    ensures UnpackChannel(PackChannel(f)) == f
    ensures PackChannel(f)[0] < 64 && PackChannel(f)[1] < 256
  {
  }

  /** lfo_t: `lfo === 0 ? 0 : lfo | 8`, the frequency with the enable bit. */
  function LfoByte(v: Option<int>): bv32
  {
    if v == Some(0) then 0 else Word(v) | 8
  }

  /** The LFO byte is 0 exactly when the stored frequency is 0; any other
      value, and an absent one, sets the enable bit. */
  lemma LfoByteZero(v: Option<int>)
    ensures LfoByte(v) == 0 <==> v == Some(0)
  {
  }

  /** The LFO byte carries the frequency in its low three bits and sets the
      enable bit exactly when the frequency is not 0. An absent entry is not
      `=== 0`, so it gives the enabled byte 8. */
  lemma LfoRoundTrip(v: int)
    requires 0 <= v < 8
    ensures LfoByte(Some(v)) & 7 == Word(Some(v))
    ensures (LfoByte(Some(v)) >> 3) & 1 == (if v == 0 then 0 else 1)
    ensures LfoByte(Some(v)) < 16
    ensures LfoByte(None) == 8
  {
    WordOfSmall(v, 8);
    if v == 0 {
      assert LfoByte(Some(v)) == 0;
    } else {
      assert LfoByte(Some(v)) == Word(Some(v)) | 8;
    }
  }

  /** `n` blocks one after the other, block 0 first: what a `for` loop that
      pushes `block(i)` for `i` from 0 to `n - 1` produces. */
  function Blocks(block: nat -> seq<bv32>, n: nat): seq<bv32>
    decreases n
  {
    if n == 0 then [] else Blocks(block, n - 1) + block(n - 1)
  }

  /** The operators of a channel, operator_t each. */
  function OpBlock(get: Getter, pid: PatchId, cid: ChannelId): nat -> seq<bv32>
  {
    (op: nat) => if op < 4 then PackOp(OpFieldsOf(get, pid, cid, op)) else []
  }

  /** channel_t: 26 bytes. */
  function ChannelBytes(get: Getter, pid: PatchId, cid: ChannelId): (r: seq<bv32>)
    ensures |r| == 26
  {
    BlocksLength(OpBlock(get, pid, cid), 6, 4);
    PackChannel(ChannelFieldsOf(get, pid, cid)) + Blocks(OpBlock(get, pid, cid), 4)
  }

  /** The channels of a patch. */
  function ChannelBlock(get: Getter, pid: PatchId): nat -> seq<bv32>
  {
    (cid: nat) => if cid < 6 then ChannelBytes(get, pid, cid) else []
  }

  /** patch_t: 157 bytes. */
  function PatchBytes(get: Getter, pid: PatchId): (r: seq<bv32>)
    ensures |r| == 157
  {
    BlocksLength(ChannelBlock(get, pid), 26, 6);
    [LfoByte(get(Params.Lfo, pid, 0, 0))] + Blocks(ChannelBlock(get, pid), 6)
  }

  /** The four patches. */
  function PatchBlock(get: Getter): nat -> seq<bv32>
  {
    (pid: nat) => if pid < 4 then PatchBytes(get, pid) else []
  }

  function PatchesBytes(get: Getter): (r: seq<bv32>)
    ensures |r| == 628
  {
    BlocksLength(PatchBlock(get), 157, 4);
    Blocks(PatchBlock(get), 4)
  }

  // ---------------------------------------------------------------------------
  // Binding bytes

  /** `getBinding`: 1 when the parameter has a binding index held by the slot. */
  function BindingBit(slot: seq<int>, p: Params.Param, op: OperatorId): (b: bv32)
    ensures b == 0 || b == 1
    ensures Params.GetParamBindingIndex(p, op).None? ==> b == 0
  {
    match Params.GetParamBindingIndex(p, op)
    case None => 0
    case Some(bi) => if bi in slot then 1 else 0
  }

  /** `getBinding` with the slot's list fixed, as one call of the bindings loop sees it. */
  type Binder = (Params.Param, OperatorId) -> bv32

  function SlotReader(slot: seq<int>): Binder
  {
    (p: Params.Param, op: OperatorId) => BindingBit(slot, p, op)
  }

  /** The binders of the three slots. */
  type Bindings = BindingKey -> Binder

  function BindingsReader(b: Slots): Bindings
  {
    (k: BindingKey) => SlotReader(Slot(b, k))
  }

  /** ch_bitmask_t's first byte: LFO, LR, FB, ALG, AMS, FMS. */
  function ChannelMask(bit: Binder): bv32
  {
    bit(Params.Lfo, 0) | (bit(Params.St, 0) << 1)
    | (bit(Params.Fb, 0) << 2) | (bit(Params.Al, 0) << 3)
    | (bit(Params.Ams, 0) << 4) | (bit(Params.Fms, 0) << 5)
  }

  /** op_bitmask_t: AR, D1R, D1L, D2R, TL, RR, DT1, MUL, then RS, AM. */
  function OpMask(bit: Binder, op: OperatorId): seq<bv32>
  {
    [bit(Params.Ar, op) | (bit(Params.D1, op) << 1)
     | (bit(Params.Sl, op) << 2) | (bit(Params.D2, op) << 3)
     | (bit(Params.Tl, op) << 4) | (bit(Params.Rr, op) << 5)
     | (bit(Params.Det, op) << 6) | (bit(Params.Mul, op) << 7),
     bit(Params.Rs, op) | (bit(Params.Am, op) << 1)]
  }

  /** The operators' mask bytes in a slot. */
  function OpMaskBlock(bit: Binder): nat -> seq<bv32>
  {
    (op: nat) => if op < 4 then OpMask(bit, op) else []
  }

  /** ch_bitmask_t: 9 bytes. */
  function SlotBytes(bit: Binder): (r: seq<bv32>)
    ensures |r| == 9
  {
    BlocksLength(OpMaskBlock(bit), 2, 4);
    [ChannelMask(bit)] + Blocks(OpMaskBlock(bit), 4)
  }

  /** `Object.keys(state.bindings)`: the slots in their insertion order. */
  const BindingKeys: seq<BindingKey> := [X, Y, Z]

  function SlotBlock(bits: Bindings): nat -> seq<bv32>
  {
    (i: nat) => if i < 3 then SlotBytes(bits(BindingKeys[i])) else []
  }

  function BindingsBytes(bits: Bindings): (r: seq<bv32>)
    ensures |r| == 27
  {
    BlocksLength(SlotBlock(bits), 9, 3);
    Blocks(SlotBlock(bits), 3)
  }

  // ---------------------------------------------------------------------------
  // Settings bytes

  /** `bit ? 1 : 0` for a number. */
  function Truthy(x: int): bv32
  {
    if x != 0 then 1 else 0
  }

  /** `seq.reduce((acc, bit, j) => acc | ((bit ? 1 : 0) << j), 0)`: the reduce
      over the whole row is the reduce over all but its last step, with the
      last step's bit ORed in at its index; the shift count is taken modulo
      32, as JavaScript does. */
  function RowMask(row: seq<int>): (m: bv32)
    ensures |row| <= 16 ==> m <= 0xFFFF
    decreases |row|
  {
    if |row| == 0 then 0
    else RowMask(row[..|row| - 1]) | (Truthy(row[|row| - 1]) << ((|row| - 1) % 32))
  }

  /** A row as its low byte then its high byte. */
  function RowBytes(row: seq<int>): seq<bv32>
  {
    [RowMask(row) & 0xff, (RowMask(row) >> 8) & 0xff]
  }

  /** The rows of the sequencer grid. */
  function RowBlock(sequence: seq<seq<int>>): nat -> seq<bv32>
  {
    (i: nat) => if i < |sequence| then RowBytes(sequence[i]) else []
  }

  /** The first three bytes of settings_t: play mode, MIDI channel, polyphony. */
  function SettingsHead(get: Getter): (r: seq<bv32>)
    ensures |r| == 3
  {
    [W(get, Params.PlayMode, 0, 0, 0), W(get, Params.MidiReceiveChannel, 0, 0, 0),
     W(get, Params.Polyphony, 0, 0, 0)]
  }

  /** A 7-bit setting with a one-bit switch in bit 7 above it. */
  function SwitchedByte(get: Getter, setting: Params.Param, switch: Params.Param): bv32
  {
    W(get, setting, 0, 0, 0) | (W(get, switch, 0, 0, 0) << 7)
  }

  /** The last five bytes of settings_t: each one-bit switch in bit 7 above a
      7-bit setting, then portamento and the step count. */
  function SettingsTail(get: Getter): (r: seq<bv32>)
    ensures |r| == 5
  {
    [SwitchedByte(get, Params.LedBrightness, Params.Quantize),
     SwitchedByte(get, Params.Transpose, Params.Legato),
     SwitchedByte(get, Params.Tunning, Params.Velocity),
     W(get, Params.Portamento, 0, 0, 0),
     W(get, Params.SeqSteps, 0, 0, 0)]
  }

  /** settings_t: 20 bytes. */
  function SettingsBytes(get: Getter, sequence: seq<seq<int>>): (r: seq<bv32>)
    requires 6 <= |sequence|
    ensures |r| == 20
  {
    RowWidths(sequence);
    BlocksLength(RowBlock(sequence), 2, 6);
    SettingsHead(get) + Blocks(RowBlock(sequence), 6) + SettingsTail(get)
  }

  /** The whole image: patches, then bindings, then settings. */
  function Layout(get: Getter, bits: Bindings, sequence: seq<seq<int>>): (r: seq<bv32>)
    requires 6 <= |sequence|
    ensures |r| == 675
  {
    PatchesBytes(get) + BindingsBytes(bits) + SettingsBytes(get, sequence)
  }

  // ---------------------------------------------------------------------------
  // Where each part sits in the image

  lemma {:induction false} BlocksLength(block: nat -> seq<bv32>, k: nat, n: nat)
    requires forall j :: 0 <= j < n ==> |block(j)| == k
    ensures |Blocks(block, n)| == k * n
  {
    if n > 0 {
      BlocksLength(block, k, n - 1);
    }
  }

  /** `piece` sits in `image` from index `a` on. */
  predicate Placed(image: seq<bv32>, a: int, piece: seq<bv32>)
  {
    0 <= a && a + |piece| <= |image| && image[a..a + |piece|] == piece
  }

  lemma PlacedLeft(init: seq<bv32>, last: seq<bv32>, a: int, piece: seq<bv32>)
    requires Placed(init, a, piece)
    ensures Placed(init + last, a, piece)
  {
    assert (init + last)[a..a + |piece|] == init[a..a + |piece|];
  }

  lemma PlacedRight(init: seq<bv32>, last: seq<bv32>)
    ensures Placed(init + last, |init|, last)
  {
    assert (init + last)[|init|..|init| + |last|] == last;
  }

  lemma PlacedSame(image: seq<bv32>, a: int, piece: seq<bv32>, piece': seq<bv32>)
    requires Placed(image, a, piece) && piece == piece'
    ensures Placed(image, a, piece')
  {
  }

  lemma PlacedFirst(init: seq<bv32>, last: seq<bv32>)
    ensures Placed(init + last, 0, init)
  {
    assert (init + last)[0..|init|] == init;
  }

  /** A piece placed at `c` of a part placed at `a` of `image` sits at `a + c` of `image`. */
  lemma Within(image: seq<bv32>, a: int, part: seq<bv32>, c: int, piece: seq<bv32>)
    requires Placed(image, a, part) && Placed(part, c, piece)
    ensures Placed(image, a + c, piece)
  {
    var d := c + |piece|;
    forall i | 0 <= i < |piece|
      ensures image[a + c + i] == piece[i]
    {
      assert part[c..d][i] == part[c + i];
      assert image[a..a + |part|][c + i] == image[a + c + i];
    }
    assert image[a + c..a + d] == piece;
  }

  /** Block `i` of a run of `n` blocks of width `k` starts at `k * i`. */
  lemma {:induction false} BlocksAt(block: nat -> seq<bv32>, k: nat, n: nat, i: nat)
    requires i < n && forall j :: 0 <= j < n ==> |block(j)| == k
    ensures Placed(Blocks(block, n), k * i, block(i))
  {
    var init, last := Blocks(block, n - 1), block(n - 1);
    assert Blocks(block, n) == init + last;
    if i < n - 1 {
      BlocksAt(block, k, n - 1, i);
      PlacedLeft(init, last, k * i, block(i));
    } else {
      BlocksLength(block, k, n - 1);
      PlacedRight(init, last);
    }
  }

  /** Block `i` of a run of blocks placed at `a` of `image` sits at `a + k * i` of `image`. */
  lemma BlockIn(image: seq<bv32>, a: int, block: nat -> seq<bv32>, k: nat, n: nat, i: nat)
    requires i < n && forall j :: 0 <= j < n ==> |block(j)| == k
    requires Placed(image, a, Blocks(block, n))
    ensures Placed(image, a + k * i, block(i))
  {
    BlocksAt(block, k, n, i);
    Within(image, a, Blocks(block, n), k * i, block(i));
  }

  /** A piece of `rest` sits one further on behind a one-byte head. */
  lemma BehindHead(image: seq<bv32>, head: bv32, rest: seq<bv32>, c: int, piece: seq<bv32>)
    requires image == [head] + rest && Placed(rest, c, piece)
    ensures Placed(image, 1 + c, piece)
  {
    assert image[1 + c..1 + c + |piece|] == rest[c..c + |piece|];
  }

  lemma PatchWidths(get: Getter)
    ensures forall j :: 0 <= j < 4 ==> |PatchBlock(get)(j)| == 157
  {
  }

  lemma ChannelWidths(get: Getter, pid: PatchId)
    ensures forall j :: 0 <= j < 6 ==> |ChannelBlock(get, pid)(j)| == 26
  {
  }

  lemma OpWidths(get: Getter, pid: PatchId, cid: ChannelId)
    ensures forall j :: 0 <= j < 4 ==> |OpBlock(get, pid, cid)(j)| == 6
  {
  }

  lemma SlotWidths(bits: Bindings)
    ensures forall j :: 0 <= j < 3 ==> |SlotBlock(bits)(j)| == 9
  {
  }

  lemma OpMaskWidths(bit: Binder)
    ensures forall j :: 0 <= j < 4 ==> |OpMaskBlock(bit)(j)| == 2
  {
  }

  lemma RowWidths(sequence: seq<seq<int>>)
    requires 6 <= |sequence|
    ensures forall j :: 0 <= j < 6 ==> |RowBlock(sequence)(j)| == 2
  {
  }

  /** The three sections of the image: 628 patch bytes, 27 binding bytes, 20 settings bytes. */
  lemma LayoutSections(get: Getter, bits: Bindings, sequence: seq<seq<int>>)
    requires 6 <= |sequence|
    ensures Placed(Layout(get, bits, sequence), 0, PatchesBytes(get))
    ensures Placed(Layout(get, bits, sequence), 628, BindingsBytes(bits))
    ensures Placed(Layout(get, bits, sequence), 655, SettingsBytes(get, sequence))
  {
    var patches, bindings := PatchesBytes(get), BindingsBytes(bits);
    PlacedFirst(patches, bindings);
    PlacedLeft(patches + bindings, SettingsBytes(get, sequence), 0, patches);
    PlacedRight(patches, bindings);
    PlacedLeft(patches + bindings, SettingsBytes(get, sequence), 628, bindings);
    PlacedRight(patches + bindings, SettingsBytes(get, sequence));
  }

  /** Patch `pid` takes 157 bytes from 157 * pid. */
  lemma PatchAt(get: Getter, pid: PatchId)
    ensures Placed(PatchesBytes(get), 157 * pid, PatchBytes(get, pid))
  {
    PatchWidths(get);
    BlocksAt(PatchBlock(get), 157, 4, pid);
  }

  /** A patch: the LFO byte, then the six channels. */
  lemma PatchParts(get: Getter, pid: PatchId)
    ensures PatchBytes(get, pid)[0] == LfoByte(get(Params.Lfo, pid, 0, 0))
    ensures Placed(PatchBytes(get, pid), 1, Blocks(ChannelBlock(get, pid), 6))
  {
    PlacedRight([LfoByte(get(Params.Lfo, pid, 0, 0))], Blocks(ChannelBlock(get, pid), 6));
  }

  /** A patch is its LFO byte followed by the run of channels. */
  lemma PatchSplit(get: Getter, pid: PatchId)
    ensures PatchBytes(get, pid) == [LfoByte(get(Params.Lfo, pid, 0, 0))] + Blocks(ChannelBlock(get, pid), 6)
  {
  }

  /** Channel `cid` takes 26 bytes of the run of channels from 26 * cid. */
  lemma PatchChannelsAt(get: Getter, pid: PatchId, cid: ChannelId)
    ensures Placed(Blocks(ChannelBlock(get, pid), 6), 26 * cid, ChannelBlock(get, pid)(cid))
  {
    ChannelWidths(get, pid);
    BlocksAt(ChannelBlock(get, pid), 26, 6, cid);
  }

  lemma PatchChannelBlock(get: Getter, pid: PatchId, cid: ChannelId)
    ensures Placed(PatchBytes(get, pid), 1 + 26 * cid, ChannelBlock(get, pid)(cid))
  {
    PatchChannelsAt(get, pid, cid);
    PatchSplit(get, pid);
    BehindHead(PatchBytes(get, pid), LfoByte(get(Params.Lfo, pid, 0, 0)), Blocks(ChannelBlock(get, pid), 6),
               26 * cid, ChannelBlock(get, pid)(cid));
  }

  /** Channel `cid` takes 26 bytes of its patch from 1 + 26 * cid. */
  lemma PatchChannel(get: Getter, pid: PatchId, cid: ChannelId)
    ensures Placed(PatchBytes(get, pid), 1 + 26 * cid, ChannelBytes(get, pid, cid))
  {
    PatchChannelBlock(get, pid, cid);
    PlacedSame(PatchBytes(get, pid), 1 + 26 * cid, ChannelBlock(get, pid)(cid), ChannelBytes(get, pid, cid));
  }

  /** A channel: the two channel bytes, then the four operators. */
  lemma ChannelParts(get: Getter, pid: PatchId, cid: ChannelId)
    ensures Placed(ChannelBytes(get, pid, cid), 0, PackChannel(ChannelFieldsOf(get, pid, cid)))
    ensures Placed(ChannelBytes(get, pid, cid), 2, Blocks(OpBlock(get, pid, cid), 4))
  {
    PlacedFirst(PackChannel(ChannelFieldsOf(get, pid, cid)), Blocks(OpBlock(get, pid, cid), 4));
    PlacedRight(PackChannel(ChannelFieldsOf(get, pid, cid)), Blocks(OpBlock(get, pid, cid), 4));
  }

  /** Operator `op` takes six bytes of its channel from 2 + 6 * op. */
  lemma ChannelOperator(get: Getter, pid: PatchId, cid: ChannelId, op: OperatorId)
    ensures Placed(ChannelBytes(get, pid, cid), 2 + 6 * op, PackOp(OpFieldsOf(get, pid, cid, op)))
  {
    ChannelParts(get, pid, cid);
    OpWidths(get, pid, cid);
    BlockIn(ChannelBytes(get, pid, cid), 2, OpBlock(get, pid, cid), 6, 4, op);
  }

  /** Slot `i` of x, y, z takes nine bytes of the binding section from 9 * i. */
  lemma SlotAt(bits: Bindings, i: nat)
    requires i < 3
    ensures Placed(BindingsBytes(bits), 9 * i, SlotBytes(bits(BindingKeys[i])))
  {
    SlotWidths(bits);
    BlocksAt(SlotBlock(bits), 9, 3, i);
  }

  /** A slot: the channel mask, then two mask bytes per operator. */
  lemma SlotParts(bit: Binder)
    ensures SlotBytes(bit)[0] == ChannelMask(bit)
    ensures Placed(SlotBytes(bit), 1, Blocks(OpMaskBlock(bit), 4))
  {
    PlacedRight([ChannelMask(bit)], Blocks(OpMaskBlock(bit), 4));
  }

  /** The mask bytes of operator `op` take two bytes of a slot from 1 + 2 * op. */
  lemma SlotOpMask(bit: Binder, op: OperatorId)
    ensures Placed(SlotBytes(bit), 1 + 2 * op, OpMask(bit, op))
  {
    SlotParts(bit);
    OpMaskWidths(bit);
    BlockIn(SlotBytes(bit), 1, OpMaskBlock(bit), 2, 4, op);
  }

  /** Settings: three bytes, the six rows, then five bytes. */
  lemma SettingsParts(get: Getter, sequence: seq<seq<int>>)
    requires 6 <= |sequence|
    ensures Placed(SettingsBytes(get, sequence), 0, SettingsHead(get))
    ensures Placed(SettingsBytes(get, sequence), 3, Blocks(RowBlock(sequence), 6))
    ensures Placed(SettingsBytes(get, sequence), 15, SettingsTail(get))
  {
    var head, rows := SettingsHead(get), Blocks(RowBlock(sequence), 6);
    RowWidths(sequence);
    BlocksLength(RowBlock(sequence), 2, 6);
    PlacedFirst(head, rows);
    PlacedLeft(head + rows, SettingsTail(get), 0, head);
    PlacedRight(head, rows);
    PlacedLeft(head + rows, SettingsTail(get), 3, rows);
    PlacedRight(head + rows, SettingsTail(get));
  }

  /** Sequencer row `i` takes two bytes of the settings from 3 + 2 * i. */
  lemma SettingsRow(get: Getter, sequence: seq<seq<int>>, i: nat)
    requires i < 6 <= |sequence|
    ensures Placed(SettingsBytes(get, sequence), 3 + 2 * i, RowBytes(sequence[i]))
  {
    SettingsParts(get, sequence);
    RowWidths(sequence);
    BlockIn(SettingsBytes(get, sequence), 3, RowBlock(sequence), 2, 6, i);
  }
  // ---------------------------------------------------------------------------
  // What the bytes say

  /** A table value within its parameter's range (0 to paramMax), or absent. */
  predicate Fits(get: Getter, p: Params.Param, pid: PatchId, cid: ChannelId, op: OperatorId)
  {
    match get(p, pid, cid, op)
    case None => true
    case Some(v) => 0 <= v <= Params.ParamMax(p)
  }

  lemma WordFits(v: Option<int>, bound: bv32)
    requires 0 < bound <= 256 && (v.Some? ==> 0 <= v.value < bound as int)
    ensures Word(v) < bound
  {
    if v.Some? {
      WordOfSmall(v.value, bound);
    }
  }

  /** A value within paramMax reads as a word below paramMax + 1. */
  lemma FieldFits(get: Getter, p: Params.Param, pid: PatchId, cid: ChannelId, op: OperatorId, bound: bv32)
    requires 0 < bound <= 256 && Fits(get, p, pid, cid, op) && Params.ParamMax(p) + 1 == bound as int
    ensures W(get, p, pid, cid, op) < bound
  {
    WordFits(get(p, pid, cid, op), bound);
  }

  predicate OpFits(get: Getter, pid: PatchId, cid: ChannelId, op: OperatorId)
  {
    Fits(get, Params.Ar, pid, cid, op) && Fits(get, Params.D1, pid, cid, op)
    && Fits(get, Params.Sl, pid, cid, op) && Fits(get, Params.D2, pid, cid, op)
    && Fits(get, Params.Rr, pid, cid, op) && Fits(get, Params.Tl, pid, cid, op)
    && Fits(get, Params.Mul, pid, cid, op) && Fits(get, Params.Det, pid, cid, op)
    && Fits(get, Params.Rs, pid, cid, op) && Fits(get, Params.Am, pid, cid, op)
  }

  /** The parameter widths are the bit-field widths of operator_t. */
  lemma OpFieldsFit(get: Getter, pid: PatchId, cid: ChannelId, op: OperatorId)
    requires OpFits(get, pid, cid, op)
    ensures OpInRange(OpFieldsOf(get, pid, cid, op))
  {
    Params.Max31(Params.Ar); FieldFits(get, Params.Ar, pid, cid, op, 32);
    Params.Max31(Params.D1); FieldFits(get, Params.D1, pid, cid, op, 32);
    Params.Max15(Params.Sl); FieldFits(get, Params.Sl, pid, cid, op, 16);
    Params.Max31(Params.D2); FieldFits(get, Params.D2, pid, cid, op, 32);
    Params.Max15(Params.Rr); FieldFits(get, Params.Rr, pid, cid, op, 16);
    Params.Max127(Params.Tl); FieldFits(get, Params.Tl, pid, cid, op, 128);
    Params.Max15(Params.Mul); FieldFits(get, Params.Mul, pid, cid, op, 16);
    Params.Max7(Params.Det); FieldFits(get, Params.Det, pid, cid, op, 8);
    Params.Max3(Params.Rs); FieldFits(get, Params.Rs, pid, cid, op, 4);
    Params.Max1(Params.Am); FieldFits(get, Params.Am, pid, cid, op, 2);
  }

  predicate ChannelFits(get: Getter, pid: PatchId, cid: ChannelId)
  {
    Fits(get, Params.Al, pid, cid, 0) && Fits(get, Params.Fb, pid, cid, 0)
    && Fits(get, Params.Ams, pid, cid, 0) && Fits(get, Params.Fms, pid, cid, 0)
    && Fits(get, Params.St, pid, cid, 0)
  }

  lemma ChannelFieldsFit(get: Getter, pid: PatchId, cid: ChannelId)
    requires ChannelFits(get, pid, cid)
    ensures ChannelInRange(ChannelFieldsOf(get, pid, cid))
  {
    Params.Max7(Params.Al); FieldFits(get, Params.Al, pid, cid, 0, 8);
    Params.Max7(Params.Fb); FieldFits(get, Params.Fb, pid, cid, 0, 8);
    Params.Max3(Params.Ams); FieldFits(get, Params.Ams, pid, cid, 0, 4);
    Params.Max7(Params.Fms); FieldFits(get, Params.Fms, pid, cid, 0, 8);
    Params.Max3(Params.St); FieldFits(get, Params.St, pid, cid, 0, 4);
  }

  /** The six bytes an operator's table values pack into are bytes, and the
      firmware's bit fields read back those values; ChannelOperator,
      PatchChannel and PatchAt say where the six bytes sit. */
  lemma OperatorRecovered(get: Getter, pid: PatchId, cid: ChannelId, op: OperatorId)
    requires OpFits(get, pid, cid, op)
    ensures var bytes := PackOp(OpFieldsOf(get, pid, cid, op));
      && UnpackOp(bytes) == OpFieldsOf(get, pid, cid, op)
      && forall j :: 0 <= j < 6 ==> bytes[j] < 256
  {
    OpFieldsFit(get, pid, cid, op);
    OpRoundTrip(OpFieldsOf(get, pid, cid, op));
  }

  /** The same for the two channel bytes, which ChannelParts places at the
      head of the channel's 26 bytes. */
  lemma ChannelRecovered(get: Getter, pid: PatchId, cid: ChannelId)
    requires ChannelFits(get, pid, cid)
    ensures var bytes := PackChannel(ChannelFieldsOf(get, pid, cid));
      && UnpackChannel(bytes) == ChannelFieldsOf(get, pid, cid)
      && bytes[0] < 64 && bytes[1] < 256
  {
    ChannelFieldsFit(get, pid, cid);
    ChannelRoundTrip(ChannelFieldsOf(get, pid, cid));
  }

  /** A key missing from the table reads as `undefined`: every field it feeds
      is 0, except the LFO byte, where `undefined === 0` fails and the byte
      is `undefined | 8`, that is 8. */
  lemma AbsentKey(ms: map<Key, int>, p: Params.Param, pid: PatchId, cid: ChannelId, op: OperatorId)
    requires KeyFor(p, pid, cid, op) !in ms
    ensures Reader(ms)(p, pid, cid, op) == None
    ensures W(Reader(ms), p, pid, cid, op) == 0
    ensures LfoByte(Reader(ms)(p, pid, cid, op)) == 8
  {
  }

  /** The binding bit of a slot is 0 or 1, and 1 exactly when the parameter
      has a binding index and the slot's list holds it. */
  lemma SlotBit(slot: seq<int>, p: Params.Param, op: OperatorId)
    ensures SlotReader(slot)(p, op) <= 1
    ensures SlotReader(slot)(p, op) == 1 <==>
      Params.GetParamBindingIndex(p, op).Some? && Params.GetParamBindingIndex(p, op).value in slot
  {
  }

  /** `st`, `rs` and `am` have no binding index, so their bits stay 0
      whatever the slot holds. */
  lemma UnbindableBits(slot: seq<int>, op: OperatorId)
    ensures SlotReader(slot)(Params.St, 0) == 0
    ensures SlotReader(slot)(Params.Rs, op) == 0
    ensures SlotReader(slot)(Params.Am, op) == 0
  {
  }

  /** The editor binds `st` under index 14, but the image has no bit for it:
      a stored `st` binding never reaches the checksum. */
  lemma EditorStBindingHidden(slot: seq<int>)
    ensures LegacyParams.GetParamBindingIndex(LegacyParams.St, 0) == Some(14)
    ensures SlotReader(slot)(Params.St, 0) == 0
  {
    assert LegacyParams.Position(LegacyParams.St) == 4;
  }

  /** Each flag of ch_bitmask_t's first byte is one binder bit. */
  lemma ChannelMaskBits(bit: Binder)
    requires bit(Params.Lfo, 0) <= 1 && bit(Params.St, 0) <= 1 && bit(Params.Fb, 0) <= 1
    requires bit(Params.Al, 0) <= 1 && bit(Params.Ams, 0) <= 1 && bit(Params.Fms, 0) <= 1
    ensures var m := ChannelMask(bit);
      && m < 64
      && m & 1 == bit(Params.Lfo, 0) && (m >> 1) & 1 == bit(Params.St, 0)
      && (m >> 2) & 1 == bit(Params.Fb, 0) && (m >> 3) & 1 == bit(Params.Al, 0)
      && (m >> 4) & 1 == bit(Params.Ams, 0) && (m >> 5) & 1 == bit(Params.Fms, 0)
  {
  }

  /** Each flag of op_bitmask_t is one binder bit. */
  lemma OpMaskBits(bit: Binder, op: OperatorId)
    requires bit(Params.Ar, op) <= 1 && bit(Params.D1, op) <= 1 && bit(Params.Sl, op) <= 1
    requires bit(Params.D2, op) <= 1 && bit(Params.Tl, op) <= 1 && bit(Params.Rr, op) <= 1
    requires bit(Params.Det, op) <= 1 && bit(Params.Mul, op) <= 1
    requires bit(Params.Rs, op) <= 1 && bit(Params.Am, op) <= 1
    ensures var m := OpMask(bit, op);
      && m[0] < 256 && m[1] < 4
      && m[0] & 1 == bit(Params.Ar, op) && (m[0] >> 1) & 1 == bit(Params.D1, op)
      && (m[0] >> 2) & 1 == bit(Params.Sl, op) && (m[0] >> 3) & 1 == bit(Params.D2, op)
      && (m[0] >> 4) & 1 == bit(Params.Tl, op) && (m[0] >> 5) & 1 == bit(Params.Rr, op)
      && (m[0] >> 6) & 1 == bit(Params.Det, op) && (m[0] >> 7) & 1 == bit(Params.Mul, op)
      && m[1] & 1 == bit(Params.Rs, op) && (m[1] >> 1) & 1 == bit(Params.Am, op)
  {
  }

  /** The first byte of a slot's bytes flags the channel parameters bound
      in that slot's list; the LR flag is always 0. */
  lemma SlotMaskFlags(slot: seq<int>)
    ensures var m := SlotBytes(SlotReader(slot))[0];
      && m & 1 == BindingBit(slot, Params.Lfo, 0) && (m >> 1) & 1 == 0
      && (m >> 2) & 1 == BindingBit(slot, Params.Fb, 0) && (m >> 3) & 1 == BindingBit(slot, Params.Al, 0)
      && (m >> 4) & 1 == BindingBit(slot, Params.Ams, 0) && (m >> 5) & 1 == BindingBit(slot, Params.Fms, 0)
  {
    var bit := SlotReader(slot);
    SlotParts(bit);
    SlotBit(slot, Params.Lfo, 0);
    SlotBit(slot, Params.Fb, 0);
    SlotBit(slot, Params.Al, 0);
    SlotBit(slot, Params.Ams, 0);
    SlotBit(slot, Params.Fms, 0);
    UnbindableBits(slot, 0);
    ChannelMaskBits(bit);
  }

  // Rows of the sequencer grid

  lemma JoinBytes(m: bv32)
    ensures (m & 0xff) | (((m >> 8) & 0xff) << 8) == m & 0xffff
  {
  }

  /** The low byte then the high byte: each is a byte, and `low | high << 8`
      gives back the low 16 bits of the row's number. */
  lemma RowBytesJoin(row: seq<int>)
    ensures RowBytes(row)[0] < 256 && RowBytes(row)[1] < 256
    ensures RowBytes(row)[0] | (RowBytes(row)[1] << 8) == RowMask(row) & 0xffff
  {
    JoinBytes(RowMask(row));
  }

  // Settings

  lemma Pack7(b: bv32, lo: bv32, hi: bv32)
    requires b == lo | (hi << 7) && lo < 128 && hi < 2
    ensures b & 127 == lo && b >> 7 == hi
  {
  }

  /** A byte holding a 7-bit setting with a one-bit switch above it gives
      both back. */
  lemma SwitchByte(get: Getter, setting: Params.Param, switch: Params.Param)
    requires Fits(get, setting, 0, 0, 0) && Params.ParamMax(setting) == 127
    requires Fits(get, switch, 0, 0, 0) && Params.ParamMax(switch) == 1
    ensures SwitchedByte(get, setting, switch) & 127 == W(get, setting, 0, 0, 0)
    ensures SwitchedByte(get, setting, switch) >> 7 == W(get, switch, 0, 0, 0)
  {
    FieldFits(get, setting, 0, 0, 0, 128);
    FieldFits(get, switch, 0, 0, 0, 2);
    Pack7(SwitchedByte(get, setting, switch), W(get, setting, 0, 0, 0), W(get, switch, 0, 0, 0));
  }

  // ---------------------------------------------------------------------------
  // The checksum

  lemma AppendAssoc(a: seq<bv32>, b: seq<bv32>, c: seq<bv32>)
    ensures a + b + c == a + (b + c)
  {
  }

  /** One channel of the PATCHES loop: its two bytes, then the operator loop. */
  method LayOutChannel(get: Getter, pid: PatchId, cid: ChannelId) returns (data: seq<bv32>)
    ensures data == ChannelBytes(get, pid, cid)
  {
    var head := PackChannel(ChannelFieldsOf(get, pid, cid));
    data := head;
    for op := 0 to 4
      invariant data == head + Blocks(OpBlock(get, pid, cid), op)
    {
      AppendAssoc(head, Blocks(OpBlock(get, pid, cid), op), OpBlock(get, pid, cid)(op));
      data := data + PackOp(OpFieldsOf(get, pid, cid, op));
    }
  }

  /** One patch of the PATCHES loop: the LFO byte, then the channel loop. */
  method LayOutPatch(get: Getter, pid: PatchId) returns (data: seq<bv32>)
    ensures data == PatchBytes(get, pid)
  {
    var lfo := LfoByte(get(Params.Lfo, pid, 0, 0));
    data := [lfo];
    for cid := 0 to 6
      invariant data == [lfo] + Blocks(ChannelBlock(get, pid), cid)
    {
      var channel := LayOutChannel(get, pid, cid);
      AppendAssoc([lfo], Blocks(ChannelBlock(get, pid), cid), ChannelBlock(get, pid)(cid));
      data := data + channel;
    }
  }

  /** The PATCHES loop of calculate_crc32. */
  method LayOutPatches(get: Getter) returns (data: seq<bv32>)
    ensures data == PatchesBytes(get)
  {
    data := [];
    for pid := 0 to 4
      invariant data == Blocks(PatchBlock(get), pid)
    {
      var patch := LayOutPatch(get, pid);
      data := data + patch;
    }
  }

  /** The BINDINGS loop of calculate_crc32, over the slots x, y, z. */
  method LayOutBindings(bits: Bindings) returns (data: seq<bv32>)
    ensures data == BindingsBytes(bits)
  {
    data := [];
    for i := 0 to |BindingKeys|
      invariant data == Blocks(SlotBlock(bits), i)
    {
      var bit := bits(BindingKeys[i]);
      ghost var slotStart := data;
      data := data + [ChannelMask(bit)];
      for op := 0 to 4
        invariant data == slotStart + [ChannelMask(bit)] + Blocks(OpMaskBlock(bit), op)
      {
        AppendAssoc(slotStart + [ChannelMask(bit)], Blocks(OpMaskBlock(bit), op), OpMaskBlock(bit)(op));
        data := data + OpMask(bit, op);
      }
      AppendAssoc(slotStart, [ChannelMask(bit)], Blocks(OpMaskBlock(bit), 4));
    }
  }

  /** The SETTINGS part of calculate_crc32, with its loop over the six sequence rows. */
  method LayOutSettings(get: Getter, sequence: seq<seq<int>>) returns (data: seq<bv32>)
    requires 6 <= |sequence|
    ensures data == SettingsBytes(get, sequence)
  {
    var head := [W(get, Params.PlayMode, 0, 0, 0), W(get, Params.MidiReceiveChannel, 0, 0, 0),
                 W(get, Params.Polyphony, 0, 0, 0)];
    data := head;
    for i := 0 to 6
      invariant data == head + Blocks(RowBlock(sequence), i)
    {
      var value := RowMask(sequence[i]);
      AppendAssoc(head, Blocks(RowBlock(sequence), i), RowBlock(sequence)(i));
      data := data + [value & 0xff, (value >> 8) & 0xff];
    }
    data := data + [SwitchedByte(get, Params.LedBrightness, Params.Quantize),
                    SwitchedByte(get, Params.Transpose, Params.Legato),
                    SwitchedByte(get, Params.Tunning, Params.Velocity),
                    W(get, Params.Portamento, 0, 0, 0),
                    W(get, Params.SeqSteps, 0, 0, 0)];
  }

  /** calculate_crc32: lay the state out section by section, then run
      crc32_push from 0 over the result. `sequence` must have the six rows
      the source reads. */
  method CalculateCrc32(ms: map<Key, int>, b: Slots, sequence: seq<seq<int>>) returns (crc: int)
    requires 6 <= |sequence|
    ensures 0 <= crc < 0x1_0000_0000
    ensures crc == Crc.CrcFold(0, Layout(Reader(ms), BindingsReader(b), sequence)) as int
  {
    var get := Reader(ms);
    var patches := LayOutPatches(get);
    var bindings := LayOutBindings(BindingsReader(b));
    var settings := LayOutSettings(get, sequence);
    var data := patches + bindings + settings;
    crc := Crc.Crc32Push(0, data);
  }
}
