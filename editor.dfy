/** The editor state of src/context.tsx and the operations that change it in
    place while talking to the module. Every `MidiIO.sendCC(ch, cc, val)`
    and every `sendMidiCmd(cmd, val)` of the source appends one Control
    Change to the log `out`; the log is all the model keeps of the MIDI port. */
module EditorState {
  import opened Common
  import opened FlatKey
  import opened LegacyParams
  import opened Reindex

  // ---------------------------------------------------------------------------
  // Commands

  /** The MidiCommands the modelled operations send, all on channel 15. */
  const BIND_X := 101
  const BIND_Y := 102
  const BIND_Z := 103
  const COPY_PATCH := 104
  const MOVE_PATCH := 105
  const COPY_CHANNEL := 106
  const MOVE_CHANNEL := 107
  const SET_SEQ_STEP_ON := 108
  const SET_SEQ_STEP_OFF := 109
  const SAVE_STATE := 110
  const CLEAR_BINDINGS := 112

  /** sendMidiCmd: a command is a CC on channel 15 whose number is the command. */
  function Command(cmd: int, val: int): (c: Cc)
    ensures c.ch == 15 && c.cc == cmd && c.val == val
  {
    Cc(15, cmd, val)
  }

  /** bindingsMap: the command that binds to or unbinds from each modulator. */
  function BindCommand(k: BindingKey): (cmd: int)
    ensures BIND_X <= cmd <= BIND_Z
  {
    match k
    case X => BIND_X
    case Y => BIND_Y
    case Z => BIND_Z
  }

  lemma BindCommandInjective(k: BindingKey, j: BindingKey)
    requires BindCommand(k) == BindCommand(j)
    ensures k == j
  {
  }

  /** The value of a binding command: the binding index to unbind it, 64 more
      to bind it. */
  function BindValue(bi: int, bind: bool): int
  {
    if bind then 64 + bi else bi
  }

  /** A binding index below 64 travels in one 7-bit value, and the module can
      tell a bind from an unbind and read the index back. */
  lemma BindValueDecodes(bi: int, bind: bool)
    requires 0 < bi < 64
    ensures 0 < BindValue(bi, bind) < 128
    ensures (BindValue(bi, bind) >= 64) == bind
    ensures BindValue(bi, bind) % 64 == bi
  {
  }

  // ---------------------------------------------------------------------------
  // The parameter table

  /** The value getInitialState gives each parameter; the patch zone and the
      blend mode get none. */
  function Default(p: Param): Option<int>
  {
    match p
    case PatchZone => None
    case BlendMode => None
    case Blend => Some(0)
    case PlayMode => Some(0)
    case LedBrightness => Some(64)
    case Transpose => Some(32)
    case Tunning => Some(64)
    case MidiReceiveChannel => Some(0)
    case AttenuverterMode => Some(0)
    case SeqSteps => Some(7)
    case Lfo => Some(0)
    case Al => Some(7)
    case Fb => Some(0)
    case Ams => Some(0)
    case Fms => Some(0)
    case St => Some(3)
    case Ar => Some(31)
    case D1 => Some(0)
    case Sl => Some(0)
    case D2 => Some(0)
    case Rr => Some(15)
    case Tl => Some(0)
    case Mul => Some(3)
    case Det => Some(3)
    case Rs => Some(0)
    case Am => Some(0)
  }

  /** Every default lies within its parameter's range. */
  lemma DefaultInRange(p: Param)
    requires Default(p).Some?
    ensures 0 <= Default(p).value <= Pow2(Bitness(p)) - 1
  {
    assert Pow2(1) == 2 && Pow2(2) == 4 && Pow2(3) == 8 && Pow2(4) == 16;
    assert Pow2(5) == 32 && Pow2(6) == 64 && Pow2(7) == 128;
  }

  /** The values getInitialState stores for the operator parameters. */
  lemma OperatorDefaultValues()
    ensures Default(Ar) == Some(31) && Default(D1) == Some(0) && Default(Sl) == Some(0)
    ensures Default(D2) == Some(0) && Default(Rr) == Some(15) && Default(Tl) == Some(0)
    ensures Default(Mul) == Some(3) && Default(Det) == Some(3) && Default(Rs) == Some(0)
    ensures Default(Am) == Some(0)
  {
  }

  /** The values it stores for the LFO and the channel parameters. */
  lemma ChannelDefaultValues()
    ensures Default(Lfo) == Some(0) && Default(Al) == Some(7) && Default(Fb) == Some(0)
    ensures Default(Ams) == Some(0) && Default(Fms) == Some(0) && Default(St) == Some(3)
  {
  }

  /** The values it stores for the settings. */
  lemma SettingDefaultValues()
    ensures Default(PlayMode) == Some(0) && Default(LedBrightness) == Some(64)
    ensures Default(MidiReceiveChannel) == Some(0) && Default(AttenuverterMode) == Some(0)
    ensures Default(Transpose) == Some(32) && Default(Tunning) == Some(64)
    ensures Default(Blend) == Some(0) && Default(SeqSteps) == Some(7)
  {
  }

  function DefaultOfKey(k: Key): Option<int>
  {
    match ParamOfLabel(k.id)
    case Some(p) => Default(p)
    case None => None
  }

  /** The key of a parameter instance is a legacy key carrying the
      parameter's default. */
  lemma DefaultKey(p: Param, pid: PatchId, cid: ChannelId, op: OperatorId)
    ensures IsLegacyKey(KeyOf(p, pid, cid, op)) && DefaultOfKey(KeyOf(p, pid, cid, op)) == Default(p)
  {
    LabelRoundTrip(p);
    EncodeKeyIdempotent(Label(p), pid, cid, op);
  }

  /** Every stored key is a legacy key holding its parameter's default. */
  predicate Defaulted(m: Table)
  {
    forall k :: k in m ==> IsLegacyKey(k) && DefaultOfKey(k) == Some(m[k])
  }

  /** Every instance of every patch, channel and operator parameter of the
      patches below `n` is stored. */
  predicate PatchesSet(m: Table, n: int)
  {
    forall p: Param, pid: PatchId, cid: ChannelId, op: OperatorId ::
      !IsSettingParam(p) && pid < n ==> KeyOf(p, pid, cid, op) in m
  }

  /** Every key of `m` is still in `m'`. */
  predicate Grows(m: Table, m': Table)
  {
    forall k :: k in m ==> k in m'
  }

  /** The LFO key ignores the channel and the operator. */
  lemma LfoKeys(m: Table, pid: PatchId)
    requires KeyOf(Lfo, pid, 0, 0) in m
    ensures forall cid: ChannelId, op: OperatorId :: KeyOf(Lfo, pid, cid, op) in m
  {
    forall cid: ChannelId, op: OperatorId ensures KeyOf(Lfo, pid, cid, op) in m {
      EncodeKeyCanonical(Lfo, pid, cid, op);
      EncodeKeyCanonical(Lfo, pid, 0, 0);
    }
  }

  /** The LFO stored before the channels, and the channels, cover the patch. */
  lemma PatchKeys(m: Table, m': Table, pid: PatchId)
    requires KeyOf(Lfo, pid, 0, 0) in m && Grows(m, m')
    requires forall p: Param, cid: ChannelId, op: OperatorId ::
      IsChannelParam(p) || IsOperatorParam(p) ==> KeyOf(p, pid, cid, op) in m'
    ensures forall p: Param, cid: ChannelId, op: OperatorId ::
      !IsSettingParam(p) ==> KeyOf(p, pid, cid, op) in m'
  {
    LfoKeys(m, pid);
  }

  /** The five channel parameters, stored for one channel, cover every operator index. */
  lemma ChannelKeys(m: Table, pid: PatchId, cid: ChannelId)
    requires KeyOf(Al, pid, cid, 0) in m && KeyOf(Fb, pid, cid, 0) in m && KeyOf(Ams, pid, cid, 0) in m
    requires KeyOf(Fms, pid, cid, 0) in m && KeyOf(St, pid, cid, 0) in m
    ensures forall p: Param, op: OperatorId :: IsChannelParam(p) ==> KeyOf(p, pid, cid, op) in m
  {
    forall p: Param, op: OperatorId | IsChannelParam(p) ensures KeyOf(p, pid, cid, op) in m {
      EncodeKeyCanonical(p, pid, cid, op);
      EncodeKeyCanonical(p, pid, cid, 0);
    }
  }

  lemma OperatorKeys(m: Table, pid: PatchId, cid: ChannelId, op: OperatorId)
    requires KeyOf(Ar, pid, cid, op) in m && KeyOf(D1, pid, cid, op) in m && KeyOf(Sl, pid, cid, op) in m
    requires KeyOf(D2, pid, cid, op) in m && KeyOf(Rr, pid, cid, op) in m && KeyOf(Tl, pid, cid, op) in m
    requires KeyOf(Mul, pid, cid, op) in m && KeyOf(Det, pid, cid, op) in m && KeyOf(Rs, pid, cid, op) in m
    requires KeyOf(Am, pid, cid, op) in m
    ensures forall p: Param :: IsOperatorParam(p) ==> KeyOf(p, pid, cid, op) in m
  {
    forall p: Param | IsOperatorParam(p) ensures KeyOf(p, pid, cid, op) in m {
      if p == Ar {} else if p == D1 {} else if p == Sl {} else if p == D2 {} else if p == Rr {}
      else if p == Tl {} else if p == Mul {} else if p == Det {} else if p == Rs {} else {}
    }
  }

  lemma SettingKeys(m: Table)
    requires KeyOf(PlayMode, 0, 0, 0) in m && KeyOf(LedBrightness, 0, 0, 0) in m
    requires KeyOf(MidiReceiveChannel, 0, 0, 0) in m && KeyOf(AttenuverterMode, 0, 0, 0) in m
    requires KeyOf(Transpose, 0, 0, 0) in m && KeyOf(Tunning, 0, 0, 0) in m
    requires KeyOf(Blend, 0, 0, 0) in m && KeyOf(SeqSteps, 0, 0, 0) in m
    ensures forall p: Param, pid: PatchId, cid: ChannelId, op: OperatorId ::
      IsSettingParam(p) && Default(p).Some? ==> KeyOf(p, pid, cid, op) in m
  {
    forall p: Param, pid: PatchId, cid: ChannelId, op: OperatorId | IsSettingParam(p) && Default(p).Some?
      ensures KeyOf(p, pid, cid, op) in m
    {
      EncodeKeyCanonical(p, pid, cid, op);
      EncodeKeyCanonical(p, 0, 0, 0);
    }
  }

  /** The table invariant of the editor: only legacy keys, and every instance
      of every patch, channel and operator parameter present. */
  predicate TableValid(m: Table)
  {
    && (forall k :: k in m ==> IsLegacyKey(k))
    && (forall p: Param, pid: PatchId, cid: ChannelId, op: OperatorId ::
          !IsSettingParam(p) ==> KeyOf(p, pid, cid, op) in m)
  }

  /** A defaulted table holding all four patches and the settings that have
      a default holds exactly the instances of parameters with a default. */
  lemma InitialKeys(m: Table)
    requires Defaulted(m) && PatchesSet(m, 4)
    requires forall p: Param, pid: PatchId, cid: ChannelId, op: OperatorId ::
      IsSettingParam(p) && Default(p).Some? ==> KeyOf(p, pid, cid, op) in m
    ensures TableValid(m)
    ensures forall p: Param, pid: PatchId, cid: ChannelId, op: OperatorId ::
      KeyOf(p, pid, cid, op) in m <==> Default(p).Some?
  {
    forall p: Param, pid: PatchId, cid: ChannelId, op: OperatorId
      ensures KeyOf(p, pid, cid, op) in m <==> Default(p).Some?
    {
      DefaultKey(p, pid, cid, op);
    }
  }

  /** `moduleState['pm-0-0-0']`, which getParamMidiCc consults. */
  function PlayModeOf(m: Table): Option<int>
  {
    var k := KeyOf(PlayMode, 0, 0, 0);
    if k in m then Some(m[k]) else None
  }

  /** What changing parameter `p` of one instance sends: its address, and the
      value scaled to seven bits by `val << (7 - bits)`. */
  function ParamMessage(p: Param, playMode: Option<int>, op: OperatorId, pid: PatchId, cid: ChannelId, val: int): (c: Cc)
    ensures 0 <= c.ch < 16 && 0 <= c.cc < 100
  {
    var a := GetParamMidiCc(p, playMode, op, pid, cid);
    Cc(a.ch, a.cc, Shl(val, 7 - Bitness(p)))
  }

  /** An editor command is never mistaken for a parameter change: commands use
      controllers from 100 up, parameters controllers below 100. */
  lemma CommandNotParam(cmd: int, v: int, p: Param, playMode: Option<int>, op: OperatorId, pid: PatchId, cid: ChannelId, val: int)
    requires cmd >= 100
    ensures Command(cmd, v) != ParamMessage(p, playMode, op, pid, cid, val)
  {
  }

  /** Outside POLY the module reads the instance and the value back from the
      message of a canonical instance holding a legal value. */
  lemma ParamMessageDecodes(i: Instance, playMode: Option<int>, val: int)
    requires LegacyParams.Canonical(i) && playMode != Some(POLY)
    requires 0 <= val <= Pow2(Bitness(i.p)) - 1
    ensures var c := ParamMessage(i.p, playMode, i.op, i.pid, i.cid, val);
      && InstanceAt(Address(c.ch, c.cc)) == Some(i)
      && 0 <= c.val <= 127 && Shr(c.val, 7 - Bitness(i.p)) == val
  {
    LegacyAddressRoundTrip(i, playMode);
    ScaleRoundTrip(val, Bitness(i.p));
  }

  /** The instance a legacy key stands for is canonical. */
  lemma KeyInstance(k: Key)
    requires IsLegacyKey(k)
    ensures LegacyParams.Canonical(Instance(ParamOfKey(k), k.pid, k.cid, k.op))
    ensures KeyOf(ParamOfKey(k), k.pid, k.cid, k.op) == k
  {
    var p := ParamOfKey(k);
    EncodeKeyCanonical(p, k.pid, k.cid, k.op);
  }

  // ---------------------------------------------------------------------------
  // Binding lists

  predicate NoDuplicates(s: seq<int>)
  {
    forall i, j :: 0 <= i < j < |s| ==> s[i] != s[j]
  }

  /** Array.prototype.indexOf: the first position holding `x`, or -1. */
  function IndexOf(s: seq<int>, x: int): (r: int)
    ensures -1 <= r < |s|
    ensures r == -1 <==> x !in s
    ensures r >= 0 ==> s[r] == x && x !in s[..r]
    decreases |s|
  {
    if |s| == 0 then -1
    else if s[0] == x then 0
    else
      var r := IndexOf(s[1..], x);
      assert s[1..][..if r >= 0 then r else 0] == s[1..if r >= 0 then r + 1 else 1];
      if r == -1 then -1 else r + 1
  }

  /** toggleParamBinding's edit of the armed list: splice the index out where
      indexOf finds it, push it otherwise. */
  function Toggled(s: seq<int>, bi: int): (t: seq<int>)
    ensures bi in s ==> |t| == |s| - 1 && multiset(t) + multiset{bi} == multiset(s)
    ensures bi !in s ==> t == s + [bi]
  {
    var i := IndexOf(s, bi);
    if i != -1 then
      assert s == s[..i] + [bi] + s[i + 1..];
      s[..i] + s[i + 1..]
    else s + [bi]
  }

  /** Splicing position `i` out of a list without duplicates removes its
      element and nothing else. */
  lemma SplicedMembers(s: seq<int>, i: int)
    requires NoDuplicates(s) && 0 <= i < |s|
    ensures NoDuplicates(s[..i] + s[i + 1..])
    ensures forall x :: x in s[..i] + s[i + 1..] <==> x in s && x != s[i]
  {
    var t := s[..i] + s[i + 1..];
    forall a, b | 0 <= a < b < |t| ensures t[a] != t[b] {
      var a' := if a < i then a else a + 1;
      var b' := if b < i then b else b + 1;
      assert t[a] == s[a'] && t[b] == s[b'];
    }
    forall x ensures x in t <==> x in s && x != s[i] {
      if x in t {
        var j :| 0 <= j < |t| && t[j] == x;
        var j' := if j < i then j else j + 1;
        assert s[j'] == x && j' != i;
      }
      if x in s && x != s[i] {
        var j :| 0 <= j < |s| && s[j] == x;
        assert j != i;
        assert t[if j < i then j else j - 1] == x;
      }
    }
  }

  /** Pushing a new element onto a list without duplicates keeps it so. */
  lemma PushedMembers(s: seq<int>, bi: int)
    requires NoDuplicates(s) && bi !in s
    ensures NoDuplicates(s + [bi])
  {
    var t := s + [bi];
    forall a, b | 0 <= a < b < |t| ensures t[a] != t[b] {
      if b == |s| { assert t[a] == s[a]; }
    }
  }

  /** On a list without duplicates the toggle flips the membership of `bi`
      alone and keeps the list free of duplicates. */
  lemma ToggledMembers(s: seq<int>, bi: int)
    requires NoDuplicates(s)
    ensures NoDuplicates(Toggled(s, bi))
    ensures forall x :: x in Toggled(s, bi) <==> (if x == bi then bi !in s else x in s)
  {
    var i := IndexOf(s, bi);
    if i != -1 {
      assert Toggled(s, bi) == s[..i] + s[i + 1..];
      SplicedMembers(s, i);
    } else {
      assert Toggled(s, bi) == s + [bi];
      PushedMembers(s, bi);
    }
  }

  /** Binding a parameter and unbinding it again restores the list. */
  lemma ToggledTwice(s: seq<int>, bi: int)
    requires bi !in s
    ensures Toggled(Toggled(s, bi), bi) == s
  {
    var t := s + [bi];
    var i := IndexOf(t, bi);
    assert t[|s|] == bi;
    assert i == |s| by {
      assert bi !in t[..|s|];
    }
    assert t[..i] == s;
  }

  function WithSlot(b: Slots, k: BindingKey, s: seq<int>): (r: Slots)
    ensures Slot(r, k) == s
    ensures forall j :: j != k ==> Slot(r, j) == Slot(b, j)
  {
    match k
    case X => b.(x := s)
    case Y => b.(y := s)
    case Z => b.(z := s)
  }

  /** The bind messages syncMidi sends for a binding index: one for the
      first of x, y, z whose list holds it. */
  function BindMessages(b: Slots, bi: Option<int>): (r: seq<Cc>)
    ensures |r| <= 1
    ensures |r| == 1 <==> bi.Some? && (bi.value in b.x || bi.value in b.y || bi.value in b.z)
  {
    if bi.None? then []
    else if bi.value in b.x then [Command(BindCommand(X), BindValue(bi.value, true))]
    else if bi.value in b.y then [Command(BindCommand(Y), BindValue(bi.value, true))]
    else if bi.value in b.z then [Command(BindCommand(Z), BindValue(bi.value, true))]
    else []
  }

  /** The modulator a bind message of syncMidi names holds the index, and no
      earlier modulator does. */
  lemma BindMessagesFirst(b: Slots, bi: int, k: BindingKey)
    requires BindMessages(b, Some(bi)) == [Command(BindCommand(k), BindValue(bi, true))]
    ensures bi in Slot(b, k)
    ensures k != X ==> bi !in b.x
    ensures k == Z ==> bi !in b.y
  {
  }

  /** What syncMidi sends for one stored entry: its value, then its binding. */
  function EntryMessages(m: Table, b: Slots, k: Key): (r: seq<Cc>)
    requires k in m && IsLegacyKey(k)
    ensures 1 <= |r| <= 2
  {
    var p := ParamOfKey(k);
    [ParamMessage(p, PlayModeOf(m), k.op, k.pid, k.cid, m[k])] + BindMessages(b, GetParamBindingIndex(p, k.op))
  }

  predicate Listed(m: Table, keys: seq<Key>)
  {
    forall i :: 0 <= i < |keys| ==> keys[i] in m && IsLegacyKey(keys[i])
  }

  /** The blocks of messages for the entries in the order `keys` lists them. */
  function EntryBlocks(m: Table, b: Slots, keys: seq<Key>): (r: seq<seq<Cc>>)
    requires Listed(m, keys)
    ensures |r| == |keys|
    ensures forall i :: 0 <= i < |keys| ==> r[i] == EntryMessages(m, b, keys[i])
  {
    seq(|keys|, i requires 0 <= i < |keys| && keys[i] in m && IsLegacyKey(keys[i]) => EntryMessages(m, b, keys[i]))
  }

  /** The blocks sent one after the other. */
  function Flatten(blocks: seq<seq<Cc>>): (r: seq<Cc>)
    decreases |blocks|
  {
    if |blocks| == 0 then []
    else
      var n := |blocks| - 1;
      Flatten(blocks[..n]) + blocks[n]
  }

  lemma FlattenStep(blocks: seq<seq<Cc>>, i: int)
    requires 0 <= i < |blocks|
    ensures Flatten(blocks[..i + 1]) == Flatten(blocks[..i]) + blocks[i]
  {
    assert blocks[..i + 1][..i] == blocks[..i];
  }

  /** Every message of every block is sent. */
  lemma {:induction false} FlattenHas(blocks: seq<seq<Cc>>, i: int)
    requires 0 <= i < |blocks|
    ensures forall c :: c in blocks[i] ==> c in Flatten(blocks)
    decreases |blocks|
  {
    var n := |blocks| - 1;
    if i < n {
      assert blocks[..n][i] == blocks[i];
      FlattenHas(blocks[..n], i);
    }
  }

  /** What syncMidi sends after clearing the bindings, for the entries in the
      order `keys` lists them: each entry's messages, one entry after the other. */
  function SyncMessages(m: Table, b: Slots, keys: seq<Key>): (r: seq<Cc>)
    requires Listed(m, keys)
  {
    Flatten(EntryBlocks(m, b, keys))
  }

  /** Every message of every listed entry goes out: its value, and its
      binding when it is bound. */
  lemma SyncSendsEntry(m: Table, b: Slots, keys: seq<Key>, i: int)
    requires Listed(m, keys) && 0 <= i < |keys|
    ensures forall c :: c in EntryMessages(m, b, keys[i]) ==> c in SyncMessages(m, b, keys)
  {
    FlattenHas(EntryBlocks(m, b, keys), i);
  }

  /** In particular every listed entry's value goes out, at its address. */
  lemma SyncSendsValue(m: Table, b: Slots, keys: seq<Key>, i: int)
    requires Listed(m, keys) && 0 <= i < |keys|
    ensures var k := keys[i];
      ParamMessage(ParamOfKey(k), PlayModeOf(m), k.op, k.pid, k.cid, m[k]) in SyncMessages(m, b, keys)
  {
    SyncSendsEntry(m, b, keys, i);
    var k := keys[i];
    assert EntryMessages(m, b, k)[0] == ParamMessage(ParamOfKey(k), PlayModeOf(m), k.op, k.pid, k.cid, m[k]);
  }

  // ---------------------------------------------------------------------------
  // The sequencer grid

  /** createSequence: six voices of sixteen steps, all off. */
  function EmptySequence(): (s: seq<seq<int>>)
    ensures |s| == 6 && forall v :: 0 <= v < 6 ==> |s[v]| == 16
    ensures forall v, t :: 0 <= v < 6 && 0 <= t < 16 ==> s[v][t] == 0
  {
    seq(6, _ => seq(16, _ => 0))
  }

  predicate GridShape(s: seq<seq<int>>)
  {
    |s| == 6 && forall v :: 0 <= v < 6 ==> |s[v]| == 16
  }

  /** `prev === 0 ? 1 : 0` */
  function Flipped(prev: int): (r: int)
    ensures r == 0 || r == 1
    ensures (r == 1) == (prev == 0)
  {
    if prev == 0 then 1 else 0
  }

  /** A step that is on or off flips back when toggled twice. */
  lemma FlippedTwice(prev: int)
    requires prev == 0 || prev == 1
    ensures Flipped(Flipped(prev)) == prev
  {
  }

  function SeqStepValue(voice: int, step: int): int
  {
    voice * 16 + step
  }

  /** A step of the 6x16 grid fits a 7-bit value below 96, and the module
      gets the voice and the step back. */
  lemma SeqStepValueDecodes(voice: int, step: int)
    requires 0 <= voice < 6 && 0 <= step < 16
    ensures 0 <= SeqStepValue(voice, step) < 96
    ensures SeqStepValue(voice, step) / 16 == voice && SeqStepValue(voice, step) % 16 == step
  {
  }

  // ---------------------------------------------------------------------------
  // What the operations keep of the table invariant

  /** Writing the key of a parameter instance keeps the table valid. */
  lemma StoreValid(m: Table, p: Param, pid: PatchId, cid: ChannelId, op: OperatorId, val: int)
    requires TableValid(m)
    ensures TableValid(m[KeyOf(p, pid, cid, op) := val])
  {
    DefaultKey(p, pid, cid, op);
  }

  /** changeParam's table: `val` written for `p` in patches 0..n-1. */
  function WrittenUpTo(m: Table, p: Param, n: int, cid: ChannelId, op: OperatorId, val: int): (r: Table)
    requires 0 <= n <= 4
    decreases n
  {
    if n == 0 then m else WrittenUpTo(m, p, n - 1, cid, op, val)[KeyOf(p, n - 1, cid, op) := val]
  }

  /** The patches below `n` read `val` for `p`; every other entry is kept. */
  lemma {:induction false} WrittenUpToRead(m: Table, p: Param, n: int, cid: ChannelId, op: OperatorId, val: int)
    requires 0 <= n <= 4
    ensures var r := WrittenUpTo(m, p, n, cid, op, val);
      && (forall q: PatchId :: q < n ==> KeyOf(p, q, cid, op) in r && r[KeyOf(p, q, cid, op)] == val)
      && (forall k :: k in m ==> k in r)
      && (forall k :: k in r && (forall q: PatchId :: q < n ==> k != KeyOf(p, q, cid, op)) ==> k in m && r[k] == m[k])
    decreases n
  {
    if n > 0 {
      var prev := WrittenUpTo(m, p, n - 1, cid, op, val);
      var key := KeyOf(p, n - 1, cid, op);
      var r := prev[key := val];
      assert WrittenUpTo(m, p, n, cid, op, val) == r;
      WrittenUpToRead(m, p, n - 1, cid, op, val);
      forall q: PatchId | q < n ensures KeyOf(p, q, cid, op) in r && r[KeyOf(p, q, cid, op)] == val {
        if q < n - 1 {
          assert KeyOf(p, q, cid, op) in prev && prev[KeyOf(p, q, cid, op)] == val;
        }
      }
      forall k | k in r && (forall q: PatchId :: q < n ==> k != KeyOf(p, q, cid, op)) ensures k in m && r[k] == m[k] {
        assert k != key && k in prev;
      }
    }
  }

  lemma {:induction false} WrittenUpToValid(m: Table, p: Param, n: int, cid: ChannelId, op: OperatorId, val: int)
    requires 0 <= n <= 4 && TableValid(m)
    ensures TableValid(WrittenUpTo(m, p, n, cid, op, val))
    decreases n
  {
    if n > 0 {
      WrittenUpToValid(m, p, n - 1, cid, op, val);
      StoreValid(WrittenUpTo(m, p, n - 1, cid, op, val), p, n - 1, cid, op, val);
    }
  }

  /** What changeParam sends for patches 0..n-1: one value message each, in order. */
  function MessagesUpTo(playMode: Option<int>, p: Param, n: int, cid: ChannelId, op: OperatorId, val: int): (r: seq<Cc>)
    requires 0 <= n <= 4
    ensures |r| == n
    ensures forall q :: 0 <= q < n ==> r[q] == ParamMessage(p, playMode, op, q, cid, val)
    decreases n
  {
    if n == 0 then [] else MessagesUpTo(playMode, p, n - 1, cid, op, val) + [ParamMessage(p, playMode, op, n - 1, cid, val)]
  }

  /** Writing `st` leaves the play mode `pm-0-0-0` alone. */
  lemma StKeepsPlayMode(m: Table, n: int, cid: ChannelId, op: OperatorId, val: int)
    requires 0 <= n <= 4
    ensures PlayModeOf(WrittenUpTo(m, St, n, cid, op, val)) == PlayModeOf(m)
  {
    WrittenUpToRead(m, St, n, cid, op, val);
    forall q: PatchId ensures KeyOf(PlayMode, 0, 0, 0) != KeyOf(St, q, cid, op) {
      assert KeyOf(PlayMode, 0, 0, 0).id == "pm" && KeyOf(St, q, cid, op).id == "st";
    }
  }

  /** A table whose keys are encoded and carry labels of keys of a valid
      table is made of legacy keys. */
  lemma SameLabelsLegacy(m: Table, r: Table)
    requires TableValid(m) && AllEncoded(r)
    requires forall k' :: k' in r ==> exists k :: k in m && k.id == k'.id
    ensures forall k' :: k' in r ==> IsLegacyKey(k')
  {
    forall k' | k' in r ensures IsLegacyKey(k') {
      var k :| k in m && k.id == k'.id;
      assert IsLegacyKey(k);
    }
  }

  lemma MovedPatchesInstances(m: Table, index: PatchId, before: PatchId)
    requires TableValid(m)
    ensures forall p: Param, pid: PatchId, cid: ChannelId, op: OperatorId ::
      !IsSettingParam(p) ==> KeyOf(p, pid, cid, op) in MovedPatches(m, index, before)
  {
    forall p: Param, pid: PatchId, cid: ChannelId, op: OperatorId | !IsSettingParam(p)
      ensures KeyOf(p, pid, cid, op) in MovedPatches(m, index, before)
    {
      MovedPatchesComplete(m, index, before, p, pid, cid, op);
    }
  }

  /** Moving patches keeps the table valid. */
  lemma MovedPatchesValid(m: Table, index: PatchId, before: PatchId)
    requires TableValid(m)
    ensures TableValid(MovedPatches(m, index, before))
  {
    MovedPatchesEncoded(m, index, before);
    SameLabelsLegacy(m, MovedPatches(m, index, before));
    MovedPatchesInstances(m, index, before);
  }

  lemma MovedChannelsInstances(m: Table, patchIdx: PatchId, index: ChannelId, before: ChannelId)
    requires TableValid(m)
    ensures forall p: Param, pid: PatchId, cid: ChannelId, op: OperatorId ::
      !IsSettingParam(p) ==> KeyOf(p, pid, cid, op) in MovedChannels(m, patchIdx, index, before)
  {
    forall p: Param, pid: PatchId, cid: ChannelId, op: OperatorId | !IsSettingParam(p)
      ensures KeyOf(p, pid, cid, op) in MovedChannels(m, patchIdx, index, before)
    {
      MovedChannelsComplete(m, patchIdx, index, before, p, pid, cid, op);
    }
  }

  /** Moving channels keeps the table valid. */
  lemma MovedChannelsValid(m: Table, patchIdx: PatchId, index: ChannelId, before: ChannelId)
    requires TableValid(m)
    ensures TableValid(MovedChannels(m, patchIdx, index, before))
  {
    MovedChannelsEncoded(m, patchIdx, index, before);
    SameLabelsLegacy(m, MovedChannels(m, patchIdx, index, before));
    MovedChannelsInstances(m, patchIdx, index, before);
  }

  /** The key copy-patch reads for a key of the target patch is that key
      itself (a setting, or a copy onto itself) or a key of the source patch. */
  lemma PatchSourceOf(k: Key, source: PatchId)
    requires IsLegacyKey(k)
    ensures PatchSource(k, source) == k || PatchSource(k, source).pid == source != k.pid
  {
    KeyInstance(k);
    var p := ParamOfKey(k);
    EncodeKeyCanonical(p, source, k.cid, k.op);
  }

  /** In a valid table every key copy-patch reads is present. */
  lemma PatchSourcesValid(m: Table, source: PatchId, target: PatchId)
    requires TableValid(m)
    ensures PatchSourcesPresent(m, source, target)
  {
    forall k | k in m && k.pid == target ensures PatchSource(k, source) in m {
      KeyInstance(k);
      var p := ParamOfKey(k);
      EncodeKeyCanonical(p, source, k.cid, k.op);
    }
  }

  /** The key copy-channel reads for a key is that key itself (the LFO, a
      setting, or a copy onto itself) or the key of the same parameter of
      the same patch in channel `source`. */
  lemma ChannelSourceOf(k: Key, source: ChannelId)
    requires IsLegacyKey(k)
    ensures ChannelSource(k, source) == k
         || (ChannelSource(k, source).pid == k.pid && ChannelSource(k, source).cid == source != k.cid)
  {
    KeyInstance(k);
    var p := ParamOfKey(k);
    EncodeKeyCanonical(p, k.pid, source, k.op);
  }

  lemma ChannelSourcesValid(m: Table, patchIdx: PatchId, source: ChannelId, target: ChannelId)
    requires TableValid(m)
    ensures ChannelSourcesPresent(m, patchIdx, source, target)
  {
    forall k | k in m && k.pid == patchIdx && k.cid == target ensures ChannelSource(k, source) in m {
      KeyInstance(k);
      var p := ParamOfKey(k);
      EncodeKeyCanonical(p, k.pid, source, k.op);
    }
  }

  /** copy-patch part way through: the keys still to do hold their old
      values, those done hold what CopiedPatch gives them. */
  predicate PatchCopiedSoFar(m0: Table, cur: Table, todo: set<Key>, source: PatchId, target: PatchId)
  {
    && PatchSourcesPresent(m0, source, target) && todo <= m0.Keys && cur.Keys == m0.Keys
    && forall k :: k in cur ==>
         cur[k] == if k in todo || k.pid != target then m0[k] else m0[PatchSource(k, source)]
  }

  /** One key of copy-patch's loop: the value it reads from the table being
      written is still the old one. */
  lemma PatchCopyStep(m0: Table, cur: Table, next: Table, todo: set<Key>, k: Key, source: PatchId, target: PatchId)
    requires TableValid(m0) && PatchSourcesPresent(m0, source, target)
    requires PatchCopiedSoFar(m0, cur, todo, source, target) && k in todo
    requires k.pid == target ==> PatchSource(k, source) in cur && next == cur[k := cur[PatchSource(k, source)]]
    requires k.pid != target ==> next == cur
    ensures PatchCopiedSoFar(m0, next, todo - {k}, source, target)
  {
    PatchSourceOf(k, source);
  }

  lemma PatchCopyDone(m0: Table, cur: Table, source: PatchId, target: PatchId)
    requires PatchSourcesPresent(m0, source, target) && PatchCopiedSoFar(m0, cur, {}, source, target)
    ensures cur == CopiedPatch(m0, source, target)
  {
    var r := CopiedPatch(m0, source, target);
    assert forall k :: k in r ==> cur[k] == r[k];
  }

  predicate ChannelCopiedSoFar(m0: Table, cur: Table, todo: set<Key>, patchIdx: PatchId, source: ChannelId, target: ChannelId)
  {
    && ChannelSourcesPresent(m0, patchIdx, source, target) && todo <= m0.Keys && cur.Keys == m0.Keys
    && forall k :: k in cur ==>
         cur[k] == if k in todo || k.pid != patchIdx || k.cid != target then m0[k] else m0[ChannelSource(k, source)]
  }

  lemma ChannelCopyStep(m0: Table, cur: Table, next: Table, todo: set<Key>, k: Key,
                        patchIdx: PatchId, source: ChannelId, target: ChannelId)
    requires TableValid(m0) && ChannelSourcesPresent(m0, patchIdx, source, target)
    requires ChannelCopiedSoFar(m0, cur, todo, patchIdx, source, target) && k in todo
    requires k.pid == patchIdx && k.cid == target ==>
      ChannelSource(k, source) in cur && next == cur[k := cur[ChannelSource(k, source)]]
    requires !(k.pid == patchIdx && k.cid == target) ==> next == cur
    ensures ChannelCopiedSoFar(m0, next, todo - {k}, patchIdx, source, target)
  {
    ChannelSourceOf(k, source);
  }

  lemma ChannelCopyDone(m0: Table, cur: Table, patchIdx: PatchId, source: ChannelId, target: ChannelId)
    requires ChannelSourcesPresent(m0, patchIdx, source, target)
    requires ChannelCopiedSoFar(m0, cur, {}, patchIdx, source, target)
    ensures cur == CopiedChannel(m0, patchIdx, source, target)
  {
    var r := CopiedChannel(m0, patchIdx, source, target);
    assert forall k :: k in r ==> cur[k] == r[k];
  }

  /** Validity depends only on which keys are present. */
  lemma CopiedValid(m: Table, r: Table)
    requires TableValid(m) && r.Keys == m.Keys
    ensures TableValid(r)
  {
    assert forall k :: k in r <==> k in m;
  }

  // ---------------------------------------------------------------------------
  // The editor

  class Editor {
    var name: string
    var sequence: seq<seq<int>>
    var bindingKey: Option<BindingKey>
    var bindings: Slots
    var moduleState: Table
    var patchIdx: PatchId
    var channelIdx: ChannelId
    var calibrationStep: int
    /** Every Control Change sent so far, oldest first. */
    var out: seq<Cc>

    predicate Valid()
      reads this
    {
      && GridShape(sequence)
      && TableValid(moduleState)
      && NoDuplicates(bindings.x) && NoDuplicates(bindings.y) && NoDuplicates(bindings.z)
    }

    /** getInitialState: every patch, channel and operator parameter of all
        four patches and the settings but the patch zone and the blend mode,
        at their defaults; no binding, the first patch and channel, an empty grid. */
    constructor ()
      ensures Valid()
      ensures name == "Unnamed" && bindings == Slots([], [], []) && bindingKey == None
      ensures patchIdx == 0 && channelIdx == 0 && calibrationStep == 0
      ensures sequence == EmptySequence() && out == []
      ensures forall p: Param, pid: PatchId, cid: ChannelId, op: OperatorId ::
        KeyOf(p, pid, cid, op) in moduleState <==> Default(p).Some?
      ensures Defaulted(moduleState)
    {
      name := "Unnamed";
      bindings := Slots([], [], []);
      bindingKey := None;
      patchIdx := 0;
      channelIdx := 0;
      moduleState := map[];
      sequence := EmptySequence();
      calibrationStep := 0;
      out := [];
      new;
      var pid := 0;
      while pid < 4
        invariant 0 <= pid <= 4
        invariant Defaulted(moduleState) && PatchesSet(moduleState, pid)
        modifies this`moduleState
      {
        SetPatchDefaults(pid);
        pid := pid + 1;
      }
      SetSettingDefaults();
      InitialKeys(moduleState);
    }

    /** The global settings getInitialState adds after the patches. */
    method SetSettingDefaults()
      requires Defaulted(moduleState)
      modifies this`moduleState
      ensures Defaulted(moduleState) && Grows(old(moduleState), moduleState)
      ensures forall p: Param, pid: PatchId, cid: ChannelId, op: OperatorId ::
        IsSettingParam(p) && Default(p).Some? ==> KeyOf(p, pid, cid, op) in moduleState
    {
      SettingDefaultValues();
      SetParamValue(PlayMode, 0, 0, 0, 0);
      SetParamValue(LedBrightness, 0, 0, 0, 64);
      SetParamValue(MidiReceiveChannel, 0, 0, 0, 0);
      SetParamValue(AttenuverterMode, 0, 0, 0, 0);
      SetParamValue(Transpose, 0, 0, 0, 32);
      SetParamValue(Tunning, 0, 0, 0, 64);
      SetParamValue(Blend, 0, 0, 0, 0);
      SetParamValue(SeqSteps, 0, 0, 0, 7);
      SettingKeys(moduleState);
    }

    /** The body of getInitialState's loop over the patches: the LFO, then
        the loop over the six channels. */
    method SetPatchDefaults(pid: PatchId)
      requires Defaulted(moduleState)
      modifies this`moduleState
      ensures Defaulted(moduleState) && Grows(old(moduleState), moduleState)
      ensures forall p: Param, cid: ChannelId, op: OperatorId ::
        !IsSettingParam(p) ==> KeyOf(p, pid, cid, op) in moduleState
    {
      ChannelDefaultValues();
      SetParamValue(Lfo, pid, 0, 0, 0);
      ghost var m1 := moduleState;
      SetChannelsDefaults(pid);
      PatchKeys(m1, moduleState, pid);
    }

    /** The loop over the six channels of one patch. */
    method SetChannelsDefaults(pid: PatchId)
      requires Defaulted(moduleState)
      modifies this`moduleState
      ensures Defaulted(moduleState) && Grows(old(moduleState), moduleState)
      ensures forall p: Param, cid: ChannelId, op: OperatorId ::
        IsChannelParam(p) || IsOperatorParam(p) ==> KeyOf(p, pid, cid, op) in moduleState
    {
      var cid := 0;
      while cid < 6
        invariant 0 <= cid <= 6
        invariant Defaulted(moduleState) && Grows(old(moduleState), moduleState)
        invariant forall p: Param, c: ChannelId, op: OperatorId ::
          (IsChannelParam(p) || IsOperatorParam(p)) && c < cid ==> KeyOf(p, pid, c, op) in moduleState
      {
        SetChannelDefaults(pid, cid);
        cid := cid + 1;
      }
    }

    /** The body of the loop over the channels: five channel parameters, then
        the loop over the four operators. */
    method SetChannelDefaults(pid: PatchId, cid: ChannelId)
      requires Defaulted(moduleState)
      modifies this`moduleState
      ensures Defaulted(moduleState) && Grows(old(moduleState), moduleState)
      ensures forall p: Param, op: OperatorId ::
        IsChannelParam(p) || IsOperatorParam(p) ==> KeyOf(p, pid, cid, op) in moduleState
    {
      ChannelDefaultValues();
      SetParamValue(Al, pid, cid, 0, 7);
      SetParamValue(Fb, pid, cid, 0, 0);
      SetParamValue(Ams, pid, cid, 0, 0);
      SetParamValue(Fms, pid, cid, 0, 0);
      SetParamValue(St, pid, cid, 0, 3);
      ChannelKeys(moduleState, pid, cid);
      SetOperatorsDefaults(pid, cid);
    }

    /** The loop over the four operators of one channel. */
    method SetOperatorsDefaults(pid: PatchId, cid: ChannelId)
      requires Defaulted(moduleState)
      modifies this`moduleState
      ensures Defaulted(moduleState) && Grows(old(moduleState), moduleState)
      ensures forall p: Param, op: OperatorId :: IsOperatorParam(p) ==> KeyOf(p, pid, cid, op) in moduleState
    {
      var op := 0;
      while op < 4
        invariant 0 <= op <= 4
        invariant Defaulted(moduleState) && Grows(old(moduleState), moduleState)
        invariant forall p: Param, o: OperatorId :: IsOperatorParam(p) && o < op ==> KeyOf(p, pid, cid, o) in moduleState
      {
        SetOperatorDefaults(pid, cid, op);
        op := op + 1;
      }
    }

    /** The body of the loop over the operators: ten operator parameters. */
    method SetOperatorDefaults(pid: PatchId, cid: ChannelId, op: OperatorId)
      requires Defaulted(moduleState)
      modifies this`moduleState
      ensures Defaulted(moduleState) && Grows(old(moduleState), moduleState)
      ensures forall p: Param :: IsOperatorParam(p) ==> KeyOf(p, pid, cid, op) in moduleState
    {
      OperatorDefaultValues();
      SetParamValue(Ar, pid, cid, op, 31);
      SetParamValue(D1, pid, cid, op, 0);
      SetParamValue(Sl, pid, cid, op, 0);
      SetParamValue(D2, pid, cid, op, 0);
      SetParamValue(Rr, pid, cid, op, 15);
      SetParamValue(Tl, pid, cid, op, 0);
      SetParamValue(Mul, pid, cid, op, 3);
      SetParamValue(Det, pid, cid, op, 3);
      SetParamValue(Rs, pid, cid, op, 0);
      SetParamValue(Am, pid, cid, op, 0);
      OperatorKeys(moduleState, pid, cid, op);
    }

    /** setParamValue of getInitialState: store under the instance's key. */
    method SetParamValue(p: Param, pid: PatchId, cid: ChannelId, op: OperatorId, val: int)
      modifies this`moduleState
      ensures moduleState == old(moduleState)[KeyOf(p, pid, cid, op) := val]
      ensures Grows(old(moduleState), moduleState) && KeyOf(p, pid, cid, op) in moduleState
      ensures Defaulted(old(moduleState)) && Default(p) == Some(val) ==> Defaulted(moduleState)
    {
      var meta := GetParamMeta(p, PlayModeOf(moduleState), op, pid, cid);
      moduleState := moduleState[meta.key := val];
      DefaultKey(p, pid, cid, op);
    }

    /** toggleParamBinding: with a modulator armed and a bindable parameter,
        unbind the parameter from it if it is bound and bind it otherwise,
        and tell the module which; without either, nothing happens. */
    method ToggleParamBinding(p: Param, op: OperatorId)
      requires Valid()
      modifies this`bindings, this`out
      ensures Valid()
      ensures var bi := GetParamBindingIndex(p, op);
        if bindingKey.None? || bi.None? then bindings == old(bindings) && out == old(out)
        else
          var slot := Slot(old(bindings), bindingKey.value);
          && bindings == WithSlot(old(bindings), bindingKey.value, Toggled(slot, bi.value))
          && out == old(out) + [Command(BindCommand(bindingKey.value), BindValue(bi.value, bi.value !in slot))]
    {
      if bindingKey.None? {
        return;
      }
      var meta := GetParamMeta(p, PlayModeOf(moduleState), op, patchIdx, channelIdx);
      if meta.bi.None? {
        return;
      }
      ToggleSlot(bindingKey.value, meta.bi.value);
    }

    /** The binding list of modulator `key` with index `bi` toggled: after it
        the list holds `bi` exactly when it did not before, keeps every other
        index, and the lists of the other modulators are unchanged. */
    method ToggleSlot(key: BindingKey, bi: int)
      requires Valid()
      modifies this`bindings, this`out
      ensures Valid()
      ensures var slot := Slot(old(bindings), key);
        && bindings == WithSlot(old(bindings), key, Toggled(slot, bi))
        && out == old(out) + [Command(BindCommand(key), BindValue(bi, bi !in slot))]
      ensures forall x :: x in Slot(bindings, key) <==>
        if x == bi then bi !in Slot(old(bindings), key) else x in Slot(old(bindings), key)
      ensures forall j :: j != key ==> Slot(bindings, j) == Slot(old(bindings), j)
    {
      var slot := Slot(bindings, key);
      ToggledMembers(slot, bi);
      bindings := WithSlot(bindings, key, Toggled(slot, bi));
      var index := IndexOf(slot, bi);
      if index != -1 {
        out := out + [Command(BindCommand(key), bi)];
      } else {
        out := out + [Command(BindCommand(key), 64 + bi)];
      }
    }

    /** toggle-binding: arm modulator `k`, or disarm it when it is armed. */
    method ToggleBinding(k: BindingKey)
      requires Valid()
      modifies this`bindingKey
      ensures Valid()
      ensures bindingKey == if old(bindingKey) == Some(k) then None else Some(k)
    {
      if bindingKey == Some(k) {
        bindingKey := None;
      } else {
        bindingKey := Some(k);
      }
    }

    /** toggleSeqStep: flip one step of one voice and tell the module
        whether it went on or off. */
    method ToggleSeqStep(voice: int, step: int)
      requires Valid() && 0 <= voice < 6 && 0 <= step < 16
      modifies this`sequence, this`out
      ensures Valid()
      ensures var prev := old(sequence)[voice][step];
        && sequence == old(sequence)[voice := old(sequence)[voice][step := Flipped(prev)]]
        && out == old(out) + [Command(if prev == 0 then SET_SEQ_STEP_ON else SET_SEQ_STEP_OFF, SeqStepValue(voice, step))]
      ensures forall v, t :: 0 <= v < 6 && 0 <= t < 16 && (v != voice || t != step) ==>
        sequence[v][t] == old(sequence)[v][t]
    {
      var prev := sequence[voice][step];
      sequence := sequence[voice := sequence[voice][step := Flipped(prev)]];
      out := out + [Command(if prev == 0 then SET_SEQ_STEP_ON else SET_SEQ_STEP_OFF, SeqStepValue(voice, step))];
    }

    /** doChangeParam of changeParam: store the value of one instance and
        send it, scaled, to its address. */
    method DoChangeParam(p: Param, op: OperatorId, val: int, pid: PatchId)
      modifies this`moduleState, this`out
      ensures moduleState == old(moduleState)[KeyOf(p, pid, channelIdx, op) := val]
      ensures out == old(out) + [ParamMessage(p, PlayModeOf(old(moduleState)), op, pid, channelIdx, val)]
    {
      var meta := GetParamMeta(p, PlayModeOf(moduleState), op, pid, channelIdx);
      moduleState := moduleState[meta.key := val];
      out := out + [Cc(meta.ch, meta.cc, Shl(val, 7 - meta.bits))];
    }

    /** changeParam: `st` changes in all four patches at once, every other
        parameter in the current patch only. */
    method ChangeParam(p: Param, op: OperatorId, val: int)
      requires Valid()
      modifies this`moduleState, this`out
      ensures Valid()
      ensures p == St ==>
        && moduleState == WrittenUpTo(old(moduleState), St, 4, channelIdx, op, val)
        && out == old(out) + MessagesUpTo(PlayModeOf(old(moduleState)), St, 4, channelIdx, op, val)
      ensures p != St ==>
        && moduleState == old(moduleState)[KeyOf(p, patchIdx, channelIdx, op) := val]
        && out == old(out) + [ParamMessage(p, PlayModeOf(old(moduleState)), op, patchIdx, channelIdx, val)]
    {
      if p == St {
        ghost var m0 := moduleState;
        ghost var playMode := PlayModeOf(m0);
        var pid := 0;
        while pid < 4
          invariant 0 <= pid <= 4
          invariant moduleState == WrittenUpTo(m0, St, pid, channelIdx, op, val)
          invariant out == old(out) + MessagesUpTo(playMode, St, pid, channelIdx, op, val)
        {
          StKeepsPlayMode(m0, pid, channelIdx, op, val);
          DoChangeParam(p, op, val, pid);
          pid := pid + 1;
        }
        WrittenUpToValid(m0, St, 4, channelIdx, op, val);
      } else {
        StoreValid(moduleState, p, patchIdx, channelIdx, op, val);
        DoChangeParam(p, op, val, patchIdx);
      }
    }

    /** The binding message of one entry: the first modulator whose list
        holds its binding index. */
    method SendBinding(bi: Option<int>)
      modifies this`out
      ensures out == old(out) + BindMessages(bindings, bi)
    {
      if bi.Some? {
        var i := bi.value;
        if i in bindings.x {
          out := out + [Command(BIND_X, 64 + i)];
        } else if i in bindings.y {
          out := out + [Command(BIND_Y, 64 + i)];
        } else if i in bindings.z {
          out := out + [Command(BIND_Z, 64 + i)];
        }
      }
    }

    /** Entry `i` of syncMidi: its value, then its binding. The ghost
        parameters name the table, the bindings and the blocks the loop
        sends, which it does not change. */
    method SendEntry(keys: seq<Key>, i: int, ghost m: Table, ghost b: Slots, ghost blocks: seq<seq<Cc>>)
      requires m == moduleState && b == bindings
      requires Listed(m, keys) && 0 <= i < |keys| && blocks == EntryBlocks(m, b, keys)
      modifies this`out
      ensures out == old(out) + blocks[i]
    {
      var k := keys[i];
      var meta := GetParamMeta(ParamOfKey(k), PlayModeOf(moduleState), k.op, k.pid, k.cid);
      out := out + [Cc(meta.ch, meta.cc, Shl(moduleState[k], 7 - meta.bits))];
      SendBinding(meta.bi);
    }

    /** The entries one after the other, in the order `keys` lists them. */
    method SendEntries(keys: seq<Key>, ghost m: Table, ghost b: Slots, ghost blocks: seq<seq<Cc>>)
      requires m == moduleState && b == bindings
      requires Listed(m, keys) && blocks == EntryBlocks(m, b, keys)
      modifies this`out
      ensures out == old(out) + Flatten(blocks)
    {
      var i := 0;
      assert |blocks| == |keys|;
      while i < |keys|
        invariant 0 <= i <= |keys|
        invariant m == moduleState && b == bindings
        invariant out == old(out) + Flatten(blocks[..i])
      {
        ghost var before := out;
        SendEntry(keys, i, m, b, blocks);
        FlattenStep(blocks, i);
        assert out == before + blocks[i];
        i := i + 1;
      }
      assert blocks[..i] == blocks;
    }

    /** syncMidi: clear the module's bindings, then send every entry's value
        and the binding of every bound entry. `keys` is the order in which
        Object.entries lists the table: every key of the table and no other. */
    method SyncMidi(keys: seq<Key>)
      requires Valid()
      requires forall k :: k in moduleState <==> k in keys
      modifies this`out
      ensures Listed(moduleState, keys)
      ensures out == old(out) + [Command(CLEAR_BINDINGS, 127)] + SyncMessages(moduleState, bindings, keys)
    {
      assert Listed(moduleState, keys);
      out := out + [Command(CLEAR_BINDINGS, 127)];
      SendEntries(keys, moduleState, bindings, EntryBlocks(moduleState, bindings, keys));
    }

    /** save-state: tell the module to save, and disarm the modulator. */
    method SaveState()
      requires Valid()
      modifies this`bindingKey, this`out
      ensures Valid()
      ensures bindingKey == None && out == old(out) + [Command(SAVE_STATE, 127)]
    {
      out := out + [Command(SAVE_STATE, 127)];
      bindingKey := None;
    }

    /** move-patch: renumber the patches and announce the two indices. */
    method MovePatch(index: PatchId, before: PatchId)
      requires Valid()
      modifies this`moduleState, this`out
      ensures Valid()
      ensures moduleState == MovedPatches(old(moduleState), index, before)
      ensures out == old(out) + [Command(MOVE_PATCH, PackPair(index, before))]
    {
      MovedPatchesValid(moduleState, index, before);
      moduleState := MovedPatches(moduleState, index, before);
      out := out + [Command(MOVE_PATCH, PackPair(index, before))];
    }

    /** move-channel: renumber the channels of the current patch and
        announce it, unless the channel is dropped on or just in front of
        itself; the value is computed the corrected way. */
    method MoveChannel(index: ChannelId, before: ChannelId)
      requires Valid()
      modifies this`moduleState, this`out
      ensures Valid()
      ensures index == before - 1 || index == before ==> moduleState == old(moduleState) && out == old(out)
      ensures index != before - 1 && index != before ==>
        && moduleState == MovedChannels(old(moduleState), patchIdx, index, before)
        && out == old(out) + [Command(MOVE_CHANNEL, MoveChannelValue(patchIdx, index, before))]
    {
      if index == before - 1 || index == before {
        return;
      }
      MovedChannelsValid(moduleState, patchIdx, index, before);
      moduleState := MovedChannels(moduleState, patchIdx, index, before);
      out := out + [Command(MOVE_CHANNEL, MoveChannelValue(patchIdx, index, before))];
    }

    /** The loop of copy-patch, over the keys in any order; it reads the
        table it is writing, which agrees with the old table on every key
        it reads. */
    method CopyPatchEntries(source: PatchId, target: PatchId)
      requires TableValid(moduleState)
      modifies this`moduleState
      ensures PatchSourcesPresent(old(moduleState), source, target)
      ensures moduleState == CopiedPatch(old(moduleState), source, target)
    {
      ghost var m0 := moduleState;
      PatchSourcesValid(m0, source, target);
      var todo := moduleState.Keys;
      while todo != {}
        invariant PatchCopiedSoFar(m0, moduleState, todo, source, target)
        decreases |todo|
      {
        var k :| k in todo;
        ghost var cur := moduleState;
        if k.pid == target {
          var sk := EncodeKey(k.id, source, k.cid, k.op);
          moduleState := moduleState[k := moduleState[sk]];
        }
        PatchCopyStep(m0, cur, moduleState, todo, k, source, target);
        todo := todo - {k};
      }
      PatchCopyDone(m0, moduleState, source, target);
    }

    /** copy-patch: every entry of patch `target` takes the value of the same
        entry of patch `source`. */
    method CopyPatch(source: PatchId, target: PatchId)
      requires Valid()
      modifies this`moduleState, this`out
      ensures Valid()
      ensures PatchSourcesPresent(old(moduleState), source, target)
      ensures moduleState == CopiedPatch(old(moduleState), source, target)
      ensures out == old(out) + [Command(COPY_PATCH, PackPair(source, target))]
    {
      ghost var m0 := moduleState;
      CopyPatchEntries(source, target);
      CopiedValid(m0, moduleState);
      out := out + [Command(COPY_PATCH, PackPair(source, target))];
    }

    /** The loop of copy-channel, in the same way. */
    method CopyChannelEntries(source: ChannelId, target: ChannelId)
      requires TableValid(moduleState)
      modifies this`moduleState
      ensures ChannelSourcesPresent(old(moduleState), patchIdx, source, target)
      ensures moduleState == CopiedChannel(old(moduleState), patchIdx, source, target)
    {
      ghost var m0 := moduleState;
      ChannelSourcesValid(m0, patchIdx, source, target);
      var todo := moduleState.Keys;
      while todo != {}
        invariant ChannelCopiedSoFar(m0, moduleState, todo, patchIdx, source, target)
        decreases |todo|
      {
        var k :| k in todo;
        ghost var cur := moduleState;
        if k.pid == patchIdx && k.cid == target {
          var sk := EncodeKey(k.id, k.pid, source, k.op);
          moduleState := moduleState[k := moduleState[sk]];
        }
        ChannelCopyStep(m0, cur, moduleState, todo, k, patchIdx, source, target);
        todo := todo - {k};
      }
      ChannelCopyDone(m0, moduleState, patchIdx, source, target);
    }

    /** copy-channel: within the current patch, every entry of channel
        `target` takes the value of the same entry of channel `source`;
        copying a channel onto itself does nothing. */
    method CopyChannel(source: ChannelId, target: ChannelId)
      requires Valid()
      modifies this`moduleState, this`out
      ensures Valid()
      ensures source == target ==> moduleState == old(moduleState) && out == old(out)
      ensures source != target ==>
        && ChannelSourcesPresent(old(moduleState), patchIdx, source, target)
        && moduleState == CopiedChannel(old(moduleState), patchIdx, source, target)
        && out == old(out) + [Command(COPY_CHANNEL, CopyChannelValue(patchIdx, source, target))]
    {
      if source == target {
        return;
      }
      ghost var m0 := moduleState;
      CopyChannelEntries(source, target);
      CopiedValid(m0, moduleState);
      out := out + [Command(COPY_CHANNEL, CopyChannelValue(patchIdx, source, target))];
    }
  }
}
