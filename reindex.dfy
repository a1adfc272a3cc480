/** The structural edits of the editor's reducer (src/context.tsx): moving a
    patch or a channel renumbers the keys of the parameter table, copying one
    overwrites the values held under the target's keys, and each edit is
    announced to the module by a single command whose value packs its
    arguments. */
module Reindex {
  import opened Common
  import opened FlatKey
  import opened LegacyParams

  /** The parameter table `moduleState`. */
  type Table = map<Key, int>

  /** A key that encodeKey leaves as it is: the indices its parameter kind
      does not use are zero. Every key the editor stores has this form. */
  predicate Encoded(k: Key)
  {
    EncodeKey(k.id, k.pid, k.cid, k.op) == k
  }

  predicate AllEncoded(m: Table)
  {
    forall k :: k in m ==> Encoded(k)
  }

  /** A key whose label is a setting: it carries no index at all. */
  predicate SettingKey(k: Key)
  {
    ParamOfLabel(k.id).Some? && IsSettingParam(ParamOfLabel(k.id).value)
  }

  /** The key of a parameter instance is an encoded key, and its parts are
      the parameter's label with the indices its kind keeps. */
  lemma {:induction false} KeyOfParts(p: Param, pid: PatchId, cid: ChannelId, op: OperatorId)
    ensures Encoded(KeyOf(p, pid, cid, op))
    ensures SettingKey(KeyOf(p, pid, cid, op)) <==> IsSettingParam(p)
    ensures !IsSettingParam(p) ==> KeyOf(p, pid, cid, op).pid == pid
    ensures IsChannelParam(p) || IsOperatorParam(p) ==> KeyOf(p, pid, cid, op).cid == cid
  {
    LabelRoundTrip(p);
    EncodeKeyCanonical(p, pid, cid, op);
  }

  // ---------------------------------------------------------------------------
  // Renumbering

  /** Where item `i` of `n` ends up when item `index` is dropped at `before`:
      the test chain of move-patch and move-channel. Dropping an item just in
      front of itself or on itself changes nothing. */
  function MovedIndex(i: int, index: int, before: int, n: int): (r: int)
    requires 0 <= i < n && 0 <= index < n && 0 <= before < n
    ensures 0 <= r < n
    ensures index == before || index == before - 1 ==> r == i
    ensures i == index ==> r == before || index == before - 1
  {
    if i == index && index != before - 1 && index != before then before
    else if index > before && i < index && i >= before then i + 1
    else if index < before - 1 && i > index && i <= before then i - 1
    else i
  }

  /** The item that `MovedIndex` sends to `j`. */
  function MovedFrom(j: int, index: int, before: int, n: int): (r: int)
    requires 0 <= j < n && 0 <= index < n && 0 <= before < n
    ensures 0 <= r < n
  {
    if index == before || index == before - 1 then j
    else if j == before then index
    else if index > before && j > before && j <= index then j - 1
    else if index < before - 1 && j >= index && j < before then j + 1
    else j
  }

  /** The renumbering is a bijection of 0..n-1 and `MovedFrom` undoes it. */
  lemma MovedIndexBijective(i: int, j: int, index: int, before: int, n: int)
    requires 0 <= i < n && 0 <= j < n && 0 <= index < n && 0 <= before < n
    ensures MovedFrom(MovedIndex(i, index, before, n), index, before, n) == i
    ensures MovedIndex(MovedFrom(j, index, before, n), index, before, n) == j
  {
  }

  lemma MovedIndexInjective(i: int, j: int, index: int, before: int, n: int)
    requires 0 <= i < n && 0 <= j < n && 0 <= index < n && 0 <= before < n
    requires MovedIndex(i, index, before, n) == MovedIndex(j, index, before, n)
    ensures i == j
  {
    MovedIndexBijective(i, j, index, before, n);
    MovedIndexBijective(j, i, index, before, n);
  }

  // ---------------------------------------------------------------------------
  // move-patch

  /** The key a table entry is stored under after moving patch `index` to
      `before`: only the patch index is renumbered, and encodeKey zeroes it
      again for a setting. */
  function PatchMoved(k: Key, index: PatchId, before: PatchId): Key
  {
    EncodeKey(k.id, MovedIndex(k.pid, index, before, 4), k.cid, k.op)
  }

  lemma {:induction false} PatchMovedParts(k: Key, index: PatchId, before: PatchId)
    requires Encoded(k)
    ensures var k' := PatchMoved(k, index, before);
      && Encoded(k') && k'.id == k.id && k'.cid == k.cid && k'.op == k.op
      && k'.pid == if SettingKey(k) then k.pid else MovedIndex(k.pid, index, before, 4)
  {
  }

  /** Two stored keys never land on the same new key, so rebuilding the table
      from its renamed entries loses none of them. */
  lemma PatchMovedInjective(k1: Key, k2: Key, index: PatchId, before: PatchId)
    requires Encoded(k1) && Encoded(k2)
    requires PatchMoved(k1, index, before) == PatchMoved(k2, index, before)
    ensures k1 == k2
  {
    PatchMovedParts(k1, index, before);
    PatchMovedParts(k2, index, before);
    if !SettingKey(k1) {
      MovedIndexInjective(k1.pid, k2.pid, index, before, 4);
    }
  }

  lemma PatchMovedInjectiveAll(m: Table, index: PatchId, before: PatchId)
    requires AllEncoded(m)
    ensures forall k1, k2 :: k1 in m && k2 in m && PatchMoved(k1, index, before) == PatchMoved(k2, index, before) ==> k1 == k2
  {
    forall k1, k2 | k1 in m && k2 in m && PatchMoved(k1, index, before) == PatchMoved(k2, index, before) {
      PatchMovedInjective(k1, k2, index, before);
    }
  }

  /** move-patch's table: every entry re-keyed, the values untouched. */
  function MovedPatches(m: Table, index: PatchId, before: PatchId): (r: Table)
    requires AllEncoded(m)
    ensures forall k :: k in m ==> PatchMoved(k, index, before) in r && r[PatchMoved(k, index, before)] == m[k]
    ensures forall k' :: k' in r ==> exists k :: k in m && PatchMoved(k, index, before) == k'
  {
    PatchMovedInjectiveAll(m, index, before);
    map k | k in m :: PatchMoved(k, index, before) := m[k]
  }

  /** Moving a patch moves every parameter instance of patch `pid` to patch
      `MovedIndex(pid)` and keeps its channel and operator. */
  lemma {:induction false} PatchMovedKeyOf(p: Param, pid: PatchId, cid: ChannelId, op: OperatorId, index: PatchId, before: PatchId)
    ensures PatchMoved(KeyOf(p, pid, cid, op), index, before) == KeyOf(p, MovedIndex(pid, index, before, 4), cid, op)
  {
    LabelRoundTrip(p);
    EncodeKeyCanonical(p, pid, cid, op);
    EncodeKeyCanonical(p, MovedIndex(pid, index, before, 4), cid, op);
  }

  /** After the move, patch `MovedIndex(pid)` holds what patch `pid` held. */
  lemma MovedPatchesRead(m: Table, index: PatchId, before: PatchId, p: Param, pid: PatchId, cid: ChannelId, op: OperatorId)
    requires AllEncoded(m) && KeyOf(p, pid, cid, op) in m
    ensures var r := MovedPatches(m, index, before); var q := MovedIndex(pid, index, before, 4);
      KeyOf(p, q, cid, op) in r && r[KeyOf(p, q, cid, op)] == m[KeyOf(p, pid, cid, op)]
  {
    PatchMovedKeyOf(p, pid, cid, op, index, before);
  }

  /** Every new key comes from an old one, so a table that holds every
      instance of a parameter still does after the move. */
  lemma MovedPatchesComplete(m: Table, index: PatchId, before: PatchId, p: Param, pid: PatchId, cid: ChannelId, op: OperatorId)
    requires AllEncoded(m)
    requires forall q: PatchId, c: ChannelId, o: OperatorId :: KeyOf(p, q, c, o) in m
    ensures KeyOf(p, pid, cid, op) in MovedPatches(m, index, before)
  {
    var q := MovedFrom(pid, index, before, 4);
    MovedIndexBijective(q, pid, index, before, 4);
    MovedPatchesRead(m, index, before, p, q, cid, op);
  }

  /** The new keys are encoded keys of the same parameters. */
  lemma MovedPatchesEncoded(m: Table, index: PatchId, before: PatchId)
    requires AllEncoded(m)
    ensures AllEncoded(MovedPatches(m, index, before))
    ensures forall k' :: k' in MovedPatches(m, index, before) ==> exists k :: k in m && k.id == k'.id
  {
    var r := MovedPatches(m, index, before);
    forall k' | k' in r ensures Encoded(k') && exists k :: k in m && k.id == k'.id {
      var k :| k in m && PatchMoved(k, index, before) == k';
      PatchMovedParts(k, index, before);
    }
  }

  /** Dropping a patch in front of itself or on itself leaves the table as it is. */
  lemma MovedPatchesStill(m: Table, index: PatchId, before: PatchId)
    requires AllEncoded(m)
    requires index == before || index == before - 1
    ensures MovedPatches(m, index, before) == m
  {
    var r := MovedPatches(m, index, before);
    forall k | k in m ensures k in r && r[k] == m[k] {
      assert PatchMoved(k, index, before) == k;
    }
    forall k' | k' in r ensures k' in m {
      var k :| k in m && PatchMoved(k, index, before) == k';
      assert PatchMoved(k, index, before) == k;
    }
  }

  // ---------------------------------------------------------------------------
  // move-channel

  /** The key a table entry is stored under after moving channel `index` of
      patch `patchIdx` to `before`; entries of other patches keep their key. */
  function ChannelMoved(k: Key, patchIdx: PatchId, index: ChannelId, before: ChannelId): Key
  {
    var cid := if k.pid == patchIdx then MovedIndex(k.cid, index, before, 6) else k.cid;
    EncodeKey(k.id, k.pid, cid, k.op)
  }

  lemma {:induction false} ChannelMovedParts(k: Key, patchIdx: PatchId, index: ChannelId, before: ChannelId)
    requires Encoded(k)
    ensures var k' := ChannelMoved(k, patchIdx, index, before);
      && Encoded(k') && k'.id == k.id && k'.pid == k.pid && k'.op == k.op
      && (k.pid != patchIdx ==> k' == k)
      && (k'.cid == k.cid || k'.cid == MovedIndex(k.cid, index, before, 6))
      && (k'.cid != k.cid ==> k.pid == patchIdx && k'.cid == MovedIndex(k.cid, index, before, 6))
  {
  }

  lemma ChannelMovedInjective(k1: Key, k2: Key, patchIdx: PatchId, index: ChannelId, before: ChannelId)
    requires Encoded(k1) && Encoded(k2)
    requires ChannelMoved(k1, patchIdx, index, before) == ChannelMoved(k2, patchIdx, index, before)
    ensures k1 == k2
  {
    ChannelMovedParts(k1, patchIdx, index, before);
    ChannelMovedParts(k2, patchIdx, index, before);
    if k1.pid == patchIdx && k1.cid != k2.cid {
      var m1, m2 := MovedIndex(k1.cid, index, before, 6), MovedIndex(k2.cid, index, before, 6);
      if m1 == m2 {
        MovedIndexInjective(k1.cid, k2.cid, index, before, 6);
      }
    }
  }

  lemma ChannelMovedInjectiveAll(m: Table, patchIdx: PatchId, index: ChannelId, before: ChannelId)
    requires AllEncoded(m)
    ensures forall k1, k2 ::
      (k1 in m && k2 in m && ChannelMoved(k1, patchIdx, index, before) == ChannelMoved(k2, patchIdx, index, before)) ==> k1 == k2
  {
    forall k1, k2 | k1 in m && k2 in m && ChannelMoved(k1, patchIdx, index, before) == ChannelMoved(k2, patchIdx, index, before) {
      ChannelMovedInjective(k1, k2, patchIdx, index, before);
    }
  }

  /** move-channel's table: every entry re-keyed, the values untouched. */
  function MovedChannels(m: Table, patchIdx: PatchId, index: ChannelId, before: ChannelId): (r: Table)
    requires AllEncoded(m)
    ensures forall k :: k in m ==>
      ChannelMoved(k, patchIdx, index, before) in r && r[ChannelMoved(k, patchIdx, index, before)] == m[k]
    ensures forall k' :: k' in r ==> exists k :: k in m && ChannelMoved(k, patchIdx, index, before) == k'
  {
    ChannelMovedInjectiveAll(m, patchIdx, index, before);
    map k | k in m :: ChannelMoved(k, patchIdx, index, before) := m[k]
  }

  /** Channel and operator parameters of the current patch follow their
      channel; everything else keeps its key. */
  lemma {:induction false} ChannelMovedKeyOf(p: Param, pid: PatchId, cid: ChannelId, op: OperatorId,
                                            patchIdx: PatchId, index: ChannelId, before: ChannelId)
    ensures var c := if pid == patchIdx && (IsChannelParam(p) || IsOperatorParam(p))
                     then MovedIndex(cid, index, before, 6) else cid;
      ChannelMoved(KeyOf(p, pid, cid, op), patchIdx, index, before) == KeyOf(p, pid, c, op)
    ensures !(IsChannelParam(p) || IsOperatorParam(p)) ==>
      ChannelMoved(KeyOf(p, pid, cid, op), patchIdx, index, before) == KeyOf(p, pid, cid, op)
  {
    LabelRoundTrip(p);
    EncodeKeyCanonical(p, pid, cid, op);
    EncodeKeyCanonical(p, pid, MovedIndex(cid, index, before, 6), op);
    EncodeKeyCanonical(p, pid, MovedIndex(0, index, before, 6), op);
  }

  /** After the move, channel `MovedIndex(cid)` of the current patch holds
      what channel `cid` held. */
  lemma MovedChannelsRead(m: Table, patchIdx: PatchId, index: ChannelId, before: ChannelId,
                          p: Param, cid: ChannelId, op: OperatorId)
    requires AllEncoded(m) && KeyOf(p, patchIdx, cid, op) in m
    requires IsChannelParam(p) || IsOperatorParam(p)
    ensures var r := MovedChannels(m, patchIdx, index, before); var c := MovedIndex(cid, index, before, 6);
      KeyOf(p, patchIdx, c, op) in r && r[KeyOf(p, patchIdx, c, op)] == m[KeyOf(p, patchIdx, cid, op)]
  {
    ChannelMovedKeyOf(p, patchIdx, cid, op, patchIdx, index, before);
  }

  /** Other patches, the LFO and the settings are left where they are. */
  lemma MovedChannelsElsewhere(m: Table, patchIdx: PatchId, index: ChannelId, before: ChannelId,
                               p: Param, pid: PatchId, cid: ChannelId, op: OperatorId)
    requires AllEncoded(m) && KeyOf(p, pid, cid, op) in m
    requires pid != patchIdx || !(IsChannelParam(p) || IsOperatorParam(p))
    ensures var r := MovedChannels(m, patchIdx, index, before);
      KeyOf(p, pid, cid, op) in r && r[KeyOf(p, pid, cid, op)] == m[KeyOf(p, pid, cid, op)]
  {
    ChannelMovedKeyOf(p, pid, cid, op, patchIdx, index, before);
  }

  lemma MovedChannelsComplete(m: Table, patchIdx: PatchId, index: ChannelId, before: ChannelId,
                              p: Param, pid: PatchId, cid: ChannelId, op: OperatorId)
    requires AllEncoded(m)
    requires forall q: PatchId, c: ChannelId, o: OperatorId :: KeyOf(p, q, c, o) in m
    ensures KeyOf(p, pid, cid, op) in MovedChannels(m, patchIdx, index, before)
  {
    if pid == patchIdx && (IsChannelParam(p) || IsOperatorParam(p)) {
      var c := MovedFrom(cid, index, before, 6);
      MovedIndexBijective(c, cid, index, before, 6);
      MovedChannelsRead(m, patchIdx, index, before, p, c, op);
    } else {
      MovedChannelsElsewhere(m, patchIdx, index, before, p, pid, cid, op);
    }
  }

  lemma MovedChannelsEncoded(m: Table, patchIdx: PatchId, index: ChannelId, before: ChannelId)
    requires AllEncoded(m)
    ensures AllEncoded(MovedChannels(m, patchIdx, index, before))
    ensures forall k' :: k' in MovedChannels(m, patchIdx, index, before) ==> exists k :: k in m && k.id == k'.id
  {
    var r := MovedChannels(m, patchIdx, index, before);
    forall k' | k' in r ensures Encoded(k') && exists k :: k in m && k.id == k'.id {
      var k :| k in m && ChannelMoved(k, patchIdx, index, before) == k';
      ChannelMovedParts(k, patchIdx, index, before);
    }
  }

  // ---------------------------------------------------------------------------
  // copy-patch and copy-channel

  /** The key copy-patch reads for the entry under `k`. */
  function PatchSource(k: Key, source: PatchId): Key
  {
    EncodeKey(k.id, source, k.cid, k.op)
  }

  /** The keys copy-patch reads are all present: the model does not hold the
      `undefined` the source would store for a missing one. */
  predicate PatchSourcesPresent(m: Table, source: PatchId, target: PatchId)
  {
    forall k :: k in m && k.pid == target ==> PatchSource(k, source) in m
  }

  /** copy-patch's table: the entries of patch `target` take the value under
      the same key in patch `source`; the key set is the same. */
  function CopiedPatch(m: Table, source: PatchId, target: PatchId): (r: Table)
    requires PatchSourcesPresent(m, source, target)
    ensures r.Keys == m.Keys
  {
    map k | k in m :: if k.pid == target then m[PatchSource(k, source)] else m[k]
  }

  /** Every parameter of patch `target` now reads what the same parameter of
      patch `source` held (settings, shared by all patches, read themselves). */
  lemma CopiedPatchRead(m: Table, source: PatchId, target: PatchId, p: Param, cid: ChannelId, op: OperatorId)
    requires PatchSourcesPresent(m, source, target)
    requires KeyOf(p, target, cid, op) in m && KeyOf(p, source, cid, op) in m
    ensures CopiedPatch(m, source, target)[KeyOf(p, target, cid, op)] == m[KeyOf(p, source, cid, op)]
  {
    LabelRoundTrip(p);
    EncodeKeyCanonical(p, target, cid, op);
    EncodeKeyCanonical(p, source, cid, op);
  }

  /** Every other patch keeps its values, and so do the settings. */
  lemma CopiedPatchElsewhere(m: Table, source: PatchId, target: PatchId, p: Param, pid: PatchId, cid: ChannelId, op: OperatorId)
    requires PatchSourcesPresent(m, source, target)
    requires KeyOf(p, pid, cid, op) in m
    requires pid != target || IsSettingParam(p)
    ensures CopiedPatch(m, source, target)[KeyOf(p, pid, cid, op)] == m[KeyOf(p, pid, cid, op)]
  {
    LabelRoundTrip(p);
    EncodeKeyCanonical(p, pid, cid, op);
    EncodeKeyCanonical(p, source, cid, op);
  }

  /** Copying a patch onto itself changes nothing. */
  lemma CopiedPatchSelf(m: Table, pid: PatchId)
    requires AllEncoded(m) && PatchSourcesPresent(m, pid, pid)
    ensures CopiedPatch(m, pid, pid) == m
  {
    var r := CopiedPatch(m, pid, pid);
    forall k | k in m ensures r[k] == m[k] {
      assert k.pid == pid ==> PatchSource(k, pid) == k;
    }
  }

  /** The key copy-channel reads for the entry under `k`. */
  function ChannelSource(k: Key, source: ChannelId): Key
  {
    EncodeKey(k.id, k.pid, source, k.op)
  }

  predicate ChannelSourcesPresent(m: Table, patchIdx: PatchId, source: ChannelId, target: ChannelId)
  {
    forall k :: k in m && k.pid == patchIdx && k.cid == target ==> ChannelSource(k, source) in m
  }

  /** copy-channel's table: the entries of channel `target` of the current
      patch take the value under the same key in channel `source`. */
  function CopiedChannel(m: Table, patchIdx: PatchId, source: ChannelId, target: ChannelId): (r: Table)
    requires ChannelSourcesPresent(m, patchIdx, source, target)
    ensures r.Keys == m.Keys
  {
    map k | k in m :: if k.pid == patchIdx && k.cid == target then m[ChannelSource(k, source)] else m[k]
  }

  /** Every channel and operator parameter of channel `target` now reads what
      the same parameter of channel `source` held. */
  lemma CopiedChannelRead(m: Table, patchIdx: PatchId, source: ChannelId, target: ChannelId,
                          p: Param, op: OperatorId)
    requires ChannelSourcesPresent(m, patchIdx, source, target)
    requires IsChannelParam(p) || IsOperatorParam(p)
    requires KeyOf(p, patchIdx, target, op) in m && KeyOf(p, patchIdx, source, op) in m
    ensures CopiedChannel(m, patchIdx, source, target)[KeyOf(p, patchIdx, target, op)]
         == m[KeyOf(p, patchIdx, source, op)]
  {
    LabelRoundTrip(p);
    EncodeKeyCanonical(p, patchIdx, target, op);
    EncodeKeyCanonical(p, patchIdx, source, op);
  }

  /** Everything else keeps its value: other channels and patches, and the
      LFO and the settings, whose keys carry no channel and read themselves. */
  lemma CopiedChannelElsewhere(m: Table, patchIdx: PatchId, source: ChannelId, target: ChannelId,
                               p: Param, pid: PatchId, cid: ChannelId, op: OperatorId)
    requires ChannelSourcesPresent(m, patchIdx, source, target)
    requires KeyOf(p, pid, cid, op) in m
    requires pid != patchIdx || cid != target || !(IsChannelParam(p) || IsOperatorParam(p))
    ensures CopiedChannel(m, patchIdx, source, target)[KeyOf(p, pid, cid, op)] == m[KeyOf(p, pid, cid, op)]
  {
    LabelRoundTrip(p);
    EncodeKeyCanonical(p, pid, cid, op);
    EncodeKeyCanonical(p, pid, source, op);
  }

  // ---------------------------------------------------------------------------
  // The command values

  /** `((a & 0b111) << 3) | (b & 0b111)`: two 3-bit fields in one value. */
  function PackPair(a: PatchId, b: PatchId): (v: int)
    ensures 0 <= v < 64
  {
    ((((a as bv8) & 7) << 3) | ((b as bv8) & 7)) as int
  }

  /** Two patch indices fit the 7-bit value and come back out of it. */
  lemma PackPairDecodes(a: PatchId, b: PatchId)
    ensures 0 <= PackPair(a, b) < 32
    ensures PackPair(a, b) / 8 == a && PackPair(a, b) % 8 == b
  {
    assert PackPair(a, b) == a * 8 + b by {
      if a == 0 { assert b == 0 || b == 1 || b == 2 || b == 3; }
      else if a == 1 { assert b == 0 || b == 1 || b == 2 || b == 3; }
      else if a == 2 { assert b == 0 || b == 1 || b == 2 || b == 3; }
      else { assert b == 0 || b == 1 || b == 2 || b == 3; }
    }
  }

  /** Drops one unusable position from a channel index: `x` differs from
      `other`, so the indices above `other` move down by one and 0..4 suffice. */
  function Shrunk(x: ChannelId, other: ChannelId): int
  {
    if x < other then x else x - 1
  }

  /** `patchIdx * 30 + shrunk * 6 + other`: one patch, one shrunk channel
      index and one channel index in a sum. */
  function ChannelPairValue(patchIdx: PatchId, shrunk: int, other: ChannelId): int
  {
    patchIdx * 30 + shrunk * 6 + other
  }

  /** The module's reading of such a value: (patch, channel, other channel). */
  function ChannelPairOf(v: int): (PatchId, int, ChannelId)
    requires 0 <= v < 120
  {
    var other := v % 6;
    var shrunk := (v / 6) % 5;
    (v / 30, if shrunk < other then shrunk else shrunk + 1, other)
  }

  /** copy-channel's value: the target shrunk against the source, then the source. */
  function CopyChannelValue(patchIdx: PatchId, source: ChannelId, target: ChannelId): (v: int)
    ensures source != target ==> 0 <= v <= 119
  {
    ChannelPairValue(patchIdx, Shrunk(target, source), source)
  }

  /** For distinct channels the value is at most 119 and gives back the
      patch, the target and the source. */
  lemma CopyChannelValueDecodes(patchIdx: PatchId, source: ChannelId, target: ChannelId)
    requires source != target
    ensures 0 <= CopyChannelValue(patchIdx, source, target) <= 119
    ensures ChannelPairOf(CopyChannelValue(patchIdx, source, target)) == (patchIdx, target, source)
  {
    var v := CopyChannelValue(patchIdx, source, target);
    var e := Shrunk(target, source);
    assert v == (patchIdx * 5 + e) * 6 + source;
    assert v / 6 == patchIdx * 5 + e && v % 6 == source;
    assert (v / 6) % 5 == e && v / 30 == patchIdx;
  }

  /** move-channel's value as written: `index < before ? before : before - 1`
      shrinks on the wrong side. */
  function MoveChannelValueAsWritten(patchIdx: PatchId, index: ChannelId, before: ChannelId): (v: int)
    ensures index != before ==> v != MoveChannelValue(patchIdx, index, before)
  {
    ChannelPairValue(patchIdx, if index < before then before else before - 1, index)
  }

  /** Two different moves send the same value, and a move to the front sends
      a negative one: (patch 1, channel 1 to 0) and (patch 0, channel 1 to 4)
      collide, and (patch 0, channel 1 to 0) sends -5. */
  lemma MoveChannelValueAsWrittenCollides()
    ensures MoveChannelValueAsWritten(1, 1, 0) == MoveChannelValueAsWritten(0, 1, 4) == 25
    ensures MoveChannelValueAsWritten(0, 1, 0) == -5
  {
  }

  /** move-channel's value with the shrinking copy-channel uses: `before`
      shrunk against `index`, then `index`. */
  function MoveChannelValue(patchIdx: PatchId, index: ChannelId, before: ChannelId): int
  {
    ChannelPairValue(patchIdx, Shrunk(before, index), index)
  }

  lemma MoveChannelValueDecodes(patchIdx: PatchId, index: ChannelId, before: ChannelId)
    requires index != before
    ensures 0 <= MoveChannelValue(patchIdx, index, before) <= 119
    ensures ChannelPairOf(MoveChannelValue(patchIdx, index, before)) == (patchIdx, before, index)
  {
    CopyChannelValueDecodes(patchIdx, index, before);
  }
}
