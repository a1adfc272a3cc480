# CV-2612 editor: protocol layer

CV-2612 is a Eurorack FM synthesiser module built around the YM2612 sound
chip. Its browser editor keeps a copy of every parameter the module holds
and talks to the module over MIDI:

- every parameter is a control change `(channel, controller, value)`;
- editor commands (copy, move, bind, sequencer steps, save) are controller
  numbers 101-115 on MIDI channel 15.

This project models that protocol layer and proves properties of it:

- **`Common`** (common.dfy): the values shared by every module.
  - Patch (0-3), channel (0-5) and operator (0-3) indices.
  - The three binding lists `x`, `y`, `z` of the CV modulators.
  - JavaScript's 32-bit `<<`, `>>` and `|0`, written out over unbounded
    integers.
  - The `Option` type.
- **`Params`** (params.dfy): the parameter tables of the firmware version,
  from src/enums.ts and src/utils/paramsHelpers.ts.
  - Parameter kinds, bit widths, titles and option lists.
  - The MIDI address of every parameter instance, in normal and in
    polyphonic mode.
  - The binding index of every bindable parameter.
  - The maximum value of each parameter.
- **`LegacyParams`** (legacy.dfy): the editor's own version of those
  tables, from src/context.tsx.
  - `getParamMidiCc`, `getParamBindingIndex`, `encodeKey`, `decodeKey` and
    `getParamMeta`.
  - The key under which a parameter instance is stored.
- **`FlatKey`** (flatkey.dfy): the string form of a key,
  `id-pid-cid-op`, and the `split('-')`/`parseInt` that reads it back.
- **`Crc`** (crc.dfy): `crc32_push`, the bitwise CRC-32 over 32-bit words:
  polynomial 0x04C11DB7, most significant bit first, initial value 0 and
  no final XOR.
- **`Checksum`** (checksum.dfy): `calculate_crc32`.
  - It lays the stored state out as the firmware's module layout: four
    `patch_t` of 157 bytes, three `ch_bitmask_t` of 9 bytes, then the
    20-byte `settings_t` with the sequence, 675 bytes in all.
  - It then runs the CRC over that image.
- **`Reindex`** (reindex.dfy): the renumbering of patches and channels
  that move-patch, move-channel, copy-patch and copy-channel perform on
  the stored table. It also holds the values those commands send.
- **`EditorState`** (editor.dfy): the editor state of src/context.tsx as a
  class.
  - Fields: name, bindings, armed modulator, current patch and channel,
    the parameter table `moduleState`, the 6 × 16 sequencer grid, the
    calibration step.
  - The MIDI messages sent so far, as the log `out`.
  - Methods for the initial state and for the reducer actions
    toggle-param-binding, change-param, toggle-binding, toggle-seq-step,
    move-patch, copy-patch, move-channel, copy-channel, sync-midi and
    save-state.
- **`Dmp`** (dmp.dfy): `readDmp`, the reader of DefleMask `.dmp` FM
  instruments.
- **`PatchName`** (patchname.dfy): the normaliser applied to a typed
  patch name.

The table invariant `EditorState.Valid` says every stored key is the
encoding of a parameter instance. The initial state holds exactly the
instances that have a default. Each of the reducer actions listed above
keeps the invariant, and the Reindex lemmas show that a move or a copy
keeps every instance present.

Some functions are definitions that other members are proved against, and
have no row of their own. `Crc.CrcFold` is the byte-at-a-time CRC that
`Crc.Crc32Push` is proved equal to. `Checksum.Reader` is the `get` of
calculate_crc32 over one table; `Checksum.KeyForIsEncodeKey` and
`Checksum.AbsentKey` say what it reads. `Dmp.At` is `data[i]`, with
`undefined` past the end; `Dmp.DmpComplete` says when every field is
defined. `EditorState.EntryBlocks` lists the messages of each entry;
`EditorState.Editor.SendEntries` and `EditorState.SyncSendsEntry` say what
goes out. `EditorState.EmptySequence` is createSequence; the constructor's
row states the initial grid.

## Model

| member | source | states |
|---|---|---|
| Common.Int32 | src/utils/checksum.ts:171-188 | the result of a JavaScript 32-bit bitwise operator lies in the signed 32-bit range and is congruent to its argument modulo 2^32 |
| Common.Pow2 | src/utils/paramsHelpers.ts:237-239 | the `2 ** bits` of paramMax is at least 1 |
| Common.ShlSmall | src/context.tsx:663 | `val << s` of a non-negative value whose product by 2^s stays below 2^31 is that product: no sign wrap-around |
| Crc.Crc32Push | src/utils/checksum.ts:171-188 | the two nested loops leave an unsigned 32-bit value equal to the byte-by-byte CRC fold of the data; empty data returns the incoming CRC |
| Crc.CrcFoldAppend | src/utils/checksum.ts:171-188 | the CRC of a concatenation is the CRC of the second part started from the CRC of the first, so the image can be pushed in pieces |
| Crc.LowByteOnly | src/utils/checksum.ts:173 | one CRC step depends only on the low 8 bits of the word it is given |
| Crc.LowBytesOnly | src/utils/checksum.ts:173 | two word sequences with the same low bytes have the same CRC |
| FlatKey.IndexText | src/context.tsx:473-490 | the decimal text of an index 0-9 is a single digit |
| FlatKey.Split | src/context.tsx:492-501 | `split` never returns an empty list, no piece contains the separator, and the first piece is the prefix before the first separator |
| FlatKey.DecodeKey | src/context.tsx:492-501 | the id decodeKey returns is the part of the key before its first '-', and contains no '-' |
| FlatKey.SplitPiece | src/context.tsx:492-501 | splitting `x + sep + y`, where `x` has no separator, gives `x` followed by the pieces of `y` |
| FlatKey.SplitPlain | src/context.tsx:492-501 | a string without the separator splits into itself alone |
| FlatKey.DecodeKeyString | src/context.tsx:473-501 | decodeKey of the string `id-pid-cid-op` gives back the id and the three indices, when the id has no '-' |
| FlatKey.KeyStringInjective | src/context.tsx:473-490 | two keys whose ids have no '-' have the same string only if they are the same key |
| Params.GetParamMeta | src/utils/paramsHelpers.ts:241-251 | the meta record holds the parameter's bit width (1 to 7) and title, and its max is 2^bits - 1, between 1 and 127 |
| Params.ParamIndex | src/utils/paramsHelpers.ts:11-56 | every PARAM_INDEXES entry is below OP_PARAM_COUNT = 10, and below CH_PARAM_COUNT = 5 for channel parameters and st, so it stays inside its address block |
| Params.Bitness | src/utils/paramsHelpers.ts:108-136 | every paramBitness entry is between 1 and 7 bits |
| Params.ParamMax | src/utils/paramsHelpers.ts:237-239 | every maximum is between 1 and 127, so a legal value is a 7-bit MIDI value |
| Params.KindIsMembership | src/utils/paramsHelpers.ts:58-76 | each of isSettingParam, isPatchParam, isChannelParam and isOperatorParam holds exactly when the parameter is among its enumeration's values, and st is in none |
| Params.GetParamOptions | src/utils/paramsHelpers.ts:138-147 | only play mode and MIDI receive channel have option lists; play mode has 7 with "POLY" at the POLY index, the receive channel 19, the first "CH1" and the sixteenth "CH16" |
| Params.GetParamMidiCc | src/utils/paramsHelpers.ts:155-189 | every parameter instance is addressed on a MIDI channel below 16 with a controller number below 100 |
| Params.GetPolyParamMidiCc | src/utils/paramsHelpers.ts:191-206 | in polyphonic mode an operator parameter goes to channel 0, controllers 40-79; every other parameter keeps its normal address |
| Params.GetParamBindingIndex | src/utils/paramsHelpers.ts:220-235 | a binding index lies in 0..63 |
| Params.BlockIndexIsPosition | src/utils/paramsHelpers.ts:11-49 | the PARAM_INDEXES entry of an operator, channel or setting parameter is its position in its own block |
| Params.InstanceAt | src/utils/paramsHelpers.ts:155-189 | decoding an address yields only canonical instances |
| Params.StIgnoresPatch | src/utils/paramsHelpers.ts:171-176 | `st` of channel cid sits at channel 0, controller 10 + 5·cid + 4, whatever the patch and operator |
| Params.SettingAddress | src/utils/paramsHelpers.ts:163-165 | a setting sits on channel 15 at its own index, below 10 |
| Params.BlockAddress | src/utils/paramsHelpers.ts:167-188 | the LFO sits at (4·pid, 9); a channel parameter at channel 4·pid in controllers 10-39, from which cid and the index are recovered; an operator parameter at channel 4·pid + op in controllers 40-99, likewise |
| Params.AddressRoundTrip | src/utils/paramsHelpers.ts:155-189 | decoding the address of a canonical instance gives it back, except polyphony, which reads back as portamento |
| Params.AddressInjective | src/utils/paramsHelpers.ts:155-189 | two canonical instances with the same address are equal, or are polyphony and portamento |
| Params.PolyphonyPortamentoShare | src/utils/paramsHelpers.ts:21-24 | polyphony and portamento both sit at channel 15, controller 8 |
| Params.CommandChannelSharedWithoutClash | src/utils/paramsHelpers.ts:163-188 | channel 15 carries both the settings and the operator 3 parameters of patch 3, but settings use controllers below 40 and those operators 40 and up |
| Params.PolyRoundTrip | src/utils/paramsHelpers.ts:191-206 | the polyphonic address of an operator parameter ignores patch and channel and decodes back to the parameter and operator |
| Params.PolyInjective | src/utils/paramsHelpers.ts:191-206 | two operator parameters with the same polyphonic address are the same parameter of the same operator |
| Params.BindableExactly | src/utils/paramsHelpers.ts:220-235 | a parameter has a binding index exactly when it is the LFO, a channel parameter, or an operator parameter other than rs and am |
| Params.BindingValues | src/utils/paramsHelpers.ts:220-235 | the LFO binds at 2, a channel parameter at 10 + index, an operator parameter at 20 + 10·op + index |
| Params.BindingRoundTrip | src/utils/paramsHelpers.ts:220-235 | a binding index decodes back to its parameter, and to its operator for operator parameters |
| Params.BindingInjective | src/utils/paramsHelpers.ts:220-235 | equal binding indices mean the same parameter (and operator), and 64 + index fits in 7 bits |
| Params.Max127 | src/utils/paramsHelpers.ts:108-136 | tl, LED brightness, transpose and tuning have maximum 127 |
| Params.Max31 | src/utils/paramsHelpers.ts:108-136 | ar, d1 and d2 have maximum 31 |
| Params.Max15 | src/utils/paramsHelpers.ts:108-136 | sl, rr and mul have maximum 15 |
| Params.Max7 | src/utils/paramsHelpers.ts:108-136 | det, al, fb and fms have maximum 7 |
| Params.Max3 | src/utils/paramsHelpers.ts:108-136 | rs, ams and st have maximum 3 |
| Params.Max1 | src/utils/paramsHelpers.ts:108-136 | am, quantize, legato and velocity are switches with maximum 1 |
| LegacyParams.LabelRoundTrip | src/context.tsx:77-113 | every label reads back to its parameter and contains no '-' |
| LegacyParams.SettingLabel | src/context.tsx:77-88 | the SettingParamEnum labels read back and contain no '-' |
| LegacyParams.ChannelLabel | src/context.tsx:94-100 | the ChannelParamEnum labels read back and contain no '-' |
| LegacyParams.EnvelopeLabel | src/context.tsx:102-113 | the envelope labels ar, d1, sl, d2, rr read back and contain no '-' |
| LegacyParams.OperatorLabel | src/context.tsx:102-113 | the labels tl, mul, det read back and contain no '-' |
| LegacyParams.ModulationLabel | src/context.tsx:102-113 | the labels rs, am read back and contain no '-' |
| LegacyParams.LabelInjective | src/context.tsx:77-113 | different parameters have different labels |
| LegacyParams.PositionIsIndex | src/context.tsx:114-117 | a parameter's position is its index in the list of its kind |
| LegacyParams.KindIsMembership | src/context.tsx:164-182 | each of the editor's kind tests holds exactly when the parameter is among its enumeration's values |
| LegacyParams.Bitness | src/context.tsx:321-348 | every paramBitness entry is between 1 and 7 bits |
| LegacyParams.KeyOfNames | src/context.tsx:473-490 | the key of an instance has an id free of '-' that names the parameter back |
| LegacyParams.GetParamOptions | src/context.tsx:350-384 | exactly the patch zone, blend mode, play mode, receive channel, attenuverter mode and sequencer steps have options; play mode has 7 with "POLY" at the POLY index, sequencer steps 16 |
| LegacyParams.GetParamMidiCc | src/context.tsx:392-435 | every instance is addressed on a channel below 16 with a controller below 100 |
| LegacyParams.GetParamBindingIndex | src/context.tsx:449-471 | a binding index lies strictly between 0 and 64, so the `!bi` test rejects only the unbindable |
| LegacyParams.EncodeKey | src/context.tsx:473-490 | the key keeps the id it is given |
| LegacyParams.EncodeKeyCanonical | src/context.tsx:473-490 | encoding a parameter's label at any indices gives the canonical key of that instance |
| LegacyParams.EncodeKeyIdempotent | src/context.tsx:473-490 | encoding an already-encoded key again changes nothing |
| LegacyParams.FlatKeyRoundTrip | src/context.tsx:473-501 | decodeKey of an instance's key string gives its label and the indices its kind keeps, 0 elsewhere |
| LegacyParams.ParamOfKey | src/context.tsx:492-501 | the parameter of a stored key is the one labelled by the key's id |
| LegacyParams.LabelOfParam | src/context.tsx:77-113 | a string that reads as a parameter is exactly that parameter's label |
| LegacyParams.SettingOfLabel | src/context.tsx:77-88 | a string that reads as a setting is that setting's label |
| LegacyParams.ChannelOfLabel | src/context.tsx:94-100 | a string that reads as a channel parameter is its label |
| LegacyParams.EnvelopeOfLabel | src/context.tsx:102-113 | a string that reads as an envelope parameter is its label |
| LegacyParams.OperatorOfLabel | src/context.tsx:102-113 | a string that reads as one of the other operator parameters is its label |
| LegacyParams.ShortLabel | src/context.tsx:77-113 | every label has at most three characters |
| LegacyParams.NotALabel | src/context.tsx:77-113 | a string longer than three characters names no parameter |
| LegacyParams.LegacyKeyIsEncoding | src/context.tsx:473-501 | a key is a stored-key shape exactly when some parameter labelled by its id encodes to it at its own indices |
| LegacyParams.GetParamMeta | src/context.tsx:503-530 | the meta record holds the canonical key and label, the getParamMidiCc address, the bit width (1 to 7) with max 2^bits - 1, and the binding index |
| LegacyParams.MaxByShift | src/context.tsx:517 | `127 >> (7 - bits)` is 2^bits - 1 for widths 1 to 7 |
| LegacyParams.ScaledBound | src/context.tsx:663 | a value within max, times 2^(7 - bits), stays in 0..127 |
| LegacyParams.ScaleRoundTrip | src/context.tsx:663 | `val << (7 - bits)` of a value within max is in 0..127, and shifting it back right restores the value |
| LegacyParams.LegacyAddressBlocks | src/context.tsx:392-435 | a setting sits at (15, position), the LFO at (4·pid, 9), a channel parameter at channel 4·pid in controllers 10-39 from which cid and the position are recovered |
| LegacyParams.LegacyOperatorAddress | src/context.tsx:392-435 | an operator parameter sits at (0, 40 + 10·op + position) in POLY mode, and otherwise at (4·pid + op, 40 + 10·cid + position) |
| LegacyParams.InstanceAt | src/context.tsx:392-435 | decoding an address yields only canonical instances |
| LegacyParams.LegacyAddressRoundTrip | src/context.tsx:392-435 | outside POLY mode, decoding the address of a canonical instance gives it back |
| LegacyParams.LegacyAddressInjective | src/context.tsx:392-435 | outside POLY mode, two canonical instances with the same address are equal |
| LegacyParams.LegacyBindingRoundTrip | src/context.tsx:449-471 | blend, LFO, channel and operator parameters are exactly the bindable ones, and a binding index decodes back to its parameter and operator |
| Checksum.LegacyOfLabel | src/utils/checksum.ts:191-194 | a firmware parameter the editor also knows has the same label in both tables; one it does not know has a label over three characters, which names no editor parameter |
| Checksum.SharedSettingLabel | src/utils/checksum.ts:191-194 | play mode, LED brightness, transpose, tuning, receive channel, sequencer steps and the LFO share their labels with the editor |
| Checksum.SharedChannelLabel | src/utils/checksum.ts:191-194 | the channel parameters share their labels with the editor |
| Checksum.SharedEnvelopeLabel | src/utils/checksum.ts:191-194 | the envelope parameters share their labels with the editor |
| Checksum.SharedOperatorLabel | src/utils/checksum.ts:191-194 | the other operator parameters share their labels with the editor |
| Checksum.NewSettingLabel | src/utils/checksum.ts:191-194 | quantize, legato, velocity, portamento and polyphony are unknown to the editor |
| Checksum.KeyForShape | src/utils/checksum.ts:191-194 | the key `get` looks up keeps the indices the editor's kind of that label keeps, and all four for an unknown label |
| Checksum.SettingKey | src/utils/checksum.ts:191-194 | a shared setting is looked up with all indices 0 |
| Checksum.ChannelKey | src/utils/checksum.ts:191-194 | a channel parameter is looked up by patch and channel, operator 0 |
| Checksum.EnvelopeKey | src/utils/checksum.ts:191-194 | an envelope parameter is looked up by patch, channel and operator |
| Checksum.OperatorKey | src/utils/checksum.ts:191-194 | the other operator parameters are looked up by patch, channel and operator |
| Checksum.NewSettingKey | src/utils/checksum.ts:191-194 | a firmware-only parameter is looked up under its label with the indices it is given |
| Checksum.KeyForIsEncodeKey | src/utils/checksum.ts:191-194 | the key `get` looks up is the editor's encodeKey of the firmware label |
| Checksum.KeyFor | src/utils/checksum.ts:191-194 | the key `get` looks up has the parameter's label as id, and each index is either the one given or 0 |
| Checksum.WordOfSmall | src/utils/checksum.ts:191-194 | a stored value below a byte-sized bound becomes a 32-bit word below that bound |
| Checksum.OpRoundTrip | src/utils/checksum.ts:229-239 | the six bytes an operator's ten fields pack into are bytes and unpack to the fields |
| Checksum.ChannelRoundTrip | src/utils/checksum.ts:217-223 | the two bytes the channel fields pack into are bytes and unpack to the fields |
| Checksum.LfoRoundTrip | src/utils/checksum.ts:211 | the LFO byte keeps the value in its low 3 bits, sets bit 3 exactly when the value is non-zero, stays below 16, and is 8 for an absent key |
| Checksum.PackOp | src/utils/checksum.ts:229-239 | an operator packs into six bytes |
| Checksum.LfoByteZero | src/utils/checksum.ts:211 | the LFO byte (`LfoByte`) is 0 exactly when the stored LFO value is 0; an absent value is not `=== 0` and gives a non-zero byte |
| Checksum.ChannelBytes | src/utils/checksum.ts:136-148 | a channel takes 26 bytes |
| Checksum.PatchBytes | src/utils/checksum.ts:150-161 | a patch takes 157 bytes |
| Checksum.PatchesBytes | src/utils/checksum.ts:206-242 | the four patches take 628 bytes |
| Checksum.SlotBytes | src/utils/checksum.ts:33-58 | one modulator's binding mask takes 9 bytes |
| Checksum.BindingsBytes | src/utils/checksum.ts:246-274 | the three binding masks take 27 bytes |
| Checksum.SettingsHead | src/utils/checksum.ts:279-283 | the settings head is three bytes |
| Checksum.SettingsTail | src/utils/checksum.ts:299-307 | the settings tail is five bytes |
| Checksum.SettingsBytes | src/utils/checksum.ts:279-307 | settings and sequence take 20 bytes |
| Checksum.Layout | src/utils/checksum.ts:206-307 | the whole image is 675 bytes |
| Checksum.LayoutSections | src/utils/checksum.ts:206-307 | the patches start at byte 0, the bindings at 628 and the settings at 655 |
| Checksum.PatchAt | src/utils/checksum.ts:206-242 | patch pid starts at byte 157·pid of the patches |
| Checksum.PatchParts | src/utils/checksum.ts:206-242 | a patch is its LFO byte followed by its six channels |
| Checksum.PatchSplit | src/utils/checksum.ts:206-242 | a patch's bytes are its LFO byte followed by the run of six channels |
| Checksum.PatchChannelsAt | src/utils/checksum.ts:206-242 | channel cid starts at byte 26·cid of the run of channels |
| Checksum.PatchChannelBlock | src/utils/checksum.ts:206-242 | channel block cid starts at byte 1 + 26·cid of its patch |
| Checksum.PatchChannel | src/utils/checksum.ts:206-242 | the bytes of channel cid start at byte 1 + 26·cid of its patch |
| Checksum.ChannelParts | src/utils/checksum.ts:217-239 | a channel is its two packed bytes followed by its four operators |
| Checksum.ChannelOperator | src/utils/checksum.ts:229-239 | the six bytes of operator op start at byte 2 + 6·op of its channel |
| Checksum.SlotAt | src/utils/checksum.ts:246-249 | the mask of the i-th modulator in the order x, y, z starts at byte 9·i of the bindings |
| Checksum.SlotParts | src/utils/checksum.ts:250-272 | a mask is its channel byte followed by its four two-byte operator masks |
| Checksum.SlotOpMask | src/utils/checksum.ts:262-272 | operator op's mask starts at byte 1 + 2·op of its slot |
| Checksum.SettingsParts | src/utils/checksum.ts:279-307 | the settings are the head at 0, six sequence rows at 3 and the tail at 15 |
| Checksum.SettingsRow | src/utils/checksum.ts:286-296 | sequence row i is two bytes at 3 + 2·i of the settings |
| Checksum.FieldFits | src/utils/checksum.ts:191-194 | a stored value within its parameter's max gives a word within that bound |
| Checksum.OpFieldsFit | src/utils/checksum.ts:229-239 | stored operator values within their maxima give operator fields within range |
| Checksum.ChannelFieldsFit | src/utils/checksum.ts:217-223 | stored channel values within their maxima give channel fields within range |
| Checksum.OperatorRecovered | src/utils/checksum.ts:229-239 | an operator's stored fields can be read back from its six bytes in the image |
| Checksum.ChannelRecovered | src/utils/checksum.ts:217-223 | a channel's stored fields can be read back from its two bytes in the image |
| Checksum.AbsentKey | src/utils/checksum.ts:191-194 | a missing key reads as nothing, contributes 0 to a packed field, and gives the LFO byte 8 |
| Checksum.SlotBit | src/utils/checksum.ts:195-199 | a binding bit is at most 1, and 1 exactly when the parameter has a binding index and the modulator's list holds it |
| Checksum.BindingBit | src/utils/checksum.ts:195-199 | a binding bit is 0 or 1, and 0 for a parameter without a binding index |
| Checksum.EditorStBindingHidden | src/context.tsx:449-471 | the editor gives `st` binding index 14, while the image's `st` bit is 0 whatever the slot holds |
| Checksum.UnbindableBits | src/utils/checksum.ts:195-199 | the bits of st, rs and am are 0 whatever the list |
| Checksum.ChannelMaskBits | src/utils/checksum.ts:250-258 | the channel byte is below 64 and its bits 0-5 are the bindings of lfo, st, fb, al, ams, fms |
| Checksum.OpMaskBits | src/utils/checksum.ts:262-272 | the first operator byte carries ar, d1, sl, d2, tl, rr, det, mul in bits 0-7, and the second, below 4, carries rs and am |
| Checksum.SlotMaskFlags | src/utils/checksum.ts:250-258 | in a modulator's channel byte the lfo, fb, al, ams and fms bits are its list's bindings and the st bit is always 0 |
| Checksum.RowBytesJoin | src/utils/checksum.ts:286-296 | the two bytes of a sequence row are bytes that join into the low 16 bits of its step mask |
| Checksum.RowMask | src/utils/checksum.ts:286-296 | the reduce over a row of at most 16 steps fits in 16 bits, the two bytes pushed for it |
| Checksum.SwitchByte | src/utils/checksum.ts:299-307 | a 7-bit setting and a switch packed into one byte can each be read back |
| Checksum.LayOutChannel | src/utils/checksum.ts:217-239 | the bytes pushed for one channel are its layout |
| Checksum.LayOutPatch | src/utils/checksum.ts:206-242 | the bytes pushed for one patch are its layout |
| Checksum.LayOutPatches | src/utils/checksum.ts:206-242 | the bytes pushed for the four patches are their layout |
| Checksum.LayOutBindings | src/utils/checksum.ts:246-274 | the bytes pushed for the bindings are their layout |
| Checksum.LayOutSettings | src/utils/checksum.ts:279-307 | the bytes pushed for settings and sequence are their layout |
| Checksum.CalculateCrc32 | src/utils/checksum.ts:190-313 | the result is an unsigned 32-bit value equal to the CRC-32 of the 675-byte image of the table, the bindings and the sequence |
| Reindex.KeyOfParts | src/context.tsx:473-490 | an instance key is encoded, is a setting key exactly for settings, and keeps pid except for settings and cid for channel and operator parameters |
| Reindex.MovedIndex | src/context.tsx:787-793 | moving item `index` before `before` maps 0..n-1 into 0..n-1, changes nothing when the item is dropped onto or just after itself, and sends the item to `before` |
| Reindex.MovedFrom | src/context.tsx:787-793 | the inverse renumbering maps 0..n-1 into 0..n-1 |
| Reindex.MovedIndexBijective | src/context.tsx:787-793 | the renumbering and its inverse undo each other, so it is a permutation of 0..n-1 |
| Reindex.MovedIndexInjective | src/context.tsx:787-793 | two indices renumbered alike are equal |
| Reindex.PatchMovedParts | src/context.tsx:787-793 | renumbering a key keeps it encoded and changes only its pid, which settings keep |
| Reindex.PatchMovedInjective | src/context.tsx:787-793 | two encoded keys renumbered alike are equal |
| Reindex.PatchMovedInjectiveAll | src/context.tsx:787-793 | no two entries of an encoded table collide when patches are renumbered |
| Reindex.MovedPatches | src/context.tsx:780-799 | every old entry's value is found under its renumbered key, and every new key comes from an old one |
| Reindex.PatchMovedKeyOf | src/context.tsx:787-793 | an instance's key renumbered is the key of the instance in its renumbered patch |
| Reindex.MovedPatchesRead | src/context.tsx:787-793 | the new table holds at the renumbered patch the value the old one held |
| Reindex.MovedPatchesComplete | src/context.tsx:787-793 | a parameter present in every patch, channel and operator before the move is present everywhere after it |
| Reindex.MovedPatchesEncoded | src/context.tsx:787-793 | the new table is encoded and uses only ids of the old one |
| Reindex.MovedPatchesStill | src/context.tsx:787-793 | dropping a patch onto or just after itself leaves the table unchanged |
| Reindex.ChannelMovedParts | src/context.tsx:843-851 | renumbering a key keeps it encoded, touches only the cid, and only inside the current patch |
| Reindex.ChannelMovedInjective | src/context.tsx:843-851 | two encoded keys renumbered alike are equal |
| Reindex.ChannelMovedInjectiveAll | src/context.tsx:843-851 | no two entries of an encoded table collide when channels are renumbered |
| Reindex.MovedChannels | src/context.tsx:832-867 | every old entry's value is found under its renumbered key, and every new key comes from an old one |
| Reindex.ChannelMovedKeyOf | src/context.tsx:843-851 | a channel or operator instance of the current patch moves to the renumbered channel; every other key stays |
| Reindex.MovedChannelsRead | src/context.tsx:843-851 | inside the current patch, the renumbered channel holds the value the old channel held |
| Reindex.MovedChannelsElsewhere | src/context.tsx:843-851 | entries of other patches, and of parameters without a channel, keep key and value |
| Reindex.MovedChannelsComplete | src/context.tsx:843-851 | a parameter present at every instance before the move is present at every instance after it |
| Reindex.MovedChannelsEncoded | src/context.tsx:843-851 | the new table is encoded and uses only ids of the old one |
| Reindex.CopiedPatch | src/context.tsx:805-822 | the copied table has the same keys as the old one |
| Reindex.CopiedPatchRead | src/context.tsx:809-815 | an entry of the target patch takes the value of the same entry of the source patch |
| Reindex.CopiedPatchElsewhere | src/context.tsx:809-815 | entries outside the target patch, and settings, keep their value |
| Reindex.CopiedPatchSelf | src/context.tsx:809-815 | copying a patch onto itself changes nothing |
| Reindex.CopiedChannel | src/context.tsx:868-893 | the copied table has the same keys as the old one |
| Reindex.CopiedChannelRead | src/context.tsx:876-882 | an entry of the target channel of the current patch takes the value of the same entry of the source channel |
| Reindex.CopiedChannelElsewhere | src/context.tsx:876-882 | every entry outside the target channel of the current patch keeps its value |
| Reindex.PackPairDecodes | src/context.tsx:800 | the copy-patch and move-patch value is below 32, and `/ 8` and `% 8` give back both patch indices |
| Reindex.PackPair | src/context.tsx:799-801 | the move-patch and copy-patch value is between 0 and 63, a legal 7-bit MIDI value |
| Reindex.CopyChannelValue | src/context.tsx:884-889 | for two different channels the copy-channel value is between 0 and 119, a legal 7-bit MIDI value |
| Reindex.CopyChannelValueDecodes | src/context.tsx:887-889 | for two different channels the copy-channel value is at most 119 and decodes to the patch, the target and the source |
| Reindex.MoveChannelValueAsWrittenCollides | src/context.tsx:861-863 | as written, two different moves send the same value 25, and one move sends -5 |
| Reindex.MoveChannelValueAsWritten | src/context.tsx:858-863 | for every real move (index differs from before) the value as written differs from the corrected value |
| Reindex.MoveChannelValueDecodes | src/context.tsx:861-863 | corrected, the move-channel value for two different channels is at most 119 and decodes to the patch, `before` and `index` |
| EditorState.CommandNotParam | src/context.tsx:62-64 | a command, on a controller of 100 or more, never equals the message of any parameter change, so the module cannot take one for the other |
| EditorState.BindCommand | src/context.tsx:71-75 | a modulator's command is one of BIND_X, BIND_Y, BIND_Z |
| EditorState.BindCommandInjective | src/context.tsx:71-75 | different modulators use different commands |
| EditorState.BindValueDecodes | src/context.tsx:628-637 | a bind message value is a 7-bit value that is 64 or more exactly when it binds, and whose remainder modulo 64 is the index |
| EditorState.DefaultInRange | src/context.tsx:535-597 | every default lies between 0 and the parameter's max |
| EditorState.OperatorDefaultValues | src/context.tsx:570-582 | the defaults of the ten operator parameters: ar 31, rr 15, mul 3, det 3, the rest 0 |
| EditorState.ChannelDefaultValues | src/context.tsx:561-569 | the defaults of the LFO and the five channel parameters: al 7, st 3, the rest 0 |
| EditorState.SettingDefaultValues | src/context.tsx:586-594 | the defaults of the eight settings: LED brightness 64, transpose 32, tuning 64, sequencer steps 7, the rest 0 |
| EditorState.DefaultKey | src/context.tsx:546-555 | an instance's key is a stored-key shape whose default is the parameter's |
| EditorState.LfoKeys | src/context.tsx:561 | once the LFO of a patch is stored, its key is present for every channel and operator |
| EditorState.PatchKeys | src/context.tsx:557-584 | once a patch's LFO and its channel and operator parameters are stored, every non-setting instance of the patch is present |
| EditorState.ChannelKeys | src/context.tsx:564-569 | once a channel's five parameters are stored, every channel parameter of it is present at every operator index |
| EditorState.OperatorKeys | src/context.tsx:571-581 | once an operator's ten parameters are stored, every operator parameter of it is present |
| EditorState.SettingKeys | src/context.tsx:586-594 | once the eight settings are stored, every setting with a default is present at any indices |
| EditorState.InitialKeys | src/context.tsx:535-597 | the initial table satisfies the table invariant, and an instance is present exactly when it has a default |
| EditorState.ParamMessageDecodes | src/context.tsx:658-665 | outside POLY mode, a parameter message decodes to its instance, and its 7-bit value shifted back is the value |
| EditorState.ParamMessage | src/context.tsx:658-665 | a parameter message goes to a channel below 16 and a controller below 100, below every editor command |
| EditorState.KeyInstance | src/context.tsx:492-501 | a stored key decodes to a canonical instance whose key it is |
| EditorState.IndexOf | src/context.tsx:628 | `indexOf` is -1 exactly for a missing value, and otherwise the first position holding it |
| EditorState.Toggled | src/context.tsx:628-637 | an index in the list is removed once, leaving the other entries and one fewer element; an index not in the list is pushed at the end |
| EditorState.SplicedMembers | src/context.tsx:628-631 | splicing one position out of a duplicate-free list keeps it duplicate-free and removes exactly that element |
| EditorState.PushedMembers | src/context.tsx:633-635 | pushing an index the list lacks keeps it duplicate-free |
| EditorState.ToggledMembers | src/context.tsx:628-637 | toggling keeps the list free of duplicates; it holds the index exactly when it did not before, and every other member is kept |
| EditorState.ToggledTwice | src/context.tsx:628-637 | pushing an index and then removing it gives back the list |
| EditorState.WithSlot | src/context.tsx:626 | replacing one modulator's list leaves the other two unchanged |
| EditorState.BindMessages | src/context.tsx:690-699 | syncing an entry sends at most one bind message, and one exactly when its index is in some list |
| EditorState.BindMessagesFirst | src/context.tsx:690-699 | the message names a modulator whose list holds the index, and no earlier one in the order x, y, z holds it |
| EditorState.EntryMessages | src/context.tsx:684-700 | one entry sends one or two messages |
| EditorState.SyncSendsEntry | src/context.tsx:684-700 | the messages of every listed entry are among the sync messages |
| EditorState.SyncSendsValue | src/context.tsx:684-700 | every entry's stored value goes out, scaled, at its address |
| EditorState.Flipped | src/context.tsx:646 | a step becomes 1 exactly when it was 0, and 0 otherwise |
| EditorState.FlippedTwice | src/context.tsx:646 | flipping a 0/1 step twice restores it |
| EditorState.SeqStepValueDecodes | src/context.tsx:644 | the step value is below 96, and `/ 16` and `% 16` give back voice and step |
| EditorState.StoreValid | src/context.tsx:658-665 | writing the key of an instance keeps the table invariant |
| EditorState.WrittenUpToRead | src/context.tsx:668-675 | after the `st` loop up to n, `st` of the current channel holds the value in patches below n, a new key appears nowhere else, and every other entry is kept |
| EditorState.WrittenUpToValid | src/context.tsx:668-675 | the `st` loop keeps the table invariant |
| EditorState.MessagesUpTo | src/context.tsx:668-675 | the `st` loop up to n sends n messages, the q-th for patch q |
| EditorState.StKeepsPlayMode | src/context.tsx:668-675 | writing `st` does not change the play mode that addresses the messages |
| EditorState.MovedPatchesInstances | src/context.tsx:780-799 | after a move-patch every non-setting instance is still present |
| EditorState.MovedPatchesValid | src/context.tsx:780-799 | move-patch keeps the table invariant |
| EditorState.MovedChannelsInstances | src/context.tsx:832-867 | after a move-channel every non-setting instance is still present |
| EditorState.MovedChannelsValid | src/context.tsx:832-867 | move-channel keeps the table invariant |
| EditorState.PatchSourceOf | src/context.tsx:809-815 | the source key of an entry is itself (settings) or the same key in the source patch |
| EditorState.PatchSourcesValid | src/context.tsx:809-815 | in a valid table every entry of the target patch has its source entry |
| EditorState.ChannelSourceOf | src/context.tsx:876-882 | the source key of an entry is itself or the same key in the source channel of the same patch |
| EditorState.ChannelSourcesValid | src/context.tsx:876-882 | in a valid table every entry of the target channel has its source entry |
| EditorState.CopiedValid | src/context.tsx:805-893 | a table with the same keys as a valid one is valid, so the copies keep the invariant |
| EditorState.Editor.constructor | src/context.tsx:535-597 | getInitialState: name "Unnamed", empty lists, no modulator armed, patch, channel and calibration step 0, the empty grid, no messages; an instance is present exactly when it has a default, stored at that default |
| EditorState.Editor.SetSettingDefaults | src/context.tsx:586-594 | the settings stores keep every earlier entry and make every setting with a default present at its default |
| EditorState.Editor.SetPatchDefaults | src/context.tsx:557-584 | a patch's stores keep every earlier entry and make every non-setting instance of the patch present at its default |
| EditorState.Editor.SetChannelsDefaults | src/context.tsx:563-583 | the channel loop makes every channel and operator instance of the patch present |
| EditorState.Editor.SetChannelDefaults | src/context.tsx:564-582 | one channel's stores make its channel and operator instances present |
| EditorState.Editor.SetOperatorsDefaults | src/context.tsx:570-582 | the operator loop makes every operator instance of the channel present |
| EditorState.Editor.SetOperatorDefaults | src/context.tsx:571-581 | one operator's stores make its operator instances present |
| EditorState.Editor.SetParamValue | src/context.tsx:546-555 | the value is stored under the instance's key and nothing else changes; storing the default keeps every entry at its default |
| EditorState.Editor.ToggleParamBinding | src/context.tsx:617-640 | without an armed modulator or a bindable parameter nothing changes; otherwise the index is toggled in the armed list and the bind or unbind message is sent |
| EditorState.Editor.ToggleSlot | src/context.tsx:626-637 | the list holds the index exactly when it did not before, other members and other lists are kept, and one message says which |
| EditorState.Editor.ToggleBinding | src/context.tsx:762-769 | arms the modulator, or disarms it when it was the armed one |
| EditorState.Editor.ToggleSeqStep | src/context.tsx:642-655 | flips one step, keeps every other step, and sends SET_SEQ_STEP_ON when it was off, SET_SEQ_STEP_OFF otherwise, with voice·16 + step |
| EditorState.Editor.DoChangeParam | src/context.tsx:658-665 | stores the value under the instance's key and sends it, scaled, to its address |
| EditorState.Editor.ChangeParam | src/context.tsx:657-678 | `st` changes in all four patches with four messages; any other parameter changes in the current patch with one message |
| EditorState.Editor.SendBinding | src/context.tsx:690-699 | sends the bind message of the first modulator holding the index, if any |
| EditorState.Editor.SendEntry | src/context.tsx:685-699 | sends one entry's value and binding messages |
| EditorState.Editor.SendEntries | src/context.tsx:684-700 | sends every entry's messages in key order |
| EditorState.Editor.SyncMidi | src/context.tsx:680-701 | sends CLEAR_BINDINGS, then every stored entry's value and binding in the order the table lists them, and changes no state |
| EditorState.Editor.SaveState | src/context.tsx:897-901 | sends SAVE_STATE and disarms the modulator |
| EditorState.Editor.MovePatch | src/context.tsx:780-804 | renumbers the patches of the table and sends MOVE_PATCH with both indices |
| EditorState.Editor.MoveChannel | src/context.tsx:832-867 | a drop onto or just after itself changes nothing; otherwise renumbers the current patch's channels and sends MOVE_CHANNEL with the corrected value |
| EditorState.Editor.CopyPatchEntries | src/context.tsx:809-815 | the copy loop, over the keys in any order, leaves the copied table |
| EditorState.Editor.CopyPatch | src/context.tsx:805-822 | every source entry exists, the target patch takes the source's values, and COPY_PATCH is sent |
| EditorState.Editor.CopyChannelEntries | src/context.tsx:876-882 | the copy loop, over the keys in any order, leaves the copied table |
| EditorState.Editor.CopyChannel | src/context.tsx:868-893 | a copy onto itself changes nothing; otherwise the target channel takes the source's values and COPY_CHANNEL is sent |
| Dmp.ReadDmp | src/utils/readDmp.ts:28-63 | null exactly for an unknown header; otherwise the record holds the name, `st` 3 and four operators read in file order |
| Dmp.DmpChannel | src/utils/readDmp.ts:28-63 | the record exists exactly when the header is known, and then it has the given name, st 3 and four operators |
| Dmp.DmpComplete | src/utils/readDmp.ts:34-50 | with a known header, every field is defined exactly when the file has at least 50 bytes |
| Dmp.DmpIgnoresSsgEg | src/utils/readDmp.ts:10-21 | changing an operator's SSG-EG byte does not change the record |
| Dmp.OperatorBytes | src/utils/readDmp.ts:10-21 | an operator takes eleven bytes in the file |
| Dmp.DmpFile | src/utils/readDmp.ts:5-21 | the file of a complete record is 51 bytes with a known header |
| Dmp.OperatorOfBytes | src/utils/readDmp.ts:36-49 | an operator whose eleven bytes sit at its base in the data reads back as that operator |
| Dmp.OperatorFromFile | src/utils/readDmp.ts:36-49 | reading an operator from that file gives the operator back |
| Dmp.DmpRoundTrip | src/utils/readDmp.ts:28-63 | reading the file of a complete record gives the record back |
| PatchName.LowerChar | src/patch.tsx:83 | an ASCII capital becomes a lower-case letter, and every other character is kept |
| PatchName.Lower | src/patch.tsx:83 | lower-casing keeps the length, leaves no ASCII capital, keeps every other character in place and turns each capital into its lower-case letter |
| PatchName.LowerIdempotent | src/patch.tsx:83 | lower-casing twice is lower-casing once, and a name without capitals is left unchanged |
| PatchName.KeepAllowed | src/patch.tsx:84 | only letters, digits, white space and hyphens are left |
| PatchName.DropRun | src/patch.tsx:87 | what is left is a suffix that does not begin with a character of the run |
| PatchName.ReplaceRuns | src/patch.tsx:85-86 | replacing runs never makes the string longer |
| PatchName.Normalized | src/patch.tsx:82-87 | the normalised name is never longer than the raw one |
| PatchName.Utf16Length | src/patch.tsx:79 | JavaScript's `length`: between one and two code units per character, and exactly one each when no character is above U+FFFF |
| PatchName.AstralCountsTwice | src/patch.tsx:79 | a name of characters above U+FFFF has `length` twice its number of characters, so fifteen of them are refused |
| PatchName.SanitizeName | src/patch.tsx:78-92 | nothing is dispatched exactly when the name is 30 UTF-16 code units or more; otherwise the normalised name is |
| PatchName.ReplaceRunsAlphabet | src/patch.tsx:85-86 | after replacing runs, only the replacement and characters outside the run class are left |
| PatchName.HyphenRunsSingle | src/patch.tsx:86 | after the hyphen step no two hyphens are side by side, and a leading hyphen remains only if there was one |
| PatchName.DropRunClean | src/patch.tsx:87 | removing leading hyphens from a string of letters, digits and single hyphens gives a clean name |
| PatchName.NormalizedClean | src/patch.tsx:82-87 | every normalised name has only a-z, 0-9 and '-', no double hyphen and no leading hyphen |
| PatchName.KeepAllowedAll | src/patch.tsx:84 | a string of allowed characters is kept whole |
| PatchName.ReplaceRunsNone | src/patch.tsx:85 | a string with no character of the run class is left unchanged |
| PatchName.HyphenRunsKeep | src/patch.tsx:86 | a string without double hyphens is left unchanged by the hyphen step |
| PatchName.CleanFixed | src/patch.tsx:82-87 | a clean name normalises to itself |
| PatchName.NormalizedIdempotent | src/patch.tsx:82-87 | normalising twice is normalising once, and a name is its own normal form exactly when it is clean |
| PatchName.SanitizeNameStable | src/patch.tsx:78-92 | a dispatched name, typed in again, is dispatched unchanged |
| PatchName.CleanUtf16 | src/patch.tsx:79 | a clean name is one UTF-16 code unit per character, so its `length` is its number of characters |

## Left out

- MIDI output is not performed. `MidiIO.sendCC` becomes an entry appended to the `out` log of the editor.
- The React provider, `useReducer`, `localStorage` persistence and component re-rendering (src/context.tsx:979-1020) are left out. They are UI plumbing, not protocol.
- `console.log` calls are left out; they produce no state.
- The key order of `Object.entries` is decided by the JavaScript engine. It is a parameter `keys` of `SyncMidi`, which is required to list every stored key and nothing else; a key listed twice is sent twice.
- Keys are records `Key(id, pid, cid, op)`, not strings. `FlatKey` and `LegacyParams.FlatKeyRoundTrip` tie them to the string form `id-pid-cid-op`.
- The copy loops of copy-patch and copy-channel visit the keys in any order (`:|`) rather than in `Object.keys` order. The result does not depend on the order.
- The copy loops do not model reading a missing source entry (`undefined`). The table invariant guarantees the source entry exists: `PatchSourcesPresent` and `ChannelSourcesPresent` are part of the copy methods' contracts.
- resetOperator and resetChannel (src/context.tsx:703-746) are not modelled, together with their actions reset-operator and reset-channel.
- The reducer actions provider-ready and update-state (src/context.tsx:756-757, 824-827) replace the whole state with one handed in from outside (`savedState`, `newState`). They are not modelled. `EditorState.Valid`, the grid shape and duplicate-free binding lists are not proved of such a state: the model assumes any state they install satisfies `Valid`.
- The actions calibration-step, change-name, change-patch, change-channel, toggle-debug, verify-checksum and clear-sequence are left out. Each only sets one field or sends one fixed command, and nothing proved here depends on them.
- `calculateChecksum` of src/context.tsx:66-69 is left out; it only returns the stored LFO value. `getEnvelope` and `getContextValue` are left out; they are read-only helpers for the UI.
- PatchName.Normalized: `toLowerCase` is modelled on ASCII letters only. A Dafny `char` is a Unicode scalar value, not a UTF-16 code unit; only the length test counts code units, through `PatchName.Utf16Length`. Non-ASCII capitals are not lower-cased, so they are dropped by the next step rather than kept.
- Dmp.DmpFile: it builds only the version 11 header. Version 9 files are read by `ReadDmp` but have no file builder in the round trip.
- The header comment of src/utils/checksum.ts calls the sum "CRC14" and lists the settings first. The model follows the code, which computes CRC-32 with the patches first.
- Checksum.KeyForIsEncodeKey: src/utils/checksum.ts:166 imports `encodeKey` from src/utils/paramsHelpers.ts, which does not export one. The model takes the editor's `encodeKey` of src/context.tsx:473-490 in its place.
- Checksum.CalculateCrc32: a binding bit uses the firmware binding index `Params.GetParamBindingIndex`. The `getParamMeta` that checksum.ts imports returns no binding index, so as written every binding bit would be 0. One consequence: the editor binds `st` under its index 14, but the firmware table has no index for `st`, so its bit in the image is always 0 (`Checksum.EditorStBindingHidden`). A stored and sent `st` binding therefore never shows in the checksum, although `ch_bitmask_t` reserves that bit.
- The reducers do not check a value against its parameter's max, and neither does the model. The scaling lemmas state the range they need as a precondition.
- EditorState.Editor.MoveChannel: sends the corrected value `Reindex.MoveChannelValue`, not the value src/context.tsx:861-863 computes (`Reindex.MoveChannelValueAsWritten`). For example, patch 0 with channel 1 dropped before 0 sends -5 in the source and 1 in the model; see "## Findings".
- MIDI input, the scene, sequencer and envelope views, the algorithm drawings and the instrument loader are not part of this model.

## Findings

| source | as written | input that shows it | evidently intended | confidence | as-written member | corrected member |
|---|---|---|---|---|---|---|
| src/context.tsx:861-863 | move-channel computes `encodedBefore = index < before ? before : before - 1` | patch 1, channel 1 dropped before 0, and patch 0, channel 1 dropped before 4, both send 25; patch 0, channel 1 before 0 sends -5 | `before < index ? before : before - 1`, the same shrinking copy-channel uses, so each value decodes to one move | not executed | Reindex.MoveChannelValueAsWrittenCollides | Reindex.MoveChannelValueDecodes |
