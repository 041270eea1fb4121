/**
 * kwlEngineDataBinary_writeToFile (src/tools/kwl_enginedatabinary.c, lines 500-663):
 * the file identifier, then five chunks (wave banks, mix buses, mix presets, sounds,
 * events), each an int32 id, an int32 size and a body. The size is written as 0 and
 * filled in once every chunk is written, by seeking back to it.
 *
 * The bodies below are what the code writes, including two defects: the wave bank
 * chunk writes a bank's audio data entry at the bank's own index for every entry, and
 * the event chunk writes innerConeGain where the reader expects no such field and
 * leaves out soundIndex. EngineDataRoundTrip shows both, and states the corrected
 * bodies.
 */
module EngineDataWriter {
  import opened Wrappers
  import opened FileOutputStream
  import opened BinaryCodec
  import opened EngineData

  // ---------------------------------------------------------------------------------
  // Field encodings

  /** writeFloat32BE: a float's bit pattern, written as an int. */
  function Float32(f: Bits32): seq<Byte> {
    Int32BE(Signed32(f))
  }

  /** writeInt32BE of each of `xs`, in order. */
  function Int32s(xs: seq<int>): seq<Byte> {
    Concat(Map(Int32BE, xs))
  }

  /** The first `n` items of an array (all of them if it is shorter). */
  function Prefix<T>(xs: seq<T>, n: int): (p: seq<T>)
    ensures Count(n) <= |xs| ==> p == xs[..Count(n)]
  {
    if Count(n) <= |xs| then xs[..Count(n)] else xs
  }

  /** Element `j` of an array, 0 beyond its end. */
  function At<T>(xs: seq<T>, j: int, d: T): T {
    if 0 <= j < |xs| then xs[j] else d
  }

  // ---------------------------------------------------------------------------------
  // Chunk bodies

  function MixBusBytes(b: MixBusChunk): seq<Byte> {
    ASCIIString(b.id) + Int32BE(b.numSubBuses) + Int32s(Prefix(b.subBusIndices, b.numSubBuses))
  }

  /** The mix bus chunk body (lines 538-557). */
  function MixBusChunkBytes(mbc: MixBusDataChunk): seq<Byte> {
    Int32BE(mbc.numMixBuses) + Concat(Map(MixBusBytes, Prefix(mbc.mixBuses, mbc.numMixBuses)))
  }

  /** The parameter set `j` of a preset: bus index, left gain, right gain, pitch. */
  function ParamSetBytes(p: MixPresetChunk, j: int): seq<Byte> {
    Int32BE(At(p.mixBusIndices, j, 0)) + Float32(At(p.gainLeft, j, 0)) + Float32(At(p.gainRight, j, 0)) + Float32(At(p.pitch, j, 0))
  }

  function ParamSetParts(p: MixPresetChunk, numMixBuses: int): seq<seq<Byte>> {
    seq(Count(numMixBuses), j => ParamSetBytes(p, j))
  }

  function MixPresetBytes(p: MixPresetChunk, numMixBuses: int): seq<Byte> {
    ASCIIString(p.id) + Int32BE(p.isDefault) + Concat(ParamSetParts(p, numMixBuses))
  }

  function MixPresetParts(ps: seq<MixPresetChunk>, numMixBuses: int): seq<seq<Byte>> {
    seq(|ps|, i requires 0 <= i < |ps| => MixPresetBytes(ps[i], numMixBuses))
  }

  /** The mix preset chunk body (lines 561-586): one parameter set per mix bus. */
  function MixPresetChunkBytes(mpc: MixPresetDataChunk, numMixBuses: int): seq<Byte> {
    Int32BE(mpc.numMixPresets) + Concat(MixPresetParts(Prefix(mpc.mixPresets, mpc.numMixPresets), numMixBuses))
  }

  /** Wave bank `i` as written: every one of its entries is written as its entry `i`. */
  function WaveBankBytesAsWritten(b: WaveBankChunk, i: int): seq<Byte> {
    var entry := if 0 <= i < |b.audioDataEntries| then b.audioDataEntries[i] else [];
    ASCIIString(b.id) + Int32BE(b.numAudioDataEntries) + Concat(seq(Count(b.numAudioDataEntries), _ => ASCIIString(entry)))
  }

  function WaveBankPartsAsWritten(bs: seq<WaveBankChunk>): seq<seq<Byte>> {
    seq(|bs|, i requires 0 <= i < |bs| => WaveBankBytesAsWritten(bs[i], i))
  }

  /** The wave bank chunk body as written (lines 517-536). */
  function WaveBankChunkBytesAsWritten(wbc: WaveBankDataChunk): seq<Byte> {
    Int32BE(wbc.numAudioDataItemsTotal) + Int32BE(wbc.numWaveBanks)
    + Concat(WaveBankPartsAsWritten(Prefix(wbc.waveBanks, wbc.numWaveBanks)))
  }

  /** Wave reference `j` of a sound: wave bank index, then audio data index. */
  function WaveRefBytes(s: SoundChunk, j: int): seq<Byte> {
    Int32BE(At(s.waveBankIndices, j, 0)) + Int32BE(At(s.audioDataIndices, j, 0))
  }

  function WaveRefParts(s: SoundChunk): seq<seq<Byte>> {
    seq(Count(s.numWaveReferences), j => WaveRefBytes(s, j))
  }

  /** A sound's fields before its wave references. */
  function SoundHeaderBytes(s: SoundChunk): seq<Byte> {
    Int32BE(s.playbackCount) + Int32BE(s.deferStop)
    + Float32(s.gain) + Float32(s.gainVariation) + Float32(s.pitch) + Float32(s.pitchVariation)
    + Int32BE(s.playbackMode) + Int32BE(s.numWaveReferences)
  }

  function SoundBytes(s: SoundChunk): seq<Byte> {
    SoundHeaderBytes(s) + Concat(WaveRefParts(s))
  }

  /** The sound chunk body (lines 589-615). */
  function SoundChunkBytes(sdc: SoundDataChunk): seq<Byte> {
    Int32BE(sdc.numSoundDefinitions) + Concat(Map(SoundBytes, Prefix(sdc.soundDefinitions, sdc.numSoundDefinitions)))
  }

  /** An event as written: innerConeGain after innerConeAngleDeg, no soundIndex. */
  function EventHeaderBytesAsWritten(e: EventChunk): seq<Byte> {
    ASCIIString(e.id) + Int32BE(e.instanceCount)
    + Float32(e.gain) + Float32(e.pitch)
    + Float32(e.innerConeAngleDeg) + Float32(e.innerConeGain)
    + Float32(e.outerConeAngleDeg) + Float32(e.outerConeGain)
    + Int32BE(e.mixBusIndex) + Int32BE(e.isPositional)
    + Int32BE(e.retriggerMode) + Int32BE(e.waveBankIndex) + Int32BE(e.audioDataIndex)
    + Int32BE(e.loopIfStreaming) + Int32BE(e.numReferencedWaveBanks)
  }

  function EventBytesAsWritten(e: EventChunk): seq<Byte> {
    EventHeaderBytesAsWritten(e) + Int32s(Prefix(e.waveBankIndices, e.numReferencedWaveBanks))
  }

  /** The event chunk body as written (lines 618-650). */
  function EventChunkBytesAsWritten(edc: EventDataChunk): seq<Byte> {
    Int32BE(edc.numEventDefinitions) + Concat(Map(EventBytesAsWritten, Prefix(edc.eventDefinitions, edc.numEventDefinitions)))
  }

  // ---------------------------------------------------------------------------------
  // The file

  /** A chunk: id, size, body. */
  function ChunkBytes(id: int, size: int, body: seq<Byte>): (r: seq<Byte>)
    ensures |r| == 8 + |body|
  {
    Int32BE(id) + Int32BE(size) + body
  }

  /** The chunk ids in the order the writer emits the chunks. */
  function ChunkIds(fmt: Format): seq<int> {
    [fmt.waveBanksChunkId, fmt.mixBusesChunkId, fmt.mixPresetsChunkId, fmt.soundsChunkId, fmt.eventsChunkId]
  }

  /** The chunk bodies in the order the writer emits them. */
  function ChunkBodiesAsWritten(bin: EngineDataBinary): seq<seq<Byte>> {
    [WaveBankChunkBytesAsWritten(bin.waveBankChunk),
     MixBusChunkBytes(bin.mixBusChunk),
     MixPresetChunkBytes(bin.mixPresetChunk, bin.mixBusChunk.numMixBuses),
     SoundChunkBytes(bin.soundChunk),
     EventChunkBytesAsWritten(bin.eventChunk)]
  }

  /** The chunks with the sizes of the first `k` filled in and the others still 0. */
  function PatchedChunks(ids: seq<int>, bodies: seq<seq<Byte>>, k: int): (parts: seq<seq<Byte>>)
    requires |ids| == |bodies|
    ensures |parts| == |ids|
  {
    seq(|ids|, j requires 0 <= j < |ids| => ChunkBytes(ids[j], if j < k then |bodies[j]| else 0, bodies[j]))
  }

  /** The file the writer leaves: identifier, then every chunk with its size field holding its body's length. */
  function EngineDataFileAsWritten(fmt: Format, bin: EngineDataBinary): seq<Byte> {
    bin.fileIdentifier + Concat(PatchedChunks(ChunkIds(fmt), ChunkBodiesAsWritten(bin), 5))
  }

  /** What the writer needs of a string it writes: a C string of at least one character. */
  predicate WritableString(s: string) {
    IsCString(s) && |s| >= 1
  }

  predicate WritableMixBus(b: MixBusChunk) {
    WritableString(b.id) && b.numSubBuses <= |b.subBusIndices|
  }

  predicate WritableMixPreset(p: MixPresetChunk, numMixBuses: int) {
    WritableString(p.id) &&
    numMixBuses <= |p.mixBusIndices| && numMixBuses <= |p.gainLeft| &&
    numMixBuses <= |p.gainRight| && numMixBuses <= |p.pitch|
  }

  /** Wave bank `i` is written with its entry `i`, so that entry must exist when it has entries. */
  predicate WritableWaveBankAsWritten(b: WaveBankChunk, i: int) {
    WritableString(b.id) &&
    (b.numAudioDataEntries > 0 ==> 0 <= i < |b.audioDataEntries| && WritableString(b.audioDataEntries[i]))
  }

  predicate WritableSound(s: SoundChunk) {
    s.numWaveReferences <= |s.waveBankIndices| && s.numWaveReferences <= |s.audioDataIndices|
  }

  predicate WritableEvent(e: EventChunk) {
    WritableString(e.id) && e.numReferencedWaveBanks <= |e.waveBankIndices|
  }

  /** Every array is as long as its count, and every string can be written. */
  predicate Writable(fmt: Format, bin: EngineDataBinary) {
    var wbc := bin.waveBankChunk;
    var mbc := bin.mixBusChunk;
    var mpc := bin.mixPresetChunk;
    var sdc := bin.soundChunk;
    var edc := bin.eventChunk;
    |bin.fileIdentifier| == |fmt.identifier| &&
    wbc.numWaveBanks <= |wbc.waveBanks| &&
    (forall i :: 0 <= i < wbc.numWaveBanks ==> WritableWaveBankAsWritten(wbc.waveBanks[i], i)) &&
    mbc.numMixBuses > 0 && mbc.numMixBuses <= |mbc.mixBuses| &&
    (forall i :: 0 <= i < mbc.numMixBuses ==> WritableMixBus(mbc.mixBuses[i])) &&
    mpc.numMixPresets <= |mpc.mixPresets| &&
    (forall i :: 0 <= i < mpc.numMixPresets ==> WritableMixPreset(mpc.mixPresets[i], mbc.numMixBuses)) &&
    sdc.numSoundDefinitions <= |sdc.soundDefinitions| &&
    (forall i :: 0 <= i < sdc.numSoundDefinitions ==> WritableSound(sdc.soundDefinitions[i])) &&
    edc.numEventDefinitions <= |edc.eventDefinitions| &&
    (forall i :: 0 <= i < edc.numEventDefinitions ==> WritableEvent(edc.eventDefinitions[i]))
  }

  // ---------------------------------------------------------------------------------
  // The writer, one item at a time

  /** The stream is open and positioned at its end: every write appends. */
  ghost predicate Appending(fos: OutputStream)
    reads fos
  {
    fos.Valid() && fos.isOpen && fos.position == |fos.contents|
  }

  /** A mix bus: id, sub-bus count, sub-bus indices (lines 542-555). */
  method WriteMixBus(fos: OutputStream, b: MixBusChunk)
    requires Appending(fos)
    requires WritableMixBus(b)
    modifies fos
    ensures Appending(fos) && fos.contents == old(fos.contents) + MixBusBytes(b)
  {
    CStringMemory(b.id);
    fos.WriteASCIIString(b.id + ['\0']);
    fos.WriteInt32BE(b.numSubBuses);
    ghost var head := fos.contents;
    var j := 0;
    while j < b.numSubBuses
      invariant 0 <= j <= Count(b.numSubBuses)
      invariant Appending(fos) && fos.contents == head + Int32s(b.subBusIndices[..j])
    {
      fos.WriteInt32BE(b.subBusIndices[j]);
      AppendItem(head, Int32BE, b.subBusIndices, j);
      j := j + 1;
    }
    AppendAssoc(old(fos.contents), ASCIIString(b.id), Int32BE(b.numSubBuses));
    AppendAssoc(old(fos.contents), ASCIIString(b.id) + Int32BE(b.numSubBuses), Int32s(Prefix(b.subBusIndices, b.numSubBuses)));
  }

  /** The mix bus chunk body (lines 538-557). */
  method WriteMixBusChunkBody(fos: OutputStream, mbc: MixBusDataChunk)
    requires Appending(fos)
    requires mbc.numMixBuses <= |mbc.mixBuses|
    requires forall i :: 0 <= i < mbc.numMixBuses ==> WritableMixBus(mbc.mixBuses[i])
    modifies fos
    ensures Appending(fos) && fos.contents == old(fos.contents) + MixBusChunkBytes(mbc)
  {
    fos.WriteInt32BE(mbc.numMixBuses);
    ghost var head := fos.contents;
    var i := 0;
    while i < mbc.numMixBuses
      invariant 0 <= i <= Count(mbc.numMixBuses)
      invariant Appending(fos) && fos.contents == head + Concat(Map(MixBusBytes, mbc.mixBuses[..i]))
    {
      WriteMixBus(fos, mbc.mixBuses[i]);
      AppendItem(head, MixBusBytes, mbc.mixBuses, i);
      i := i + 1;
    }
    assert mbc.mixBuses[..i] == Prefix(mbc.mixBuses, mbc.numMixBuses);
    AppendAssoc(old(fos.contents), Int32BE(mbc.numMixBuses), Concat(Map(MixBusBytes, mbc.mixBuses[..i])));
  }

  /** Parameter set `j` of a preset (lines 574-581). */
  method WriteParamSet(fos: OutputStream, p: MixPresetChunk, j: int)
    requires Appending(fos)
    requires 0 <= j < |p.mixBusIndices| && j < |p.gainLeft| && j < |p.gainRight| && j < |p.pitch|
    modifies fos
    ensures Appending(fos) && fos.contents == old(fos.contents) + ParamSetBytes(p, j)
  {
    fos.WriteInt32BE(p.mixBusIndices[j]);
    fos.WriteFloat32BE(p.gainLeft[j]);
    fos.WriteFloat32BE(p.gainRight[j]);
    fos.WriteFloat32BE(p.pitch[j]);
  }

  /** A mix preset: id, default flag, then one parameter set per mix bus (lines 567-582). */
  method WriteMixPreset(fos: OutputStream, p: MixPresetChunk, numMixBuses: int)
    requires Appending(fos)
    requires WritableMixPreset(p, numMixBuses)
    modifies fos
    ensures Appending(fos) && fos.contents == old(fos.contents) + MixPresetBytes(p, numMixBuses)
  {
    CStringMemory(p.id);
    fos.WriteASCIIString(p.id + ['\0']);
    fos.WriteInt32BE(p.isDefault);
    ghost var head := fos.contents;
    ghost var sets := ParamSetParts(p, numMixBuses);
    var j := 0;
    while j < numMixBuses
      invariant 0 <= j <= Count(numMixBuses)
      invariant Appending(fos) && fos.contents == head + Concat(sets[..j])
    {
      WriteParamSet(fos, p, j);
      AppendPart(head, sets, j);
      j := j + 1;
    }
    assert sets[..j] == sets;
    AppendAssoc(old(fos.contents), ASCIIString(p.id), Int32BE(p.isDefault));
    AppendAssoc(old(fos.contents), ASCIIString(p.id) + Int32BE(p.isDefault), Concat(sets));
  }

  /** The mix preset chunk body (lines 561-586). */
  method WriteMixPresetChunkBody(fos: OutputStream, mpc: MixPresetDataChunk, numMixBuses: int)
    requires Appending(fos)
    requires mpc.numMixPresets <= |mpc.mixPresets|
    requires forall i :: 0 <= i < mpc.numMixPresets ==> WritableMixPreset(mpc.mixPresets[i], numMixBuses)
    modifies fos
    ensures Appending(fos) && fos.contents == old(fos.contents) + MixPresetChunkBytes(mpc, numMixBuses)
  {
    fos.WriteInt32BE(mpc.numMixPresets);
    ghost var head := fos.contents;
    ghost var parts := MixPresetParts(Prefix(mpc.mixPresets, mpc.numMixPresets), numMixBuses);
    var i := 0;
    while i < mpc.numMixPresets
      invariant 0 <= i <= Count(mpc.numMixPresets)
      invariant Appending(fos) && fos.contents == head + Concat(parts[..i])
    {
      WriteMixPreset(fos, mpc.mixPresets[i], numMixBuses);
      AppendPart(head, parts, i);
      i := i + 1;
    }
    assert parts[..i] == parts;
    AppendAssoc(old(fos.contents), Int32BE(mpc.numMixPresets), Concat(parts));
  }

  /** Wave bank `i` as written: id, entry count, and its entry `i` once per entry (lines 522-534). */
  method WriteWaveBankAsWritten(fos: OutputStream, b: WaveBankChunk, i: int)
    requires Appending(fos)
    requires WritableWaveBankAsWritten(b, i)
    modifies fos
    ensures Appending(fos) && fos.contents == old(fos.contents) + WaveBankBytesAsWritten(b, i)
  {
    CStringMemory(b.id);
    fos.WriteASCIIString(b.id + ['\0']);
    fos.WriteInt32BE(b.numAudioDataEntries);
    ghost var head := fos.contents;
    ghost var entry := if 0 <= i < |b.audioDataEntries| then b.audioDataEntries[i] else [];
    ghost var entries := seq(Count(b.numAudioDataEntries), _ => ASCIIString(entry));
    var j := 0;
    while j < b.numAudioDataEntries
      invariant 0 <= j <= Count(b.numAudioDataEntries)
      invariant Appending(fos) && fos.contents == head + Concat(entries[..j])
    {
      CStringMemory(b.audioDataEntries[i]);
      fos.WriteASCIIString(b.audioDataEntries[i] + ['\0']);
      AppendPart(head, entries, j);
      j := j + 1;
    }
    assert entries[..j] == entries;
    AppendAssoc(old(fos.contents), ASCIIString(b.id), Int32BE(b.numAudioDataEntries));
    AppendAssoc(old(fos.contents), ASCIIString(b.id) + Int32BE(b.numAudioDataEntries), Concat(entries));
  }

  /** The wave bank chunk body as written (lines 517-536). */
  method WriteWaveBankChunkBody(fos: OutputStream, wbc: WaveBankDataChunk)
    requires Appending(fos)
    requires wbc.numWaveBanks <= |wbc.waveBanks|
    requires forall i :: 0 <= i < wbc.numWaveBanks ==> WritableWaveBankAsWritten(wbc.waveBanks[i], i)
    modifies fos
    ensures Appending(fos) && fos.contents == old(fos.contents) + WaveBankChunkBytesAsWritten(wbc)
  {
    fos.WriteInt32BE(wbc.numAudioDataItemsTotal);
    fos.WriteInt32BE(wbc.numWaveBanks);
    ghost var head := fos.contents;
    ghost var parts := WaveBankPartsAsWritten(Prefix(wbc.waveBanks, wbc.numWaveBanks));
    var i := 0;
    while i < wbc.numWaveBanks
      invariant 0 <= i <= Count(wbc.numWaveBanks)
      invariant Appending(fos) && fos.contents == head + Concat(parts[..i])
    {
      WriteWaveBankAsWritten(fos, wbc.waveBanks[i], i);
      AppendPart(head, parts, i);
      i := i + 1;
    }
    assert parts[..i] == parts;
    AppendAssoc(old(fos.contents), Int32BE(wbc.numAudioDataItemsTotal), Int32BE(wbc.numWaveBanks));
    AppendAssoc(old(fos.contents), Int32BE(wbc.numAudioDataItemsTotal) + Int32BE(wbc.numWaveBanks), Concat(parts));
  }

  /** A sound's fields before its wave references (lines 595-602). */
  method WriteSoundHeader(fos: OutputStream, s: SoundChunk)
    requires Appending(fos)
    modifies fos
    ensures Appending(fos) && fos.contents == old(fos.contents) + SoundHeaderBytes(s)
  {
    fos.WriteInt32BE(s.playbackCount);
    ghost var acc := Int32BE(s.playbackCount);
    AppendAssoc(old(fos.contents), acc, Int32BE(s.deferStop));
    fos.WriteInt32BE(s.deferStop);
    acc := acc + Int32BE(s.deferStop);
    AppendAssoc(old(fos.contents), acc, Float32(s.gain));
    fos.WriteFloat32BE(s.gain);
    acc := acc + Float32(s.gain);
    AppendAssoc(old(fos.contents), acc, Float32(s.gainVariation));
    fos.WriteFloat32BE(s.gainVariation);
    acc := acc + Float32(s.gainVariation);
    AppendAssoc(old(fos.contents), acc, Float32(s.pitch));
    fos.WriteFloat32BE(s.pitch);
    acc := acc + Float32(s.pitch);
    AppendAssoc(old(fos.contents), acc, Float32(s.pitchVariation));
    fos.WriteFloat32BE(s.pitchVariation);
    acc := acc + Float32(s.pitchVariation);
    AppendAssoc(old(fos.contents), acc, Int32BE(s.playbackMode));
    fos.WriteInt32BE(s.playbackMode);
    acc := acc + Int32BE(s.playbackMode);
    AppendAssoc(old(fos.contents), acc, Int32BE(s.numWaveReferences));
    fos.WriteInt32BE(s.numWaveReferences);
    acc := acc + Int32BE(s.numWaveReferences);
  }

  /** A sound: its fields, then its wave references (lines 593-612). */
  method WriteSound(fos: OutputStream, s: SoundChunk)
    requires Appending(fos)
    requires WritableSound(s)
    modifies fos
    ensures Appending(fos) && fos.contents == old(fos.contents) + SoundBytes(s)
  {
    WriteSoundHeader(fos, s);
    ghost var head := fos.contents;
    ghost var refs := WaveRefParts(s);
    var j := 0;
    while j < s.numWaveReferences
      invariant 0 <= j <= Count(s.numWaveReferences)
      invariant Appending(fos) && fos.contents == head + Concat(refs[..j])
    {
      fos.WriteInt32BE(s.waveBankIndices[j]);
      fos.WriteInt32BE(s.audioDataIndices[j]);
      AppendAssoc(head + Concat(refs[..j]), Int32BE(s.waveBankIndices[j]), Int32BE(s.audioDataIndices[j]));
      AppendPart(head, refs, j);
      j := j + 1;
    }
    assert refs[..j] == refs;
    AppendAssoc(old(fos.contents), SoundHeaderBytes(s), Concat(refs));
  }

  /** The sound chunk body (lines 589-615). */
  method WriteSoundChunkBody(fos: OutputStream, sdc: SoundDataChunk)
    requires Appending(fos)
    requires sdc.numSoundDefinitions <= |sdc.soundDefinitions|
    requires forall i :: 0 <= i < sdc.numSoundDefinitions ==> WritableSound(sdc.soundDefinitions[i])
    modifies fos
    ensures Appending(fos) && fos.contents == old(fos.contents) + SoundChunkBytes(sdc)
  {
    fos.WriteInt32BE(sdc.numSoundDefinitions);
    ghost var head := fos.contents;
    var i := 0;
    while i < sdc.numSoundDefinitions
      invariant 0 <= i <= Count(sdc.numSoundDefinitions)
      invariant Appending(fos) && fos.contents == head + Concat(Map(SoundBytes, sdc.soundDefinitions[..i]))
    {
      WriteSound(fos, sdc.soundDefinitions[i]);
      AppendItem(head, SoundBytes, sdc.soundDefinitions, i);
      i := i + 1;
    }
    assert sdc.soundDefinitions[..i] == Prefix(sdc.soundDefinitions, sdc.numSoundDefinitions);
    AppendAssoc(old(fos.contents), Int32BE(sdc.numSoundDefinitions), Concat(Map(SoundBytes, sdc.soundDefinitions[..i])));
  }

  /** An event's fields before its wave bank indices, as written (lines 624-639). */
  method WriteEventHeaderAsWritten(fos: OutputStream, e: EventChunk)
    requires Appending(fos)
    requires WritableString(e.id)
    modifies fos
    ensures Appending(fos) && fos.contents == old(fos.contents) + EventHeaderBytesAsWritten(e)
  {
    CStringMemory(e.id);
    fos.WriteASCIIString(e.id + ['\0']);
    ghost var acc := ASCIIString(e.id);
    AppendAssoc(old(fos.contents), acc, Int32BE(e.instanceCount));
    fos.WriteInt32BE(e.instanceCount);
    acc := acc + Int32BE(e.instanceCount);
    AppendAssoc(old(fos.contents), acc, Float32(e.gain));
    fos.WriteFloat32BE(e.gain);
    acc := acc + Float32(e.gain);
    AppendAssoc(old(fos.contents), acc, Float32(e.pitch));
    fos.WriteFloat32BE(e.pitch);
    acc := acc + Float32(e.pitch);
    AppendAssoc(old(fos.contents), acc, Float32(e.innerConeAngleDeg));
    fos.WriteFloat32BE(e.innerConeAngleDeg);
    acc := acc + Float32(e.innerConeAngleDeg);
    AppendAssoc(old(fos.contents), acc, Float32(e.innerConeGain));
    fos.WriteFloat32BE(e.innerConeGain);
    acc := acc + Float32(e.innerConeGain);
    AppendAssoc(old(fos.contents), acc, Float32(e.outerConeAngleDeg));
    fos.WriteFloat32BE(e.outerConeAngleDeg);
    acc := acc + Float32(e.outerConeAngleDeg);
    AppendAssoc(old(fos.contents), acc, Float32(e.outerConeGain));
    fos.WriteFloat32BE(e.outerConeGain);
    acc := acc + Float32(e.outerConeGain);
    AppendAssoc(old(fos.contents), acc, Int32BE(e.mixBusIndex));
    fos.WriteInt32BE(e.mixBusIndex);
    acc := acc + Int32BE(e.mixBusIndex);
    AppendAssoc(old(fos.contents), acc, Int32BE(e.isPositional));
    fos.WriteInt32BE(e.isPositional);
    acc := acc + Int32BE(e.isPositional);
    AppendAssoc(old(fos.contents), acc, Int32BE(e.retriggerMode));
    fos.WriteInt32BE(e.retriggerMode);
    acc := acc + Int32BE(e.retriggerMode);
    AppendAssoc(old(fos.contents), acc, Int32BE(e.waveBankIndex));
    fos.WriteInt32BE(e.waveBankIndex);
    acc := acc + Int32BE(e.waveBankIndex);
    AppendAssoc(old(fos.contents), acc, Int32BE(e.audioDataIndex));
    fos.WriteInt32BE(e.audioDataIndex);
    acc := acc + Int32BE(e.audioDataIndex);
    AppendAssoc(old(fos.contents), acc, Int32BE(e.loopIfStreaming));
    fos.WriteInt32BE(e.loopIfStreaming);
    acc := acc + Int32BE(e.loopIfStreaming);
    AppendAssoc(old(fos.contents), acc, Int32BE(e.numReferencedWaveBanks));
    fos.WriteInt32BE(e.numReferencedWaveBanks);
    acc := acc + Int32BE(e.numReferencedWaveBanks);
  }

  /** An event as written: its fields, then its wave bank indices (lines 622-647). */
  method WriteEventAsWritten(fos: OutputStream, e: EventChunk)
    requires Appending(fos)
    requires WritableEvent(e)
    modifies fos
    ensures Appending(fos) && fos.contents == old(fos.contents) + EventBytesAsWritten(e)
  {
    WriteEventHeaderAsWritten(fos, e);
    ghost var head := fos.contents;
    var j := 0;
    while j < e.numReferencedWaveBanks
      invariant 0 <= j <= Count(e.numReferencedWaveBanks)
      invariant Appending(fos) && fos.contents == head + Int32s(e.waveBankIndices[..j])
    {
      fos.WriteInt32BE(e.waveBankIndices[j]);
      AppendItem(head, Int32BE, e.waveBankIndices, j);
      j := j + 1;
    }
    AppendAssoc(old(fos.contents), EventHeaderBytesAsWritten(e), Int32s(Prefix(e.waveBankIndices, e.numReferencedWaveBanks)));
  }

  /** The event chunk body as written (lines 618-650). */
  method WriteEventChunkBody(fos: OutputStream, edc: EventDataChunk)
    requires Appending(fos)
    requires edc.numEventDefinitions <= |edc.eventDefinitions|
    requires forall i :: 0 <= i < edc.numEventDefinitions ==> WritableEvent(edc.eventDefinitions[i])
    modifies fos
    ensures Appending(fos) && fos.contents == old(fos.contents) + EventChunkBytesAsWritten(edc)
  {
    fos.WriteInt32BE(edc.numEventDefinitions);
    ghost var head := fos.contents;
    var i := 0;
    while i < edc.numEventDefinitions
      invariant 0 <= i <= Count(edc.numEventDefinitions)
      invariant Appending(fos) && fos.contents == head + Concat(Map(EventBytesAsWritten, edc.eventDefinitions[..i]))
    {
      WriteEventAsWritten(fos, edc.eventDefinitions[i]);
      AppendItem(head, EventBytesAsWritten, edc.eventDefinitions, i);
      i := i + 1;
    }
    assert edc.eventDefinitions[..i] == Prefix(edc.eventDefinitions, edc.numEventDefinitions);
    AppendAssoc(old(fos.contents), Int32BE(edc.numEventDefinitions), Concat(Map(EventBytesAsWritten, edc.eventDefinitions[..i])));
  }

  // ---------------------------------------------------------------------------------
  // Back-patching the sizes

  /** Where chunk j starts, after the identifier: the chunks before it take 8 bytes plus their bodies. */
  function ChunkOffset(bodies: seq<seq<Byte>>, j: nat): nat
    requires j <= |bodies|
  {
    if j == 0 then 0 else ChunkOffset(bodies, j - 1) + 8 + |bodies[j - 1]|
  }

  /** Chunks whose lengths are those of their bodies plus 8 take up exactly the offsets. */
  lemma {:induction false} ChunksLength(chunks: seq<seq<Byte>>, bodies: seq<seq<Byte>>, j: nat)
    requires |chunks| == |bodies| && j <= |chunks|
    requires forall l :: 0 <= l < |chunks| ==> |chunks[l]| == 8 + |bodies[l]|
    ensures |Concat(chunks[..j])| == ChunkOffset(bodies, j)
  {
    if j == 0 {
      assert chunks[..0] == [];
    } else {
      ChunksLength(chunks, bodies, j - 1);
      assert chunks[..j] == chunks[..j - 1] + [chunks[j - 1]];
      ConcatSnoc(chunks[..j - 1], chunks[j - 1]);
    }
  }

  /** A chunk written with size 0 after the ones before it. */
  lemma ChunkAppended(ident: seq<Byte>, written: seq<seq<Byte>>, id: int, body: seq<Byte>)
    ensures ident + Concat(written) + Int32BE(id) + Int32BE(0) + body == ident + Concat(written + [ChunkBytes(id, 0, body)])
  {
    ConcatSnoc(written, ChunkBytes(id, 0, body));
    AppendAssoc(ident, Concat(written), ChunkBytes(id, 0, body));
    AppendAssoc(ident + Concat(written), Int32BE(id) + Int32BE(0), body);
    AppendAssoc(ident + Concat(written), Int32BE(id), Int32BE(0));
  }

  /** A run of parts, split around part k, which is `a + z + b`. */
  lemma AroundPart(ident: seq<Byte>, p: seq<seq<Byte>>, k: nat, a: seq<Byte>, z: seq<Byte>, b: seq<Byte>)
    requires k < |p| && p[k] == a + z + b
    ensures ident + Concat(p) == ident + Concat(p[..k]) + a + z + (b + Concat(p[k + 1..]))
  {
    var front := Concat(p[..k]);
    var back := Concat(p[k + 1..]);
    ConcatSplit(p, k);
    AppendAssoc(ident, front + (a + z + b), back);
    AppendAssoc(ident, front, a + z + b);
    AppendAssoc(ident + front, a + z, b);
    AppendAssoc(ident + front, a, z);
    AppendAssoc(ident + front + a + z, b, back);
  }

  /** Overwriting field z of `before` with i gives `after`, when only that field differs. */
  lemma PatchAt(before: seq<Byte>, after: seq<Byte>, x: seq<Byte>, z: seq<Byte>, i: seq<Byte>, y: seq<Byte>)
    requires before == x + z + y && after == x + i + y && |z| == |i|
    ensures |x| + |i| <= |before| && Overwrite(before, |x|, i) == after
  {
    OverwriteMiddle(x, z, i, y);
  }

  /**
   * Two runs of parts that differ only in part k, where `a + z + b` became `a + i + b`:
   * overwriting z with i, at the offset of z, turns the one into the other.
   */
  lemma PatchPart(ident: seq<Byte>, p: seq<seq<Byte>>, q: seq<seq<Byte>>, k: nat, a: seq<Byte>, z: seq<Byte>, i: seq<Byte>, b: seq<Byte>, pos: int)
    requires k < |p| == |q| && p[..k] == q[..k] && p[k + 1..] == q[k + 1..]
    requires p[k] == a + z + b && q[k] == a + i + b && |z| == |i|
    requires pos == |ident| + |Concat(p[..k])| + |a|
    ensures 0 <= pos && pos + |i| <= |ident + Concat(p)|
    ensures Overwrite(ident + Concat(p), pos, i) == ident + Concat(q)
  {
    AroundPart(ident, p, k, a, z, b);
    AroundPart(ident, q, k, a, i, b);
    PatchAt(ident + Concat(p), ident + Concat(q), ident + Concat(p[..k]) + a, z, i, b + Concat(p[k + 1..]));
  }

  // ---------------------------------------------------------------------------------
  // The writer

  /** A chunk's id and a size of 0, then where its body starts (lines 519-521 and the like). */
  method BeginChunk(fos: OutputStream, id: int) returns (start: nat)
    requires Appending(fos)
    modifies fos
    ensures Appending(fos) && fos.contents == old(fos.contents) + Int32BE(id) + Int32BE(0)
    ensures start == |fos.contents|
  {
    fos.WriteInt32BE(id);
    fos.WriteInt32BE(0);
    start := fos.Tell();
  }

  /** After `k` chunks: each written with size 0, starting where the offsets say. */
  ghost predicate ChunksWritten(ident: seq<Byte>, ids: seq<int>, bodies: seq<seq<Byte>>, k: nat,
                                written: seq<seq<Byte>>, starts: seq<int>, ends: seq<int>)
    requires k <= |ids| == |bodies|
  {
    |written| == k && |starts| == |ends| == |ids| &&
    (forall j :: 0 <= j < k ==> written[j] == ChunkBytes(ids[j], 0, bodies[j])) &&
    (forall j :: 0 <= j < k ==> starts[j] == |ident| + ChunkOffset(bodies, j) + 8 && ends[j] == starts[j] + |bodies[j]|)
  }

  /** Chunk k, written after the first k: its positions are recorded and it joins them. */
  lemma ChunkRecorded(ident: seq<Byte>, ids: seq<int>, bodies: seq<seq<Byte>>, k: nat, written: seq<seq<Byte>>,
                      starts: seq<int>, ends: seq<int>, start: int, end: int, before: seq<Byte>, after: seq<Byte>)
    requires k < |ids| == |bodies|
    requires ChunksWritten(ident, ids, bodies, k, written, starts, ends)
    requires before == ident + Concat(written) && |Concat(written)| == ChunkOffset(bodies, k)
    requires after == before + Int32BE(ids[k]) + Int32BE(0) + bodies[k]
    requires start == |before| + 8 && end == |after|
    ensures ChunksWritten(ident, ids, bodies, k + 1, written + [ChunkBytes(ids[k], 0, bodies[k])], starts[k := start], ends[k := end])
    ensures after == ident + Concat(written + [ChunkBytes(ids[k], 0, bodies[k])])
    ensures |Concat(written + [ChunkBytes(ids[k], 0, bodies[k])])| == ChunkOffset(bodies, k + 1)
  {
    ChunkAppended(ident, written, ids[k], bodies[k]);
    var w := written + [ChunkBytes(ids[k], 0, bodies[k])];
    var s := starts[k := start];
    var e := ends[k := end];
    forall j | 0 <= j < k + 1
      ensures w[j] == ChunkBytes(ids[j], 0, bodies[j])
      ensures s[j] == |ident| + ChunkOffset(bodies, j) + 8 && e[j] == s[j] + |bodies[j]|
    {
      if j < k {
        assert w[j] == written[j];
      }
    }
  }

  /**
   * One of the five chunk blocks of lines 516-649: the id, a 0 for the size, the
   * body; the positions where the body starts and ends. Chunk k is the k-th in
   * the order the writer emits them.
   */
  method WriteChunk(fos: OutputStream, fmt: Format, bin: EngineDataBinary, k: nat) returns (start: nat, end: nat)
    requires Writable(fmt, bin) && Appending(fos) && k < 5
    modifies fos
    ensures Appending(fos)
    ensures fos.contents == old(fos.contents) + Int32BE(ChunkIds(fmt)[k]) + Int32BE(0) + ChunkBodiesAsWritten(bin)[k]
    ensures start == |old(fos.contents)| + 8 && end == |fos.contents|
  {
    start := BeginChunk(fos, ChunkIds(fmt)[k]);
    ghost var head := fos.contents;
    ghost var body := ChunkBodiesAsWritten(bin)[k];
    if k == 0 {
      WriteWaveBankChunkBody(fos, bin.waveBankChunk);
    } else if k == 1 {
      WriteMixBusChunkBody(fos, bin.mixBusChunk);
    } else if k == 2 {
      WriteMixPresetChunkBody(fos, bin.mixPresetChunk, bin.mixBusChunk.numMixBuses);
    } else if k == 3 {
      WriteSoundChunkBody(fos, bin.soundChunk);
    } else {
      WriteEventChunkBody(fos, bin.eventChunk);
    }
    assert fos.contents == head + body;
    end := fos.Tell();
  }

  /** The five chunks (lines 516-649), each with size 0, and where each body starts and ends. */
  method WriteChunks(fos: OutputStream, fmt: Format, bin: EngineDataBinary)
    returns (starts: seq<int>, ends: seq<int>, ghost written: seq<seq<Byte>>)
    requires Writable(fmt, bin) && Appending(fos) && fos.contents == bin.fileIdentifier
    modifies fos
    ensures Appending(fos)
    ensures ChunksWritten(bin.fileIdentifier, ChunkIds(fmt), ChunkBodiesAsWritten(bin), 5, written, starts, ends)
    ensures fos.contents == bin.fileIdentifier + Concat(written)
  {
    ghost var ident := bin.fileIdentifier;
    ghost var ids := ChunkIds(fmt);
    ghost var bodies := ChunkBodiesAsWritten(bin);
    starts, ends, written := [0, 0, 0, 0, 0], [0, 0, 0, 0, 0], [];
    assert fos.contents == ident + Concat(written);
    ghost var before;
    var start, end;

    before := fos.contents;
    start, end := WriteChunk(fos, fmt, bin, 0);
    ChunkRecorded(ident, ids, bodies, 0, written, starts, ends, start, end, before, fos.contents);
    starts, ends, written := starts[0 := start], ends[0 := end], written + [ChunkBytes(ids[0], 0, bodies[0])];

    before := fos.contents;
    start, end := WriteChunk(fos, fmt, bin, 1);
    ChunkRecorded(ident, ids, bodies, 1, written, starts, ends, start, end, before, fos.contents);
    starts, ends, written := starts[1 := start], ends[1 := end], written + [ChunkBytes(ids[1], 0, bodies[1])];

    before := fos.contents;
    start, end := WriteChunk(fos, fmt, bin, 2);
    ChunkRecorded(ident, ids, bodies, 2, written, starts, ends, start, end, before, fos.contents);
    starts, ends, written := starts[2 := start], ends[2 := end], written + [ChunkBytes(ids[2], 0, bodies[2])];

    before := fos.contents;
    start, end := WriteChunk(fos, fmt, bin, 3);
    ChunkRecorded(ident, ids, bodies, 3, written, starts, ends, start, end, before, fos.contents);
    starts, ends, written := starts[3 := start], ends[3 := end], written + [ChunkBytes(ids[3], 0, bodies[3])];

    before := fos.contents;
    start, end := WriteChunk(fos, fmt, bin, 4);
    ChunkRecorded(ident, ids, bodies, 4, written, starts, ends, start, end, before, fos.contents);
    starts, ends, written := starts[4 := start], ends[4 := end], written + [ChunkBytes(ids[4], 0, bodies[4])];
  }

  /** The chunks as they stand once the sizes of the first i have been patched. */
  ghost predicate PatchedUpTo(ids: seq<int>, bodies: seq<seq<Byte>>, chunks: seq<seq<Byte>>, i: int)
  {
    |chunks| == |ids| == |bodies| &&
    forall j :: 0 <= j < |chunks| ==> chunks[j] == ChunkBytes(ids[j], if j < i then |bodies[j]| else 0, bodies[j])
  }

  /** Chunk i's size field, written over the 0 that stood there. */
  lemma PatchChunk(ident: seq<Byte>, ids: seq<int>, bodies: seq<seq<Byte>>, chunks: seq<seq<Byte>>, i: nat, pos: int)
    requires PatchedUpTo(ids, bodies, chunks, i) && i < |chunks|
    requires pos == |ident| + ChunkOffset(bodies, i) + 4
    ensures 0 <= pos && pos + 4 <= |ident + Concat(chunks)|
    ensures Overwrite(ident + Concat(chunks), pos, Int32BE(|bodies[i]|))
            == ident + Concat(chunks[i := ChunkBytes(ids[i], |bodies[i]|, bodies[i])])
    ensures PatchedUpTo(ids, bodies, chunks[i := ChunkBytes(ids[i], |bodies[i]|, bodies[i])], i + 1)
  {
    var size := |bodies[i]|;
    var patched := chunks[i := ChunkBytes(ids[i], size, bodies[i])];
    ChunksLength(chunks, bodies, i);
    assert chunks[..i] == patched[..i] && chunks[i + 1..] == patched[i + 1..];
    PatchPart(ident, chunks, patched, i, Int32BE(ids[i]), Int32BE(0), Int32BE(size), bodies[i], pos);
  }

  /** All sizes patched: the chunks of the finished file. */
  lemma AllPatched(ids: seq<int>, bodies: seq<seq<Byte>>, chunks: seq<seq<Byte>>)
    requires PatchedUpTo(ids, bodies, chunks, |chunks|)
    ensures chunks == PatchedChunks(ids, bodies, |ids|)
  {
  }

  /** Nothing patched yet: the chunks as WriteChunks leaves them. */
  lemma NonePatched(ident: seq<Byte>, ids: seq<int>, bodies: seq<seq<Byte>>, written: seq<seq<Byte>>, starts: seq<int>, ends: seq<int>)
    requires |ids| == |bodies| && ChunksWritten(ident, ids, bodies, |ids|, written, starts, ends)
    ensures PatchedUpTo(ids, bodies, written, 0)
    ensures forall j :: 0 <= j < |ids| ==> starts[j] - 4 == |ident| + ChunkOffset(bodies, j) + 4 && ends[j] - starts[j] == |bodies[j]|
  {
  }

  /**
   * The final loop (lines 652-659): seek to 4 bytes before each chunk's start and
   * write its end minus its start, turning every size from 0 into its body's length.
   */
  method PatchSizes(fos: OutputStream, ghost ident: seq<Byte>, ghost ids: seq<int>, ghost bodies: seq<seq<Byte>>,
                    ghost written: seq<seq<Byte>>, starts: seq<int>, ends: seq<int>)
    requires |ids| == |bodies|
    requires ChunksWritten(ident, ids, bodies, |ids|, written, starts, ends)
    requires fos.Valid() && fos.isOpen && fos.contents == ident + Concat(written)
    modifies fos
    ensures fos.Valid() && fos.isOpen && fos.contents == ident + Concat(PatchedChunks(ids, bodies, |ids|))
  {
    NonePatched(ident, ids, bodies, written, starts, ends);
    ghost var chunks := written;
    var i := 0;
    while i < |starts|
      invariant 0 <= i <= |starts| == |ids| && PatchedUpTo(ids, bodies, chunks, i)
      invariant fos.Valid() && fos.isOpen && fos.contents == ident + Concat(chunks)
    {
      var size := ends[i] - starts[i];
      PatchChunk(ident, ids, bodies, chunks, i, starts[i] - 4);
      fos.Seek(starts[i] - 4);
      fos.WriteInt32BE(size);
      chunks := chunks[i := ChunkBytes(ids[i], size, bodies[i])];
      i := i + 1;
    }
    AllPatched(ids, bodies, chunks);
  }

  /**
   * kwlEngineDataBinary_writeToFile (lines 500-663). Whether the file can be opened
   * is `canOpen`; the result is what the file holds once the writer has closed it,
   * or None when it could not be opened and nothing was written.
   */
  method WriteToFile(fmt: Format, bin: EngineDataBinary, canOpen: bool) returns (file: Option<seq<Byte>>)
    requires Writable(fmt, bin)
    ensures canOpen ==> file == Some(EngineDataFileAsWritten(fmt, bin))
    ensures !canOpen ==> file == None
  {
    var fos := new OutputStream();
    var success := fos.InitWithPath(canOpen);
    if !success {
      return None;
    }
    fos.Write(bin.fileIdentifier, |fmt.identifier|);
    assert bin.fileIdentifier[..|fmt.identifier|] == bin.fileIdentifier;
    var starts, ends, written := WriteChunks(fos, fmt, bin);
    PatchSizes(fos, bin.fileIdentifier, ChunkIds(fmt), ChunkBodiesAsWritten(bin), written, starts, ends);
    fos.Close();
    file := Some(fos.contents);
  }
}
