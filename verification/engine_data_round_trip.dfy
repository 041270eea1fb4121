/**
 * What kwlEngineDataBinary_loadFromBinaryFile makes of what
 * kwlEngineDataBinary_writeToFile writes (src/tools/kwl_enginedatabinary.c).
 *
 * The mix bus, mix preset and sound bodies are written in the order the loader reads
 * them, and read back as themselves. Two bodies are not: the wave bank writer writes
 * a bank's entry at the bank's own index for every entry (line 533), and the event
 * writer writes innerConeGain, which the loader does not read, and leaves out
 * soundIndex, which it does (lines 627-645 against 916-959). Both are shown here as
 * written, and corrected bodies are given with which the whole file reads back as
 * the struct that was written.
 */
module EngineDataRoundTrip {
  import opened Wrappers
  import opened FileOutputStream
  import opened InputStream
  import opened ResultCodes
  import opened BinaryCodec
  import opened EngineData
  import opened EngineDataWriter
  import opened EngineDataLoader

  // ---------------------------------------------------------------------------------
  // Fields

  /** A string the writer can write and the loader reads back: a C string whose length is an int32. */
  predicate StringLoadable(s: string) {
    IsCString(s) && |s| < 0x8000_0000
  }

  lemma IntRead(v: int, rest: seq<Byte>)
    requires IsInt32(v)
    ensures ReadInt(Int32BE(v) + rest) == Parsed(v, rest)
  {
    ReadIntRoundTrip(v, rest);
  }

  lemma FloatRead(f: Bits32, rest: seq<Byte>)
    ensures ReadFloat(Float32(f) + rest) == Parsed(f, rest)
  {
    ReadFloatRoundTrip(f, rest);
  }

  lemma StringRead(str: string, rest: seq<Byte>)
    requires StringLoadable(str)
    ensures ReadString(ASCIIString(str) + rest) == Parsed(str, rest)
  {
    ReadStringRoundTrip(str, rest);
  }

  /** All the items of an array as long as its count. */
  lemma PrefixAll<T>(xs: seq<T>, n: int)
    requires |xs| == Count(n)
    ensures Prefix(xs, n) == xs
  {
  }

  /** Indices in range, written one after another, read back as themselves. */
  lemma IndicesRead(xs: seq<int>, bound: int, rest: seq<Byte>)
    requires IsInt32(bound) && InRange(xs, bound)
    ensures ParseList(IndexParser(bound), Int32s(xs) + rest, |xs|) == Parsed(xs, rest)
  {
    forall x, r | x in xs
      ensures IndexParser(bound)(Int32BE(x) + r) == Parsed(x, r)
    {
      IntRead(x, r);
    }
    ParseListRoundTrip(IndexParser(bound), Int32BE, xs, rest);
  }

  // ---------------------------------------------------------------------------------
  // Mix buses

  /** A mix bus the loader accepts and the writer can write back. */
  predicate MixBusLoadable(b: MixBusChunk, numMixBuses: int) {
    StringLoadable(b.id) && IsInt32(b.numSubBuses) && MixBusValid(b, numMixBuses)
  }

  /** A mix bus reads back as itself (lines 547-556 against 710-733). */
  lemma MixBusRoundTrip(b: MixBusChunk, numMixBuses: int, rest: seq<Byte>)
    requires IsInt32(numMixBuses) && MixBusLoadable(b, numMixBuses)
    ensures ParseMixBus(MixBusBytes(b) + rest, numMixBuses) == Parsed(b, rest)
  {
    var idx := Int32s(b.subBusIndices);
    PrefixAll(b.subBusIndices, b.numSubBuses);
    AppendAssoc(ASCIIString(b.id) + Int32BE(b.numSubBuses), idx, rest);
    AppendAssoc(ASCIIString(b.id), Int32BE(b.numSubBuses), idx + rest);
    StringRead(b.id, Int32BE(b.numSubBuses) + (idx + rest));
    IntRead(b.numSubBuses, idx + rest);
    IndicesRead(b.subBusIndices, numMixBuses, rest);
  }

  // ---------------------------------------------------------------------------------
  // Mix presets

  /** A mix preset the loader accepts and the writer can write back. */
  predicate PresetLoadable(p: MixPresetChunk, numMixBuses: int) {
    StringLoadable(p.id) && IsInt32(p.isDefault) && PresetValid(p, numMixBuses)
  }

  /** The parameter sets of a preset, in the order the writer and the loader take them. */
  function ParamSets(p: MixPresetChunk, numMixBuses: int): (sets: seq<ParamSet>)
    ensures |sets| == Count(numMixBuses)
  {
    seq(Count(numMixBuses), j => ParamSet(At(p.mixBusIndices, j, 0), At(p.gainLeft, j, 0), At(p.gainRight, j, 0), At(p.pitch, j, 0)))
  }

  function ParamSetEnc(ps: ParamSet): seq<Byte> {
    Int32BE(ps.mixBusIndex) + Float32(ps.gainLeft) + Float32(ps.gainRight) + Float32(ps.pitch)
  }

  /** A parameter set reads back as itself when its bus index is in range. */
  lemma ParamSetRoundTrip(ps: ParamSet, numMixBuses: int, rest: seq<Byte>)
    requires IsInt32(numMixBuses) && 0 <= ps.mixBusIndex < numMixBuses
    ensures ParseParamSet(ParamSetEnc(ps) + rest, numMixBuses) == Parsed(ps, rest)
  {
    var c := Float32(ps.pitch) + rest;
    var b := Float32(ps.gainRight) + c;
    var a := Float32(ps.gainLeft) + b;
    AppendAssoc(Int32BE(ps.mixBusIndex) + Float32(ps.gainLeft) + Float32(ps.gainRight), Float32(ps.pitch), rest);
    AppendAssoc(Int32BE(ps.mixBusIndex) + Float32(ps.gainLeft), Float32(ps.gainRight), c);
    AppendAssoc(Int32BE(ps.mixBusIndex), Float32(ps.gainLeft), b);
    IntRead(ps.mixBusIndex, a);
    FloatRead(ps.gainLeft, b);
    FloatRead(ps.gainRight, c);
    FloatRead(ps.pitch, rest);
  }

  /** The parameter sets of a preset put back into arrays give the preset's arrays. */
  lemma PresetOfParamSets(p: MixPresetChunk, numMixBuses: int)
    requires PresetValid(p, numMixBuses)
    ensures PresetOf(p.id, p.isDefault, ParamSets(p, numMixBuses)) == p
  {
    var q := PresetOf(p.id, p.isDefault, ParamSets(p, numMixBuses));
    assert q.gainLeft == p.gainLeft;
    assert q.gainRight == p.gainRight;
    assert q.pitch == p.pitch;
    assert q.mixBusIndices == p.mixBusIndices;
  }

  /** The parameter sets as written are the encodings of the preset's parameter sets. */
  lemma ParamSetPartsAre(p: MixPresetChunk, numMixBuses: int)
    ensures Map(ParamSetEnc, ParamSets(p, numMixBuses)) == ParamSetParts(p, numMixBuses)
  {
    var sets := ParamSets(p, numMixBuses);
    forall j | 0 <= j < |sets|
      ensures Map(ParamSetEnc, sets)[j] == ParamSetParts(p, numMixBuses)[j]
    {
      assert Map(ParamSetEnc, sets)[j] == ParamSetEnc(sets[j]);
      assert ParamSetParts(p, numMixBuses)[j] == ParamSetBytes(p, j);
    }
  }

  /** A preset's parameter sets read back as the preset's arrays. */
  lemma ParamSetsRoundTrip(p: MixPresetChunk, numMixBuses: int, rest: seq<Byte>)
    requires IsInt32(numMixBuses) && PresetValid(p, numMixBuses)
    ensures ParseList(ParamSetParser(numMixBuses), Concat(ParamSetParts(p, numMixBuses)) + rest, numMixBuses)
            == Parsed(ParamSets(p, numMixBuses), rest)
  {
    var sets := ParamSets(p, numMixBuses);
    ParamSetPartsAre(p, numMixBuses);
    forall x, r | x in sets
      ensures ParamSetParser(numMixBuses)(ParamSetEnc(x) + r) == Parsed(x, r)
    {
      var j :| 0 <= j < |sets| && sets[j] == x;
      ParamSetRoundTrip(x, numMixBuses, r);
    }
    ParseListRoundTrip(ParamSetParser(numMixBuses), ParamSetEnc, sets, rest);
  }

  /** A preset reads back as itself, unless it is a second default one (lines 561-586 against 752-788). */
  lemma PresetRoundTrip(p: MixPresetChunk, numMixBuses: int, seen: bool, rest: seq<Byte>)
    requires IsInt32(numMixBuses) && PresetLoadable(p, numMixBuses)
    requires !(seen && p.isDefault != 0)
    ensures ParsePreset(MixPresetBytes(p, numMixBuses) + rest, numMixBuses, seen) == Parsed(p, rest)
  {
    var sets := Concat(ParamSetParts(p, numMixBuses));
    AppendAssoc(ASCIIString(p.id) + Int32BE(p.isDefault), sets, rest);
    AppendAssoc(ASCIIString(p.id), Int32BE(p.isDefault), sets + rest);
    StringRead(p.id, Int32BE(p.isDefault) + (sets + rest));
    IntRead(p.isDefault, sets + rest);
    ParamSetsRoundTrip(p, numMixBuses, rest);
    PresetOfParamSets(p, numMixBuses);
  }

  /**
   * Items that read back as themselves, unless they are a default item after one was
   * seen, read back as a list when the list holds one default item and none was
   * seen before it, or none and one was.
   */
  lemma {:induction false} DefaultListRoundTrip<T>(item: (seq<Byte>, bool) -> Parsed<T>, isDefault: T -> bool,
                                                   enc: T -> seq<Byte>, xs: seq<T>, rest: seq<Byte>,
                                                   defaultIndex: int, i: int)
    requires defaultIndex >= -1 && i >= 0
    requires forall x, r, seen :: x in xs && !(seen && isDefault(x)) ==> item(enc(x) + r, seen) == Parsed(x, r)
    requires CountDefaults(isDefault, xs) == if defaultIndex == -1 then 1 else 0
    ensures ParseDefaultList(item, isDefault, Concat(Map(enc, xs)) + rest, |xs|, defaultIndex, i) == Parsed(xs, rest)
    decreases |xs|
  {
    if xs != [] {
      var x := xs[0];
      var tail := xs[1..];
      assert x in xs;
      var next := if isDefault(x) then i else defaultIndex;
      DefaultListRoundTrip(item, isDefault, enc, tail, rest, next, i + 1);
      DefaultListHead(item, isDefault, enc, xs, rest, defaultIndex, i);
    } else {
      assert Concat(Map(enc, xs)) + rest == rest;
    }
  }

  /** A non-empty list reads back as itself when its first item and then the rest do. */
  lemma DefaultListHead<T>(item: (seq<Byte>, bool) -> Parsed<T>, isDefault: T -> bool,
                           enc: T -> seq<Byte>, xs: seq<T>, rest: seq<Byte>, defaultIndex: int, i: int)
    requires xs != []
    requires item(enc(xs[0]) + (Concat(Map(enc, xs[1..])) + rest), defaultIndex != -1)
             == Parsed(xs[0], Concat(Map(enc, xs[1..])) + rest)
    requires ParseDefaultList(item, isDefault, Concat(Map(enc, xs[1..])) + rest, |xs| - 1,
                              if isDefault(xs[0]) then i else defaultIndex, i + 1) == Parsed(xs[1..], rest)
    ensures ParseDefaultList(item, isDefault, Concat(Map(enc, xs)) + rest, |xs|, defaultIndex, i) == Parsed(xs, rest)
  {
    var x := xs[0];
    var tail := xs[1..];
    MapCons(enc, xs);
    ConcatCons(enc(x), Map(enc, tail));
    var after := Concat(Map(enc, tail)) + rest;
    AppendAssoc(enc(x), Concat(Map(enc, tail)), rest);
    DefaultListStep(item, isDefault, enc(x) + after, |xs|, defaultIndex, i, x, after);
    assert xs == [x] + tail;
  }

  /** One item read off the front of a list with a default item. */
  lemma DefaultListStep<T>(item: (seq<Byte>, bool) -> Parsed<T>, isDefault: T -> bool,
                           s: seq<Byte>, n: int, defaultIndex: int, i: int, x: T, after: seq<Byte>)
    requires n > 0 && item(s, defaultIndex != -1) == Parsed(x, after)
    ensures ParseDefaultList(item, isDefault, s, n, defaultIndex, i)
         == Prepend([x], ParseDefaultList(item, isDefault, after, n - 1, if isDefault(x) then i else defaultIndex, i + 1))
  {
  }

  /** The presets of a chunk with exactly one default preset read back as themselves. */
  lemma PresetsRoundTrip(ps: seq<MixPresetChunk>, numMixBuses: int, rest: seq<Byte>)
    requires IsInt32(numMixBuses)
    requires forall i :: 0 <= i < |ps| ==> PresetLoadable(ps[i], numMixBuses)
    requires CountDefaults(IsDefaultPreset, ps) == 1
    ensures ParsePresets(Concat(MixPresetParts(ps, numMixBuses)) + rest, |ps|, numMixBuses) == Parsed(ps, rest)
  {
    var enc := (p: MixPresetChunk) => MixPresetBytes(p, numMixBuses);
    assert Map(enc, ps) == MixPresetParts(ps, numMixBuses);
    forall x, r, seen | x in ps && !(seen && IsDefaultPreset(x))
      ensures PresetParser(numMixBuses)(enc(x) + r, seen) == Parsed(x, r)
    {
      PresetRoundTrip(x, numMixBuses, seen, r);
    }
    DefaultListRoundTrip(PresetParser(numMixBuses), IsDefaultPreset, enc, ps, rest, -1, 0);
  }

  // ---------------------------------------------------------------------------------
  // Wave banks

  /** A wave bank the loader accepts and a writer can write back. */
  predicate WaveBankLoadable(b: WaveBankChunk) {
    StringLoadable(b.id) && IsInt32(b.numAudioDataEntries) && WaveBankValid(b) &&
    forall j :: 0 <= j < |b.audioDataEntries| ==> StringLoadable(b.audioDataEntries[j])
  }

  /** Wave bank `b` as the writer evidently means to write it: entry j as its entry j. */
  function WaveBankBytes(b: WaveBankChunk): seq<Byte> {
    ASCIIString(b.id) + Int32BE(b.numAudioDataEntries)
    + Concat(Map(ASCIIString, Prefix(b.audioDataEntries, b.numAudioDataEntries)))
  }

  /** Strings written one after another read back as themselves. */
  lemma StringsRead(xs: seq<string>, rest: seq<Byte>)
    requires forall j :: 0 <= j < |xs| ==> StringLoadable(xs[j])
    ensures ParseList(ReadString, Concat(Map(ASCIIString, xs)) + rest, |xs|) == Parsed(xs, rest)
  {
    forall x, r | x in xs
      ensures ReadString(ASCIIString(x) + r) == Parsed(x, r)
    {
      var j :| 0 <= j < |xs| && xs[j] == x;
      StringRead(x, r);
    }
    ParseListRoundTrip(ReadString, ASCIIString, xs, rest);
  }

  /** A wave bank written with its own entries reads back as itself. */
  lemma WaveBankRoundTrip(b: WaveBankChunk, rest: seq<Byte>)
    requires WaveBankLoadable(b)
    ensures ParseWaveBank(WaveBankBytes(b) + rest) == Parsed(b, rest)
  {
    var entries := Concat(Map(ASCIIString, b.audioDataEntries));
    PrefixAll(b.audioDataEntries, b.numAudioDataEntries);
    AppendAssoc(ASCIIString(b.id) + Int32BE(b.numAudioDataEntries), entries, rest);
    AppendAssoc(ASCIIString(b.id), Int32BE(b.numAudioDataEntries), entries + rest);
    StringRead(b.id, Int32BE(b.numAudioDataEntries) + (entries + rest));
    IntRead(b.numAudioDataEntries, entries + rest);
    StringsRead(b.audioDataEntries, rest);
  }

  /** The entries the loader finds in wave bank `i` as written: its entry `i`, every time. */
  function EntriesAsWritten(b: WaveBankChunk, i: int): (entries: seq<string>)
    ensures |entries| == Count(b.numAudioDataEntries)
  {
    seq(Count(b.numAudioDataEntries), _ => At(b.audioDataEntries, i, []))
  }

  /** Wave bank `i` as written reads back with every entry replaced by its entry `i` (line 533). */
  lemma WaveBankAsWrittenRead(b: WaveBankChunk, i: int, rest: seq<Byte>)
    requires WaveBankLoadable(b)
    requires b.numAudioDataEntries > 0 ==> 0 <= i < |b.audioDataEntries|
    ensures ParseWaveBank(WaveBankBytesAsWritten(b, i) + rest) == Parsed(b.(audioDataEntries := EntriesAsWritten(b, i)), rest)
  {
    var xs := EntriesAsWritten(b, i);
    var entries := Concat(Map(ASCIIString, xs));
    var entry := if 0 <= i < |b.audioDataEntries| then b.audioDataEntries[i] else [];
    assert Map(ASCIIString, xs) == seq(Count(b.numAudioDataEntries), _ => ASCIIString(entry));
    AppendAssoc(ASCIIString(b.id) + Int32BE(b.numAudioDataEntries), entries, rest);
    AppendAssoc(ASCIIString(b.id), Int32BE(b.numAudioDataEntries), entries + rest);
    StringRead(b.id, Int32BE(b.numAudioDataEntries) + (entries + rest));
    IntRead(b.numAudioDataEntries, entries + rest);
    StringsRead(xs, rest);
  }

  /**
   * So a wave bank with two different entries does not read back as itself: with
   * entries "a" and "b", bank 0 reads back with entries "a" and "a".
   */
  lemma WaveBankAsWrittenLosesEntries(b: WaveBankChunk, i: int, j: int, rest: seq<Byte>)
    requires WaveBankLoadable(b)
    requires 0 <= i < |b.audioDataEntries| && 0 <= j < |b.audioDataEntries|
    requires b.audioDataEntries[i] != b.audioDataEntries[j]
    ensures ParseWaveBank(WaveBankBytesAsWritten(b, i) + rest) != Parsed(b, rest)
  {
    WaveBankAsWrittenRead(b, i, rest);
    assert EntriesAsWritten(b, i)[j] != b.audioDataEntries[j];
  }

  // ---------------------------------------------------------------------------------
  // Sounds

  /** A sound the loader accepts and the writer can write back. */
  predicate SoundLoadable(snd: SoundChunk) {
    IsInt32(snd.playbackCount) && IsInt32(snd.deferStop) && IsInt32(snd.playbackMode) &&
    IsInt32(snd.numWaveReferences) && SoundValid(snd) &&
    (forall j :: 0 <= j < |snd.waveBankIndices| ==> IsInt32(snd.waveBankIndices[j])) &&
    (forall j :: 0 <= j < |snd.audioDataIndices| ==> IsInt32(snd.audioDataIndices[j]))
  }

  /** The wave references of a sound, as the loader pairs them. */
  function WaveRefs(snd: SoundChunk): (refs: seq<(int, int)>)
    ensures |refs| == Count(snd.numWaveReferences)
  {
    seq(Count(snd.numWaveReferences), j => (At(snd.waveBankIndices, j, 0), At(snd.audioDataIndices, j, 0)))
  }

  function WaveRefEnc(ref: (int, int)): seq<Byte> {
    Int32BE(ref.0) + Int32BE(ref.1)
  }

  /** A sound's fields before its wave references read back as themselves. */
  lemma SoundHeaderRoundTrip(snd: SoundChunk, rest: seq<Byte>)
    requires SoundLoadable(snd)
    ensures ParseSoundHeader(SoundHeaderBytes(snd) + rest) == Parsed(snd.(waveBankIndices := [], audioDataIndices := []), rest)
  {
    var h1 := Int32BE(snd.playbackCount);
    var h2 := h1 + Int32BE(snd.deferStop);
    var h3 := h2 + Float32(snd.gain);
    var h4 := h3 + Float32(snd.gainVariation);
    var h5 := h4 + Float32(snd.pitch);
    var h6 := h5 + Float32(snd.pitchVariation);
    var h7 := h6 + Int32BE(snd.playbackMode);
    var r7 := Int32BE(snd.numWaveReferences) + rest;
    var r6 := Int32BE(snd.playbackMode) + r7;
    var r5 := Float32(snd.pitchVariation) + r6;
    var r4 := Float32(snd.pitch) + r5;
    var r3 := Float32(snd.gainVariation) + r4;
    var r2 := Float32(snd.gain) + r3;
    var r1 := Int32BE(snd.deferStop) + r2;
    AppendAssoc(h7, Int32BE(snd.numWaveReferences), rest);
    AppendAssoc(h6, Int32BE(snd.playbackMode), r7);
    AppendAssoc(h5, Float32(snd.pitchVariation), r6);
    AppendAssoc(h4, Float32(snd.pitch), r5);
    AppendAssoc(h3, Float32(snd.gainVariation), r4);
    AppendAssoc(h2, Float32(snd.gain), r3);
    AppendAssoc(h1, Int32BE(snd.deferStop), r2);
    IntRead(snd.playbackCount, r1);
    IntRead(snd.deferStop, r2);
    FloatRead(snd.gain, r3);
    FloatRead(snd.gainVariation, r4);
    FloatRead(snd.pitch, r5);
    FloatRead(snd.pitchVariation, r6);
    IntRead(snd.playbackMode, r7);
    IntRead(snd.numWaveReferences, rest);
  }

  /** The wave references as written are the encodings of the sound's wave references. */
  lemma WaveRefPartsAre(snd: SoundChunk)
    ensures Map(WaveRefEnc, WaveRefs(snd)) == WaveRefParts(snd)
  {
    var refs := WaveRefs(snd);
    forall j | 0 <= j < |refs|
      ensures Map(WaveRefEnc, refs)[j] == WaveRefParts(snd)[j]
    {
      assert Map(WaveRefEnc, refs)[j] == WaveRefEnc(refs[j]);
      assert WaveRefParts(snd)[j] == WaveRefBytes(snd, j);
    }
  }

  /** The wave references put back into arrays give the sound's arrays. */
  lemma SoundOfWaveRefs(snd: SoundChunk)
    requires SoundValid(snd)
    ensures SoundOf(snd.(waveBankIndices := [], audioDataIndices := []), WaveRefs(snd)) == snd
  {
    var t := SoundOf(snd.(waveBankIndices := [], audioDataIndices := []), WaveRefs(snd));
    assert t.waveBankIndices == snd.waveBankIndices;
    assert t.audioDataIndices == snd.audioDataIndices;
  }

  /** A wave reference reads back as itself. */
  lemma WaveRefRoundTrip(ref: (int, int), rest: seq<Byte>)
    requires IsInt32(ref.0) && IsInt32(ref.1)
    ensures ParseWaveRef(WaveRefEnc(ref) + rest) == Parsed(ref, rest)
  {
    AppendAssoc(Int32BE(ref.0), Int32BE(ref.1), rest);
    IntRead(ref.0, Int32BE(ref.1) + rest);
    IntRead(ref.1, rest);
  }

  /** A sound's wave references read back as its two index arrays. */
  lemma WaveRefsRoundTrip(snd: SoundChunk, rest: seq<Byte>)
    requires SoundLoadable(snd)
    ensures ParseList(ParseWaveRef, Concat(WaveRefParts(snd)) + rest, snd.numWaveReferences) == Parsed(WaveRefs(snd), rest)
  {
    var refs := WaveRefs(snd);
    WaveRefPartsAre(snd);
    forall x, r | x in refs
      ensures ParseWaveRef(WaveRefEnc(x) + r) == Parsed(x, r)
    {
      var j :| 0 <= j < |refs| && refs[j] == x;
      WaveRefRoundTrip(x, r);
    }
    ParseListRoundTrip(ParseWaveRef, WaveRefEnc, refs, rest);
  }

  /** A sound reads back as itself (lines 595-611 against 862-889). */
  lemma SoundRoundTrip(snd: SoundChunk, rest: seq<Byte>)
    requires SoundLoadable(snd)
    ensures ParseSound(SoundBytes(snd) + rest) == Parsed(snd, rest)
  {
    var refs := Concat(WaveRefParts(snd));
    AppendAssoc(SoundHeaderBytes(snd), refs, rest);
    SoundHeaderRoundTrip(snd, refs + rest);
    WaveRefsRoundTrip(snd, rest);
    SoundOfWaveRefs(snd);
  }

  // ---------------------------------------------------------------------------------
  // Events

  /** An event the loader accepts and a writer can write back. */
  predicate EventLoadable(e: EventChunk, numWaveBanks: int) {
    StringLoadable(e.id) && IsInt32(e.instanceCount) && IsInt32(e.mixBusIndex) && IsInt32(e.isPositional) &&
    IsInt32(e.soundIndex) && IsInt32(e.retriggerMode) && IsInt32(e.waveBankIndex) && IsInt32(e.audioDataIndex) &&
    IsInt32(e.loopIfStreaming) && IsInt32(e.numReferencedWaveBanks) && EventValid(e, numWaveBanks)
  }

  /** An event's fields up to its sound index, in the order the loader reads them. */
  function EventHeaderBytes(e: EventChunk): seq<Byte> {
    ASCIIString(e.id) + Int32BE(e.instanceCount)
    + Float32(e.gain) + Float32(e.pitch)
    + Float32(e.innerConeAngleDeg) + Float32(e.outerConeAngleDeg) + Float32(e.outerConeGain)
    + Int32BE(e.mixBusIndex) + Int32BE(e.isPositional) + Int32BE(e.soundIndex)
  }

  /** An event's playback fields, which follow its sound index. */
  function EventPlaybackBytes(e: EventChunk): seq<Byte> {
    Int32BE(e.retriggerMode) + Int32BE(e.waveBankIndex) + Int32BE(e.audioDataIndex)
    + Int32BE(e.loopIfStreaming) + Int32BE(e.numReferencedWaveBanks)
  }

  /** An event as the writer evidently means to write it: the fields the loader reads, in its order. */
  function EventBytes(e: EventChunk): seq<Byte> {
    EventHeaderBytes(e) + EventPlaybackBytes(e) + Int32s(Prefix(e.waveBankIndices, e.numReferencedWaveBanks))
  }

  /** The event as ParseEventHeader leaves it: the playback fields and indices still 0. */
  function EventHeaderOf(e: EventChunk): EventChunk {
    e.(innerConeGain := 0, retriggerMode := 0, waveBankIndex := 0, audioDataIndex := 0,
       loopIfStreaming := 0, numReferencedWaveBanks := 0, waveBankIndices := [])
  }

  lemma EventHeaderRoundTrip(e: EventChunk, rest: seq<Byte>)
    requires StringLoadable(e.id) && IsInt32(e.instanceCount) && IsInt32(e.mixBusIndex) &&
             IsInt32(e.isPositional) && IsInt32(e.soundIndex) && e.soundIndex >= -1
    ensures ParseEventHeader(EventHeaderBytes(e) + rest) == Parsed(EventHeaderOf(e), rest)
  {
    var h1 := ASCIIString(e.id);
    var h2 := h1 + Int32BE(e.instanceCount);
    var h3 := h2 + Float32(e.gain);
    var h4 := h3 + Float32(e.pitch);
    var h5 := h4 + Float32(e.innerConeAngleDeg);
    var h6 := h5 + Float32(e.outerConeAngleDeg);
    var h7 := h6 + Float32(e.outerConeGain);
    var h8 := h7 + Int32BE(e.mixBusIndex);
    var h9 := h8 + Int32BE(e.isPositional);
    var r9 := Int32BE(e.soundIndex) + rest;
    var r8 := Int32BE(e.isPositional) + r9;
    var r7 := Int32BE(e.mixBusIndex) + r8;
    var r6 := Float32(e.outerConeGain) + r7;
    var r5 := Float32(e.outerConeAngleDeg) + r6;
    var r4 := Float32(e.innerConeAngleDeg) + r5;
    var r3 := Float32(e.pitch) + r4;
    var r2 := Float32(e.gain) + r3;
    var r1 := Int32BE(e.instanceCount) + r2;
    AppendAssoc(h9, Int32BE(e.soundIndex), rest);
    AppendAssoc(h8, Int32BE(e.isPositional), r9);
    AppendAssoc(h7, Int32BE(e.mixBusIndex), r8);
    AppendAssoc(h6, Float32(e.outerConeGain), r7);
    AppendAssoc(h5, Float32(e.outerConeAngleDeg), r6);
    AppendAssoc(h4, Float32(e.innerConeAngleDeg), r5);
    AppendAssoc(h3, Float32(e.pitch), r4);
    AppendAssoc(h2, Float32(e.gain), r3);
    AppendAssoc(h1, Int32BE(e.instanceCount), r2);
    StringRead(e.id, r1);
    IntRead(e.instanceCount, r2);
    FloatRead(e.gain, r3);
    FloatRead(e.pitch, r4);
    FloatRead(e.innerConeAngleDeg, r5);
    FloatRead(e.outerConeAngleDeg, r6);
    FloatRead(e.outerConeGain, r7);
    IntRead(e.mixBusIndex, r8);
    IntRead(e.isPositional, r9);
    IntRead(e.soundIndex, rest);
  }

  lemma EventPlaybackRoundTrip(h: EventChunk, e: EventChunk, rest: seq<Byte>)
    requires IsInt32(e.retriggerMode) && IsInt32(e.waveBankIndex) && IsInt32(e.audioDataIndex) &&
             IsInt32(e.loopIfStreaming) && IsInt32(e.numReferencedWaveBanks)
    ensures ParseEventPlayback(EventPlaybackBytes(e) + rest, h)
            == Parsed(h.(retriggerMode := e.retriggerMode, waveBankIndex := e.waveBankIndex,
                         audioDataIndex := e.audioDataIndex, loopIfStreaming := e.loopIfStreaming,
                         numReferencedWaveBanks := e.numReferencedWaveBanks), rest)
  {
    var h1 := Int32BE(e.retriggerMode);
    var h2 := h1 + Int32BE(e.waveBankIndex);
    var h3 := h2 + Int32BE(e.audioDataIndex);
    var h4 := h3 + Int32BE(e.loopIfStreaming);
    var r4 := Int32BE(e.numReferencedWaveBanks) + rest;
    var r3 := Int32BE(e.loopIfStreaming) + r4;
    var r2 := Int32BE(e.audioDataIndex) + r3;
    var r1 := Int32BE(e.waveBankIndex) + r2;
    AppendAssoc(h4, Int32BE(e.numReferencedWaveBanks), rest);
    AppendAssoc(h3, Int32BE(e.loopIfStreaming), r4);
    AppendAssoc(h2, Int32BE(e.audioDataIndex), r3);
    AppendAssoc(h1, Int32BE(e.waveBankIndex), r2);
    IntRead(e.retriggerMode, r1);
    IntRead(e.waveBankIndex, r2);
    IntRead(e.audioDataIndex, r3);
    IntRead(e.loopIfStreaming, r4);
    IntRead(e.numReferencedWaveBanks, rest);
  }

  /** An event written in the loader's order reads back as itself. */
  lemma EventRoundTrip(e: EventChunk, numWaveBanks: int, rest: seq<Byte>)
    requires IsInt32(numWaveBanks) && EventLoadable(e, numWaveBanks)
    ensures ParseEvent(EventBytes(e) + rest, numWaveBanks) == Parsed(e, rest)
  {
    var idx := Int32s(e.waveBankIndices);
    PrefixAll(e.waveBankIndices, e.numReferencedWaveBanks);
    AppendAssoc(EventHeaderBytes(e) + EventPlaybackBytes(e), idx, rest);
    AppendAssoc(EventHeaderBytes(e), EventPlaybackBytes(e), idx + rest);
    EventHeaderRoundTrip(e, EventPlaybackBytes(e) + (idx + rest));
    EventPlaybackRoundTrip(EventHeaderOf(e), e, idx + rest);
    IndicesRead(e.waveBankIndices, numWaveBanks, rest);
  }

  /**
   * The event the loader finds where the writer wrote `e`: from innerConeGain on,
   * each field it reads up to soundIndex holds the field written before it.
   */
  function EventAsLoaded(e: EventChunk): EventChunk {
    e.(innerConeGain := 0, outerConeAngleDeg := e.innerConeGain, outerConeGain := e.outerConeAngleDeg,
       mixBusIndex := Signed32(e.outerConeGain), isPositional := e.mixBusIndex, soundIndex := e.isPositional)
  }

  /** The event as written (lines 627-645) is the loader's layout of a shifted event. */
  lemma EventAsWrittenIsShifted(e: EventChunk)
    ensures EventBytesAsWritten(e) == EventBytes(EventAsLoaded(e))
  {
  }

  /** So an event as written reads back shifted: its isPositional becomes the sound index. */
  lemma EventAsWrittenRead(e: EventChunk, numWaveBanks: int, rest: seq<Byte>)
    requires IsInt32(numWaveBanks) && EventLoadable(e, numWaveBanks) && e.isPositional >= -1
    ensures ParseEvent(EventBytesAsWritten(e) + rest, numWaveBanks) == Parsed(EventAsLoaded(e), rest)
  {
    EventAsWrittenIsShifted(e);
    EventRoundTrip(EventAsLoaded(e), numWaveBanks, rest);
  }

  /**
   * An event whose sound index is not its isPositional flag (0 or 1 in the tools) does
   * not read back as itself.
   */
  lemma EventAsWrittenLosesSoundIndex(e: EventChunk, numWaveBanks: int, rest: seq<Byte>)
    requires IsInt32(numWaveBanks) && EventLoadable(e, numWaveBanks)
    requires e.isPositional >= -1 && e.soundIndex != e.isPositional
    ensures ParseEvent(EventBytesAsWritten(e) + rest, numWaveBanks) != Parsed(e, rest)
  {
    EventAsWrittenRead(e, numWaveBanks, rest);
  }

  // ---------------------------------------------------------------------------------
  // Chunks

  /** Items that each read back as themselves, counted by `n`, read back as a list. */
  lemma ListRoundTrip<T>(item: seq<Byte> -> Parsed<T>, enc: T -> seq<Byte>, xs: seq<T>, n: int, rest: seq<Byte>)
    requires |xs| == Count(n)
    requires forall x, r :: x in xs ==> item(enc(x) + r) == Parsed(x, r)
    ensures ParseList(item, Concat(Map(enc, xs)) + rest, n) == Parsed(xs, rest)
  {
    ParseListRoundTrip(item, enc, xs, rest);
  }

  /** The wave bank chunk body as the writer evidently means it: bank i with its own entries. */
  function WaveBankChunkBytes(wbc: WaveBankDataChunk): seq<Byte> {
    Int32BE(wbc.numAudioDataItemsTotal) + Int32BE(wbc.numWaveBanks)
    + Concat(Map(WaveBankBytes, Prefix(wbc.waveBanks, wbc.numWaveBanks)))
  }

  /** The event chunk body as the writer evidently means it: each event in the loader's order. */
  function EventChunkBytes(edc: EventDataChunk): seq<Byte> {
    Int32BE(edc.numEventDefinitions) + Concat(Map(EventBytes, Prefix(edc.eventDefinitions, edc.numEventDefinitions)))
  }

  /** A chunk size the loader reads back: the length of the body, an int32. */
  predicate SizeLoadable(size: int, body: seq<Byte>) {
    size == |body| && |body| < 0x8000_0000
  }

  predicate MixBusChunkLoadable(fmt: Format, mbc: MixBusDataChunk) {
    mbc.chunkId == fmt.mixBusesChunkId && SizeLoadable(mbc.chunkSize, MixBusChunkBytes(mbc)) &&
    IsInt32(mbc.numMixBuses) && |mbc.mixBuses| == Count(mbc.numMixBuses) &&
    forall i :: 0 <= i < |mbc.mixBuses| ==> MixBusLoadable(mbc.mixBuses[i], mbc.numMixBuses)
  }

  predicate MixPresetChunkLoadable(fmt: Format, mpc: MixPresetDataChunk, numMixBuses: int) {
    mpc.chunkId == fmt.mixPresetsChunkId && SizeLoadable(mpc.chunkSize, MixPresetChunkBytes(mpc, numMixBuses)) &&
    IsInt32(mpc.numMixPresets) && |mpc.mixPresets| == Count(mpc.numMixPresets) &&
    CountDefaults(IsDefaultPreset, mpc.mixPresets) == 1 &&
    forall i :: 0 <= i < |mpc.mixPresets| ==> PresetLoadable(mpc.mixPresets[i], numMixBuses)
  }

  predicate WaveBankChunkLoadable(fmt: Format, wbc: WaveBankDataChunk) {
    wbc.chunkId == fmt.waveBanksChunkId && SizeLoadable(wbc.chunkSize, WaveBankChunkBytes(wbc)) &&
    IsInt32(wbc.numAudioDataItemsTotal) && wbc.numAudioDataItemsTotal >= 0 &&
    IsInt32(wbc.numWaveBanks) && wbc.numWaveBanks >= 0 && |wbc.waveBanks| == wbc.numWaveBanks &&
    forall i :: 0 <= i < |wbc.waveBanks| ==> WaveBankLoadable(wbc.waveBanks[i])
  }

  predicate SoundChunkLoadable(fmt: Format, sdc: SoundDataChunk) {
    sdc.chunkId == fmt.soundsChunkId && SizeLoadable(sdc.chunkSize, SoundChunkBytes(sdc)) &&
    IsInt32(sdc.numSoundDefinitions) && |sdc.soundDefinitions| == Count(sdc.numSoundDefinitions) &&
    forall i :: 0 <= i < |sdc.soundDefinitions| ==> SoundLoadable(sdc.soundDefinitions[i])
  }

  predicate EventChunkLoadable(fmt: Format, edc: EventDataChunk, numWaveBanks: int) {
    edc.chunkId == fmt.eventsChunkId && SizeLoadable(edc.chunkSize, EventChunkBytes(edc)) &&
    IsInt32(edc.numEventDefinitions) && edc.numEventDefinitions > 0 &&
    |edc.eventDefinitions| == edc.numEventDefinitions &&
    forall i :: 0 <= i < |edc.eventDefinitions| ==> EventLoadable(edc.eventDefinitions[i], numWaveBanks)
  }

  /** A chunk's mix buses read back as themselves. */
  lemma MixBusesRoundTrip(xs: seq<MixBusChunk>, n: int, rest: seq<Byte>)
    requires IsInt32(n) && |xs| == Count(n) && forall i :: 0 <= i < |xs| ==> MixBusLoadable(xs[i], n)
    ensures ParseList(MixBusParser(n), Concat(Map(MixBusBytes, xs)) + rest, n) == Parsed(xs, rest)
  {
    forall x, r | x in xs
      ensures MixBusParser(n)(MixBusBytes(x) + r) == Parsed(x, r)
    {
      var i :| 0 <= i < |xs| && xs[i] == x;
      MixBusRoundTrip(x, n, r);
    }
    ListRoundTrip(MixBusParser(n), MixBusBytes, xs, n, rest);
  }

  lemma MixBusChunkRoundTrip(fmt: Format, chunks: seq<Byte>, mbc: MixBusDataChunk, tail: seq<Byte>)
    requires MixBusChunkLoadable(fmt, mbc)
    requires FindChunk(chunks, fmt.mixBusesChunkId) == Parsed(mbc.chunkSize, MixBusChunkBytes(mbc) + tail)
    ensures ParseMixBusChunk(fmt, chunks) == Parsed(mbc, tail)
  {
    var n := mbc.numMixBuses;
    var buses := Concat(Map(MixBusBytes, mbc.mixBuses));
    PrefixAll(mbc.mixBuses, n);
    AppendAssoc(Int32BE(n), buses, tail);
    IntRead(n, buses + tail);
    MixBusesRoundTrip(mbc.mixBuses, n, tail);
  }

  lemma MixPresetChunkRoundTrip(fmt: Format, chunks: seq<Byte>, mpc: MixPresetDataChunk, numMixBuses: int, tail: seq<Byte>)
    requires IsInt32(numMixBuses) && MixPresetChunkLoadable(fmt, mpc, numMixBuses)
    requires FindChunk(chunks, fmt.mixPresetsChunkId) == Parsed(mpc.chunkSize, MixPresetChunkBytes(mpc, numMixBuses) + tail)
    ensures ParseMixPresetChunk(fmt, chunks, numMixBuses) == Parsed(mpc, tail)
  {
    var n := mpc.numMixPresets;
    var presets := Concat(MixPresetParts(mpc.mixPresets, numMixBuses));
    PrefixAll(mpc.mixPresets, n);
    AppendAssoc(Int32BE(n), presets, tail);
    IntRead(n, presets + tail);
    PresetsRoundTrip(mpc.mixPresets, numMixBuses, tail);
  }

  /** A chunk's wave banks, each written with its own entries, read back as themselves. */
  lemma WaveBanksRoundTrip(xs: seq<WaveBankChunk>, n: int, rest: seq<Byte>)
    requires n >= 0 && |xs| == n && forall i :: 0 <= i < |xs| ==> WaveBankLoadable(xs[i])
    ensures ParseList(ParseWaveBank, Concat(Map(WaveBankBytes, xs)) + rest, n) == Parsed(xs, rest)
  {
    forall x, r | x in xs
      ensures ParseWaveBank(WaveBankBytes(x) + r) == Parsed(x, r)
    {
      var i :| 0 <= i < |xs| && xs[i] == x;
      WaveBankRoundTrip(x, r);
    }
    ListRoundTrip(ParseWaveBank, WaveBankBytes, xs, n, rest);
  }

  lemma WaveBankChunkRoundTrip(fmt: Format, chunks: seq<Byte>, wbc: WaveBankDataChunk, tail: seq<Byte>)
    requires WaveBankChunkLoadable(fmt, wbc)
    requires FindChunk(chunks, fmt.waveBanksChunkId) == Parsed(wbc.chunkSize, WaveBankChunkBytes(wbc) + tail)
    ensures ParseWaveBankChunk(fmt, chunks) == Parsed(wbc, tail)
  {
    var n := wbc.numWaveBanks;
    var banks := Concat(Map(WaveBankBytes, wbc.waveBanks));
    PrefixAll(wbc.waveBanks, n);
    AppendAssoc(Int32BE(wbc.numAudioDataItemsTotal) + Int32BE(n), banks, tail);
    AppendAssoc(Int32BE(wbc.numAudioDataItemsTotal), Int32BE(n), banks + tail);
    IntRead(wbc.numAudioDataItemsTotal, Int32BE(n) + (banks + tail));
    IntRead(n, banks + tail);
    WaveBanksRoundTrip(wbc.waveBanks, n, tail);
  }

  /** A chunk's sounds read back as themselves. */
  lemma SoundsRoundTrip(xs: seq<SoundChunk>, n: int, rest: seq<Byte>)
    requires |xs| == Count(n) && forall i :: 0 <= i < |xs| ==> SoundLoadable(xs[i])
    ensures ParseList(ParseSound, Concat(Map(SoundBytes, xs)) + rest, n) == Parsed(xs, rest)
  {
    forall x, r | x in xs
      ensures ParseSound(SoundBytes(x) + r) == Parsed(x, r)
    {
      var i :| 0 <= i < |xs| && xs[i] == x;
      SoundRoundTrip(x, r);
    }
    ListRoundTrip(ParseSound, SoundBytes, xs, n, rest);
  }

  lemma SoundChunkRoundTrip(fmt: Format, chunks: seq<Byte>, sdc: SoundDataChunk, tail: seq<Byte>)
    requires SoundChunkLoadable(fmt, sdc)
    requires FindChunk(chunks, fmt.soundsChunkId) == Parsed(sdc.chunkSize, SoundChunkBytes(sdc) + tail)
    ensures ParseSoundChunk(fmt, chunks) == Parsed(sdc, tail)
  {
    var n := sdc.numSoundDefinitions;
    var sounds := Concat(Map(SoundBytes, sdc.soundDefinitions));
    PrefixAll(sdc.soundDefinitions, n);
    AppendAssoc(Int32BE(n), sounds, tail);
    IntRead(n, sounds + tail);
    SoundsRoundTrip(sdc.soundDefinitions, n, tail);
  }

  /** A chunk's events, each written in the loader's order, read back as themselves. */
  lemma EventsRoundTrip(xs: seq<EventChunk>, n: int, numWaveBanks: int, rest: seq<Byte>)
    requires IsInt32(numWaveBanks) && |xs| == Count(n) && forall i :: 0 <= i < |xs| ==> EventLoadable(xs[i], numWaveBanks)
    ensures ParseList(EventParser(numWaveBanks), Concat(Map(EventBytes, xs)) + rest, n) == Parsed(xs, rest)
  {
    forall x, r | x in xs
      ensures EventParser(numWaveBanks)(EventBytes(x) + r) == Parsed(x, r)
    {
      var i :| 0 <= i < |xs| && xs[i] == x;
      EventRoundTrip(x, numWaveBanks, r);
    }
    ListRoundTrip(EventParser(numWaveBanks), EventBytes, xs, n, rest);
  }

  lemma EventChunkRoundTrip(fmt: Format, chunks: seq<Byte>, edc: EventDataChunk, numWaveBanks: int, tail: seq<Byte>)
    requires IsInt32(numWaveBanks) && EventChunkLoadable(fmt, edc, numWaveBanks)
    requires FindChunk(chunks, fmt.eventsChunkId) == Parsed(edc.chunkSize, EventChunkBytes(edc) + tail)
    ensures ParseEventChunk(fmt, chunks, numWaveBanks) == Parsed(edc, tail)
  {
    var n := edc.numEventDefinitions;
    var events := Concat(Map(EventBytes, edc.eventDefinitions));
    PrefixAll(edc.eventDefinitions, n);
    AppendAssoc(Int32BE(n), events, tail);
    IntRead(n, events + tail);
    EventsRoundTrip(edc.eventDefinitions, n, numWaveBanks, tail);
  }

  // ---------------------------------------------------------------------------------
  // The file

  /** The chunk bodies in the order the writer emits them, with the two bodies corrected. */
  function ChunkBodies(bin: EngineDataBinary): seq<seq<Byte>> {
    [WaveBankChunkBytes(bin.waveBankChunk),
     MixBusChunkBytes(bin.mixBusChunk),
     MixPresetChunkBytes(bin.mixPresetChunk, bin.mixBusChunk.numMixBuses),
     SoundChunkBytes(bin.soundChunk),
     EventChunkBytes(bin.eventChunk)]
  }

  /** The chunks of the file: each id, its body's length and its body. */
  function Chunks(ids: seq<int>, bodies: seq<seq<Byte>>): seq<seq<Byte>>
    requires |ids| == |bodies|
  {
    PatchedChunks(ids, bodies, |ids|)
  }

  /** The file the writer evidently means to write: as written, with the corrected bodies. */
  function EngineDataFile(fmt: Format, bin: EngineDataBinary): seq<Byte> {
    bin.fileIdentifier + Concat(Chunks(ChunkIds(fmt), ChunkBodies(bin)))
  }

  /**
   * The file as written and the file evidently meant differ only where the wave bank
   * body or the event body does: with those two bodies equal, the files are equal.
   */
  lemma AsWrittenDiffersOnlyInTwoBodies(fmt: Format, bin: EngineDataBinary)
    requires WaveBankChunkBytesAsWritten(bin.waveBankChunk) == WaveBankChunkBytes(bin.waveBankChunk)
    requires EventChunkBytesAsWritten(bin.eventChunk) == EventChunkBytes(bin.eventChunk)
    ensures EngineDataFileAsWritten(fmt, bin) == EngineDataFile(fmt, bin)
  {
    assert ChunkBodiesAsWritten(bin) == ChunkBodies(bin);
  }

  /** The chunks from number `j` on, searched for the id of chunk `k`, give chunk `k`'s body and what follows it. */
  lemma {:induction false} FindChunkFrom(ids: seq<int>, bodies: seq<seq<Byte>>, j: nat, k: nat)
    requires |ids| == |bodies| && j <= k < |ids|
    requires forall m :: 0 <= m < |ids| ==> IsInt32(ids[m]) && |bodies[m]| < 0x8000_0000
    requires forall m :: j <= m < k ==> ids[m] != ids[k]
    ensures FindChunk(Concat(Chunks(ids, bodies)[j..]), ids[k])
            == Parsed(|bodies[k]|, bodies[k] + Concat(Chunks(ids, bodies)[k + 1..]))
    decreases k - j
  {
    var parts := Chunks(ids, bodies);
    var later := Concat(parts[j + 1..]);
    assert parts[j..] == [parts[j]] + parts[j + 1..];
    ConcatCons(parts[j], parts[j + 1..]);
    AppendAssoc(Int32BE(ids[j]) + Int32BE(|bodies[j]|), bodies[j], later);
    AppendAssoc(Int32BE(ids[j]), Int32BE(|bodies[j]|), bodies[j] + later);
    IntRead(ids[j], Int32BE(|bodies[j]|) + (bodies[j] + later));
    IntRead(|bodies[j]|, bodies[j] + later);
    if j < k {
      assert (bodies[j] + later)[|bodies[j]|..] == later;
      FindChunkFrom(ids, bodies, j + 1, k);
    }
  }

  /** What the loader needs of a format and a struct to read back the struct from its file. */
  predicate Loadable(fmt: Format, bin: EngineDataBinary) {
    ValidFormat(fmt) && bin.fileIdentifier == fmt.identifier &&
    IsInt32(bin.mixBusChunk.numMixBuses) && IsInt32(bin.waveBankChunk.numWaveBanks) &&
    MixBusChunkLoadable(fmt, bin.mixBusChunk) &&
    MixPresetChunkLoadable(fmt, bin.mixPresetChunk, bin.mixBusChunk.numMixBuses) &&
    WaveBankChunkLoadable(fmt, bin.waveBankChunk) &&
    SoundChunkLoadable(fmt, bin.soundChunk) &&
    EventChunkLoadable(fmt, bin.eventChunk, bin.waveBankChunk.numWaveBanks)
  }

  /** The chunks of the file of `bin`, after its identifier. */
  function ChunksOf(fmt: Format, bin: EngineDataBinary): seq<Byte> {
    Concat(Chunks(ChunkIds(fmt), ChunkBodies(bin)))
  }

  /** The chunks after chunk `k`. */
  function ChunksAfter(fmt: Format, bin: EngineDataBinary, k: nat): seq<Byte>
    requires k < 5
  {
    Concat(Chunks(ChunkIds(fmt), ChunkBodies(bin))[k + 1..])
  }

  /** Each chunk of the file is found by its id. */
  lemma FindEachChunk(fmt: Format, bin: EngineDataBinary, k: nat)
    requires Loadable(fmt, bin) && k < 5
    ensures FindChunk(ChunksOf(fmt, bin), ChunkIds(fmt)[k]) == Parsed(|ChunkBodies(bin)[k]|, ChunkBodies(bin)[k] + ChunksAfter(fmt, bin, k))
  {
    var parts := Chunks(ChunkIds(fmt), ChunkBodies(bin));
    assert parts[0..] == parts;
    ChunksFit(fmt, bin);
    FindChunkFrom(ChunkIds(fmt), ChunkBodies(bin), 0, k);
  }

  /** The chunk ids are distinct int32s and every body's length fits a size field. */
  lemma ChunksFit(fmt: Format, bin: EngineDataBinary)
    requires ValidFormat(fmt)
    requires SizeLoadable(bin.waveBankChunk.chunkSize, WaveBankChunkBytes(bin.waveBankChunk))
    requires SizeLoadable(bin.mixBusChunk.chunkSize, MixBusChunkBytes(bin.mixBusChunk))
    requires SizeLoadable(bin.mixPresetChunk.chunkSize, MixPresetChunkBytes(bin.mixPresetChunk, bin.mixBusChunk.numMixBuses))
    requires SizeLoadable(bin.soundChunk.chunkSize, SoundChunkBytes(bin.soundChunk))
    requires SizeLoadable(bin.eventChunk.chunkSize, EventChunkBytes(bin.eventChunk))
    ensures forall m :: 0 <= m < 5 ==> IsInt32(ChunkIds(fmt)[m]) && |ChunkBodies(bin)[m]| < 0x8000_0000
    ensures forall m, k :: 0 <= m < k < 5 ==> ChunkIds(fmt)[m] != ChunkIds(fmt)[k]
  {
  }

  lemma MixBusChunkInFile(fmt: Format, bin: EngineDataBinary)
    requires Loadable(fmt, bin)
    ensures ParseMixBusChunk(fmt, ChunksOf(fmt, bin)) == Parsed(bin.mixBusChunk, ChunksAfter(fmt, bin, 1))
  {
    FindEachChunk(fmt, bin, 1);
    MixBusChunkRoundTrip(fmt, ChunksOf(fmt, bin), bin.mixBusChunk, ChunksAfter(fmt, bin, 1));
  }

  lemma MixPresetChunkInFile(fmt: Format, bin: EngineDataBinary)
    requires Loadable(fmt, bin)
    ensures ParseMixPresetChunk(fmt, ChunksOf(fmt, bin), bin.mixBusChunk.numMixBuses) == Parsed(bin.mixPresetChunk, ChunksAfter(fmt, bin, 2))
  {
    FindEachChunk(fmt, bin, 2);
    MixPresetChunkRoundTrip(fmt, ChunksOf(fmt, bin), bin.mixPresetChunk, bin.mixBusChunk.numMixBuses, ChunksAfter(fmt, bin, 2));
  }

  lemma WaveBankChunkInFile(fmt: Format, bin: EngineDataBinary)
    requires Loadable(fmt, bin)
    ensures ParseWaveBankChunk(fmt, ChunksOf(fmt, bin)) == Parsed(bin.waveBankChunk, ChunksAfter(fmt, bin, 0))
  {
    FindEachChunk(fmt, bin, 0);
    WaveBankChunkRoundTrip(fmt, ChunksOf(fmt, bin), bin.waveBankChunk, ChunksAfter(fmt, bin, 0));
  }

  lemma SoundChunkInFile(fmt: Format, bin: EngineDataBinary)
    requires Loadable(fmt, bin)
    ensures ParseSoundChunk(fmt, ChunksOf(fmt, bin)) == Parsed(bin.soundChunk, ChunksAfter(fmt, bin, 3))
  {
    FindEachChunk(fmt, bin, 3);
    SoundChunkRoundTrip(fmt, ChunksOf(fmt, bin), bin.soundChunk, ChunksAfter(fmt, bin, 3));
  }

  lemma EventChunkInFile(fmt: Format, bin: EngineDataBinary)
    requires Loadable(fmt, bin)
    ensures ParseEventChunk(fmt, ChunksOf(fmt, bin), bin.waveBankChunk.numWaveBanks) == Parsed(bin.eventChunk, [])
  {
    FindEachChunk(fmt, bin, 4);
    assert Chunks(ChunkIds(fmt), ChunkBodies(bin))[5..] == [];
    assert ChunkBodies(bin)[4] + [] == ChunkBodies(bin)[4];
    EventChunkRoundTrip(fmt, ChunksOf(fmt, bin), bin.eventChunk, bin.waveBankChunk.numWaveBanks, []);
  }

  /** The identifier at the front of a file matches in full. */
  lemma {:induction false} MatchingPrefixOfPrefix(e: seq<Byte>, x: seq<Byte>)
    ensures MatchingPrefix(e, e + x) == |e|
    decreases |e|
  {
    if e != [] {
      assert (e + x)[1..] == e[1..] + x;
      MatchingPrefixOfPrefix(e[1..], x);
    }
  }

  /** The chunks of the file read back as the struct's chunks. */
  lemma ChunksRoundTrip(fmt: Format, bin: EngineDataBinary)
    requires Loadable(fmt, bin)
    ensures ParseChunks(fmt, ChunksOf(fmt, bin)) == Parsed(bin, [])
  {
    MixBusChunkInFile(fmt, bin);
    MixPresetChunkInFile(fmt, bin);
    WaveBankChunkInFile(fmt, bin);
    SoundChunkInFile(fmt, bin);
    EventChunkInFile(fmt, bin);
  }

  /**
   * A struct the loader accepts, written with the corrected bodies, loads back as
   * itself: the file the writer evidently means is read by the loader as written.
   */
  lemma LoadRoundTrip(fmt: Format, bin: EngineDataBinary)
    requires Loadable(fmt, bin)
    ensures LoadEngineData(fmt, Some(EngineDataFile(fmt, bin))) == LoadResult(DataIsValid, bin)
  {
    var f := EngineDataFile(fmt, bin);
    var chunks := ChunksOf(fmt, bin);
    MatchingPrefixOfPrefix(fmt.identifier, chunks);
    assert f[|fmt.identifier|..] == chunks;
    ChunksRoundTrip(fmt, bin);
  }
}
