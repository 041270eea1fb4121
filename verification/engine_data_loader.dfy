/**
 * kwlEngineDataBinary_loadFromBinaryFile (src/tools/kwl_enginedatabinary.c, lines
 * 665-980): checks the file identifier, then finds each chunk by its id and reads
 * it, checking counts and indices as it goes.
 *
 * The reading is specified by functions over the bytes that are left to read
 * (ParseMixBus, ParsePresets, LoadEngineData, ...), and done by methods with the
 * loader's loops (ReadMixBuses, ReadMixPresets, LoadFromBinaryFile, ...), each
 * proved to give what its function gives. kwl_inputstream.c is not part of this
 * model: kwlInputStream_seekToEngineDataChunk is taken to scan the chunks from the
 * first one, and a read past the end of the file, or a chunk that is not there,
 * ends the load with StreamError.
 */
module EngineDataLoader {
  import opened Wrappers
  import opened FileOutputStream
  import opened InputStream
  import opened ResultCodes
  import opened BinaryCodec
  import opened EngineData

  // ---------------------------------------------------------------------------------
  // Reads

  /** readIntBE. */
  function ReadInt(s: seq<Byte>): (r: Parsed<int>)
    ensures r.Failed? <==> |s| < 4
    ensures r.Failed? ==> r.code == StreamError
    ensures r.Parsed? ==> IsInt32(r.value) && r.rest == s[4..]
  {
    match ReadIntBE(s)
    case None => Failed(StreamError)
    case Some((v, rest)) => Parsed(v, rest)
  }

  /** The int read is the one whose four bytes start the input. */
  lemma ReadIntBytes(s: seq<Byte>)
    requires |s| >= 4
    ensures Int32BE(ReadInt(s).value) + ReadInt(s).rest == s
  {
    assert s == s[..4] + s[4..];
  }

  /** readFloatBE, as a bit pattern. */
  function ReadFloat(s: seq<Byte>): (r: Parsed<Bits32>)
    ensures r.Failed? <==> |s| < 4
    ensures r.Failed? ==> r.code == StreamError
    ensures r.Parsed? ==> r.rest == s[4..]
  {
    match ReadFloatBE(s)
    case None => Failed(StreamError)
    case Some((v, rest)) => Parsed(v, rest)
  }

  /** readASCIIString. */
  function ReadString(s: seq<Byte>): (r: Parsed<string>)
    ensures r.Parsed? ==> |r.rest| < |s|
  {
    match ReadASCIIString(s)
    case None => Failed(StreamError)
    case Some((str, rest)) => Parsed(str, rest)
  }

  /**
   * An index read from the file that must lie in [0, bound): sub-bus indices
   * (lines 723-729), preset bus indices (776-783), event wave bank indices (960-968).
   */
  function ParseIndex(s: seq<Byte>, bound: int): (r: Parsed<int>)
    ensures r.Parsed? ==> 0 <= r.value < bound && r == ReadInt(s)
    ensures |s| >= 4 && r.Failed? ==> r.code == EngineDataStructureError
    ensures |s| >= 4 && IsInt32(bound) && 0 <= ReadInt(s).value < bound ==> r.Parsed?
  {
    var v :- ReadInt(s);
    if v.value < 0 || v.value >= bound then Failed(EngineDataStructureError) else v
  }

  function IndexParser(bound: int): seq<Byte> -> Parsed<int> {
    s => ParseIndex(s, bound)
  }

  // ---------------------------------------------------------------------------------
  // Items

  /** A mix bus (lines 712-733): id, sub-bus count, then that many checked sub-bus indices. */
  function ParseMixBus(s: seq<Byte>, numMixBuses: int): (r: Parsed<MixBusChunk>)
  {
    var id :- ReadString(s);
    var n :- ReadInt(id.rest);
    var idx :- ParseList(IndexParser(numMixBuses), n.rest, n.value);
    Parsed(MixBusChunk(id.value, n.value, idx.value), idx.rest)
  }

  function MixBusParser(numMixBuses: int): seq<Byte> -> Parsed<MixBusChunk> {
    s => ParseMixBus(s, numMixBuses)
  }

  /** One parameter set of a preset, in the order the loader reads it. */
  datatype ParamSet = ParamSet(mixBusIndex: int, gainLeft: Bits32, gainRight: Bits32, pitch: Bits32)

  /** A parameter set (lines 774-787): a checked bus index, then left gain, right gain and pitch. */
  function ParseParamSet(s: seq<Byte>, numMixBuses: int): (r: Parsed<ParamSet>)
  {
    var idx :- ParseIndex(s, numMixBuses);
    var gl :- ReadFloat(idx.rest);
    var gr :- ReadFloat(gl.rest);
    var p :- ReadFloat(gr.rest);
    Parsed(ParamSet(idx.value, gl.value, gr.value, p.value), p.rest)
  }

  function ParamSetParser(numMixBuses: int): seq<Byte> -> Parsed<ParamSet> {
    s => ParseParamSet(s, numMixBuses)
  }

  /** A preset whose parameter set j fills entry j of its four arrays. */
  function PresetOf(id: string, isDefault: int, sets: seq<ParamSet>): (p: MixPresetChunk)
    ensures |p.mixBusIndices| == |p.gainLeft| == |p.gainRight| == |p.pitch| == |sets|
    ensures forall j :: 0 <= j < |sets| ==>
              sets[j] == ParamSet(p.mixBusIndices[j], p.gainLeft[j], p.gainRight[j], p.pitch[j])
  {
    MixPresetChunk(id, isDefault,
      seq(|sets|, j requires 0 <= j < |sets| => sets[j].gainLeft),
      seq(|sets|, j requires 0 <= j < |sets| => sets[j].gainRight),
      seq(|sets|, j requires 0 <= j < |sets| => sets[j].pitch),
      seq(|sets|, j requires 0 <= j < |sets| => sets[j].mixBusIndex))
  }

  /**
   * A preset (lines 752-788) when a default one has been `seen` already: a second
   * default is an error, caught before the parameter sets are read.
   */
  function ParsePreset(s: seq<Byte>, numMixBuses: int, seen: bool): (r: Parsed<MixPresetChunk>)
    ensures r.Parsed? && seen ==> r.value.isDefault == 0
    ensures seen && ReadString(s).Parsed? && |ReadString(s).rest| >= 4 && ReadInt(ReadString(s).rest).value != 0 ==>
              r == Failed(EngineDataStructureError)
  {
    var id :- ReadString(s);
    var isDefault :- ReadInt(id.rest);
    if isDefault.value != 0 && seen then Failed(EngineDataStructureError)
    else
      var sets :- ParseList(ParamSetParser(numMixBuses), isDefault.rest, numMixBuses);
      Parsed(PresetOf(id.value, isDefault.value, sets.value), sets.rest)
  }

  function PresetParser(numMixBuses: int): (seq<Byte>, bool) -> Parsed<MixPresetChunk> {
    (s, seen) => ParsePreset(s, numMixBuses, seen)
  }

  /** The preset flag the loader tests (line 757). */
  function IsDefaultPreset(p: MixPresetChunk): bool {
    p.isDefault != 0
  }

  /**
   * The shape of the preset loop (lines 748-795): items from number `i` on, `n` of
   * them, each read knowing whether a default item was met before; `defaultIndex`
   * is the index of that item (-1 for none). After the loop, a list without a
   * default item is an error.
   */
  function ParseDefaultList<T>(item: (seq<Byte>, bool) -> Parsed<T>, isDefault: T -> bool,
                               s: seq<Byte>, n: int, defaultIndex: int, i: int): (r: Parsed<seq<T>>)
    ensures r.Parsed? ==> |r.value| == Count(n)
    decreases n
  {
    if n <= 0 then
      if defaultIndex < 0 then Failed(EngineDataStructureError) else Parsed([], s)
    else
      match item(s, defaultIndex != -1)
      case Failed(c) => Failed(c)
      case Parsed(x, rest) =>
        Prepend([x], ParseDefaultList(item, isDefault, rest, n - 1, if isDefault(x) then i else defaultIndex, i + 1))
  }

  /** The `n` presets of the mix preset chunk. */
  function ParsePresets(s: seq<Byte>, n: int, numMixBuses: int): (r: Parsed<seq<MixPresetChunk>>)
    ensures r.Parsed? ==> |r.value| == Count(n)
  {
    ParseDefaultList(PresetParser(numMixBuses), IsDefaultPreset, s, n, -1, 0)
  }

  /** A wave bank (lines 822-845): id, a non-negative entry count, that many entry names. */
  function ParseWaveBank(s: seq<Byte>): (r: Parsed<WaveBankChunk>)
    ensures ReadString(s).Parsed? && |ReadString(s).rest| >= 4 && ReadInt(ReadString(s).rest).value < 0 ==>
              r == Failed(EngineDataStructureError)
    ensures r.Parsed? ==> r.value.numAudioDataEntries >= 0 && |r.value.audioDataEntries| == r.value.numAudioDataEntries
  {
    var id :- ReadString(s);
    var n :- ReadInt(id.rest);
    if n.value < 0 then Failed(EngineDataStructureError)
    else
      var entries :- ParseList(ReadString, n.rest, n.value);
      Parsed(WaveBankChunk(id.value, n.value, entries.value), entries.rest)
  }

  /** A wave reference of a sound (lines 883-887): wave bank index, audio data index. */
  function ParseWaveRef(s: seq<Byte>): (r: Parsed<(int, int)>)
  {
    var wb :- ReadInt(s);
    var ad :- ReadInt(wb.rest);
    Parsed((wb.value, ad.value), ad.rest)
  }

  /** The sound with the header fields `h` and the wave references `refs`. */
  function SoundOf(h: SoundChunk, refs: seq<(int, int)>): (snd: SoundChunk)
    ensures |snd.waveBankIndices| == |snd.audioDataIndices| == |refs|
    ensures forall j :: 0 <= j < |refs| ==> refs[j] == (snd.waveBankIndices[j], snd.audioDataIndices[j])
  {
    h.(waveBankIndices := seq(|refs|, j requires 0 <= j < |refs| => refs[j].0),
       audioDataIndices := seq(|refs|, j requires 0 <= j < |refs| => refs[j].1))
  }

  /** A sound's fields before its wave references (lines 862-879), with no references yet. */
  function ParseSoundHeader(s: seq<Byte>): (r: Parsed<SoundChunk>)
    ensures r.Parsed? ==> r.value.waveBankIndices == [] && r.value.audioDataIndices == []
    ensures |s| < 32 ==> r == Failed(StreamError)
    ensures |s| >= 32 ==> (r.Failed? <==> ReadInt(s[28..]).value < 0)
    ensures |s| >= 32 && r.Failed? ==> r.code == EngineDataStructureError
    ensures r.Parsed? ==> r.value.numWaveReferences >= 0 && r.rest == s[32..]
  {
    var playbackCount :- ReadInt(s);
    var deferStop :- ReadInt(playbackCount.rest);
    var gain :- ReadFloat(deferStop.rest);
    var gainVariation :- ReadFloat(gain.rest);
    var pitch :- ReadFloat(gainVariation.rest);
    var pitchVariation :- ReadFloat(pitch.rest);
    var playbackMode :- ReadInt(pitchVariation.rest);
    var numWaveReferences :- ReadInt(playbackMode.rest);
    if numWaveReferences.value < 0 then Failed(EngineDataStructureError)
    else
      Parsed(SoundChunk(playbackCount.value, deferStop.value, gain.value, gainVariation.value,
                        pitch.value, pitchVariation.value, playbackMode.value, numWaveReferences.value, [], []),
             numWaveReferences.rest)
  }

  /** A sound (lines 860-889). */
  function ParseSound(s: seq<Byte>): (r: Parsed<SoundChunk>)
    ensures |s| >= 32 && ReadInt(s[28..]).value < 0 ==> r == Failed(EngineDataStructureError)
    ensures r.Parsed? ==> r.value.numWaveReferences >= 0 &&
                          |r.value.waveBankIndices| == |r.value.audioDataIndices| == r.value.numWaveReferences
  {
    var h :- ParseSoundHeader(s);
    var refs :- ParseList(ParseWaveRef, h.rest, h.value.numWaveReferences);
    Parsed(SoundOf(h.value, refs.value), refs.rest)
  }

  /**
   * An event's fields up to its sound index (lines 912-942), the others still 0.
   * innerConeGain is not read; a sound index below -1 is an error.
   */
  function ParseEventHeader(s: seq<Byte>): (r: Parsed<EventChunk>)
    ensures r.Parsed? ==> r.value.innerConeGain == 0 && r.value.waveBankIndices == [] && r.value.soundIndex >= -1
    ensures ReadString(s).Parsed? && |ReadString(s).rest| >= 36 ==>
              (r.Failed? <==> ReadInt(ReadString(s).rest[32..]).value < -1)
    ensures ReadString(s).Parsed? && |ReadString(s).rest| >= 36 && r.Failed? ==> r.code == EngineDataStructureError
  {
    var id :- ReadString(s);
    var instanceCount :- ReadInt(id.rest);
    var gain :- ReadFloat(instanceCount.rest);
    var pitch :- ReadFloat(gain.rest);
    var innerConeAngleDeg :- ReadFloat(pitch.rest);
    var outerConeAngleDeg :- ReadFloat(innerConeAngleDeg.rest);
    var outerConeGain :- ReadFloat(outerConeAngleDeg.rest);
    var mixBusIndex :- ReadInt(outerConeGain.rest);
    var isPositional :- ReadInt(mixBusIndex.rest);
    var soundIndex :- ReadInt(isPositional.rest);
    if soundIndex.value < -1 then Failed(EngineDataStructureError)
    else
      Parsed(EventChunk(id.value, instanceCount.value, gain.value, pitch.value,
                        innerConeAngleDeg.value, 0, outerConeAngleDeg.value, outerConeGain.value,
                        mixBusIndex.value, isPositional.value, soundIndex.value, 0, 0, 0, 0, 0, []),
             soundIndex.rest)
  }

  /** The playback fields of event `e` that follow its sound index (lines 944-954). */
  function ParseEventPlayback(s: seq<Byte>, e: EventChunk): (r: Parsed<EventChunk>)
    ensures r.Parsed? ==> r.value.soundIndex == e.soundIndex && r.value.innerConeGain == e.innerConeGain
  {
    var retriggerMode :- ReadInt(s);
    var waveBankIndex :- ReadInt(retriggerMode.rest);
    var audioDataIndex :- ReadInt(waveBankIndex.rest);
    var loopIfStreaming :- ReadInt(audioDataIndex.rest);
    var numReferencedWaveBanks :- ReadInt(loopIfStreaming.rest);
    Parsed(e.(retriggerMode := retriggerMode.value, waveBankIndex := waveBankIndex.value,
              audioDataIndex := audioDataIndex.value, loopIfStreaming := loopIfStreaming.value,
              numReferencedWaveBanks := numReferencedWaveBanks.value),
           numReferencedWaveBanks.rest)
  }

  /** An event (lines 907-970): its fields, then its checked wave bank indices. */
  function ParseEvent(s: seq<Byte>, numWaveBanks: int): (r: Parsed<EventChunk>)
    ensures ReadString(s).Parsed? && |ReadString(s).rest| >= 36 && ReadInt(ReadString(s).rest[32..]).value < -1 ==>
              r == Failed(EngineDataStructureError)
    ensures r.Parsed? ==> r.value.soundIndex >= -1 && |r.value.waveBankIndices| == Count(r.value.numReferencedWaveBanks)
  {
    var h :- ParseEventHeader(s);
    var p :- ParseEventPlayback(h.rest, h.value);
    var idx :- ParseList(IndexParser(numWaveBanks), p.rest, p.value.numReferencedWaveBanks);
    Parsed(p.value.(waveBankIndices := idx.value), idx.rest)
  }

  function EventParser(numWaveBanks: int): seq<Byte> -> Parsed<EventChunk> {
    s => ParseEvent(s, numWaveBanks)
  }

  // ---------------------------------------------------------------------------------
  // Chunks

  /**
   * kwlInputStream_seekToEngineDataChunk: scans the chunks of `s` for the first
   * whose id is `id`, skipping the body of every other one by its size, and gives
   * that chunk's size and the bytes of its body onwards.
   */
  function FindChunk(s: seq<Byte>, id: int): (r: Parsed<int>)
    ensures r.Failed? ==> r.code == StreamError
    ensures r.Parsed? ==> |r.rest| + 8 <= |s|
    decreases |s|
  {
    var cid :- ReadInt(s);
    var size :- ReadInt(cid.rest);
    if cid.value == id then size
    else if size.value < 0 || size.value > |size.rest| then Failed(StreamError)
    else FindChunk(size.rest[size.value..], id)
  }

  /** The last m bytes of s. */
  function Suffix(s: seq<Byte>, m: nat): seq<Byte>
    requires m <= |s|
  {
    s[|s| - m..]
  }

  /** The last m bytes of a suffix are the last m bytes of the whole. */
  lemma SuffixOfSuffix(s: seq<Byte>, t: seq<Byte>, m: nat)
    requires |t| <= |s| && t == Suffix(s, |t|) && m <= |t|
    ensures Suffix(s, m) == Suffix(t, m)
  {
  }

  /** The chunk found is a header with the wanted id and the size given, followed by the rest. */
  lemma {:induction false} FindChunkHeader(s: seq<Byte>, id: int, size: int, rest: seq<Byte>)
    requires FindChunk(s, id) == Parsed(size, rest)
    ensures |rest| + 8 <= |s| && Suffix(s, |rest| + 8) == Int32BE(id) + Int32BE(size) + rest
    decreases |s|
  {
    var c := ReadInt(s);
    var z := ReadInt(c.rest);
    ReadIntBytes(s);
    ReadIntBytes(c.rest);
    if c.value == id {
      assert z == Parsed(size, rest);
      assert Suffix(s, |rest| + 8) == s;
    } else {
      var t := z.rest[z.value..];
      FindChunkHeader(t, id, size, rest);
      assert t == Suffix(s, |t|);
      SuffixOfSuffix(s, t, |rest| + 8);
    }
  }

  /** The mix bus chunk (lines 699-735). */
  function ParseMixBusChunk(fmt: Format, chunks: seq<Byte>): (r: Parsed<MixBusDataChunk>)
    ensures r.Parsed? ==> r.value.chunkId == fmt.mixBusesChunkId && |r.value.mixBuses| == Count(r.value.numMixBuses)
  {
    var size :- FindChunk(chunks, fmt.mixBusesChunkId);
    var n :- ReadInt(size.rest);
    var buses :- ParseList(MixBusParser(n.value), n.rest, n.value);
    Parsed(MixBusDataChunk(fmt.mixBusesChunkId, size.value, n.value, buses.value), buses.rest)
  }

  /** The mix preset chunk (lines 738-796): one parameter set per mix bus in each preset. */
  function ParseMixPresetChunk(fmt: Format, chunks: seq<Byte>, numMixBuses: int): (r: Parsed<MixPresetDataChunk>)
    ensures r.Parsed? ==> r.value.chunkId == fmt.mixPresetsChunkId && |r.value.mixPresets| == Count(r.value.numMixPresets)
  {
    var size :- FindChunk(chunks, fmt.mixPresetsChunkId);
    var n :- ReadInt(size.rest);
    var presets :- ParsePresets(n.rest, n.value, numMixBuses);
    Parsed(MixPresetDataChunk(fmt.mixPresetsChunkId, size.value, n.value, presets.value), presets.rest)
  }

  /** The wave bank chunk (lines 799-847): both counts must be non-negative. */
  function ParseWaveBankChunk(fmt: Format, chunks: seq<Byte>): (r: Parsed<WaveBankDataChunk>)
    ensures r.Parsed? ==> r.value.chunkId == fmt.waveBanksChunkId && r.value.numAudioDataItemsTotal >= 0 &&
                          r.value.numWaveBanks >= 0 && |r.value.waveBanks| == r.value.numWaveBanks
    ensures FindChunk(chunks, fmt.waveBanksChunkId).Parsed? && |FindChunk(chunks, fmt.waveBanksChunkId).rest| >= 4 &&
            ReadInt(FindChunk(chunks, fmt.waveBanksChunkId).rest).value < 0 ==>
              r == Failed(EngineDataStructureError)
    ensures FindChunk(chunks, fmt.waveBanksChunkId).Parsed? && |FindChunk(chunks, fmt.waveBanksChunkId).rest| >= 8 &&
            ReadInt(FindChunk(chunks, fmt.waveBanksChunkId).rest[4..]).value < 0 ==>
              r == Failed(EngineDataStructureError)
  {
    var size :- FindChunk(chunks, fmt.waveBanksChunkId);
    var total :- ReadInt(size.rest);
    if total.value < 0 then Failed(EngineDataStructureError)
    else
      var n :- ReadInt(total.rest);
      if n.value < 0 then Failed(EngineDataStructureError)
      else
        var banks :- ParseList(ParseWaveBank, n.rest, n.value);
        Parsed(WaveBankDataChunk(fmt.waveBanksChunkId, size.value, total.value, n.value, banks.value), banks.rest)
  }

  /** The sound chunk (lines 850-890). */
  function ParseSoundChunk(fmt: Format, chunks: seq<Byte>): (r: Parsed<SoundDataChunk>)
    ensures r.Parsed? ==> r.value.chunkId == fmt.soundsChunkId && |r.value.soundDefinitions| == Count(r.value.numSoundDefinitions)
  {
    var size :- FindChunk(chunks, fmt.soundsChunkId);
    var n :- ReadInt(size.rest);
    var sounds :- ParseList(ParseSound, n.rest, n.value);
    Parsed(SoundDataChunk(fmt.soundsChunkId, size.value, n.value, sounds.value), sounds.rest)
  }

  /** The event chunk (lines 893-971): there must be at least one event. */
  function ParseEventChunk(fmt: Format, chunks: seq<Byte>, numWaveBanks: int): (r: Parsed<EventDataChunk>)
    ensures r.Parsed? ==> r.value.chunkId == fmt.eventsChunkId && r.value.numEventDefinitions > 0 &&
                          |r.value.eventDefinitions| == r.value.numEventDefinitions
    ensures FindChunk(chunks, fmt.eventsChunkId).Parsed? && |FindChunk(chunks, fmt.eventsChunkId).rest| >= 4 &&
            ReadInt(FindChunk(chunks, fmt.eventsChunkId).rest).value <= 0 ==>
              r == Failed(EngineDataStructureError)
  {
    var size :- FindChunk(chunks, fmt.eventsChunkId);
    var n :- ReadInt(size.rest);
    if n.value <= 0 then Failed(EngineDataStructureError)
    else
      var events :- ParseList(EventParser(numWaveBanks), n.rest, n.value);
      Parsed(EventDataChunk(fmt.eventsChunkId, size.value, n.value, events.value), events.rest)
  }

  /** The five chunks, in the order the loader reads them, after the identifier. */
  function ParseChunks(fmt: Format, chunks: seq<Byte>): (r: Parsed<EngineDataBinary>)
    ensures r.Parsed? ==> r.value.fileIdentifier == fmt.identifier
  {
    var mb :- ParseMixBusChunk(fmt, chunks);
    var mp :- ParseMixPresetChunk(fmt, chunks, mb.value.numMixBuses);
    var wb :- ParseWaveBankChunk(fmt, chunks);
    var sd :- ParseSoundChunk(fmt, chunks);
    var ev :- ParseEventChunk(fmt, chunks, wb.value.numWaveBanks);
    Parsed(EngineDataBinary(fmt.identifier, mp.value, mb.value, wb.value, sd.value, ev.value), ev.rest)
  }

  // ---------------------------------------------------------------------------------
  // The whole file

  /** The outcome of a load: the result code and the struct as the loader leaves it. */
  datatype LoadResult = LoadResult(code: ResultCode, bin: EngineDataBinary)

  /** The number of leading bytes of `file` that match `expected`, up to the first that differs. */
  function MatchingPrefix(expected: seq<Byte>, file: seq<Byte>): (k: nat)
    ensures k <= |expected| && k <= |file|
    ensures forall i :: 0 <= i < k ==> file[i] == expected[i]
    ensures k < |expected| && k < |file| ==> file[k] != expected[k]
  {
    if expected == [] || file == [] || file[0] != expected[0] then 0
    else 1 + MatchingPrefix(expected[1..], file[1..])
  }

  /**
   * The part of the load after the identifier: the chunks of `chunks`, or on a data
   * error the struct freed, which zeroes it (lines 976-979).
   */
  function LoadChunks(fmt: Format, chunks: seq<Byte>): (r: LoadResult)
    ensures r.code == DataIsValid || r.code == StreamError || r.code == EngineDataStructureError
    ensures r.code == DataIsValid <==> ParseChunks(fmt, chunks).Parsed?
    ensures r.code == DataIsValid ==> r.bin == ParseChunks(fmt, chunks).value && r.bin.fileIdentifier == fmt.identifier
    ensures r.code != DataIsValid ==> r.bin == ZeroBinary(|fmt.identifier|)
  {
    var p := ParseChunks(fmt, chunks);
    if p.Failed? then LoadResult(p.code, Free(ZeroBinary(|fmt.identifier|)))
    else LoadResult(DataIsValid, p.value)
  }

  /**
   * What kwlEngineDataBinary_loadFromBinaryFile gives for the file `file` (None when
   * it cannot be opened). The struct is zeroed first (line 670). An identifier
   * mismatch returns at once, leaving the identifier characters read so far.
   */
  function LoadEngineData(fmt: Format, file: Option<seq<Byte>>): (r: LoadResult)
    ensures file.None? ==> r.code == CouldNotOpenEngineDataBinaryFile
    ensures r.code == DataIsValid ==>
              file.Some? && |fmt.identifier| <= |file.value| && file.value[..|fmt.identifier|] == fmt.identifier &&
              r == LoadChunks(fmt, file.value[|fmt.identifier|..])
    ensures r.code != DataIsValid && r.code != InvalidFileIdentifier ==> r.bin == ZeroBinary(|fmt.identifier|)
    ensures r.code == InvalidFileIdentifier <==>
              file.Some? && exists i :: 0 <= i < |fmt.identifier| && i < |file.value| && file.value[i] != fmt.identifier[i]
    ensures file.Some? && |file.value| < |fmt.identifier| && file.value == fmt.identifier[..|file.value|] ==>
              r.code == StreamError
  {
    var len := |fmt.identifier|;
    match file
    case None => LoadResult(CouldNotOpenEngineDataBinaryFile, ZeroBinary(len))
    case Some(f) =>
      var k := MatchingPrefix(fmt.identifier, f);
      if k < len && k == |f| then LoadResult(StreamError, ZeroBinary(len))
      else if k < len then
        assert f[k] != fmt.identifier[k];
        LoadResult(InvalidFileIdentifier, ZeroBinary(len).(fileIdentifier := f[..k + 1] + Zeros(len - k - 1)))
      else LoadChunks(fmt, f[len..])
  }

  // ---------------------------------------------------------------------------------
  // The loader's loops

  /**
   * A `for (i = 0; i < n; i++)` loop that reads one item per pass from where the
   * previous one stopped, leaving at the first failing item.
   */
  method ReadList<T>(item: seq<Byte> -> Parsed<T>, s: seq<Byte>, n: int) returns (r: Parsed<seq<T>>)
    ensures r == ParseList(item, s, n)
  {
    var items: seq<T> := [];
    var rest := s;
    var i := 0;
    PrependNothing(ParseList(item, s, n));
    while i < n
      invariant 0 <= i <= Count(n)
      invariant ParseList(item, s, n) == Prepend(items, ParseList(item, rest, n - i))
      decreases n - i
    {
      var x := item(rest);
      if x.Failed? {
        return Failed(x.code);
      }
      PrependTwice(items, x.value, ParseList(item, x.rest, n - i - 1));
      items := items + [x.value];
      rest := x.rest;
      i := i + 1;
    }
    assert items + [] == items;
    r := Parsed(items, rest);
  }

  /**
   * The preset loop (lines 748-795), which remembers the index of the default item
   * and, once the loop is over, fails if there is none.
   */
  method ReadDefaultList<T>(item: (seq<Byte>, bool) -> Parsed<T>, isDefault: T -> bool, s: seq<Byte>, n: int)
    returns (r: Parsed<seq<T>>)
    ensures r == ParseDefaultList(item, isDefault, s, n, -1, 0)
  {
    var items: seq<T> := [];
    var rest := s;
    var defaultPresetIndex := -1;
    var i := 0;
    ghost var left := n;
    PrependNothing(ParseDefaultList(item, isDefault, s, n, -1, 0));
    while i < n
      invariant left == n - i
      invariant ParseDefaultList(item, isDefault, s, n, -1, 0) ==
                Prepend(items, ParseDefaultList(item, isDefault, rest, left, defaultPresetIndex, i))
      decreases n - i
    {
      var x := item(rest, defaultPresetIndex != -1);
      if x.Failed? {
        return Failed(x.code);
      }
      ghost var before := defaultPresetIndex;
      if isDefault(x.value) {
        defaultPresetIndex := i;
      }
      PrependTwice(items, x.value, ParseDefaultList(item, isDefault, x.rest, left - 1, defaultPresetIndex, i + 1));
      left := left - 1;
      items := items + [x.value];
      rest := x.rest;
      i := i + 1;
    }
    if defaultPresetIndex < 0 {
      return Failed(EngineDataStructureError);
    }
    assert items + [] == items;
    r := Parsed(items, rest);
  }

  /** The mix bus block of the loader (lines 699-735). */
  method ReadMixBusChunk(fmt: Format, chunks: seq<Byte>) returns (r: Parsed<MixBusDataChunk>)
    ensures r == ParseMixBusChunk(fmt, chunks)
  {
    var size :- FindChunk(chunks, fmt.mixBusesChunkId);
    var n :- ReadInt(size.rest);
    var buses :- ReadList(MixBusParser(n.value), n.rest, n.value);
    r := Parsed(MixBusDataChunk(fmt.mixBusesChunkId, size.value, n.value, buses.value), buses.rest);
  }

  /** The mix preset block of the loader (lines 738-796). */
  method ReadMixPresetChunk(fmt: Format, chunks: seq<Byte>, numMixBuses: int) returns (r: Parsed<MixPresetDataChunk>)
    ensures r == ParseMixPresetChunk(fmt, chunks, numMixBuses)
  {
    var size :- FindChunk(chunks, fmt.mixPresetsChunkId);
    var n :- ReadInt(size.rest);
    var presets :- ReadDefaultList(PresetParser(numMixBuses), IsDefaultPreset, n.rest, n.value);
    r := Parsed(MixPresetDataChunk(fmt.mixPresetsChunkId, size.value, n.value, presets.value), presets.rest);
  }

  /** The wave bank block of the loader (lines 799-847). */
  method ReadWaveBankChunk(fmt: Format, chunks: seq<Byte>) returns (r: Parsed<WaveBankDataChunk>)
    ensures r == ParseWaveBankChunk(fmt, chunks)
  {
    var size :- FindChunk(chunks, fmt.waveBanksChunkId);
    var total :- ReadInt(size.rest);
    if total.value < 0 {
      return Failed(EngineDataStructureError);
    }
    var n :- ReadInt(total.rest);
    if n.value < 0 {
      return Failed(EngineDataStructureError);
    }
    var banks :- ReadList(ParseWaveBank, n.rest, n.value);
    r := Parsed(WaveBankDataChunk(fmt.waveBanksChunkId, size.value, total.value, n.value, banks.value), banks.rest);
  }

  /** The sound block of the loader (lines 850-890). */
  method ReadSoundChunk(fmt: Format, chunks: seq<Byte>) returns (r: Parsed<SoundDataChunk>)
    ensures r == ParseSoundChunk(fmt, chunks)
  {
    var size :- FindChunk(chunks, fmt.soundsChunkId);
    var n :- ReadInt(size.rest);
    var sounds :- ReadList(ParseSound, n.rest, n.value);
    r := Parsed(SoundDataChunk(fmt.soundsChunkId, size.value, n.value, sounds.value), sounds.rest);
  }

  /** The event block of the loader (lines 893-971). */
  method ReadEventChunk(fmt: Format, chunks: seq<Byte>, numWaveBanks: int) returns (r: Parsed<EventDataChunk>)
    ensures r == ParseEventChunk(fmt, chunks, numWaveBanks)
  {
    var size :- FindChunk(chunks, fmt.eventsChunkId);
    var n :- ReadInt(size.rest);
    if n.value <= 0 {
      return Failed(EngineDataStructureError);
    }
    var events :- ReadList(EventParser(numWaveBanks), n.rest, n.value);
    r := Parsed(EventDataChunk(fmt.eventsChunkId, size.value, n.value, events.value), events.rest);
  }

  /**
   * The chunk blocks of the loader (lines 697-971), reading into `bin`, which holds
   * the identifier; a data error frees it.
   */
  method ReadChunks(fmt: Format, chunks: seq<Byte>, bin: EngineDataBinary) returns (result: ResultCode, loaded: EngineDataBinary)
    requires bin.fileIdentifier == fmt.identifier
    ensures LoadResult(result, loaded) == LoadChunks(fmt, chunks)
  {
    var mb := ReadMixBusChunk(fmt, chunks);
    if mb.Failed? {
      return mb.code, Free(bin);
    }
    var mp := ReadMixPresetChunk(fmt, chunks, mb.value.numMixBuses);
    if mp.Failed? {
      return mp.code, Free(bin);
    }
    var wb := ReadWaveBankChunk(fmt, chunks);
    if wb.Failed? {
      return wb.code, Free(bin);
    }
    var sd := ReadSoundChunk(fmt, chunks);
    if sd.Failed? {
      return sd.code, Free(bin);
    }
    var ev := ReadEventChunk(fmt, chunks, wb.value.numWaveBanks);
    if ev.Failed? {
      return ev.code, Free(bin);
    }
    result := DataIsValid;
    loaded := EngineDataBinary(bin.fileIdentifier, mp.value, mb.value, wb.value, sd.value, ev.value);
  }

  /** Writing the character that was read into the identifier array. */
  lemma IdentifierStep(f: seq<Byte>, len: nat, i: nat)
    requires i < len && i < |f|
    ensures (f[..i] + Zeros(len - i))[i := f[i]] == f[..i + 1] + Zeros(len - i - 1)
  {
  }

  /**
   * kwlEngineDataBinary_loadFromBinaryFile (lines 665-980): zeroes the struct, reads
   * the identifier character by character into it, then reads the five chunks; a
   * data error frees the struct.
   */
  method LoadFromBinaryFile(fmt: Format, file: Option<seq<Byte>>) returns (result: ResultCode, bin: EngineDataBinary)
    ensures LoadResult(result, bin) == LoadEngineData(fmt, file)
  {
    var len := |fmt.identifier|;
    bin := ZeroBinary(len);
    if file.None? {
      return CouldNotOpenEngineDataBinaryFile, bin;
    }
    var f := file.value;
    ghost var k := MatchingPrefix(fmt.identifier, f);
    var i := 0;
    while i < len
      invariant 0 <= i <= len && i <= k
      invariant bin == ZeroBinary(len).(fileIdentifier := f[..i] + Zeros(len - i))
    {
      if i == |f| {
        assert k == i;
        return StreamError, ZeroBinary(len);
      }
      IdentifierStep(f, len, i);
      bin := bin.(fileIdentifier := bin.fileIdentifier[i := f[i]]);
      if f[i] != fmt.identifier[i] {
        assert k == i;
        return InvalidFileIdentifier, bin;
      }
      i := i + 1;
    }
    assert f[..len] + Zeros(0) == fmt.identifier;
    assert LoadEngineData(fmt, file) == LoadChunks(fmt, f[len..]);
    result, bin := ReadChunks(fmt, f[len..], bin);
  }

  // ---------------------------------------------------------------------------------
  // What a load guarantees

  /** Every one of `xs` lies in [0, bound). */
  predicate InRange(xs: seq<int>, bound: int) {
    forall j :: 0 <= j < |xs| ==> 0 <= xs[j] < bound
  }

  predicate MixBusValid(b: MixBusChunk, numMixBuses: int) {
    |b.subBusIndices| == Count(b.numSubBuses) && InRange(b.subBusIndices, numMixBuses)
  }

  predicate PresetValid(p: MixPresetChunk, numMixBuses: int) {
    |p.mixBusIndices| == |p.gainLeft| == |p.gainRight| == |p.pitch| == Count(numMixBuses) &&
    InRange(p.mixBusIndices, numMixBuses)
  }

  predicate WaveBankValid(b: WaveBankChunk) {
    b.numAudioDataEntries >= 0 && |b.audioDataEntries| == b.numAudioDataEntries
  }

  predicate SoundValid(snd: SoundChunk) {
    snd.numWaveReferences >= 0 &&
    |snd.waveBankIndices| == |snd.audioDataIndices| == snd.numWaveReferences
  }

  predicate EventValid(e: EventChunk, numWaveBanks: int) {
    e.soundIndex >= -1 && e.innerConeGain == 0 &&
    |e.waveBankIndices| == Count(e.numReferencedWaveBanks) && InRange(e.waveBankIndices, numWaveBanks)
  }

  /** What the checks of the loader leave in a struct it reports valid. */
  predicate LoadedValid(fmt: Format, bin: EngineDataBinary) {
    var mbc := bin.mixBusChunk;
    var mpc := bin.mixPresetChunk;
    var wbc := bin.waveBankChunk;
    var sdc := bin.soundChunk;
    var edc := bin.eventChunk;
    bin.fileIdentifier == fmt.identifier &&
    |mbc.mixBuses| == Count(mbc.numMixBuses) &&
    (forall i :: 0 <= i < |mbc.mixBuses| ==> MixBusValid(mbc.mixBuses[i], mbc.numMixBuses)) &&
    |mpc.mixPresets| == Count(mpc.numMixPresets) && CountDefaults(IsDefaultPreset, mpc.mixPresets) == 1 &&
    (forall i :: 0 <= i < |mpc.mixPresets| ==> PresetValid(mpc.mixPresets[i], mbc.numMixBuses)) &&
    wbc.numAudioDataItemsTotal >= 0 && wbc.numWaveBanks >= 0 && |wbc.waveBanks| == wbc.numWaveBanks &&
    (forall i :: 0 <= i < |wbc.waveBanks| ==> WaveBankValid(wbc.waveBanks[i])) &&
    |sdc.soundDefinitions| == Count(sdc.numSoundDefinitions) &&
    (forall i :: 0 <= i < |sdc.soundDefinitions| ==> SoundValid(sdc.soundDefinitions[i])) &&
    edc.numEventDefinitions > 0 && |edc.eventDefinitions| == edc.numEventDefinitions &&
    (forall i :: 0 <= i < |edc.eventDefinitions| ==> EventValid(edc.eventDefinitions[i], wbc.numWaveBanks))
  }

  /** Items that each satisfy `P` when read make a list all of whose items satisfy `P`. */
  lemma {:induction false} ParseListAll<T>(item: seq<Byte> -> Parsed<T>, P: T -> bool, s: seq<Byte>, n: int, xs: seq<T>, rest: seq<Byte>)
    requires forall t :: item(t).Parsed? ==> P(item(t).value)
    requires ParseList(item, s, n) == Parsed(xs, rest)
    ensures forall j :: 0 <= j < |xs| ==> P(xs[j])
    decreases n
  {
    if n > 0 {
      var x := item(s);
      var tail := ParseList(item, x.rest, n - 1);
      ParseListAll(item, P, x.rest, n - 1, tail.value, tail.rest);
      assert xs == [x.value] + tail.value;
    }
  }

  /** Indices read with a bound lie within it. */
  lemma IndicesInRange(s: seq<Byte>, n: int, bound: int)
    ensures ParseList(IndexParser(bound), s, n).Parsed? ==> InRange(ParseList(IndexParser(bound), s, n).value, bound)
  {
    var r := ParseList(IndexParser(bound), s, n);
    if r.Parsed? {
      ParseListAll(IndexParser(bound), x => 0 <= x < bound, s, n, r.value, r.rest);
    }
  }

  lemma MixBusRead(s: seq<Byte>, numMixBuses: int, b: MixBusChunk, rest: seq<Byte>)
    requires ParseMixBus(s, numMixBuses) == Parsed(b, rest)
    ensures MixBusValid(b, numMixBuses)
  {
    var id := ReadString(s);
    var n := ReadInt(id.rest);
    IndicesInRange(n.rest, n.value, numMixBuses);
  }

  lemma WaveBankRead(s: seq<Byte>, b: WaveBankChunk, rest: seq<Byte>)
    requires ParseWaveBank(s) == Parsed(b, rest)
    ensures WaveBankValid(b)
  {
  }

  lemma SoundRead(s: seq<Byte>, snd: SoundChunk, rest: seq<Byte>)
    requires ParseSound(s) == Parsed(snd, rest)
    ensures SoundValid(snd)
  {
    var h := ParseSoundHeader(s);
    var refs := ParseList(ParseWaveRef, h.rest, h.value.numWaveReferences);
    assert snd == SoundOf(h.value, refs.value);
  }

  lemma EventRead(s: seq<Byte>, numWaveBanks: int, e: EventChunk, rest: seq<Byte>)
    requires ParseEvent(s, numWaveBanks) == Parsed(e, rest)
    ensures EventValid(e, numWaveBanks)
  {
    var h := ParseEventHeader(s);
    var p := ParseEventPlayback(h.rest, h.value);
    var idx := ParseList(IndexParser(numWaveBanks), p.rest, p.value.numReferencedWaveBanks);
    IndicesInRange(p.rest, p.value.numReferencedWaveBanks, numWaveBanks);
    assert e == p.value.(waveBankIndices := idx.value);
  }

  /** Parameter sets read with a bus count name buses below it. */
  lemma ParamSetsRead(s: seq<Byte>, numMixBuses: int, sets: seq<ParamSet>, rest: seq<Byte>)
    requires ParseList(ParamSetParser(numMixBuses), s, numMixBuses) == Parsed(sets, rest)
    ensures forall j :: 0 <= j < |sets| ==> 0 <= sets[j].mixBusIndex < numMixBuses
  {
    var item := ParamSetParser(numMixBuses);
    var P := (ps: ParamSet) => 0 <= ps.mixBusIndex < numMixBuses;
    forall t | item(t).Parsed?
      ensures P(item(t).value)
    {
      assert item(t) == ParseParamSet(t, numMixBuses);
    }
    ParseListAll(item, P, s, numMixBuses, sets, rest);
  }

  lemma PresetRead(s: seq<Byte>, numMixBuses: int, seen: bool, p: MixPresetChunk, rest: seq<Byte>)
    requires ParsePreset(s, numMixBuses, seen) == Parsed(p, rest)
    ensures PresetValid(p, numMixBuses)
  {
    var id := ReadString(s);
    var isDefault := ReadInt(id.rest);
    var sets := ParseList(ParamSetParser(numMixBuses), isDefault.rest, numMixBuses);
    assert sets.Parsed? && p == PresetOf(id.value, isDefault.value, sets.value);
    ParamSetsRead(isDefault.rest, numMixBuses, sets.value, sets.rest);
  }

  /** The number of items of `xs` that are default ones. */
  function CountDefaults<T>(isDefault: T -> bool, xs: seq<T>): nat {
    if xs == [] then 0 else (if isDefault(xs[0]) then 1 else 0) + CountDefaults(isDefault, xs[1..])
  }

  /**
   * Items read with no default item seen so far hold exactly one default item, and
   * once one is seen they hold none, when the item reader refuses a default item
   * after one was seen; and they share every property the item reader guarantees.
   */
  lemma {:induction false} DefaultListRead<T>(item: (seq<Byte>, bool) -> Parsed<T>, isDefault: T -> bool, P: T -> bool,
                                              s: seq<Byte>, n: int, defaultIndex: int, i: int, xs: seq<T>, rest: seq<Byte>)
    requires defaultIndex >= -1 && i >= 0
    requires forall t, seen :: item(t, seen).Parsed? ==> P(item(t, seen).value) && (seen ==> !isDefault(item(t, seen).value))
    requires ParseDefaultList(item, isDefault, s, n, defaultIndex, i) == Parsed(xs, rest)
    ensures CountDefaults(isDefault, xs) == if defaultIndex == -1 then 1 else 0
    ensures forall j :: 0 <= j < |xs| ==> P(xs[j])
    decreases n
  {
    if n > 0 {
      var x := item(s, defaultIndex != -1);
      var next := if isDefault(x.value) then i else defaultIndex;
      var tail := ParseDefaultList(item, isDefault, x.rest, n - 1, next, i + 1);
      assert xs == [x.value] + tail.value;
      DefaultListRead(item, isDefault, P, x.rest, n - 1, next, i + 1, tail.value, tail.rest);
      assert xs[1..] == tail.value;
    }
  }

  /** The presets of a chunk hold exactly one default; each has one checked parameter set per mix bus. */
  lemma PresetsRead(s: seq<Byte>, n: int, numMixBuses: int, ps: seq<MixPresetChunk>, rest: seq<Byte>)
    requires ParsePresets(s, n, numMixBuses) == Parsed(ps, rest)
    ensures CountDefaults(IsDefaultPreset, ps) == 1
    ensures forall j :: 0 <= j < |ps| ==> PresetValid(ps[j], numMixBuses)
  {
    var item := PresetParser(numMixBuses);
    var P := (p: MixPresetChunk) => PresetValid(p, numMixBuses);
    forall t, seen | item(t, seen).Parsed?
      ensures P(item(t, seen).value) && (seen ==> !IsDefaultPreset(item(t, seen).value))
    {
      var r := ParsePreset(t, numMixBuses, seen);
      PresetRead(t, numMixBuses, seen, r.value, r.rest);
    }
    DefaultListRead(item, IsDefaultPreset, P, s, n, -1, 0, ps, rest);
  }

  /** An item reader for when no default item has been met. */
  function Unseen<T>(item: (seq<Byte>, bool) -> Parsed<T>): seq<Byte> -> Parsed<T> {
    t => item(t, false)
  }

  /**
   * Items that all read, none of them a default one, end in an error once the
   * list is done (lines 790-795).
   */
  lemma {:induction false} NoDefaultRejected<T>(item: (seq<Byte>, bool) -> Parsed<T>, isDefault: T -> bool,
                                                s: seq<Byte>, n: int, i: int, xs: seq<T>, rest: seq<Byte>)
    requires ParseList(Unseen(item), s, n) == Parsed(xs, rest)
    requires forall j :: 0 <= j < |xs| ==> !isDefault(xs[j])
    ensures ParseDefaultList(item, isDefault, s, n, -1, i) == Failed(EngineDataStructureError)
    decreases n
  {
    if n > 0 {
      var x := item(s, false);
      var tail := ParseList(Unseen(item), x.rest, n - 1);
      assert xs == [x.value] + tail.value;
      assert !isDefault(xs[0]) && tail.value == xs[1..];
      NoDefaultRejected(item, isDefault, x.rest, n - 1, i + 1, tail.value, tail.rest);
    }
  }

  /** A preset chunk whose presets all read and none is the default is refused. */
  lemma PresetsWithoutDefault(s: seq<Byte>, n: int, numMixBuses: int, ps: seq<MixPresetChunk>, rest: seq<Byte>)
    requires ParseList(Unseen(PresetParser(numMixBuses)), s, n) == Parsed(ps, rest)
    requires forall j :: 0 <= j < |ps| ==> ps[j].isDefault == 0
    ensures ParsePresets(s, n, numMixBuses) == Failed(EngineDataStructureError)
  {
    NoDefaultRejected(PresetParser(numMixBuses), IsDefaultPreset, s, n, 0, ps, rest);
  }

  lemma MixBusChunkRead(fmt: Format, chunks: seq<Byte>, mbc: MixBusDataChunk, rest: seq<Byte>)
    requires ParseMixBusChunk(fmt, chunks) == Parsed(mbc, rest)
    ensures forall i :: 0 <= i < |mbc.mixBuses| ==> MixBusValid(mbc.mixBuses[i], mbc.numMixBuses)
  {
    var size := FindChunk(chunks, fmt.mixBusesChunkId);
    var n := ReadInt(size.rest);
    var item := MixBusParser(n.value);
    var buses := ParseList(item, n.rest, n.value);
    var P := (b: MixBusChunk) => MixBusValid(b, n.value);
    forall t | item(t).Parsed?
      ensures P(item(t).value)
    {
      MixBusRead(t, n.value, item(t).value, item(t).rest);
    }
    ParseListAll(item, P, n.rest, n.value, buses.value, buses.rest);
  }

  lemma MixPresetChunkRead(fmt: Format, chunks: seq<Byte>, numMixBuses: int, mpc: MixPresetDataChunk, rest: seq<Byte>)
    requires ParseMixPresetChunk(fmt, chunks, numMixBuses) == Parsed(mpc, rest)
    ensures CountDefaults(IsDefaultPreset, mpc.mixPresets) == 1
    ensures forall i :: 0 <= i < |mpc.mixPresets| ==> PresetValid(mpc.mixPresets[i], numMixBuses)
  {
    var size := FindChunk(chunks, fmt.mixPresetsChunkId);
    var n := ReadInt(size.rest);
    var presets := ParsePresets(n.rest, n.value, numMixBuses);
    PresetsRead(n.rest, n.value, numMixBuses, presets.value, presets.rest);
  }

  lemma WaveBankChunkRead(fmt: Format, chunks: seq<Byte>, wbc: WaveBankDataChunk, rest: seq<Byte>)
    requires ParseWaveBankChunk(fmt, chunks) == Parsed(wbc, rest)
    ensures forall i :: 0 <= i < |wbc.waveBanks| ==> WaveBankValid(wbc.waveBanks[i])
  {
    var size := FindChunk(chunks, fmt.waveBanksChunkId);
    var total := ReadInt(size.rest);
    var n := ReadInt(total.rest);
    var banks := ParseList(ParseWaveBank, n.rest, n.value);
    forall t | ParseWaveBank(t).Parsed?
      ensures WaveBankValid(ParseWaveBank(t).value)
    {
      WaveBankRead(t, ParseWaveBank(t).value, ParseWaveBank(t).rest);
    }
    ParseListAll(ParseWaveBank, WaveBankValid, n.rest, n.value, banks.value, banks.rest);
  }

  lemma SoundChunkRead(fmt: Format, chunks: seq<Byte>, sdc: SoundDataChunk, rest: seq<Byte>)
    requires ParseSoundChunk(fmt, chunks) == Parsed(sdc, rest)
    ensures forall i :: 0 <= i < |sdc.soundDefinitions| ==> SoundValid(sdc.soundDefinitions[i])
  {
    var size := FindChunk(chunks, fmt.soundsChunkId);
    var n := ReadInt(size.rest);
    var sounds := ParseList(ParseSound, n.rest, n.value);
    forall t | ParseSound(t).Parsed?
      ensures SoundValid(ParseSound(t).value)
    {
      SoundRead(t, ParseSound(t).value, ParseSound(t).rest);
    }
    ParseListAll(ParseSound, SoundValid, n.rest, n.value, sounds.value, sounds.rest);
  }

  lemma EventChunkRead(fmt: Format, chunks: seq<Byte>, numWaveBanks: int, edc: EventDataChunk, rest: seq<Byte>)
    requires ParseEventChunk(fmt, chunks, numWaveBanks) == Parsed(edc, rest)
    ensures forall i :: 0 <= i < |edc.eventDefinitions| ==> EventValid(edc.eventDefinitions[i], numWaveBanks)
  {
    var size := FindChunk(chunks, fmt.eventsChunkId);
    var n := ReadInt(size.rest);
    var item := EventParser(numWaveBanks);
    var events := ParseList(item, n.rest, n.value);
    var P := (e: EventChunk) => EventValid(e, numWaveBanks);
    forall t | item(t).Parsed?
      ensures P(item(t).value)
    {
      EventRead(t, numWaveBanks, item(t).value, item(t).rest);
    }
    ParseListAll(item, P, n.rest, n.value, events.value, events.rest);
  }

  /** Chunks read in full pass every check of the loader. */
  lemma ChunksRead(fmt: Format, chunks: seq<Byte>, bin: EngineDataBinary, rest: seq<Byte>)
    requires ParseChunks(fmt, chunks) == Parsed(bin, rest)
    ensures LoadedValid(fmt, bin)
  {
    var mb := ParseMixBusChunk(fmt, chunks);
    var mp := ParseMixPresetChunk(fmt, chunks, mb.value.numMixBuses);
    var wb := ParseWaveBankChunk(fmt, chunks);
    var sd := ParseSoundChunk(fmt, chunks);
    var ev := ParseEventChunk(fmt, chunks, wb.value.numWaveBanks);
    assert bin == EngineDataBinary(fmt.identifier, mp.value, mb.value, wb.value, sd.value, ev.value);
    MixBusChunkRead(fmt, chunks, mb.value, mb.rest);
    MixPresetChunkRead(fmt, chunks, mb.value.numMixBuses, mp.value, mp.rest);
    WaveBankChunkRead(fmt, chunks, wb.value, wb.rest);
    SoundChunkRead(fmt, chunks, sd.value, sd.rest);
    EventChunkRead(fmt, chunks, wb.value.numWaveBanks, ev.value, ev.rest);
  }

  /**
   * A load that reports valid data leaves a struct that passed every check: the
   * identifier, the index ranges, the single default preset and the counts.
   */
  lemma LoadChunksValid(fmt: Format, chunks: seq<Byte>, bin: EngineDataBinary)
    requires LoadChunks(fmt, chunks) == LoadResult(DataIsValid, bin)
    ensures LoadedValid(fmt, bin)
  {
    var p := ParseChunks(fmt, chunks);
    ChunksRead(fmt, chunks, p.value, p.rest);
  }

  /** What the loader accepts is consistent: every index it keeps is in range. */
  lemma LoadValid(fmt: Format, file: Option<seq<Byte>>, bin: EngineDataBinary)
    requires LoadEngineData(fmt, file) == LoadResult(DataIsValid, bin)
    ensures LoadedValid(fmt, bin)
  {
    LoadChunksValid(fmt, file.value[|fmt.identifier|..], bin);
  }
}
