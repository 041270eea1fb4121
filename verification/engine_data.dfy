/**
 * The in-memory form of an engine data binary (src/tools/kwl_enginedatabinary.h) and
 * the small queries over it in src/tools/kwl_enginedatabinary.c: the id lookups, the
 * audio data item total and kwlEngineDataBinary_free.
 *
 * C strings are their characters without the terminating NUL; float fields are kept
 * as their 32-bit patterns, since the tools only copy them; an array is a sequence
 * that is at least as long as its count says.
 */
module EngineData {
  import opened FileOutputStream

  datatype MixBusChunk = MixBusChunk(id: string, numSubBuses: int, subBusIndices: seq<int>)

  datatype MixBusDataChunk = MixBusDataChunk(chunkId: int, chunkSize: int, numMixBuses: int, mixBuses: seq<MixBusChunk>)

  datatype MixPresetChunk = MixPresetChunk(
    id: string, isDefault: int,
    gainLeft: seq<Bits32>, gainRight: seq<Bits32>, pitch: seq<Bits32>,
    mixBusIndices: seq<int>)

  datatype MixPresetDataChunk = MixPresetDataChunk(chunkId: int, chunkSize: int, numMixPresets: int, mixPresets: seq<MixPresetChunk>)

  datatype WaveBankChunk = WaveBankChunk(id: string, numAudioDataEntries: int, audioDataEntries: seq<string>)

  datatype WaveBankDataChunk = WaveBankDataChunk(
    chunkId: int, chunkSize: int, numAudioDataItemsTotal: int, numWaveBanks: int, waveBanks: seq<WaveBankChunk>)

  datatype SoundChunk = SoundChunk(
    playbackCount: int, deferStop: int,
    gain: Bits32, gainVariation: Bits32, pitch: Bits32, pitchVariation: Bits32,
    playbackMode: int, numWaveReferences: int,
    waveBankIndices: seq<int>, audioDataIndices: seq<int>)

  datatype SoundDataChunk = SoundDataChunk(chunkId: int, chunkSize: int, numSoundDefinitions: int, soundDefinitions: seq<SoundChunk>)

  datatype EventChunk = EventChunk(
    id: string, instanceCount: int,
    gain: Bits32, pitch: Bits32,
    innerConeAngleDeg: Bits32, innerConeGain: Bits32, outerConeAngleDeg: Bits32, outerConeGain: Bits32,
    mixBusIndex: int, isPositional: int, soundIndex: int, retriggerMode: int,
    waveBankIndex: int, audioDataIndex: int, loopIfStreaming: int,
    numReferencedWaveBanks: int, waveBankIndices: seq<int>)

  datatype EventDataChunk = EventDataChunk(chunkId: int, chunkSize: int, numEventDefinitions: int, eventDefinitions: seq<EventChunk>)

  datatype EngineDataBinary = EngineDataBinary(
    fileIdentifier: seq<Byte>,
    mixPresetChunk: MixPresetDataChunk,
    mixBusChunk: MixBusDataChunk,
    waveBankChunk: WaveBankDataChunk,
    soundChunk: SoundDataChunk,
    eventChunk: EventDataChunk)

  /**
   * The constants of the file format, defined in a header that is not part of this
   * model: the file identifier and the five chunk ids.
   */
  datatype Format = Format(
    identifier: seq<Byte>,
    waveBanksChunkId: int, mixBusesChunkId: int, mixPresetsChunkId: int,
    soundsChunkId: int, eventsChunkId: int)

  /** Chunk ids that a reader can tell apart. */
  predicate ValidFormat(fmt: Format) {
    var ids := [fmt.waveBanksChunkId, fmt.mixBusesChunkId, fmt.mixPresetsChunkId, fmt.soundsChunkId, fmt.eventsChunkId];
    (forall i :: 0 <= i < 5 ==> IsInt32(ids[i])) &&
    (forall i, j :: 0 <= i < j < 5 ==> ids[i] != ids[j])
  }

  /** A count used as a loop bound `for (i = 0; i < n; i++)`: a negative count runs no iteration. */
  function Count(n: int): (c: nat)
    ensures n >= 0 ==> c == n
    ensures n < 0 ==> c == 0
  {
    if n < 0 then 0 else n
  }

  /** `n` zero bytes. */
  function Zeros(n: nat): (z: seq<Byte>)
    ensures |z| == n && forall i :: 0 <= i < n ==> z[i] == 0
  {
    seq(n, _ => 0)
  }

  /**
   * A struct set to zero by kwlMemset, with a file identifier of `idLen` characters.
   * NULL pointers are empty sequences.
   */
  function ZeroBinary(idLen: nat): EngineDataBinary {
    EngineDataBinary(
      Zeros(idLen),
      MixPresetDataChunk(0, 0, 0, []),
      MixBusDataChunk(0, 0, 0, []),
      WaveBankDataChunk(0, 0, 0, 0, []),
      SoundDataChunk(0, 0, 0, []),
      EventDataChunk(0, 0, 0, []))
  }

  /**
   * kwlEngineDataBinary_free (lines 982-1043): releases everything the struct owns and
   * sets it to zero; only the length of the identifier array survives.
   */
  function Free(bin: EngineDataBinary): (r: EngineDataBinary)
    ensures |r.fileIdentifier| == |bin.fileIdentifier| && forall i :: 0 <= i < |r.fileIdentifier| ==> r.fileIdentifier[i] == 0
    ensures r.mixBusChunk.numMixBuses == 0 && r.mixBusChunk.mixBuses == []
    ensures r.mixPresetChunk.numMixPresets == 0 && r.mixPresetChunk.mixPresets == []
    ensures r.waveBankChunk.numWaveBanks == 0 && r.waveBankChunk.numAudioDataItemsTotal == 0 && r.waveBankChunk.waveBanks == []
    ensures r.soundChunk.numSoundDefinitions == 0 && r.soundChunk.soundDefinitions == []
    ensures r.eventChunk.numEventDefinitions == 0 && r.eventChunk.eventDefinitions == []
  {
    ZeroBinary(|bin.fileIdentifier|)
  }

  // ---------------------------------------------------------------------------------
  // Lookups by id (all three are linear searches returning the first match, or -1)

  /** kwlGetMixBusIndex (lines 164-179). */
  method GetMixBusIndex(bin: EngineDataBinary, id: string) returns (r: int)
    requires bin.mixBusChunk.numMixBuses <= |bin.mixBusChunk.mixBuses|
    ensures r == -1 || 0 <= r < bin.mixBusChunk.numMixBuses
    ensures r >= 0 ==> bin.mixBusChunk.mixBuses[r].id == id
    ensures forall j :: 0 <= j < bin.mixBusChunk.numMixBuses && (r == -1 || j < r) ==> bin.mixBusChunk.mixBuses[j].id != id
  {
    var i := 0;
    while i < bin.mixBusChunk.numMixBuses
      invariant 0 <= i <= Count(bin.mixBusChunk.numMixBuses)
      invariant forall j :: 0 <= j < i ==> bin.mixBusChunk.mixBuses[j].id != id
    {
      if id == bin.mixBusChunk.mixBuses[i].id {
        return i;
      }
      i := i + 1;
    }
    return -1;
  }

  /** kwlGetWaveBankIndex (lines 288-303). */
  method GetWaveBankIndex(bin: EngineDataBinary, id: string) returns (r: int)
    requires bin.waveBankChunk.numWaveBanks <= |bin.waveBankChunk.waveBanks|
    ensures r == -1 || 0 <= r < bin.waveBankChunk.numWaveBanks
    ensures r >= 0 ==> bin.waveBankChunk.waveBanks[r].id == id
    ensures forall j :: 0 <= j < bin.waveBankChunk.numWaveBanks && (r == -1 || j < r) ==> bin.waveBankChunk.waveBanks[j].id != id
  {
    var i := 0;
    while i < bin.waveBankChunk.numWaveBanks
      invariant 0 <= i <= Count(bin.waveBankChunk.numWaveBanks)
      invariant forall j :: 0 <= j < i ==> bin.waveBankChunk.waveBanks[j].id != id
    {
      if id == bin.waveBankChunk.waveBanks[i].id {
        return i;
      }
      i := i + 1;
    }
    return -1;
  }

  /** kwlGetAudioDataIndex (lines 306-321). */
  method GetAudioDataIndex(wb: WaveBankChunk, id: string) returns (r: int)
    requires wb.numAudioDataEntries <= |wb.audioDataEntries|
    ensures r == -1 || 0 <= r < wb.numAudioDataEntries
    ensures r >= 0 ==> wb.audioDataEntries[r] == id
    ensures forall j :: 0 <= j < wb.numAudioDataEntries && (r == -1 || j < r) ==> wb.audioDataEntries[j] != id
  {
    var i := 0;
    while i < wb.numAudioDataEntries
      invariant 0 <= i <= Count(wb.numAudioDataEntries)
      invariant forall j :: 0 <= j < i ==> wb.audioDataEntries[j] != id
    {
      if id == wb.audioDataEntries[i] {
        return i;
      }
      i := i + 1;
    }
    return -1;
  }

  // ---------------------------------------------------------------------------------
  // The audio data item total of the wave bank chunk

  /** The sum of the entry counts of `banks`. */
  function SumEntryCounts(banks: seq<WaveBankChunk>): int {
    if banks == [] then 0 else SumEntryCounts(banks[..|banks| - 1]) + banks[|banks| - 1].numAudioDataEntries
  }

  /** The total over two runs of banks is the sum of their totals. */
  lemma {:induction false} SumEntryCountsAppend(a: seq<WaveBankChunk>, b: seq<WaveBankChunk>)
    ensures SumEntryCounts(a + b) == SumEntryCounts(a) + SumEntryCounts(b)
    decreases |b|
  {
    if b != [] {
      assert (a + b)[..|a + b| - 1] == a + b[..|b| - 1];
      SumEntryCountsAppend(a, b[..|b| - 1]);
    } else {
      assert a + b == a;
    }
  }

  /** With no negative entry count the total is at least every bank's count. */
  lemma {:induction false} SumEntryCountsBound(banks: seq<WaveBankChunk>)
    requires forall i :: 0 <= i < |banks| ==> banks[i].numAudioDataEntries >= 0
    ensures SumEntryCounts(banks) >= 0
    ensures forall i :: 0 <= i < |banks| ==> banks[i].numAudioDataEntries <= SumEntryCounts(banks)
    decreases |banks|
  {
    if banks != [] {
      var init := banks[..|banks| - 1];
      SumEntryCountsBound(init);
      assert forall i :: 0 <= i < |init| ==> init[i] == banks[i];
    }
  }

  /** The loop that stores numAudioDataItemsTotal (lines 279-285). */
  method TotalAudioDataItems(wbc: WaveBankDataChunk) returns (totalNumItems: int)
    requires wbc.numWaveBanks <= |wbc.waveBanks|
    ensures totalNumItems == SumEntryCounts(wbc.waveBanks[..Count(wbc.numWaveBanks)])
  {
    totalNumItems := 0;
    var i := 0;
    while i < wbc.numWaveBanks
      invariant 0 <= i <= Count(wbc.numWaveBanks)
      invariant totalNumItems == SumEntryCounts(wbc.waveBanks[..i])
    {
      assert wbc.waveBanks[..i + 1][..i] == wbc.waveBanks[..i];
      totalNumItems := totalNumItems + wbc.waveBanks[i].numAudioDataEntries;
      i := i + 1;
    }
  }
}
