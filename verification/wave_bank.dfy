/**
 * Wave bank binaries (src/tools/kwl_wavebankbinary.c): the struct of
 * src/tools/kwl_wavebankbinary.h, the file layout the writer emits and the loader
 * reads, the identifier probe, the lookup and copy part of kwlWaveBankBinary_create,
 * and kwlWaveBankBinary_free.
 *
 * The file identifier is a constant of a header that is not part of this model, so
 * it is a parameter. A file that cannot be opened is None. Audio files are loaded by
 * code that is not part of this model: what loading an entry's file gives is the
 * parameter `audio`.
 */
module WaveBank {
  import opened Wrappers
  import opened FileOutputStream
  import opened InputStream
  import opened ResultCodes
  import opened BinaryCodec
  import opened EngineData
  import opened EngineDataWriter
  import opened EngineDataLoader
  import opened EngineDataRoundTrip
  import FileUtil

  /** kwlWaveBankEntryChunk: one piece of audio data. */
  datatype WaveBankEntryChunk = WaveBankEntryChunk(
    fileName: string, encoding: int, isStreaming: int, numChannels: int, numBytes: int, data: seq<Byte>)

  /** kwlWaveBankBinary. */
  datatype WaveBankBinary = WaveBankBinary(
    fileIdentifier: seq<Byte>, id: string, numEntries: int, entries: seq<WaveBankEntryChunk>)

  const ZeroEntry := WaveBankEntryChunk([], 0, 0, 0, 0, [])

  /** A struct set to zero by kwlMemset; NULL pointers are empty sequences. */
  function ZeroWaveBank(idLen: nat): (r: WaveBankBinary)
    ensures |r.fileIdentifier| == idLen && r.numEntries == 0 && r.entries == [] && r.id == []
  {
    WaveBankBinary(Zeros(idLen), [], 0, [])
  }

  // ---------------------------------------------------------------------------------
  // The file

  /** An entry as the writer emits it (lines 80-86): name, four ints, then numBytes raw bytes. */
  function EntryBytes(e: WaveBankEntryChunk): seq<Byte> {
    ASCIIString(e.fileName) + Int32BE(e.encoding) + Int32BE(e.isStreaming) + Int32BE(e.numChannels) +
    Int32BE(e.numBytes) + Prefix(e.data, e.numBytes)
  }

  /** The file the writer emits (lines 70-87): identifier, id, entry count, entries. */
  function WaveBankFileBytes(bin: WaveBankBinary): seq<Byte> {
    bin.fileIdentifier + ASCIIString(bin.id) + Int32BE(bin.numEntries) +
    Concat(Map(EntryBytes, Prefix(bin.entries, bin.numEntries)))
  }

  /** Whether a file starts with the identifier. */
  predicate HasIdentifier(identifier: seq<Byte>, f: seq<Byte>) {
    |identifier| <= |f| && f[..|identifier|] == identifier
  }

  // ---------------------------------------------------------------------------------
  // Probe

  /**
   * kwlFileIsWaveBankBinary (lines 34-57): 1 when the file opens and starts with the
   * identifier. A read past the end of the file is taken as a mismatch.
   */
  method FileIsWaveBankBinary(identifier: seq<Byte>, file: Option<seq<Byte>>) returns (isWaveBank: int)
    ensures isWaveBank == 0 || isWaveBank == 1
    ensures isWaveBank == 1 <==> file.Some? && HasIdentifier(identifier, file.value)
  {
    if file.None? {
      return 0;
    }
    var f := file.value;
    isWaveBank := 1;
    var i := 0;
    while i < |identifier|
      invariant 0 <= i <= |identifier| && i <= |f|
      invariant f[..i] == identifier[..i]
    {
      if i == |f| || f[i] != identifier[i] {
        isWaveBank := 0;
        break;
      }
      i := i + 1;
    }
    assert isWaveBank == 1 ==> f[..|identifier|] == identifier[..|identifier|];
  }

  // ---------------------------------------------------------------------------------
  // Writer

  predicate EntryWritable(e: WaveBankEntryChunk) {
    WritableString(e.fileName) && 0 <= e.numBytes <= |e.data|
  }

  /** What the writer asks of a struct: a full identifier, non-empty strings, data as long as its count. */
  predicate BankWritable(identifier: seq<Byte>, bin: WaveBankBinary) {
    |bin.fileIdentifier| == |identifier| && WritableString(bin.id) && Count(bin.numEntries) <= |bin.entries| &&
    forall i :: 0 <= i < Count(bin.numEntries) ==> EntryWritable(bin.entries[i])
  }

  /** One entry (lines 80-86). */
  method WriteEntry(fos: OutputStream, e: WaveBankEntryChunk)
    requires Appending(fos) && EntryWritable(e)
    modifies fos
    ensures Appending(fos) && fos.contents == old(fos.contents) + EntryBytes(e)
  {
    CStringMemory(e.fileName);
    fos.WriteASCIIString(e.fileName + ['\0']);
    ghost var acc := ASCIIString(e.fileName);
    AppendAssoc(old(fos.contents), acc, Int32BE(e.encoding));
    fos.WriteInt32BE(e.encoding);
    acc := acc + Int32BE(e.encoding);
    AppendAssoc(old(fos.contents), acc, Int32BE(e.isStreaming));
    fos.WriteInt32BE(e.isStreaming);
    acc := acc + Int32BE(e.isStreaming);
    AppendAssoc(old(fos.contents), acc, Int32BE(e.numChannels));
    fos.WriteInt32BE(e.numChannels);
    acc := acc + Int32BE(e.numChannels);
    AppendAssoc(old(fos.contents), acc, Int32BE(e.numBytes));
    fos.WriteInt32BE(e.numBytes);
    acc := acc + Int32BE(e.numBytes);
    AppendAssoc(old(fos.contents), acc, Prefix(e.data, e.numBytes));
    fos.Write(e.data, e.numBytes);
  }

  /**
   * kwlWaveBankBinary_writeToFile (lines 59-91). Whether the file can be opened is
   * `canOpen`; the result is what the file holds once it is closed, or None when it
   * could not be opened.
   */
  method WriteToFile(identifier: seq<Byte>, bin: WaveBankBinary, canOpen: bool) returns (file: Option<seq<Byte>>)
    requires BankWritable(identifier, bin)
    ensures canOpen ==> file == Some(WaveBankFileBytes(bin))
    ensures !canOpen ==> file == None
  {
    var fos := new OutputStream();
    var success := fos.InitWithPath(canOpen);
    if !success {
      return None;
    }
    fos.Write(bin.fileIdentifier, |identifier|);
    assert bin.fileIdentifier[..|identifier|] == bin.fileIdentifier;
    CStringMemory(bin.id);
    fos.WriteASCIIString(bin.id + ['\0']);
    fos.WriteInt32BE(bin.numEntries);
    ghost var head := fos.contents;
    var i := 0;
    while i < bin.numEntries
      invariant 0 <= i <= Count(bin.numEntries)
      invariant Appending(fos) && fos.contents == head + Concat(Map(EntryBytes, bin.entries[..i]))
    {
      WriteEntry(fos, bin.entries[i]);
      AppendItem(head, EntryBytes, bin.entries, i);
      i := i + 1;
    }
    assert bin.entries[..i] == Prefix(bin.entries, bin.numEntries);
    fos.Close();
    file := Some(fos.contents);
  }

  // ---------------------------------------------------------------------------------
  // Loader

  /** read: `n` raw bytes. */
  function ReadData(s: seq<Byte>, n: int): (r: Parsed<seq<Byte>>)
    ensures r.Parsed? ==> |r.value| == n && s == r.value + r.rest
  {
    match ReadBytes(s, n)
    case None => Failed(StreamError)
    case Some((b, rest)) => Parsed(b, rest)
  }

  /** An entry (lines 133-141), in the order the writer emits it. */
  function ParseEntry(s: seq<Byte>): (r: Parsed<WaveBankEntryChunk>)
  {
    var name :- ReadString(s);
    var encoding :- ReadInt(name.rest);
    var streaming :- ReadInt(encoding.rest);
    var channels :- ReadInt(streaming.rest);
    var numBytes :- ReadInt(channels.rest);
    var data :- ReadData(numBytes.rest, numBytes.value);
    Parsed(WaveBankEntryChunk(name.value, encoding.value, streaming.value, channels.value, numBytes.value, data.value),
           data.rest)
  }

  /** What follows the identifier (lines 126-142): id, entry count, that many entries. */
  function ParseBody(s: seq<Byte>): (r: Parsed<(string, int, seq<WaveBankEntryChunk>)>)
  {
    var id :- ReadString(s);
    var n :- ReadInt(id.rest);
    var entries :- ParseList(ParseEntry, n.rest, n.value);
    Parsed((id.value, n.value, entries.value), entries.rest)
  }

  datatype WaveBankLoad = WaveBankLoad(code: ResultCode, bin: WaveBankBinary)

  /**
   * kwlWaveBankBinary_loadFromBinaryFile (lines 93-151): the struct is zeroed first,
   * a file that cannot be opened leaves it so, a wrong identifier frees it, and
   * otherwise it holds what the file says. Bytes after the last entry are ignored.
   */
  function LoadWaveBank(identifier: seq<Byte>, file: Option<seq<Byte>>): (r: WaveBankLoad)
    ensures r.code == CouldNotOpenWaveBankBinaryFile <==> file.None?
    ensures r.code == Success || r.code == CouldNotOpenWaveBankBinaryFile ||
            r.code == InvalidFileIdentifier || r.code == StreamError
    ensures r.code != Success ==> r.bin == ZeroWaveBank(|identifier|)
    ensures r.code == Success ==>
              r.bin.fileIdentifier == identifier && |r.bin.entries| == Count(r.bin.numEntries)
  {
    var len := |identifier|;
    match file
    case None => WaveBankLoad(CouldNotOpenWaveBankBinaryFile, ZeroWaveBank(len))
    case Some(f) =>
      var k := MatchingPrefix(identifier, f);
      if k < len && k == |f| then WaveBankLoad(StreamError, ZeroWaveBank(len))
      else if k < len then WaveBankLoad(InvalidFileIdentifier, ZeroWaveBank(len))
      else
        assert f[..len] == identifier;
        LoadBody(f[..len], f[len..])
  }

  /** The load after an identifier that matched: the struct as the rest of the file fills it, or zeroed. */
  function LoadBody(fileIdentifier: seq<Byte>, s: seq<Byte>): (r: WaveBankLoad)
    ensures r.code == Success || r.code == StreamError
    ensures r.code != Success ==> r.bin == ZeroWaveBank(|fileIdentifier|)
    ensures r.code == Success ==>
              r.bin.fileIdentifier == fileIdentifier && |r.bin.entries| == Count(r.bin.numEntries)
  {
    match ParseBody(s)
    case Failed(_) => WaveBankLoad(StreamError, ZeroWaveBank(|fileIdentifier|))
    case Parsed((id, n, entries), _) => WaveBankLoad(Success, WaveBankBinary(fileIdentifier, id, n, entries))
  }

  /** The loader, with its identifier loop and its entry loop. */
  method LoadFromBinaryFile(identifier: seq<Byte>, file: Option<seq<Byte>>) returns (result: ResultCode, bin: WaveBankBinary)
    ensures WaveBankLoad(result, bin) == LoadWaveBank(identifier, file)
  {
    var len := |identifier|;
    bin := ZeroWaveBank(len);
    if file.None? {
      return CouldNotOpenWaveBankBinaryFile, bin;
    }
    var f := file.value;
    ghost var k := MatchingPrefix(identifier, f);
    var i := 0;
    while i < len
      invariant 0 <= i <= len && i <= k
      invariant bin == ZeroWaveBank(len).(fileIdentifier := f[..i] + Zeros(len - i))
    {
      if i == |f| {
        assert k == i;
        return StreamError, ZeroWaveBank(len);
      }
      IdentifierStep(f, len, i);
      bin := bin.(fileIdentifier := bin.fileIdentifier[i := f[i]]);
      if f[i] != identifier[i] {
        assert k == i;
        return InvalidFileIdentifier, ZeroWaveBank(len);
      }
      i := i + 1;
    }
    assert f[..len] + Zeros(0) == f[..len];
    assert LoadWaveBank(identifier, file) == LoadBody(f[..len], f[len..]);
    var id := ReadString(f[len..]);
    if id.Failed? {
      return StreamError, ZeroWaveBank(len);
    }
    var n := ReadInt(id.rest);
    if n.Failed? {
      return StreamError, ZeroWaveBank(len);
    }
    var entries := ReadList(ParseEntry, n.rest, n.value);
    if entries.Failed? {
      return StreamError, ZeroWaveBank(len);
    }
    result, bin := Success, bin.(id := id.value, numEntries := n.value, entries := entries.value);
  }

  // ---------------------------------------------------------------------------------
  // What the loader makes of files

  /** A load succeeds only on a file the probe accepts. */
  lemma LoadedIsWaveBank(identifier: seq<Byte>, file: Option<seq<Byte>>)
    requires LoadWaveBank(identifier, file).code == Success
    ensures file.Some? && HasIdentifier(identifier, file.value)
  {
  }

  /** A file long enough to hold an identifier, but holding another, is refused with InvalidFileIdentifier. */
  lemma ForeignIdentifierRefused(identifier: seq<Byte>, f: seq<Byte>)
    requires |identifier| <= |f| && !HasIdentifier(identifier, f)
    ensures LoadWaveBank(identifier, Some(f)) == WaveBankLoad(InvalidFileIdentifier, ZeroWaveBank(|identifier|))
  {
    var k := MatchingPrefix(identifier, f);
  }

  predicate EntryLoadable(e: WaveBankEntryChunk) {
    StringLoadable(e.fileName) && IsInt32(e.encoding) && IsInt32(e.isStreaming) && IsInt32(e.numChannels) &&
    IsInt32(e.numBytes) && |e.data| == e.numBytes
  }

  /** What a struct needs to come back from its file: ints that fit, strings the reader reads, data as long as its count. */
  predicate BankLoadable(identifier: seq<Byte>, bin: WaveBankBinary) {
    bin.fileIdentifier == identifier && StringLoadable(bin.id) && IsInt32(bin.numEntries) &&
    |bin.entries| == Count(bin.numEntries) &&
    forall i :: 0 <= i < |bin.entries| ==> EntryLoadable(bin.entries[i])
  }

  /** Raw bytes read back as themselves. */
  lemma DataRead(data: seq<Byte>, rest: seq<Byte>)
    ensures ReadData(data + rest, |data|) == Parsed(data, rest)
  {
    assert (data + rest)[..|data|] == data && (data + rest)[|data|..] == rest;
  }

  /** An entry reads back as itself. */
  lemma EntryRoundTrip(e: WaveBankEntryChunk, rest: seq<Byte>)
    requires EntryLoadable(e)
    ensures ParseEntry(EntryBytes(e) + rest) == Parsed(e, rest)
  {
    var h1 := ASCIIString(e.fileName);
    var h2 := h1 + Int32BE(e.encoding);
    var h3 := h2 + Int32BE(e.isStreaming);
    var h4 := h3 + Int32BE(e.numChannels);
    var h5 := h4 + Int32BE(e.numBytes);
    assert Prefix(e.data, e.numBytes) == e.data;
    var r5 := e.data + rest;
    var r4 := Int32BE(e.numBytes) + r5;
    var r3 := Int32BE(e.numChannels) + r4;
    var r2 := Int32BE(e.isStreaming) + r3;
    var r1 := Int32BE(e.encoding) + r2;
    AppendAssoc(h5, e.data, rest);
    AppendAssoc(h4, Int32BE(e.numBytes), r5);
    AppendAssoc(h3, Int32BE(e.numChannels), r4);
    AppendAssoc(h2, Int32BE(e.isStreaming), r3);
    AppendAssoc(h1, Int32BE(e.encoding), r2);
    StringRead(e.fileName, r1);
    IntRead(e.encoding, r2);
    IntRead(e.isStreaming, r3);
    IntRead(e.numChannels, r4);
    IntRead(e.numBytes, r5);
    DataRead(e.data, rest);
  }

  /** The body after the identifier reads back as the struct's id, count and entries. */
  lemma BodyRoundTrip(bin: WaveBankBinary, rest: seq<Byte>)
    requires BankLoadable(bin.fileIdentifier, bin)
    ensures ParseBody(ASCIIString(bin.id) + Int32BE(bin.numEntries) + Concat(Map(EntryBytes, bin.entries)) + rest)
            == Parsed((bin.id, bin.numEntries, bin.entries), rest)
  {
    var entries := Concat(Map(EntryBytes, bin.entries));
    AppendAssoc(ASCIIString(bin.id) + Int32BE(bin.numEntries), entries, rest);
    AppendAssoc(ASCIIString(bin.id), Int32BE(bin.numEntries), entries + rest);
    StringRead(bin.id, Int32BE(bin.numEntries) + (entries + rest));
    IntRead(bin.numEntries, entries + rest);
    forall x, r | x in bin.entries
      ensures ParseEntry(EntryBytes(x) + r) == Parsed(x, r)
    {
      var i :| 0 <= i < |bin.entries| && bin.entries[i] == x;
      EntryRoundTrip(x, r);
    }
    ParseListRoundTrip(ParseEntry, EntryBytes, bin.entries, rest);
  }

  /** What the writer writes, the loader loads back: write then load is the identity. */
  lemma WriteLoadRoundTrip(identifier: seq<Byte>, bin: WaveBankBinary)
    requires BankLoadable(identifier, bin)
    ensures LoadWaveBank(identifier, Some(WaveBankFileBytes(bin))) == WaveBankLoad(Success, bin)
  {
    var len := |identifier|;
    var body := ASCIIString(bin.id) + Int32BE(bin.numEntries) + Concat(Map(EntryBytes, bin.entries));
    PrefixAll(bin.entries, bin.numEntries);
    var f := WaveBankFileBytes(bin);
    AppendAssoc(identifier, ASCIIString(bin.id) + Int32BE(bin.numEntries), Concat(Map(EntryBytes, bin.entries)));
    AppendAssoc(identifier, ASCIIString(bin.id), Int32BE(bin.numEntries));
    assert f == identifier + body;
    assert f[..len] == identifier && f[len..] == body;
    MatchingPrefixOfPrefix(identifier, body);
    assert body + [] == body;
    BodyRoundTrip(bin, []);
  }

  /** What the writer writes, the probe accepts. */
  lemma WrittenIsWaveBank(identifier: seq<Byte>, bin: WaveBankBinary)
    requires bin.fileIdentifier == identifier
    ensures HasIdentifier(identifier, WaveBankFileBytes(bin))
  {
    var rest := ASCIIString(bin.id) + Int32BE(bin.numEntries) + Concat(Map(EntryBytes, Prefix(bin.entries, bin.numEntries)));
    AppendAssoc(identifier, ASCIIString(bin.id) + Int32BE(bin.numEntries), Concat(Map(EntryBytes, Prefix(bin.entries, bin.numEntries))));
    AppendAssoc(identifier, ASCIIString(bin.id), Int32BE(bin.numEntries));
    assert WaveBankFileBytes(bin) == identifier + rest;
    assert (identifier + rest)[..|identifier|] == identifier;
  }

  // ---------------------------------------------------------------------------------
  // Create and free

  /**
   * kwlDuplicateString (lines 154-161): strlen, then a fresh buffer of that many
   * characters and a NUL, filled by memcpy.
   */
  method DuplicateString(mem: seq<char>) returns (copy: array<char>)
    requires '\0' in mem
    ensures fresh(copy)
    ensures copy[..] == mem[..StrLen(mem)] + ['\0']
  {
    var len := 0;
    while mem[len] != '\0'
      invariant 0 <= len <= StrLen(mem)
      decreases StrLen(mem) - len
    {
      len := len + 1;
    }
    copy := new char[len + 1];
    FileUtil.MemCpy(copy, 0, mem, len);
    copy[len] := '\0';
    assert copy[..] == copy[..len] + [copy[len]];
  }

  /** What loading an audio file gives (kwlAudioData, filled by code that is not part of this model). */
  datatype AudioData = AudioData(encoding: int, numChannels: int, numBytes: int, bytes: seq<Byte>)

  /**
   * The entry made for an audio file, as written (lines 233-237): the chained
   * assignment on lines 234-235 stores the byte count in isStreaming as well.
   */
  function EntryFromAudio(fileName: string, a: AudioData): (e: WaveBankEntryChunk)
    ensures e.fileName == fileName && e.encoding == a.encoding && e.numChannels == a.numChannels
    ensures e.numBytes == a.numBytes && e.data == a.bytes
    ensures e.isStreaming != 0 <==> a.numBytes != 0
  {
    WaveBankEntryChunk(fileName, a.encoding, a.numBytes, a.numChannels, a.numBytes, a.bytes)
  }

  /** The entry as evidently meant: isStreaming keeps the 0 the zeroing allocation left in it. */
  function EntryFromAudioCorrected(fileName: string, a: AudioData): (e: WaveBankEntryChunk)
    ensures e.fileName == fileName && e.encoding == a.encoding && e.numChannels == a.numChannels
    ensures e.numBytes == a.numBytes && e.data == a.bytes
    ensures e.isStreaming == 0
  {
    WaveBankEntryChunk(fileName, a.encoding, 0, a.numChannels, a.numBytes, a.bytes)
  }

  /** An entry with four bytes of audio is marked streaming with the value 4, which is no flag. */
  lemma StreamingFlagIsByteCount()
    ensures EntryFromAudio("a.wav", AudioData(0, 1, 4, [0, 0, 0, 0])).isStreaming == 4
  {
  }

  /** The corrected entry keeps every other field, and its streaming flag is a flag. */
  lemma CorrectedEntryFlag(fileName: string, a: AudioData)
    ensures EntryFromAudioCorrected(fileName, a) == EntryFromAudio(fileName, a).(isStreaming := 0)
    ensures EntryFromAudioCorrected(fileName, a).isStreaming in {0, 1}
  {
  }

  /** The first of the banks whose id is `id`, or -1 (the search of lines 184-193). */
  function FirstWaveBank(banks: seq<WaveBankChunk>, id: string): (r: int)
    ensures -1 <= r < |banks|
    ensures r >= 0 ==> banks[r].id == id
    ensures forall j :: 0 <= j < |banks| && (r == -1 || j < r) ==> banks[j].id != id
  {
    if banks == [] then -1
    else if banks[0].id == id then 0
    else
      var r := FirstWaveBank(banks[1..], id);
      if r == -1 then -1 else r + 1
  }

  /** Strings the create step can duplicate, and entry arrays as long as their counts. */
  predicate BankCopyable(b: WaveBankChunk) {
    IsCString(b.id) && Count(b.numAudioDataEntries) <= |b.audioDataEntries| &&
    forall j :: 0 <= j < Count(b.numAudioDataEntries) ==> IsCString(b.audioDataEntries[j])
  }

  predicate BanksCopyable(wbc: WaveBankDataChunk) {
    Count(wbc.numWaveBanks) <= |wbc.waveBanks| &&
    forall i :: 0 <= i < Count(wbc.numWaveBanks) ==> BankCopyable(wbc.waveBanks[i])
  }

  /** The struct the create step makes of a bank: its id, its count, one entry per audio file. */
  predicate CreatedFrom(identifier: seq<Byte>, bank: WaveBankChunk, audio: string -> AudioData, r: WaveBankBinary) {
    r.fileIdentifier == identifier && r.id == bank.id && r.numEntries == bank.numAudioDataEntries &&
    |r.entries| == Count(bank.numAudioDataEntries) <= |bank.audioDataEntries| &&
    forall j :: 0 <= j < |r.entries| ==>
      r.entries[j] == EntryFromAudio(bank.audioDataEntries[j], audio(bank.audioDataEntries[j]))
  }

  /** The search of lines 184-193: the index of the first bank named `id` among the first n. */
  method FindWaveBank(banks: seq<WaveBankChunk>, n: int, id: string) returns (found: int)
    requires Count(n) <= |banks|
    ensures found == FirstWaveBank(Prefix(banks, n), id)
  {
    found := -1;
    var i := 0;
    while i < n
      invariant 0 <= i <= Count(n)
      invariant forall j :: 0 <= j < i ==> banks[j].id != id
    {
      if banks[i].id == id {
        found := i;
        break;
      }
      i := i + 1;
    }
    ghost var searched := Prefix(banks, n);
    var expected := FirstWaveBank(searched, id);
    assert found == -1 ==> forall j :: 0 <= j < |searched| ==> searched[j].id != id;
  }

  /** Lines 206-209: the identifier copied byte by byte into the zeroed struct. */
  method CopyIdentifier(identifier: seq<Byte>) returns (fid: seq<Byte>)
    ensures fid == identifier
  {
    var fileIdentifier := new Byte[|identifier|];
    for k := 0 to |identifier|
      invariant fileIdentifier[..k] == identifier[..k]
    {
      fileIdentifier[k] := identifier[k];
    }
    fid := fileIdentifier[..];
    assert fid == fileIdentifier[..|identifier|];
  }

  /** A C string duplicated by kwlDuplicateString reads back as itself. */
  method CopyString(s: string) returns (copy: string)
    requires IsCString(s)
    ensures copy == s
  {
    CStringMemory(s);
    var mem := DuplicateString(s + ['\0']);
    copy := mem[..mem.Length - 1];
  }

  /** Lines 212-238: one entry per audio file of the bank, each with a copy of its file name. */
  method CopyEntries(bank: WaveBankChunk, audio: string -> AudioData) returns (entries: seq<WaveBankEntryChunk>)
    requires BankCopyable(bank)
    ensures |entries| == Count(bank.numAudioDataEntries)
    ensures forall j :: 0 <= j < |entries| ==>
              entries[j] == EntryFromAudio(bank.audioDataEntries[j], audio(bank.audioDataEntries[j]))
  {
    var n := bank.numAudioDataEntries;
    var a := new WaveBankEntryChunk[Count(n)](_ => ZeroEntry);
    var j := 0;
    while j < n
      invariant 0 <= j <= Count(n)
      invariant forall k :: 0 <= k < j ==> a[k] == EntryFromAudio(bank.audioDataEntries[k], audio(bank.audioDataEntries[k]))
    {
      var fileName := CopyString(bank.audioDataEntries[j]);
      var audioData := audio(fileName);
      // lines 234-235: isStreaming = numBytes = audioData.numBytes
      var numBytes := audioData.numBytes;
      a[j] := WaveBankEntryChunk(fileName, audioData.encoding, numBytes, audioData.numChannels, numBytes, audioData.bytes);
      j := j + 1;
    }
    entries := a[..];
  }

  /** Lines 204-238: the copied identifier and id, and one entry per audio file of the bank. */
  method CopyBank(identifier: seq<Byte>, bank: WaveBankChunk, audio: string -> AudioData) returns (r: WaveBankBinary)
    requires BankCopyable(bank)
    ensures CreatedFrom(identifier, bank, audio, r)
  {
    var fid := CopyIdentifier(identifier);
    var id := CopyString(bank.id);
    var entries := CopyEntries(bank, audio);
    r := WaveBankBinary(fid, id, bank.numAudioDataEntries, entries);
  }

  /**
   * kwlWaveBankBinary_create (lines 163-241). `validation` is what
   * kwlEngineDataBinary_validateFileReferences returned; `audio` is what loading the
   * audio file of an entry gives. A failing validation and an unknown bank id leave
   * the struct as it was.
   */
  method Create(wbBin: WaveBankBinary, edBin: EngineDataBinary, identifier: seq<Byte>, validation: ResultCode,
                audio: string -> AudioData, waveBankId: string)
    returns (rc: ResultCode, r: WaveBankBinary)
    requires BanksCopyable(edBin.waveBankChunk)
    ensures validation != Success ==> rc == validation && r == wbBin
    ensures validation == Success ==>
              var found := FirstWaveBank(Prefix(edBin.waveBankChunk.waveBanks, edBin.waveBankChunk.numWaveBanks), waveBankId);
              (found == -1 ==> rc == WaveBankIdNotFound && r == wbBin) &&
              (found >= 0 ==> rc == Success && CreatedFrom(identifier, edBin.waveBankChunk.waveBanks[found], audio, r))
  {
    if validation != Success {
      return validation, wbBin;
    }
    var waveBank := FindWaveBank(edBin.waveBankChunk.waveBanks, edBin.waveBankChunk.numWaveBanks, waveBankId);
    if waveBank == -1 {
      return WaveBankIdNotFound, wbBin;
    }
    r := CopyBank(identifier, edBin.waveBankChunk.waveBanks[waveBank], audio);
    rc := Success;
  }

  /**
   * kwlWaveBankBinary_free (lines 268-285): the struct ends zeroed; `releasedData`
   * lists, in the order they are released, the entries whose data is released,
   * which are those with a positive byte count.
   */
  method FreeWaveBank(bin: WaveBankBinary) returns (r: WaveBankBinary, releasedData: seq<int>)
    requires Count(bin.numEntries) <= |bin.entries|
    ensures r == ZeroWaveBank(|bin.fileIdentifier|)
    ensures forall j :: j in releasedData <==> 0 <= j < Count(bin.numEntries) && bin.entries[j].numBytes > 0
    ensures forall a, b :: 0 <= a < b < |releasedData| ==> releasedData[a] < releasedData[b]
  {
    releasedData := [];
    var i := 0;
    while i < bin.numEntries
      invariant 0 <= i <= Count(bin.numEntries)
      invariant forall j :: j in releasedData <==> 0 <= j < i && bin.entries[j].numBytes > 0
      invariant forall a :: 0 <= a < |releasedData| ==> releasedData[a] < i
      invariant forall a, b :: 0 <= a < b < |releasedData| ==> releasedData[a] < releasedData[b]
    {
      if bin.entries[i].numBytes > 0 {
        releasedData := releasedData + [i];
      }
      i := i + 1;
    }
    r := ZeroWaveBank(|bin.fileIdentifier|);
  }
}
