/**
 * The build steps of the command-line tool (src/tools/kwl_binarybuilding.c): when the
 * engine data binary or a wave bank binary is rebuilt, where a wave bank binary goes,
 * and which result the wave bank build reports. The file system is an input: whether
 * a file exists, whether a path is a directory, and each file's time stamp. Loading
 * the project, creating a wave bank and writing a binary happen elsewhere; their
 * result codes are inputs as well, and the files written are an output.
 */
module BinaryBuilding {
  import opened ResultCodes
  import opened EngineData
  import opened FileUtil

  /** What the build asks the file system (kwlDoesFileExist, kwlIsFileDirectory, kwlGetFileTimeStamp). */
  datatype FileSystem = FileSystem(fileExists: string -> bool, isDirectory: string -> bool, timeStamp: string -> int)

  // ---------------------------------------------------------------------------------
  // Engine data (lines 32-77)

  /** The dependency check of kwlBuildEngineData (lines 39-51): the binary is newer than the project file. */
  predicate EngineDataUpToDate(fs: FileSystem, xmlPath: string, targetFile: string, forceRebuild: int) {
    fs.fileExists(targetFile) && forceRebuild == 0 && fs.timeStamp(xmlPath) < fs.timeStamp(targetFile)
  }

  /**
   * kwlBuildEngineData (lines 32-77): an up-to-date binary is left alone and reported
   * as a success; otherwise the project is loaded (`loadResult`) and, if that
   * succeeds, the binary is written (`writeResult`). `attemptedWrite` says whether
   * the writer ran.
   */
  method BuildEngineData(fs: FileSystem, xmlPath: string, targetFile: string, forceRebuild: int,
                         loadResult: ResultCode, writeResult: ResultCode)
    returns (result: ResultCode, attemptedWrite: bool)
    ensures EngineDataUpToDate(fs, xmlPath, targetFile, forceRebuild) ==> result == Success && !attemptedWrite
    ensures !EngineDataUpToDate(fs, xmlPath, targetFile, forceRebuild) ==>
              (attemptedWrite <==> loadResult == Success) &&
              (loadResult != Success ==> result == loadResult) &&
              (loadResult == Success ==> result == writeResult)
  {
    if fs.fileExists(targetFile) && forceRebuild == 0 {
      var binTimeStamp := fs.timeStamp(targetFile);
      var xmlTimeStamp := fs.timeStamp(xmlPath);
      if xmlTimeStamp < binTimeStamp {
        return Success, false;
      }
    }
    if loadResult != Success {
      return loadResult, false;
    }
    return writeResult, true;
  }

  /** A forced build, or one whose binary is not strictly newer than the project, always rebuilds. */
  lemma EngineDataRebuiltUnlessNewer(fs: FileSystem, xmlPath: string, targetFile: string, forceRebuild: int)
    requires forceRebuild != 0 || !fs.fileExists(targetFile) || fs.timeStamp(targetFile) <= fs.timeStamp(xmlPath)
    ensures !EngineDataUpToDate(fs, xmlPath, targetFile, forceRebuild)
  {
  }

  // ---------------------------------------------------------------------------------
  // Wave banks (lines 79-203)

  /** The output path of a wave bank binary (lines 145-154): the bank id appended to the directory, then ".kwb". */
  function KwbPath(targetDir: string, wbId: string): (p: string)
    ensures NoNul(p) && |p| >= 4 && p[|p| - 4..] == ".kwb"
  {
    CString(AppendedBuffer(targetDir, wbId)) + ".kwb"
  }

  /**
   * Filling the path buffer (lines 145-154): the appended path is copied with its
   * NUL, which the extension then overwrites, and a new NUL ends the buffer.
   */
  method WaveBankFilePath(targetDir: string, wbId: string) returns (wbFilePath: seq<char>)
    requires NoNul(targetDir) && NoNul(wbId)
    ensures wbFilePath == KwbPath(targetDir, wbId) + ['\0']
    ensures CString(wbFilePath) == KwbPath(targetDir, wbId)
    ensures !StartsWithSep(wbId) ==> wbFilePath == JoinPath(targetDir, wbId) + ".kwb" + ['\0']
  {
    var wbFilePathNoExt := AppendPathElement(targetDir, wbId);
    var noExt := CString(wbFilePathNoExt);
    wbFilePath := WithExtension(noExt);
    ContentOfTerminated(noExt + ".kwb");
    if !StartsWithSep(wbId) {
      ContentOfTerminated(JoinPath(targetDir, wbId));
    }
  }

  /**
   * The buffer of lines 146-154: the path is copied with its NUL, which the
   * extension then overwrites, and a new NUL ends the buffer.
   */
  method WithExtension(path: string) returns (wbFilePath: seq<char>)
    ensures wbFilePath == path + ".kwb" + ['\0']
  {
    var fullPathLen := |path| + 5;
    var buf := new char[fullPathLen](_ => '\0');
    MemCpy(buf, 0, path + ['\0'], |path| + 1);
    assert buf[..|path|] == path;
    buf[fullPathLen - 5] := '.';
    buf[fullPathLen - 4] := 'k';
    buf[fullPathLen - 3] := 'w';
    buf[fullPathLen - 2] := 'b';
    buf[fullPathLen - 1] := '\0';
    assert buf[..|path|] == path;
    wbFilePath := buf[..];
    assert wbFilePath == buf[..|path|] + buf[|path|..];
  }

  /** The path kwlGetAudioFilePath gives an audio entry, as kwlGetFileTimeStamp receives it. */
  function AudioPath(xmlPath: string, audioFileRoot: string, rootIsRelative: bool, entry: string): string
    requires rootIsRelative ==> '/' in xmlPath
  {
    CString(if rootIsRelative then AppendedBuffer(CString(AppendedBuffer(xmlPath[..LastSepIndex(xmlPath)], audioFileRoot)), entry)
            else AppendedBuffer(audioFileRoot, entry))
  }

  /** The time stamps of a bank's audio files, entry by entry. */
  function AudioTimeStamps(fs: FileSystem, xmlPath: string, audioFileRoot: string, rootIsRelative: bool,
                           entries: seq<string>): (stamps: seq<int>)
    requires rootIsRelative ==> '/' in xmlPath
    ensures |stamps| == |entries|
  {
    seq(|entries|, j requires 0 <= j < |entries| => fs.timeStamp(AudioPath(xmlPath, audioFileRoot, rootIsRelative, entries[j])))
  }

  /**
   * The latest of some time stamps as lines 166-179 find it, starting from 0: none
   * is later, and it is 0 or one of them.
   */
  function Latest(stamps: seq<int>): (t: int)
    ensures t >= 0
    ensures forall j :: 0 <= j < |stamps| ==> stamps[j] <= t
    ensures t == 0 || t in stamps
  {
    if stamps == [] then 0
    else
      var latest := Latest(stamps[..|stamps| - 1]);
      if stamps[|stamps| - 1] > latest then stamps[|stamps| - 1] else latest
  }

  /** The latest time stamp of a bank's audio files. */
  function LatestTimeStamp(fs: FileSystem, xmlPath: string, audioFileRoot: string, rootIsRelative: bool,
                           entries: seq<string>): int
    requires rootIsRelative ==> '/' in xmlPath
  {
    Latest(AudioTimeStamps(fs, xmlPath, audioFileRoot, rootIsRelative, entries))
  }

  /** The loop of lines 167-179 over a bank's audio data entries. */
  method LatestAudioFileTimeStamp(fs: FileSystem, xmlPath: string, audioFileRoot: string, rootIsRelative: bool,
                                  entries: seq<string>)
    returns (latest: int)
    requires NoNul(xmlPath) && NoNul(audioFileRoot) && forall e :: e in entries ==> NoNul(e)
    requires rootIsRelative ==> '/' in xmlPath
    ensures latest == LatestTimeStamp(fs, xmlPath, audioFileRoot, rootIsRelative, entries)
  {
    ghost var stamps := AudioTimeStamps(fs, xmlPath, audioFileRoot, rootIsRelative, entries);
    latest := 0;
    for j := 0 to |entries|
      invariant latest == Latest(stamps[..j])
    {
      assert entries[j] in entries;
      var timeStamp := AudioFileTimeStamp(fs, xmlPath, audioFileRoot, rootIsRelative, entries[j]);
      assert stamps[..j + 1][..j] == stamps[..j];
      if timeStamp > latest {
        latest := timeStamp;
      }
    }
    assert stamps[..|entries|] == stamps;
  }

  /** One turn of that loop (lines 169-173): the path of an entry and its time stamp. */
  method AudioFileTimeStamp(fs: FileSystem, xmlPath: string, audioFileRoot: string, rootIsRelative: bool, entry: string)
    returns (timeStamp: int)
    requires NoNul(xmlPath) && NoNul(audioFileRoot) && NoNul(entry)
    requires rootIsRelative ==> '/' in xmlPath
    ensures timeStamp == fs.timeStamp(AudioPath(xmlPath, audioFileRoot, rootIsRelative, entry))
  {
    var audioFilePath := GetAudioFilePath(xmlPath, audioFileRoot, rootIsRelative, entry);
    timeStamp := fs.timeStamp(CString(audioFilePath));
    assert CString(audioFilePath) == AudioPath(xmlPath, audioFileRoot, rootIsRelative, entry) by {
      if rootIsRelative {
        assert audioFilePath == AppendedBuffer(CString(AppendedBuffer(xmlPath[..LastSepIndex(xmlPath)], audioFileRoot)), entry);
      } else {
        assert audioFilePath == AppendedBuffer(audioFileRoot, entry);
      }
    }
  }

  /** The dependency check of lines 158-187: the bank file exists and is newer than the project and every audio file. */
  predicate WaveBankUpToDate(fs: FileSystem, wbPath: string, projectTimeStamp: int, latestAudioTimeStamp: int,
                             forceRebuild: int) {
    fs.fileExists(wbPath) && forceRebuild == 0 &&
    fs.timeStamp(wbPath) > projectTimeStamp && fs.timeStamp(wbPath) > latestAudioTimeStamp
  }

  /** Whether the bank `wb`, once created, is written. */
  predicate ShouldWrite(fs: FileSystem, xmlPath: string, targetDir: string, forceRebuild: int, audioFileRoot: string,
                        rootIsRelative: bool, wb: WaveBankChunk)
    requires rootIsRelative ==> '/' in xmlPath
  {
    !WaveBankUpToDate(fs, KwbPath(targetDir, wb.id), fs.timeStamp(xmlPath),
                      LatestTimeStamp(fs, xmlPath, audioFileRoot, rootIsRelative, wb.audioDataEntries), forceRebuild)
  }

  /** The result of the bank loop (lines 118-141): the code of the last bank that failed, else success. */
  function FinalResult(createResult: string -> ResultCode, banks: seq<WaveBankChunk>): ResultCode
    decreases |banks|
  {
    if banks == [] then Success
    else if createResult(banks[|banks| - 1].id) != Success then createResult(banks[|banks| - 1].id)
    else FinalResult(createResult, banks[..|banks| - 1])
  }

  /** The files the bank loop writes, in order: every created bank that is not up to date. */
  function Written(fs: FileSystem, xmlPath: string, targetDir: string, forceRebuild: int, audioFileRoot: string,
                   rootIsRelative: bool, createResult: string -> ResultCode, banks: seq<WaveBankChunk>): seq<string>
    requires rootIsRelative ==> '/' in xmlPath
    decreases |banks|
  {
    if banks == [] then []
    else
      var written := Written(fs, xmlPath, targetDir, forceRebuild, audioFileRoot, rootIsRelative, createResult,
                             banks[..|banks| - 1]);
      var wb := banks[|banks| - 1];
      if createResult(wb.id) == Success && ShouldWrite(fs, xmlPath, targetDir, forceRebuild, audioFileRoot, rootIsRelative, wb)
      then written + [KwbPath(targetDir, wb.id)]
      else written
  }

  /** The paths of the banks that are created, in order. */
  function CreatedPaths(targetDir: string, createResult: string -> ResultCode, banks: seq<WaveBankChunk>): seq<string>
    decreases |banks|
  {
    if banks == [] then []
    else
      var created := CreatedPaths(targetDir, createResult, banks[..|banks| - 1]);
      if createResult(banks[|banks| - 1].id) == Success then created + [KwbPath(targetDir, banks[|banks| - 1].id)]
      else created
  }

  /** Identifiers and audio entries the build hands on as C strings. */
  predicate BanksAreStrings(banks: seq<WaveBankChunk>) {
    forall wb :: wb in banks ==> NoNul(wb.id) && forall e :: e in wb.audioDataEntries ==> NoNul(e)
  }

  /**
   * kwlBuildWaveBanks (lines 79-203). The target must be a directory; then the
   * project document (`docResult`) and the engine data (`loadResult`) must load.
   * Every bank is then created (`createResult` by bank id); a failure is remembered
   * and the loop goes on; a created bank is written unless its file is up to date.
   */
  method BuildWaveBanks(fs: FileSystem, xmlPath: string, targetDir: string, forceRebuild: int,
                        docResult: ResultCode, loadResult: ResultCode, banks: seq<WaveBankChunk>,
                        audioFileRoot: string, rootIsRelative: bool, createResult: string -> ResultCode)
    returns (result: ResultCode, written: seq<string>)
    requires NoNul(xmlPath) && NoNul(targetDir) && NoNul(audioFileRoot) && BanksAreStrings(banks)
    requires rootIsRelative ==> '/' in xmlPath
    ensures !fs.isDirectory(targetDir) ==> result == InvalidPath && written == []
    ensures fs.isDirectory(targetDir) && docResult != Success ==> result == docResult && written == []
    ensures fs.isDirectory(targetDir) && docResult == Success && loadResult != Success ==>
              result == loadResult && written == []
    ensures fs.isDirectory(targetDir) && docResult == Success && loadResult == Success ==>
              result == FinalResult(createResult, banks) &&
              written == Written(fs, xmlPath, targetDir, forceRebuild, audioFileRoot, rootIsRelative, createResult, banks)
  {
    if !fs.isDirectory(targetDir) {
      return InvalidPath, [];
    }
    if docResult != Success {
      return docResult, [];
    }
    if loadResult != Success {
      return loadResult, [];
    }
    var finalResult := Success;
    written := [];
    for i := 0 to |banks|
      invariant finalResult == FinalResult(createResult, banks[..i])
      invariant written == Written(fs, xmlPath, targetDir, forceRebuild, audioFileRoot, rootIsRelative, createResult, banks[..i])
    {
      assert banks[..i + 1][..i] == banks[..i];
      var wb := banks[i];
      assert wb in banks;
      var wbResult, path := BuildWaveBank(fs, xmlPath, targetDir, forceRebuild, audioFileRoot, rootIsRelative,
                                          createResult, wb);
      assert FinalResult(createResult, banks[..i + 1]) ==
             if wbResult != Success then wbResult else FinalResult(createResult, banks[..i]);
      assert Written(fs, xmlPath, targetDir, forceRebuild, audioFileRoot, rootIsRelative, createResult, banks[..i + 1]) ==
             written + path;
      if wbResult != Success {
        finalResult := wbResult;
      }
      written := written + path;
    }
    assert banks[..|banks|] == banks;
    result := finalResult;
  }

  /**
   * One turn of the bank loop (lines 122-197): the bank is created; a created bank
   * gets its path and is written, as `writtenPath`, unless its file is up to date.
   */
  method BuildWaveBank(fs: FileSystem, xmlPath: string, targetDir: string, forceRebuild: int, audioFileRoot: string,
                       rootIsRelative: bool, createResult: string -> ResultCode, wb: WaveBankChunk)
    returns (wbResult: ResultCode, writtenPath: seq<string>)
    requires NoNul(xmlPath) && NoNul(targetDir) && NoNul(audioFileRoot) && BanksAreStrings([wb])
    requires rootIsRelative ==> '/' in xmlPath
    ensures wbResult == createResult(wb.id)
    ensures writtenPath == if wbResult == Success && ShouldWrite(fs, xmlPath, targetDir, forceRebuild, audioFileRoot,
                                                                 rootIsRelative, wb)
                           then [KwbPath(targetDir, wb.id)] else []
  {
    assert wb in [wb];
    wbResult := createResult(wb.id);
    if wbResult != Success {
      return wbResult, [];
    }
    var wbFilePath := WaveBankFilePath(targetDir, wb.id);
    var path := CString(wbFilePath);
    var shouldWrite := true;
    if fs.fileExists(path) && forceRebuild == 0 {
      var wbTimestamp := fs.timeStamp(path);
      var projectTimestamp := fs.timeStamp(xmlPath);
      var latestAudioFileTimeStamp := LatestAudioFileTimeStamp(fs, xmlPath, audioFileRoot, rootIsRelative,
                                                                wb.audioDataEntries);
      if wbTimestamp > projectTimestamp && wbTimestamp > latestAudioFileTimeStamp {
        shouldWrite := false;
      }
    }
    writtenPath := if shouldWrite then [path] else [];
  }

  /** The build succeeds exactly when every bank is created. */
  lemma {:induction false} FinalResultSuccess(createResult: string -> ResultCode, banks: seq<WaveBankChunk>)
    ensures FinalResult(createResult, banks) == Success <==> forall k :: 0 <= k < |banks| ==> createResult(banks[k].id) == Success
    decreases |banks|
  {
    if banks != [] {
      var init := banks[..|banks| - 1];
      FinalResultSuccess(createResult, init);
      assert forall k :: 0 <= k < |init| ==> init[k] == banks[k];
    }
  }

  /** A failing build reports the code of a bank that failed, and every bank after it was created. */
  lemma {:induction false} FinalResultIsLastFailure(createResult: string -> ResultCode, banks: seq<WaveBankChunk>)
    requires FinalResult(createResult, banks) != Success
    ensures exists k :: 0 <= k < |banks| && createResult(banks[k].id) == FinalResult(createResult, banks) &&
                        forall m :: k < m < |banks| ==> createResult(banks[m].id) == Success
    decreases |banks|
  {
    var last := |banks| - 1;
    if createResult(banks[last].id) == Success {
      var init := banks[..last];
      assert FinalResult(createResult, banks) == FinalResult(createResult, init);
      FinalResultIsLastFailure(createResult, init);
      var k :| 0 <= k < |init| && createResult(init[k].id) == FinalResult(createResult, init) &&
               forall m :: k < m < |init| ==> createResult(init[m].id) == Success;
      assert banks[k] == init[k];
      assert forall m :: k < m < last ==> banks[m] == init[m];
      assert forall m :: k < m < |banks| ==> createResult(banks[m].id) == Success;
    } else {
      assert createResult(banks[last].id) == FinalResult(createResult, banks);
    }
  }

  /** A forced build writes every bank it creates, whatever the time stamps say. */
  lemma {:induction false} ForcedBuildWritesEveryCreatedBank(
    fs: FileSystem, xmlPath: string, targetDir: string, forceRebuild: int, audioFileRoot: string,
    rootIsRelative: bool, createResult: string -> ResultCode, banks: seq<WaveBankChunk>)
    requires rootIsRelative ==> '/' in xmlPath
    requires forceRebuild != 0
    ensures Written(fs, xmlPath, targetDir, forceRebuild, audioFileRoot, rootIsRelative, createResult, banks)
            == CreatedPaths(targetDir, createResult, banks)
    decreases |banks|
  {
    if banks != [] {
      ForcedBuildWritesEveryCreatedBank(fs, xmlPath, targetDir, forceRebuild, audioFileRoot, rootIsRelative,
                                        createResult, banks[..|banks| - 1]);
    }
  }

  /** A bank with an audio file at least as new as its binary is not up to date. */
  lemma StaleAudioRebuilds(fs: FileSystem, xmlPath: string, targetDir: string, forceRebuild: int, audioFileRoot: string,
                           rootIsRelative: bool, wb: WaveBankChunk, j: int)
    requires rootIsRelative ==> '/' in xmlPath
    requires 0 <= j < |wb.audioDataEntries|
    requires fs.timeStamp(AudioPath(xmlPath, audioFileRoot, rootIsRelative, wb.audioDataEntries[j]))
             >= fs.timeStamp(KwbPath(targetDir, wb.id))
    ensures ShouldWrite(fs, xmlPath, targetDir, forceRebuild, audioFileRoot, rootIsRelative, wb)
  {
    var stamps := AudioTimeStamps(fs, xmlPath, audioFileRoot, rootIsRelative, wb.audioDataEntries);
    assert stamps[j] <= Latest(stamps);
  }
}
