# kowalski: the event render engine and the build tools, in Dafny

This project is a model of two parts of the kowalski audio engine.

The first is the per-event render engine of `src/engine/kwl_eventinstance.c`. It covers:
- an event instance's initialisation and start;
- the freeform event factory and its release;
- the frame arithmetic behind pitch shifting;
- the render step. The render step checks the playback state and advances the fade. It then mixes 16-bit PCM source buffers into a float output buffer, moving on from one source buffer to the next, and applies the per-buffer gain ramp.

The second is the build tool chain under `src/tools` and `src/tools_cli`. It covers:
- the big-endian file writer;
- the path helpers and the XML tree helpers;
- the engine data binary: its writer, its loader, its lookups and free;
- the wave bank binary: its probe, writer, loader, creation and free;
- the build steps, with their dependency checks;
- the command-line dispatch.

Each source file has its own module:

| module | source |
|---|---|
| `Engine` | kwl_eventinstance.c |
| `FileOutputStream` | kwl_fileoutputstream.c |
| `FileUtil` | kwl_fileutil.c |
| `XmlUtil` | kwl_xmlutil.c |
| `EngineData`, `EngineDataWriter`, `EngineDataLoader`, `EngineDataRoundTrip` | kwl_enginedatabinary.c |
| `WaveBank` | kwl_wavebankbinary.c |
| `BinaryBuilding` | kwl_binarybuilding.c |
| `Cli` | tools_cli/main.c |

Three support modules come with them:
- `BinaryCodec`: byte concatenation and a generic list parser;
- `InputStream`: the reader the loaders rely on;
- `ResultCodes`: the tools' result codes.

The code's own form is kept where it is stateful:
- An event instance is a class whose methods update its fields in place.
- The render step fills an `array<real>`.
- The file output stream is a class holding the file contents and a position, and the writers are methods that append to it.

The loaders, the free functions and the path helpers return values. They are specified by functions over byte sequences and strings, and the lemmas beside them prove:
- the write/load round trips;
- what the loaders guarantee about the data they accept;
- the first-match semantics of the lookups;
- the dependency rules of the build steps.

In the engine data format, two writers do not produce what the loader reads. In the wave bank creation, one field is set to the wrong value. In the path helper, one memcpy copies the wrong range. Each is modelled as written, with a counterexample, and a corrected twin with its property proved (see Findings).

Constants defined in headers that are not part of this model become parameters:
- PITCH_EPSILON is `epsilon`;
- the file identifiers and chunk ids are fields of `EngineData.Format` or an `identifier` argument.

Floats stored in the binaries are kept as their 32-bit patterns. The engine's floats are `real`.

## Model

| member | source | states |
|---|---|---|
| Engine.EventInstance.Init | src/engine/kwl_eventinstance.c:35-66 | every field of a fresh instance has the default init gives it: no definitions, unit user gain and pitch, zero vectors, full fade gain, state Stopped, no current buffer |
| Engine.EventInstance.Start | src/engine/kwl_eventinstance.c:68-77 | start rewinds the buffer count, frame index and pitch accumulator, sets Playing and unit sound pitch, and marks the previous gain with the -1 sentinel |
| Engine.CreateFreeformEventFromAudioData | src/engine/kwl_eventinstance.c:133-196 | always succeeds with a fresh instance whose mixer and engine definitions are the freeform definition of the audio data, stopped, at full fade and unit gain and pitch |
| Engine.FreeformDefinition | src/engine/kwl_eventinstance.c:140-188 | a freeform definition has no mix bus, one instance, no wave banks and no stream; it is positional exactly for positional events; it has a sound exactly when the audio is 16-bit PCM, and that sound plays the one audio entry once; its id is the given one |
| Engine.BufferAudioData | src/engine/kwl_eventinstance.c:89-96 | a valid caller buffer becomes 16-bit PCM audio data with the same frames, channels and samples and 2 bytes per sample |
| Engine.CreateFreeformEventFromBuffer | src/engine/kwl_eventinstance.c:79-102 | the result is InvalidParameterValue with no event exactly when the buffer has no frames, more than 2 or fewer than 1 channel, or no data; otherwise a fresh event plays the buffer under the buffer event id |
| Engine.CreateFreeformEventFromFile | src/engine/kwl_eventinstance.c:104-131 | a load error is returned with no event; a positional event from non-mono audio is PositionalEventMustBeMono with no event; otherwise a fresh event plays the loaded audio under the file event id |
| Engine.ReleasedSamples | src/engine/kwl_eventinstance.c:198-229 | release frees the stream's samples when there is a stream, frees nothing for a buffer event (the caller owns those samples), and otherwise frees the sound's first entry |
| Engine.ReleaseFreeformEvent | src/engine/kwl_eventinstance.c:198-229 | the samples the release frees are ReleasedSamples of the event's definition |
| Engine.FreeformReleasable | src/engine/kwl_eventinstance.c:140-229 | every freeform definition the factory makes can be released |
| Engine.BufferEventKeepsSamples | src/engine/kwl_eventinstance.c:79-102 | releasing an event made from a caller's buffer never frees the caller's samples |
| Engine.FileEventReleasesSamples | src/engine/kwl_eventinstance.c:104-131 | releasing an event made from a loaded PCM file frees the loaded samples |
| Engine.NonPcmEventHasNothingToPlay | src/engine/kwl_eventinstance.c:150-188 | a freeform event from audio that is not 16-bit PCM gets no sound and frees nothing on release |
| Engine.UnitPitchWindow | src/engine/kwl_eventinstance.c:232-237 | the unit-pitch test accepts exactly the pitches strictly within epsilon of 1: pitch 1 passes for every positive epsilon, and neither edge of the window passes |
| Engine.NumRemainingOutFrames | src/engine/kwl_eventinstance.c:239-252 | at unit pitch the remaining output frames are the source frames left; at a shifted pitch they are the largest count whose source consumption, count times pitch, fits in what is left of the buffer past the accumulator |
| Engine.Trunc | src/engine/kwl_eventinstance.c:248 | the C float-to-int cast truncates toward zero, for both signs |
| Engine.RemainingNonNegative | src/engine/kwl_eventinstance.c:239-252 | the number of output frames left in the source buffer is never negative while the cursor is inside the buffer (the assertion at line 249) |
| Engine.RemainingFramesFit | src/engine/kwl_eventinstance.c:239-252 | at a shifted pitch, the remaining output frames times the pitch fit in what is left of the source buffer |
| Engine.EffectivePitch | src/engine/kwl_eventinstance.c:332-336 | the effective pitch is the product of event, sound and bus pitch, raised to epsilon when below it, so it is never below epsilon |
| Engine.PassEnd | src/engine/kwl_eventinstance.c:342-347 | a pass ends at the last output frame unless the source runs out first; the end-of-source flag is set exactly then, and the pass stops at the remaining frames (plus one at a shifted pitch) |
| Engine.SlotInFrame | src/engine/kwl_eventinstance.c:361-363 | sample slot `ch` of a frame lies within that frame's interleaved slots |
| Engine.SlotIsProduct | src/engine/kwl_eventinstance.c:361-363 | the slot index is frame times channel count plus channel |
| Engine.SlotFrame | src/engine/kwl_eventinstance.c:418-420 | dividing a slot index by the channel count gives back its frame |
| Engine.SlotShift | src/engine/kwl_eventinstance.c:361-363 | moving k frames moves a slot by k times the channel count |
| Engine.Travel | src/engine/kwl_eventinstance.c:381-390 | the pitch accumulator only grows at a non-negative pitch |
| Engine.Advance | src/engine/kwl_eventinstance.c:366-390 | mixing n frames advances the source cursor by n frames at unit pitch, never moves it back at a shifted pitch, and keeps the accumulator's fractional part in [0, 1) |
| Engine.Int16ToFloatWithGain | src/engine/kwl_eventinstance.c:369-376 | the unit-pitch kernel leaves the output and source slot indices one past the frames mixed and writes nothing outside the frames of the pass |
| Engine.Int16ToFloatWithGainAndPitch | src/engine/kwl_eventinstance.c:381-390 | the pitch-shifting kernel leaves the output index at the pass end, the source cursor where Advance puts it, and writes nothing outside the frames of the pass |
| Engine.CopyLeftToRight | src/engine/kwl_eventinstance.c:396-405 | mono into stereo: every right slot of the pass equals its left slot, and nothing outside the pass changes |
| Engine.MixedFrom | src/engine/kwl_eventinstance.c:396-418 | the record of source channel counts grows by the frames of the pass, all mixed from the current buffer's channels |
| Engine.PairsKept | src/engine/kwl_eventinstance.c:396-405 | every stereo frame mixed from a mono buffer, in this pass or an earlier one, keeps equal left and right samples |
| Engine.ClearFloatBuffer | src/engine/kwl_eventinstance.c:292 | clearing sets exactly the given range of the output to 0.0 and leaves the rest |
| Engine.RampFlat | src/engine/kwl_eventinstance.c:489-493 | a ramp between equal gains is flat |
| Engine.RampStart | src/engine/kwl_eventinstance.c:489-493 | the ramp starts at the previous gain |
| Engine.ApplyGainRamp | src/engine/kwl_eventinstance.c:489-493 | each output sample of the buffer is scaled by its channel's ramped gain, and samples beyond the buffer are unchanged |
| Engine.Admit | src/engine/kwl_eventinstance.c:262-299 | the state check: stop-and-unload always finishes; stop finishes when the sound allows an immediate stop; play-last-buffer picks the next buffer first when it does; a paused event that is not being stopped renders silence |
| Engine.StopOutranksPause | src/engine/kwl_eventinstance.c:262-294 | a stop request is handled the same way whether or not the event is paused, and never renders silence |
| Engine.FadeStep | src/engine/kwl_eventinstance.c:302-315 | the fade gain advances by increment times frames and is clamped into [0, 1]; the fade has finished exactly when the gain would drop below 0, and then the gain is 0 |
| Engine.EventInstance.PickNextBuffer | src/engine/kwl_eventinstance.c:440 | picking a buffer finishes exactly when there is none left, and then changes nothing; otherwise the first queued buffer becomes the current one, read from frame 0 |
| Engine.EventInstance.NextBuffer | src/engine/kwl_eventinstance.c:425-441 | the end of a source buffer counts one more buffer played; a code-created PCM event is then done; otherwise the next buffer is picked, or the event is done when there is none |
| Engine.EventInstance.MixPass | src/engine/kwl_eventinstance.c:349-415 | one pass over the channels leaves the output frame at the pass end and the source cursor where Advance puts it; it writes only the frames of the pass, and a mono buffer into stereo gives equal pairs |
| Engine.EventInstance.MixPassAndAdvance | src/engine/kwl_eventinstance.c:349-420 | after one pass the output frame is at the pass end (or stays put when the pass is empty); the source cursor is Advance of the old cursor at the effective pitch by the frames of the pass; the record of source channels grows by those frames; nothing outside the pass changes; and every stereo frame mixed from a mono buffer so far has equal left and right samples |
| Engine.EventInstance.MixStep | src/engine/kwl_eventinstance.c:331-420 | one iteration of the mixing loop moves the output frame forward and reaches the end of the output unless the source buffer ran out; the source cursor is Advance of the old cursor, at the effective pitch of event, sound and bus, by the frames moved; the pair invariant holds and the tail of the array is untouched |
| Engine.EventInstance.Mix | src/engine/kwl_eventinstance.c:317-463 | the mixing loop fills all frames unless the event finished, and when it finishes the rest of the output is zero; the buffers taken are a prefix of the queue, each counted as played, and the last one too when the event finishes; the source cursor is Advance, at the effective pitch, from the old cursor when no buffer was taken, or else from frame 0 of the last buffer entered, by the frames mixed since; at unit pitch on one buffer the frame index moves by exactly numFrames |
| Engine.EventInstance.MixAndRamp | src/engine/kwl_eventinstance.c:317-499 | the output is the mixed samples ramped per channel from the previous effective gain (or, on the first render after a start, from the new gain itself) to fade gain times channel gain, which is stored as the previous gain; beyond the mixed frames of a finished event the output is zero; the source is consumed as Mix says, from the state the call started in |
| Engine.EventInstance.FadeMixAndRamp | src/engine/kwl_eventinstance.c:302-499 | the fade gain becomes the one FadeStep gives; a finished fade returns 1 and leaves the output, the source and the previous gain alone; otherwise the output, the gains and the source are as MixAndRamp states from the call's starting state |
| Engine.EventInstance.RenderChecks | src/engine/kwl_eventinstance.c:262-299 | the checks follow Admit: mixing goes on exactly on PickThenMix or MixNow, with the output untouched; finish and silence leave the event and the source alone; the pick takes the first queued buffer, from frame 0, or changes nothing when there is none |
| Engine.EventInstance.EndOfSourceBuffer | src/engine/kwl_eventinstance.c:423-454 | reaching the end of a source buffer counts one more buffer played; either the next queued buffer becomes current from frame 0 and the output is untouched, or the event is done and the output from the current frame to the end is zero, with nothing else of the output changed |
| Engine.EventInstance.FirstRenderIsFlat | src/engine/kwl_eventinstance.c:477-493 | on the first render after a start there is no ramp: every sample is the mixed sample times its channel's new effective gain |
| Engine.EventInstance.FinishedTailIsSilent | src/engine/kwl_eventinstance.c:443-493 | when the event finishes, the output after the frames mixed from source data is silent after the ramp too |
| Engine.EventInstance.UnitPitchRenderMovesByFrames | src/engine/kwl_eventinstance.c:366-376 | at unit pitch, a render that fills the output from the buffer it started on moves the source frame index by exactly numFrames and keeps the accumulator |
| Engine.EventInstance.Render | src/engine/kwl_eventinstance.c:254-500 | Admit's decision on the old state is followed: finish returns 1 and changes nothing; paused zeroes the output and returns 0; a low pitch is raised to epsilon outside the stop states; otherwise mixing starts from the current buffer, or, when the last buffer is to be played, from the first queued buffer at frame 0 with that buffer consumed; the fade, mix and ramp are as FadeMixAndRamp states from there; nothing past numFrames times numOutChannels is written |
| FileOutputStream.Signed32 | src/tools/kwl_fileoutputstream.c:73-76 | a float's bit pattern read as an int is the signed 32-bit value with that pattern |
| FileOutputStream.Int32BE | src/tools/kwl_fileoutputstream.c:59-70 | an int is written as 4 bytes, most significant first, whose big-endian value is the int modulo 2^32 |
| FileOutputStream.BigEndianDigits | src/tools/kwl_fileoutputstream.c:59-70 | the four shifted bytes are digits in base 256 that add up to the value |
| FileOutputStream.CharBytes | src/tools/kwl_fileoutputstream.c:34-52 | each character becomes the byte of its code modulo 256, which is its code for a C string |
| FileOutputStream.StrLen | src/tools/kwl_fileoutputstream.c:37 | strlen is the index of the first NUL |
| FileOutputStream.CStringMemory | src/tools/kwl_fileoutputstream.c:37 | a C string followed by its NUL has strlen equal to its length |
| FileOutputStream.Overwrite | src/tools/kwl_fileoutputstream.c:54-57 | writing at a position replaces the bytes there, extends the file when it runs past the end, and keeps everything before and after |
| FileOutputStream.OverwriteAtEnd | src/tools/kwl_fileoutputstream.c:54-57 | writing at the end appends |
| FileOutputStream.OverwriteTwice | src/tools/kwl_fileoutputstream.c:54-57 | two consecutive writes are one write of both |
| FileOutputStream.OverwriteMiddle | src/tools/kwl_fileoutputstream.c:54-57 | overwriting a part with one of the same length replaces just that part |
| FileOutputStream.StringWrites | src/tools/kwl_fileoutputstream.c:34-52 | a length followed by the characters is the string's encoding, and it appends at the end |
| FileOutputStream.OutputStream.constructor | src/tools/kwl_fileoutputstream.h:17-20 | a new stream is closed, empty and at position 0 |
| FileOutputStream.OutputStream.InitWithPath | src/tools/kwl_fileoutputstream.c:10-24 | opening succeeds exactly when the file can be opened, and the file starts empty |
| FileOutputStream.OutputStream.Close | src/tools/kwl_fileoutputstream.c:26-32 | closing keeps the contents |
| FileOutputStream.OutputStream.Write | src/tools/kwl_fileoutputstream.c:54-57 | the first numBytes of the data are written at the position, which moves past them |
| FileOutputStream.OutputStream.WriteInt32BE | src/tools/kwl_fileoutputstream.c:59-70 | the int's 4 big-endian bytes are written at the position |
| FileOutputStream.OutputStream.WriteFloat32BE | src/tools/kwl_fileoutputstream.c:73-76 | the float's bit pattern is written as a big-endian int |
| FileOutputStream.OutputStream.WriteASCIIString | src/tools/kwl_fileoutputstream.c:34-52 | the string up to its NUL is written as its length followed by its characters |
| FileOutputStream.OutputStream.Tell | src/tools/kwl_enginedatabinary.c:522 | ftell gives the current position |
| FileOutputStream.OutputStream.Seek | src/tools/kwl_enginedatabinary.c:654-656 | fseek moves the position and changes nothing else |
| FileUtil.Content | src/tools/kwl_fileutil.c:59-60 | a C buffer's string is everything before its first NUL |
| FileUtil.ContentOfTerminated | src/tools/kwl_fileutil.c:59-60 | a string followed by NUL reads back as itself |
| FileUtil.CString | src/tools/kwl_fileutil.c:133-134 | a returned buffer passed on as a C string is read up to its first NUL, or whole when it has none |
| FileUtil.MemCpy | src/tools/kwl_fileutil.c:85-87 | memcpy replaces n bytes at the offset with the first n of the source |
| FileUtil.AppendPathElement | src/tools/kwl_fileutil.c:57-90 | the result is the buffer the code builds; without a leading separator on the appended element it is the two joined by exactly one '/', NUL-terminated; with one, the buffer has no NUL |
| FileUtil.AppendedBufferShape | src/tools/kwl_fileutil.c:81-87 | the head and tail the two memcpy calls write make up that buffer |
| FileUtil.HeadAfterSeparator | src/tools/kwl_fileutil.c:84-86 | after the first memcpy and the '/' store, the buffer begins with the path without its trailing separator, then '/' |
| FileUtil.AppendPathElementCorrected | src/tools/kwl_fileutil.c:57-90 | the corrected helper always gives the two joined by exactly one '/', NUL-terminated |
| FileUtil.CorrectedShape | src/tools/kwl_fileutil.c:87 | copying the element from after its separator gives the joined path |
| FileUtil.JoinPathOneSeparator | src/tools/kwl_fileutil.c:62-81 | joining puts exactly one separator between the parts, whichever of them already carries one |
| FileUtil.AppendLeadingSeparatorUnterminated | src/tools/kwl_fileutil.c:87 | "sounds" and "/a.wav" give "sounds//a.wav" with no NUL, where "sounds/a.wav" was meant |
| FileUtil.LastSepIndex | src/tools/kwl_fileutil.c:98-106 | the index found is a '/' with none after it |
| FileUtil.GetFileDirectory | src/tools/kwl_fileutil.c:92-114 | a file's directory is the path up to its last '/', NUL-terminated |
| FileUtil.GetAudioFilePath | src/tools/kwl_fileutil.c:116-148 | with a relative root the audio path is the project file's directory joined with the root, read as a C string, then joined with the entry; otherwise the root joined with the entry; when neither the root nor the entry starts with '/', these are the parts joined by single separators and NUL-terminated |
| XmlUtil.TraverseNodeTree | src/tools/kwl_xmlutil.c:33-52 | the traversal reports only leaf nodes |
| XmlUtil.TraverseChildren | src/tools/kwl_xmlutil.c:38-51 | the traversal of a child list reports only leaf nodes |
| XmlUtil.TraverseReaches | src/tools/kwl_xmlutil.c:38-51 | every leaf child is reported, and so is every leaf in a branch child's subtree |
| XmlUtil.AttributeLookupFirst | src/tools/kwl_xmlutil.c:55-69 | an attribute lookup is absent exactly when no attribute has the name, and otherwise gives the first one that does |
| XmlUtil.GetAttributeValue | src/tools/kwl_xmlutil.c:55-69 | the value is that of the first attribute with the name |
| XmlUtil.GetAttributeValueCopy | src/tools/kwl_xmlutil.c:71-97 | the copy is absent exactly when the attribute is, and is otherwise its value followed by a NUL |
| XmlUtil.GetBoolAttributeValue | src/tools/kwl_xmlutil.c:109-124 | the result is 1 exactly when the value is "true", "True" or "TRUE", and 0 otherwise |
| XmlUtil.Names | src/tools/kwl_xmlutil.c:127-140 | a child list has one name per child |
| XmlUtil.CountNamedMultiplicity | src/tools/kwl_xmlutil.c:127-140 | counting the children with a name gives that name's multiplicity among the child names |
| XmlUtil.GetChildCount | src/tools/kwl_xmlutil.c:127-140 | the count is the number of children with the name |
| XmlUtil.GetChild | src/tools/kwl_xmlutil.c:216-227 | absent exactly when no child has the name, and otherwise the first child that does |
| XmlUtil.ChildWithId | src/tools/kwl_xmlutil.c:229-251 | absent exactly when no element child has the id, and otherwise the first one that does |
| XmlUtil.GetChildWithIdAttributeValue | src/tools/kwl_xmlutil.c:229-251 | the loop finds the child ChildWithId specifies |
| XmlUtil.FirstSep | src/tools/kwl_xmlutil.c:277-280 | the first '/' of a path, or its length when it has none |
| XmlUtil.SplitPath | src/tools/kwl_xmlutil.c:253-302 | a path splits into at least one element |
| XmlUtil.SplitPathRoundTrip | src/tools/kwl_xmlutil.c:253-302 | joining the elements with '/' gives back the path, and no element contains '/' |
| XmlUtil.ResolveAppend | src/tools/kwl_xmlutil.c:253-302 | resolving a + b is resolving b from where a leads |
| XmlUtil.ResolvePathStep | src/tools/kwl_xmlutil.c:253-302 | "p/q" resolves as p, then q from there |
| XmlUtil.FirstSepAt | src/tools/kwl_xmlutil.c:277-280 | an index with no '/' before it and a '/' (or the end) at it is the first separator |
| XmlUtil.ResolveFirstElement | src/tools/kwl_xmlutil.c:253-302 | resolution starts with the element before the first separator |
| XmlUtil.ResolveElementAt | src/tools/kwl_xmlutil.c:253-302 | the element from `start` to the next separator is the next step of the resolution |
| XmlUtil.ScanElement | src/tools/kwl_xmlutil.c:277-280 | the scan stops at the next '/' or at the end |
| XmlUtil.ResolveNodePath | src/tools/kwl_xmlutil.c:253-302 | an empty path or one starting with '/' gives nothing; otherwise the node the path's elements lead to by id, step by step |
| EngineData.Count | src/tools/kwl_enginedatabinary.c:526 | a loop `for (i = 0; i < n; i++)` runs max(n, 0) times |
| EngineData.Zeros | src/tools/kwl_enginedatabinary.c:670 | memset gives n zero bytes |
| EngineData.Free | src/tools/kwl_enginedatabinary.c:982-1043 | free zeroes the identifier and empties every chunk |
| EngineData.GetMixBusIndex | src/tools/kwl_enginedatabinary.c:164-179 | the index of the first mix bus with the id, or -1 when there is none |
| EngineData.GetWaveBankIndex | src/tools/kwl_enginedatabinary.c:288-303 | the index of the first wave bank with the id, or -1 when there is none |
| EngineData.GetAudioDataIndex | src/tools/kwl_enginedatabinary.c:306-321 | the index of the first audio entry with the id, or -1 when there is none |
| EngineData.SumEntryCountsAppend | src/tools/kwl_enginedatabinary.c:278-285 | the total number of audio entries is additive over the list of banks |
| EngineData.SumEntryCountsBound | src/tools/kwl_enginedatabinary.c:278-285 | with non-negative counts the total is non-negative and bounds each bank's count |
| EngineData.TotalAudioDataItems | src/tools/kwl_enginedatabinary.c:278-285 | the loop stores the sum of the entry counts of the banks it visits |
| EngineDataWriter.Prefix | src/tools/kwl_enginedatabinary.c:526 | the first `n` items, as a counted loop visits them |
| EngineDataWriter.ChunkBytes | src/tools/kwl_enginedatabinary.c:519-521 | a chunk is its 8-byte header followed by its body |
| EngineDataWriter.PatchedChunks | src/tools/kwl_enginedatabinary.c:652-659 | patching leaves one chunk per id |
| EngineDataWriter.WriteMixBus | src/tools/kwl_enginedatabinary.c:542-555 | a mix bus is appended as its id, sub-bus count and sub-bus indices |
| EngineDataWriter.WriteMixBusChunkBody | src/tools/kwl_enginedatabinary.c:538-557 | the mix bus body is the count and then each bus |
| EngineDataWriter.WriteParamSet | src/tools/kwl_enginedatabinary.c:574-581 | a parameter set is the bus index, left gain, right gain and pitch |
| EngineDataWriter.WriteMixPreset | src/tools/kwl_enginedatabinary.c:567-582 | a preset is its id, its default flag and one parameter set per mix bus |
| EngineDataWriter.WriteMixPresetChunkBody | src/tools/kwl_enginedatabinary.c:561-586 | the preset body is the count and then each preset |
| EngineDataWriter.WriteWaveBankAsWritten | src/tools/kwl_enginedatabinary.c:522-534 | a wave bank as written: id, entry count, then the bank's entry at the bank's own index once per entry |
| EngineDataWriter.WriteWaveBankChunkBody | src/tools/kwl_enginedatabinary.c:517-536 | the wave bank body is the total, the count and each bank as written |
| EngineDataWriter.WriteSoundHeader | src/tools/kwl_enginedatabinary.c:595-602 | a sound's fields in order |
| EngineDataWriter.WriteSound | src/tools/kwl_enginedatabinary.c:593-612 | a sound is its fields and then its wave references |
| EngineDataWriter.WriteSoundChunkBody | src/tools/kwl_enginedatabinary.c:589-615 | the sound body is the count and then each sound |
| EngineDataWriter.WriteEventHeaderAsWritten | src/tools/kwl_enginedatabinary.c:627-641 | an event's fields as written, innerConeGain included and soundIndex left out |
| EngineDataWriter.WriteEventAsWritten | src/tools/kwl_enginedatabinary.c:622-647 | an event is its fields as written and then its wave bank indices |
| EngineDataWriter.WriteEventChunkBody | src/tools/kwl_enginedatabinary.c:618-650 | the event body is the count and then each event |
| EngineDataWriter.ChunksLength | src/tools/kwl_enginedatabinary.c:516-649 | the chunks written so far take up the sum of their bodies plus 8 bytes each |
| EngineDataWriter.ChunkAppended | src/tools/kwl_enginedatabinary.c:519-521 | writing a header and a body appends one chunk |
| EngineDataWriter.AroundPart | src/tools/kwl_enginedatabinary.c:652-659 | the file is the chunks before a part, the part, and the chunks after |
| EngineDataWriter.PatchAt | src/tools/kwl_enginedatabinary.c:652-659 | overwriting the size field replaces just those 4 bytes |
| EngineDataWriter.PatchPart | src/tools/kwl_enginedatabinary.c:652-659 | overwriting inside one chunk changes that chunk only |
| EngineDataWriter.BeginChunk | src/tools/kwl_enginedatabinary.c:519-521 | a chunk starts with its id and a size of 0, and its body starts at the position after them |
| EngineDataWriter.ChunkRecorded | src/tools/kwl_enginedatabinary.c:516-649 | the recorded start and end of each chunk written so far delimit its body |
| EngineDataWriter.WriteChunk | src/tools/kwl_enginedatabinary.c:516-649 | one chunk block appends its id, a 0 size and its body, and records where the body starts and ends |
| EngineDataWriter.WriteChunks | src/tools/kwl_enginedatabinary.c:516-649 | after the identifier come the five chunks in order, each with size 0, with their starts and ends recorded |
| EngineDataWriter.PatchChunk | src/tools/kwl_enginedatabinary.c:652-659 | seeking to 4 bytes before a chunk's start and writing end minus start sets that chunk's size |
| EngineDataWriter.AllPatched | src/tools/kwl_enginedatabinary.c:652-659 | after the last chunk every size is patched |
| EngineDataWriter.NonePatched | src/tools/kwl_enginedatabinary.c:652-659 | before the loop no size is patched, and every size field sits 4 bytes before its body |
| EngineDataWriter.PatchSizes | src/tools/kwl_enginedatabinary.c:652-659 | the final loop leaves every chunk with the length of its body as its size |
| EngineDataWriter.WriteToFile | src/tools/kwl_enginedatabinary.c:500-663 | the file is the identifier and the five chunks with their sizes, or nothing when it cannot be opened |
| EngineDataLoader.ReadInt | src/tools/kwl_enginedatabinary.c:699-735 | reading an int takes 4 bytes and fails exactly on a short read |
| EngineDataLoader.ReadIntBytes | src/tools/kwl_enginedatabinary.c:699-735 | the 4 bytes read are the big-endian encoding of the value |
| EngineDataLoader.ReadFloat | src/tools/kwl_enginedatabinary.c:774-787 | reading a float takes 4 bytes and fails exactly on a short read |
| EngineDataLoader.ReadString | src/tools/kwl_enginedatabinary.c:712-733 | reading a string consumes input |
| EngineDataLoader.ParseIndex | src/tools/kwl_enginedatabinary.c:723-729 | an index read is accepted exactly when it is in [0, bound); out of range is a structure error |
| EngineDataLoader.PresetOf | src/tools/kwl_enginedatabinary.c:752-788 | a preset holds its parameter sets field by field |
| EngineDataLoader.ParseMixBus | src/tools/kwl_enginedatabinary.c:712-733 | a mix bus read has as many sub-bus indices as its count |
| EngineDataLoader.ParsePreset | src/tools/kwl_enginedatabinary.c:752-788 | once a default preset has been seen, a preset read is not a default one, and a preset whose flag is non-zero is a structure error |
| EngineDataLoader.ParseDefaultList | src/tools/kwl_enginedatabinary.c:748-795 | the preset loop reads the number of items it is told |
| EngineDataLoader.ParsePresets | src/tools/kwl_enginedatabinary.c:748-795 | the preset loop reads the number of presets it is told |
| EngineDataLoader.ParseWaveBank | src/tools/kwl_enginedatabinary.c:822-845 | a negative entry count is a structure error; a bank read has a non-negative count and that many entries |
| EngineDataLoader.SoundOf | src/tools/kwl_enginedatabinary.c:883-887 | a sound holds its wave references field by field |
| EngineDataLoader.ParseSoundHeader | src/tools/kwl_enginedatabinary.c:862-879 | a sound's eight header fields take 32 bytes, and fewer is a stream error; the header is refused exactly when the wave reference count at bytes 28-31 is negative, and then with a structure error; it has no references yet |
| EngineDataLoader.ParseSound | src/tools/kwl_enginedatabinary.c:860-889 | a negative wave reference count is a structure error; a sound read has a non-negative count and that many wave bank and audio data indices |
| EngineDataLoader.ParseEventHeader | src/tools/kwl_enginedatabinary.c:912-942 | after the id, nine 4-byte fields are read; the header is refused exactly when the sound index (the ninth) is below -1, and then with a structure error; innerConeGain is not read |
| EngineDataLoader.ParseEventPlayback | src/tools/kwl_enginedatabinary.c:944-954 | the playback fields leave the sound index alone |
| EngineDataLoader.ParseEvent | src/tools/kwl_enginedatabinary.c:907-970 | a sound index below -1 is a structure error; an event read has a sound index of at least -1 and as many wave bank indices as its count |
| EngineDataLoader.FindChunk | src/tools/kwl_enginedatabinary.c:699-700 | a chunk found lies after its 8-byte header; not finding one is a stream error |
| EngineDataLoader.SuffixOfSuffix | src/tools/kwl_enginedatabinary.c:699-700 | a suffix of a suffix is a suffix |
| EngineDataLoader.FindChunkHeader | src/tools/kwl_enginedatabinary.c:699-700 | what follows a found chunk is its id, its size and its body |
| EngineDataLoader.ParseMixBusChunk | src/tools/kwl_enginedatabinary.c:699-735 | the mix bus chunk read carries its id and as many buses as its count |
| EngineDataLoader.ParseMixPresetChunk | src/tools/kwl_enginedatabinary.c:738-796 | the preset chunk read carries its id and as many presets as its count |
| EngineDataLoader.ParseWaveBankChunk | src/tools/kwl_enginedatabinary.c:799-847 | a negative total entry count or a negative bank count is a structure error; the chunk read carries its id, non-negative counts and as many banks as its count |
| EngineDataLoader.ParseSoundChunk | src/tools/kwl_enginedatabinary.c:850-890 | the sound chunk read carries its id and as many sounds as its count |
| EngineDataLoader.ParseEventChunk | src/tools/kwl_enginedatabinary.c:893-971 | an event count of 0 or less is a structure error; the chunk read carries its id and at least one event |
| EngineDataLoader.ParseChunks | src/tools/kwl_enginedatabinary.c:697-971 | a file whose chunks read carries the expected identifier |
| EngineDataLoader.MatchingPrefix | src/tools/kwl_enginedatabinary.c:684-695 | the identifier check stops at the first byte that differs |
| EngineDataLoader.LoadChunks | src/tools/kwl_enginedatabinary.c:697-980 | the chunks are valid exactly when they all read, and then the struct holds them; any error leaves the struct freed, which is zero |
| EngineDataLoader.LoadEngineData | src/tools/kwl_enginedatabinary.c:665-980 | a file that cannot be opened is CouldNotOpen; the result is InvalidFileIdentifier exactly when some byte of the file's identifier differs from the expected one; a file that ends inside a matching identifier is a stream error; a valid result starts with the expected identifier; any other error leaves the struct zero |
| EngineDataLoader.ReadList | src/tools/kwl_enginedatabinary.c:720-731 | a counted read loop reads what ParseList specifies |
| EngineDataLoader.ReadDefaultList | src/tools/kwl_enginedatabinary.c:748-795 | the preset loop reads what ParseDefaultList specifies |
| EngineDataLoader.ReadMixBusChunk | src/tools/kwl_enginedatabinary.c:699-735 | the mix bus block reads what ParseMixBusChunk specifies |
| EngineDataLoader.ReadMixPresetChunk | src/tools/kwl_enginedatabinary.c:738-796 | the preset block reads what ParseMixPresetChunk specifies |
| EngineDataLoader.ReadWaveBankChunk | src/tools/kwl_enginedatabinary.c:799-847 | the wave bank block reads what ParseWaveBankChunk specifies |
| EngineDataLoader.ReadSoundChunk | src/tools/kwl_enginedatabinary.c:850-890 | the sound block reads what ParseSoundChunk specifies |
| EngineDataLoader.ReadEventChunk | src/tools/kwl_enginedatabinary.c:893-971 | the event block reads what ParseEventChunk specifies |
| EngineDataLoader.ReadChunks | src/tools/kwl_enginedatabinary.c:697-980 | the chunk blocks give what LoadChunks specifies |
| EngineDataLoader.IdentifierStep | src/tools/kwl_enginedatabinary.c:684-688 | storing byte i of the identifier extends the copied prefix by one |
| EngineDataLoader.LoadFromBinaryFile | src/tools/kwl_enginedatabinary.c:665-980 | the loader gives what LoadEngineData specifies |
| EngineDataLoader.ParseListAll | src/tools/kwl_enginedatabinary.c:720-731 | a property of every item read holds for every item of the list |
| EngineDataLoader.IndicesInRange | src/tools/kwl_enginedatabinary.c:723-729 | every checked index read is in range |
| EngineDataLoader.MixBusRead | src/tools/kwl_enginedatabinary.c:712-733 | a mix bus read has as many sub-bus indices as its count, each a valid bus index |
| EngineDataLoader.WaveBankRead | src/tools/kwl_enginedatabinary.c:822-845 | a wave bank read has a non-negative count and that many entries |
| EngineDataLoader.SoundRead | src/tools/kwl_enginedatabinary.c:860-889 | a sound read has as many wave references as its count |
| EngineDataLoader.EventRead | src/tools/kwl_enginedatabinary.c:907-970 | an event read has as many wave bank indices as its count, each a valid bank index |
| EngineDataLoader.ParamSetsRead | src/tools/kwl_enginedatabinary.c:774-787 | every parameter set read names a valid mix bus |
| EngineDataLoader.PresetRead | src/tools/kwl_enginedatabinary.c:752-788 | a preset read has one valid parameter set per mix bus |
| EngineDataLoader.DefaultListRead | src/tools/kwl_enginedatabinary.c:748-795 | the preset loop accepts exactly one default item, and every item has the item property |
| EngineDataLoader.PresetsRead | src/tools/kwl_enginedatabinary.c:748-795 | the presets read hold exactly one default preset, and each is valid |
| EngineDataLoader.NoDefaultRejected | src/tools/kwl_enginedatabinary.c:790-795 | items that all read, none of them a default one, end the default-item loop with a structure error |
| EngineDataLoader.PresetsWithoutDefault | src/tools/kwl_enginedatabinary.c:748-795 | a preset chunk whose presets all read and none is the default is refused with a structure error |
| EngineDataLoader.MixBusChunkRead | src/tools/kwl_enginedatabinary.c:699-735 | every mix bus of the chunk read is valid |
| EngineDataLoader.MixPresetChunkRead | src/tools/kwl_enginedatabinary.c:738-796 | the preset chunk read has exactly one default preset, and every preset is valid |
| EngineDataLoader.WaveBankChunkRead | src/tools/kwl_enginedatabinary.c:799-847 | every wave bank of the chunk read is valid |
| EngineDataLoader.SoundChunkRead | src/tools/kwl_enginedatabinary.c:850-890 | every sound of the chunk read is valid |
| EngineDataLoader.EventChunkRead | src/tools/kwl_enginedatabinary.c:893-971 | every event of the chunk read is valid |
| EngineDataLoader.ChunksRead | src/tools/kwl_enginedatabinary.c:697-971 | a file whose chunks all read gives a struct that is valid throughout |
| EngineDataLoader.LoadChunksValid | src/tools/kwl_enginedatabinary.c:697-980 | a valid load of the chunks gives a valid struct |
| EngineDataLoader.LoadValid | src/tools/kwl_enginedatabinary.c:665-980 | whatever the loader accepts is valid: every index is in range, every count matches its list, and there is exactly one default preset |
| EngineDataRoundTrip.IntRead | src/tools/kwl_enginedatabinary.c:699-735 | a written int32 reads back as itself |
| EngineDataRoundTrip.FloatRead | src/tools/kwl_enginedatabinary.c:774-787 | a written float reads back as the same bit pattern |
| EngineDataRoundTrip.StringRead | src/tools/kwl_enginedatabinary.c:712-733 | a written C string reads back as itself |
| EngineDataRoundTrip.PrefixAll | src/tools/kwl_enginedatabinary.c:526 | a loop over as many items as the list holds visits all of them |
| EngineDataRoundTrip.IndicesRead | src/tools/kwl_enginedatabinary.c:723-729 | written in-range indices read back as themselves |
| EngineDataRoundTrip.MixBusRoundTrip | src/tools/kwl_enginedatabinary.c:547-556 | a mix bus written by lines 547-556 reads back as itself by lines 710-733 |
| EngineDataRoundTrip.ParamSets | src/tools/kwl_enginedatabinary.c:574-581 | a preset has one parameter set per mix bus |
| EngineDataRoundTrip.ParamSetRoundTrip | src/tools/kwl_enginedatabinary.c:574-581 | a written parameter set with a valid bus index reads back as itself |
| EngineDataRoundTrip.PresetOfParamSets | src/tools/kwl_enginedatabinary.c:752-788 | a valid preset is rebuilt from its parameter sets |
| EngineDataRoundTrip.ParamSetPartsAre | src/tools/kwl_enginedatabinary.c:574-581 | the writer's parameter sets are the encodings of the preset's sets |
| EngineDataRoundTrip.ParamSetsRoundTrip | src/tools/kwl_enginedatabinary.c:574-581 | a preset's written parameter sets read back as its sets |
| EngineDataRoundTrip.PresetRoundTrip | src/tools/kwl_enginedatabinary.c:561-586 | a written preset reads back as itself, unless it is a second default one |
| EngineDataRoundTrip.DefaultListRoundTrip | src/tools/kwl_enginedatabinary.c:748-795 | a list with exactly one default item written by the item encoder reads back as itself |
| EngineDataRoundTrip.DefaultListStep | src/tools/kwl_enginedatabinary.c:748-795 | one iteration of the preset loop reads one item |
| EngineDataRoundTrip.PresetsRoundTrip | src/tools/kwl_enginedatabinary.c:561-586 | presets with exactly one default read back as themselves |
| EngineDataRoundTrip.StringsRead | src/tools/kwl_enginedatabinary.c:529-534 | written strings read back as themselves |
| EngineDataRoundTrip.WaveBankRoundTrip | src/tools/kwl_enginedatabinary.c:529-534 | a wave bank written with its j-th entry at step j reads back as itself |
| EngineDataRoundTrip.EntriesAsWritten | src/tools/kwl_enginedatabinary.c:531-534 | the writer writes as many entries as the count |
| EngineDataRoundTrip.WaveBankAsWrittenRead | src/tools/kwl_enginedatabinary.c:522-534 | a wave bank written by line 533 reads back with every entry replaced by the bank's entry at the bank's own index |
| EngineDataRoundTrip.WaveBankAsWrittenLosesEntries | src/tools/kwl_enginedatabinary.c:533 | a bank with two different entries does not read back as itself |
| EngineDataRoundTrip.WaveRefs | src/tools/kwl_enginedatabinary.c:606-611 | a sound has as many wave references as its count |
| EngineDataRoundTrip.SoundHeaderRoundTrip | src/tools/kwl_enginedatabinary.c:595-602 | a sound's written fields read back as themselves |
| EngineDataRoundTrip.WaveRefPartsAre | src/tools/kwl_enginedatabinary.c:606-611 | the writer's references are the encodings of the sound's references |
| EngineDataRoundTrip.SoundOfWaveRefs | src/tools/kwl_enginedatabinary.c:883-887 | a valid sound is rebuilt from its references |
| EngineDataRoundTrip.WaveRefRoundTrip | src/tools/kwl_enginedatabinary.c:606-611 | a written wave reference reads back as itself |
| EngineDataRoundTrip.WaveRefsRoundTrip | src/tools/kwl_enginedatabinary.c:606-611 | a sound's written references read back as themselves |
| EngineDataRoundTrip.SoundRoundTrip | src/tools/kwl_enginedatabinary.c:595-611 | a sound written by lines 595-611 reads back as itself by lines 862-889 |
| EngineDataRoundTrip.EventHeaderRoundTrip | src/tools/kwl_enginedatabinary.c:916-942 | event fields in the loader's order read back as themselves, with innerConeGain 0 |
| EngineDataRoundTrip.EventPlaybackRoundTrip | src/tools/kwl_enginedatabinary.c:944-954 | the written playback fields read back as themselves |
| EngineDataRoundTrip.EventRoundTrip | src/tools/kwl_enginedatabinary.c:916-959 | an event written in the loader's order reads back as itself |
| EngineDataRoundTrip.EventAsWrittenIsShifted | src/tools/kwl_enginedatabinary.c:627-645 | the event writer's bytes are the loader's layout of an event whose fields outerConeAngleDeg through soundIndex each hold the field written before them, with innerConeGain 0; retriggerMode onward are unchanged |
| EngineDataRoundTrip.EventAsWrittenRead | src/tools/kwl_enginedatabinary.c:627-645 | an event as written reads back shifted, with its isPositional flag as its sound index |
| EngineDataRoundTrip.EventAsWrittenLosesSoundIndex | src/tools/kwl_enginedatabinary.c:627-645 | an event whose sound index is not its isPositional flag does not read back as itself |
| EngineDataRoundTrip.ListRoundTrip | src/tools/kwl_enginedatabinary.c:720-731 | a counted list read loop reads back what a counted write loop wrote |
| EngineDataRoundTrip.MixBusesRoundTrip | src/tools/kwl_enginedatabinary.c:538-557 | written mix buses read back as themselves |
| EngineDataRoundTrip.MixBusChunkRoundTrip | src/tools/kwl_enginedatabinary.c:538-557 | a mix bus chunk reads back as itself |
| EngineDataRoundTrip.MixPresetChunkRoundTrip | src/tools/kwl_enginedatabinary.c:561-586 | a preset chunk with one default preset reads back as itself |
| EngineDataRoundTrip.WaveBanksRoundTrip | src/tools/kwl_enginedatabinary.c:526-535 | corrected wave banks read back as themselves |
| EngineDataRoundTrip.WaveBankChunkRoundTrip | src/tools/kwl_enginedatabinary.c:517-536 | a corrected wave bank chunk reads back as itself |
| EngineDataRoundTrip.SoundsRoundTrip | src/tools/kwl_enginedatabinary.c:589-615 | written sounds read back as themselves |
| EngineDataRoundTrip.SoundChunkRoundTrip | src/tools/kwl_enginedatabinary.c:589-615 | a sound chunk reads back as itself |
| EngineDataRoundTrip.EventsRoundTrip | src/tools/kwl_enginedatabinary.c:618-650 | events written in the loader's order read back as themselves |
| EngineDataRoundTrip.EventChunkRoundTrip | src/tools/kwl_enginedatabinary.c:618-650 | a corrected event chunk reads back as itself |
| EngineDataRoundTrip.FindChunkFrom | src/tools/kwl_enginedatabinary.c:516-659 | in a file of chunks with distinct ids, a chunk is found with its size and body |
| EngineDataRoundTrip.FindEachChunk | src/tools/kwl_enginedatabinary.c:516-659 | each of the five chunks is found where the writer put it |
| EngineDataRoundTrip.ChunksFit | src/tools/kwl_enginedatabinary.c:516-659 | the five chunk ids are distinct int32s and every body fits an int32 size |
| EngineDataRoundTrip.MixBusChunkInFile | src/tools/kwl_enginedatabinary.c:699-735 | the mix bus block reads the written mix bus chunk |
| EngineDataRoundTrip.MixPresetChunkInFile | src/tools/kwl_enginedatabinary.c:738-796 | the preset block reads the written preset chunk |
| EngineDataRoundTrip.WaveBankChunkInFile | src/tools/kwl_enginedatabinary.c:799-847 | the wave bank block reads the written wave bank chunk |
| EngineDataRoundTrip.SoundChunkInFile | src/tools/kwl_enginedatabinary.c:850-890 | the sound block reads the written sound chunk |
| EngineDataRoundTrip.EventChunkInFile | src/tools/kwl_enginedatabinary.c:893-971 | the event block reads the written event chunk |
| EngineDataRoundTrip.MatchingPrefixOfPrefix | src/tools/kwl_enginedatabinary.c:684-695 | a file that starts with the identifier passes the identifier check |
| EngineDataRoundTrip.ChunksRoundTrip | src/tools/kwl_enginedatabinary.c:697-971 | the chunks of a file read back as the struct that was written |
| EngineDataRoundTrip.LoadRoundTrip | src/tools/kwl_enginedatabinary.c:500-980 | loading the file the corrected writer writes gives DataIsValid and the struct that was written |
| EngineDataRoundTrip.AsWrittenDiffersOnlyInTwoBodies | src/tools/kwl_enginedatabinary.c:500-663 | the file the writer writes differs from the file evidently meant only through the wave bank body and the event body: with those equal, the two files are equal |
| WaveBank.ZeroWaveBank | src/tools/kwl_wavebankbinary.c:99 | the zeroed struct has an identifier of the right length and no entries |
| WaveBank.FileIsWaveBankBinary | src/tools/kwl_wavebankbinary.c:34-57 | the result is 1 exactly when the file opens and starts with the wave bank identifier, and 0 otherwise |
| WaveBank.WriteEntry | src/tools/kwl_wavebankbinary.c:80-86 | an entry is its file name, encoding, streaming flag, channel count, byte count and data |
| WaveBank.WriteToFile | src/tools/kwl_wavebankbinary.c:59-91 | the file is the identifier, the id, the entry count and each entry, or nothing when it cannot be opened |
| WaveBank.ReadData | src/tools/kwl_wavebankbinary.c:140-141 | reading n bytes gives exactly the next n bytes |
| WaveBank.LoadWaveBank | src/tools/kwl_wavebankbinary.c:93-151 | CouldNotOpen exactly when the file cannot be opened; a wrong identifier or a read error leaves the struct zero; success gives the expected identifier and the entries read |
| WaveBank.LoadFromBinaryFile | src/tools/kwl_wavebankbinary.c:93-151 | the loader gives what LoadWaveBank specifies |
| WaveBank.LoadedIsWaveBank | src/tools/kwl_wavebankbinary.c:34-151 | a file the loader accepts passes the wave bank probe |
| WaveBank.ForeignIdentifierRefused | src/tools/kwl_wavebankbinary.c:113-124 | a file with another identifier is refused with InvalidFileIdentifier and a zero struct |
| WaveBank.DataRead | src/tools/kwl_wavebankbinary.c:140-141 | written data reads back as itself |
| WaveBank.EntryRoundTrip | src/tools/kwl_wavebankbinary.c:80-86 | a written entry reads back as itself by lines 133-141 |
| WaveBank.BodyRoundTrip | src/tools/kwl_wavebankbinary.c:74-87 | a written id, count and entries read back as themselves |
| WaveBank.WriteLoadRoundTrip | src/tools/kwl_wavebankbinary.c:59-151 | loading the file the writer writes gives Success and the struct that was written |
| WaveBank.WrittenIsWaveBank | src/tools/kwl_wavebankbinary.c:34-91 | the file the writer writes passes the wave bank probe |
| WaveBank.DuplicateString | src/tools/kwl_wavebankbinary.c:154-161 | the copy is a fresh array holding the string up to its NUL, then a NUL |
| WaveBank.StreamingFlagIsByteCount | src/tools/kwl_wavebankbinary.c:234-235 | creating an entry from 4 bytes of audio sets its streaming flag to 4 |
| WaveBank.CorrectedEntryFlag | src/tools/kwl_wavebankbinary.c:233-237 | the corrected entry differs from the written one only in its streaming flag, which is 0 |
| WaveBank.EntryFromAudio | src/tools/kwl_wavebankbinary.c:216-237 | an entry made as written keeps the file name, encoding, channel count, byte count and data of its audio, and is flagged as streaming exactly when the audio has any bytes |
| WaveBank.EntryFromAudioCorrected | src/tools/kwl_wavebankbinary.c:216-237 | the corrected entry keeps the same fields, and its streaming flag is 0 |
| WaveBank.FirstWaveBank | src/tools/kwl_wavebankbinary.c:184-193 | the index of the first wave bank with the id, or -1 |
| WaveBank.FindWaveBank | src/tools/kwl_wavebankbinary.c:184-193 | the search loop finds what FirstWaveBank specifies |
| WaveBank.CopyIdentifier | src/tools/kwl_wavebankbinary.c:206-209 | the identifier is copied byte by byte |
| WaveBank.CopyString | src/tools/kwl_wavebankbinary.c:211 | the duplicated id is the id |
| WaveBank.CopyEntries | src/tools/kwl_wavebankbinary.c:212-238 | there is one entry per audio data entry of the bank, made from that entry's file name and audio |
| WaveBank.CopyBank | src/tools/kwl_wavebankbinary.c:204-238 | the struct is created from the bank, the identifier and the audio of its entries |
| WaveBank.Create | src/tools/kwl_wavebankbinary.c:163-241 | a failed validation is returned with the struct untouched; a missing bank is WaveBankIdNotFound with the struct untouched; otherwise Success with the struct created from the first bank with the id |
| WaveBank.FreeWaveBank | src/tools/kwl_wavebankbinary.c:268-285 | free zeroes the struct and releases the data of exactly the entries with a positive byte count, in order |
| BinaryBuilding.BuildEngineData | src/tools/kwl_binarybuilding.c:32-77 | an existing binary newer than the XML is up to date and is Success with no write unless forced; otherwise the binary is written exactly when loading succeeds, and the result is the load error or the write result |
| BinaryBuilding.EngineDataRebuiltUnlessNewer | src/tools/kwl_binarybuilding.c:39-51 | a forced build, or a binary that is missing or not newer than the XML, is always rebuilt when the XML loads |
| BinaryBuilding.KwbPath | src/tools/kwl_binarybuilding.c:145-154 | a wave bank's file path has no NUL and ends in ".kwb" |
| BinaryBuilding.WaveBankFilePath | src/tools/kwl_binarybuilding.c:145-154 | the buffer is the joined path plus ".kwb", NUL-terminated; for an id without a leading '/' that is the directory and the id joined by one '/' |
| BinaryBuilding.WithExtension | src/tools/kwl_binarybuilding.c:146-154 | the four stores after strcpy append ".kwb" and a NUL |
| BinaryBuilding.AudioTimeStamps | src/tools/kwl_binarybuilding.c:167-179 | one time stamp per audio entry of the bank |
| BinaryBuilding.Latest | src/tools/kwl_binarybuilding.c:166-179 | the latest time stamp is at least 0 and every stamp, and is 0 or one of them |
| BinaryBuilding.LatestAudioFileTimeStamp | src/tools/kwl_binarybuilding.c:166-179 | the loop returns Latest of the entries' time stamps: no audio file of the bank is newer, and the result is 0 or the stamp of one of them |
| BinaryBuilding.AudioFileTimeStamp | src/tools/kwl_binarybuilding.c:169-173 | one turn of that loop reads the time stamp of the path kwlGetAudioFilePath builds for the entry, with the buffer cut at its NUL |
| BinaryBuilding.BuildWaveBank | src/tools/kwl_binarybuilding.c:122-197 | a bank's result is its creation result, and its file is written exactly when creation succeeds and it is not up to date |
| BinaryBuilding.BuildWaveBanks | src/tools/kwl_binarybuilding.c:79-203 | a target that is not a directory is InvalidPath; then a document or load error is returned; otherwise the result is the last creation failure or Success, and the files written are those of the created banks that are not up to date |
| BinaryBuilding.FinalResultSuccess | src/tools/kwl_binarybuilding.c:118-141 | the wave bank build is Success exactly when every bank is created |
| BinaryBuilding.FinalResultIsLastFailure | src/tools/kwl_binarybuilding.c:137-141 | a failing build reports the code of some bank that failed, and every bank after that one was created successfully |
| BinaryBuilding.ForcedBuildWritesEveryCreatedBank | src/tools/kwl_binarybuilding.c:157-193 | a forced build writes every bank that is created |
| BinaryBuilding.StaleAudioRebuilds | src/tools/kwl_binarybuilding.c:181-186 | a bank file no newer than one of its audio files is rewritten |
| Cli.FlagIndex | src/tools_cli/main.c:56-67 | the index of the first occurrence of the flag that has a value after it, or -1 |
| Cli.GetArgumentValue | src/tools_cli/main.c:56-67 | the value is absent exactly when the flag does not occur before the last argument, and is otherwise the argument after its first occurrence |
| Cli.FlagIndexIsFirst | src/tools_cli/main.c:56-67 | the first occurrence with a value is where FlagIndex points |
| Cli.FirstOccurrenceWins | src/tools_cli/main.c:56-67 | arguments after the first occurrence of a flag do not change its value |
| Cli.TrailingFlagHasNoValue | src/tools_cli/main.c:56-67 | a flag in the last position has no value |
| Cli.BuildActions | src/tools_cli/main.c:111-131 | build writes the engine data exactly when -bin has a value, and the wave banks exactly when -dir has one, both with the -xml and -xsd values |
| Cli.RunCommand | src/tools_cli/main.c:94-172 | with no operation the usage is printed; build, validate and view do their actions with the flags after the operation; view probes engine data before wave banks; anything else is an invalid operation; the exit code is 0 |

## Left out

- The sample values produced by the two mixing kernels (`kwlInt16ToFloatWithGain`, `kwlInt16ToFloatWithGainAndPitch`) are not modelled. They live in kwl_asm, which is not part of this model. Their contracts state where the cursors end and which slots are written, not the scaled sample values or the 32768 scale.
- The event's DSP unit callback (lines 465-473 of kwl_eventinstance.c) is not modelled: it is user code.
- `kwlSoundDefinition_pickNextBufferForEvent` and the decoder are not part of this model. The buffer-picking policy and decoding are modelled as `BufferSource`, a queue of buffers handed to the event.
- The mixer/engine split of the event's parameters (`valueMixer` snapshots) is not modelled: each is one plain field.
- Memory allocation and release are not modelled as such. Release operations return what they would free, and the struct frees are modelled as zeroing.
- Engine.Init: the pooled re-initialisation of an existing instance is modelled as a constructor, so re-use of the same object is not captured.
- Engine.CreateFreeformEventFromFile: freeing the loaded audio on the PositionalEventMustBeMono path is not modelled; the audio loader is external and its result is an input.
- Engine.FreeformDefinition: for audio that is not 16-bit PCM the source asserts (KWL_ASSERT) and leaves the sound unset; the model leaves `sound` None.
- kwl_inputstream is not part of this model. It is modelled as pure readers over the remaining bytes. The model-only code StreamError stands for a short read, a chunk that cannot be found, a negative string length and a negative data byte count.
- EngineDataLoader.FindChunk: the chunk search of kwl_inputstream is modelled as a forward scan for the chunk's id.
- File system access, time stamps, the XML parser and schema validation, the audio file loader and `kwlEngineDataBinary_validateFileReferences` are inputs, not modelled code: `BinaryBuilding.FileSystem`, load results and validation results are parameters.
- The engine data loader from XML (`kwlEngineDataBinary_loadFromXML`, the gather callbacks) and `kwlEngineDataBinary_dump` / `kwlWaveBankBinary_dump` are not modelled: they walk the XML tree through callbacks or only print.
- FileUtil.CString: a buffer without a NUL is read whole, so a strlen overrun past an unterminated buffer is not modelled. FileUtil.GetAudioFilePath, BinaryBuilding.AudioFileTimeStamp, BinaryBuilding.LatestAudioFileTimeStamp, BinaryBuilding.BuildWaveBank and BinaryBuilding.BuildWaveBanks meet such a buffer when a relative audio root starts with '/'.
- BinaryBuilding.BuildWaveBanks: requires a '/' in the project path whenever the audio root is relative. kwlGetFileDirectory (kwl_fileutil.c lines 98-108) leaves its separator index unset for a path without one, and every bank creation asks for the audio paths (kwl_wavebankbinary.c line 216) before the staleness check does.
- WaveBank.Create: the audio file paths are not built; `audio` gives what loading each entry's file yields, by file name.
- The validate and view operations of the command line, and its file-type probes, are recorded as actions and inputs; what they do is not modelled.
- Logging callbacks are not modelled.
- EngineDataWriter.WriteToFile, WaveBank.WriteToFile: a file that cannot be opened gives no file. The source asserts in that case and returns.

## Findings

| source | as written | input that shows it | evidently intended | confidence | as-written member | corrected member |
|---|---|---|---|---|---|---|
| src/tools/kwl_enginedatabinary.c:533 | every entry written for wave bank i is `audioDataEntries[i]`, the bank's own index | a bank at index 0 with entries "a.wav" and "b.wav" is written as "a.wav", "a.wav" | write `audioDataEntries[j]`, so that the bank reads back as itself | high, not executed | EngineDataRoundTrip.WaveBankAsWrittenLosesEntries | EngineDataRoundTrip.WaveBankRoundTrip |
| src/tools/kwl_enginedatabinary.c:627-645 | the event writer writes innerConeGain, which the loader does not read, and leaves out soundIndex, which it does | an event with isPositional 1 and soundIndex 0 reads back with soundIndex 1, and each field from outerConeAngleDeg to soundIndex holds the field written before it; retriggerMode and the fields after it read back correctly | write the fields in the loader's order (lines 916-959), so that the event reads back as itself | high, not executed | EngineDataRoundTrip.EventAsWrittenLosesSoundIndex | EngineDataRoundTrip.EventRoundTrip |
| src/tools/kwl_wavebankbinary.c:234-235 | the assignment chain `ei->isStreaming = ei->numBytes = audioData.numBytes` sets the streaming flag to the byte count | 4 bytes of audio give isStreaming 4 | a 0/1 streaming flag, 0 for a built bank | medium, not executed | WaveBank.StreamingFlagIsByteCount | WaveBank.CorrectedEntryFlag |
| src/tools/kwl_fileutil.c:87 | with a leading '/' on the element, the copy starts at the '/' and takes appLen bytes, so the separator is doubled and the NUL is not copied | "sounds" and "/a.wav" give "sounds//a.wav" with no terminating NUL | skip the element's leading separator and copy its NUL | high, not executed | FileUtil.AppendLeadingSeparatorUnterminated | FileUtil.AppendPathElementCorrected |
