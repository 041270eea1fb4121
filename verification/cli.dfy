/**
 * The command-line front end of the tools (src/tools_cli/main.c): flag lookup and
 * the dispatch on the operation word. What an operation does is recorded as an
 * `Action`; the builders, validators and viewers it calls, and the file-type probes
 * `view` asks, are outside this module (the probes are inputs).
 */
module Cli {
  import opened Wrappers

  /** The flags main looks up (lines 39-54). */
  const XmlArg: string := "-xml"
  const XsdArg: string := "-xsd"
  const BinArg: string := "-bin"
  const DirArg: string := "-dir"

  /** What main does, in the order it does it. A flag that is absent is None (NULL). */
  datatype Action =
    | PrintUsage
    | BuildEngineData(xmlPath: Option<string>, xsdPath: Option<string>, targetFile: string)
    | BuildWaveBanks(xmlPath: Option<string>, xsdPath: Option<string>, wbDir: string)
    | Validate(xmlPath: Option<string>, xsdPath: Option<string>)
    | ViewEngineData(filePath: Option<string>)
    | ViewWaveBank(filePath: Option<string>)
    | NotABinary(filePath: Option<string>)
    | InvalidOperation(operation: string)

  /**
   * The index of the first occurrence of `name` that has a value after it, or -1:
   * an occurrence in the last position has no value and is not seen.
   */
  function FlagIndex(args: seq<string>, name: string): (k: int)
    ensures -1 <= k < |args| - 1 || k == -1
    ensures k >= 0 ==> args[k] == name
    ensures forall i :: 0 <= i < |args| - 1 && (k < 0 || i < k) ==> args[i] != name
    decreases |args|
  {
    if |args| < 2 then -1
    else if args[0] == name then 0
    else
      var k := FlagIndex(args[1..], name);
      if k < 0 then -1 else k + 1
  }

  /** The value of a flag: the argument after its first occurrence, when there is one. */
  function FlagValue(args: seq<string>, name: string): Option<string> {
    var k := FlagIndex(args, name);
    if k < 0 then None else Some(args[k + 1])
  }

  /**
   * getArgumentValue (lines 56-67): the argument after the first one equal to
   * `name`, among the first |args| - 1; NULL when there is none.
   */
  method GetArgumentValue(args: seq<string>, name: string) returns (value: Option<string>)
    ensures value == FlagValue(args, name)
    ensures value.None? <==> forall i :: 0 <= i < |args| - 1 ==> args[i] != name
    ensures value.Some? ==> exists i :: 0 <= i < |args| - 1 && args[i] == name && value.value == args[i + 1]
  {
    var i := 0;
    while i < |args| - 1
      invariant 0 <= i && (i <= |args| - 1 || i == 0)
      invariant forall j :: 0 <= j < i ==> args[j] != name
    {
      if args[i] == name {
        FlagIndexIsFirst(args, name, i);
        return Some(args[i + 1]);
      }
      i := i + 1;
    }
    FlagIndexIsFirst(args, name, -1);
    return None;
  }

  /** The first occurrence with a value after it is where FlagIndex points. */
  lemma FlagIndexIsFirst(args: seq<string>, name: string, i: int)
    requires -1 <= i < |args| - 1 || i == -1
    requires i >= 0 ==> args[i] == name
    requires forall j :: 0 <= j < |args| - 1 && (i < 0 || j < i) ==> args[j] != name
    ensures FlagIndex(args, name) == i
  {

  }

  /** Only the first occurrence of a flag counts: later ones do not change its value. */
  lemma {:induction false} FirstOccurrenceWins(args: seq<string>, more: seq<string>, name: string)
    requires FlagIndex(args, name) >= 0
    ensures FlagValue(args + more, name) == FlagValue(args, name)
  {
    var k := FlagIndex(args, name);
    FlagIndexIsFirst(args + more, name, k);
  }

  /**
   * The actions of `build` (lines 111-131): the engine data when -bin has a value,
   * then the wave banks when -dir has one, both with whatever -xml and -xsd give.
   */
  function BuildActions(args: seq<string>): (actions: seq<Action>)
    ensures |actions| <= 2
    ensures FlagValue(args, BinArg).Some? <==> |actions| > 0 && actions[0].BuildEngineData?
    ensures FlagValue(args, DirArg).Some? <==> |actions| > 0 && actions[|actions| - 1].BuildWaveBanks?
    ensures forall a :: a in actions ==>
              (a.BuildEngineData? || a.BuildWaveBanks?) && a.xmlPath == FlagValue(args, XmlArg) && a.xsdPath == FlagValue(args, XsdArg)
  {
    var xmlPath := FlagValue(args, XmlArg);
    var xsdPath := FlagValue(args, XsdArg);
    var binPath := FlagValue(args, BinArg);
    var wbDir := FlagValue(args, DirArg);
    (if binPath.Some? then [BuildEngineData(xmlPath, xsdPath, binPath.value)] else []) +
    (if wbDir.Some? then [BuildWaveBanks(xmlPath, xsdPath, wbDir.value)] else [])
  }

  /**
   * RunCommand models main (lines 94-172). With fewer than two words after the program name it prints
   * the usage; otherwise the first word is the operation and the flags are looked up
   * among the words after it only. `view` asks whether the file is engine data
   * before it asks whether it is a wave bank. The exit code is always 0.
   */
  method RunCommand(argv: seq<string>, isEngineDataBinary: Option<string> -> bool, isWaveBankBinary: Option<string> -> bool)
    returns (exitCode: int, actions: seq<Action>)
    ensures exitCode == 0
    ensures |argv| <= 2 ==> actions == [PrintUsage]
    ensures |argv| > 2 && argv[1] == "build" ==> actions == BuildActions(argv[2..])
    ensures |argv| > 2 && argv[1] == "validate" ==>
              actions == [Validate(FlagValue(argv[2..], XmlArg), FlagValue(argv[2..], XsdArg))]
    ensures |argv| > 2 && argv[1] == "view" ==>
              var binPath := FlagValue(argv[2..], BinArg);
              actions == [if isEngineDataBinary(binPath) then ViewEngineData(binPath)
                          else if isWaveBankBinary(binPath) then ViewWaveBank(binPath)
                          else NotABinary(binPath)]
    ensures |argv| > 2 && argv[1] !in {"build", "validate", "view"} ==> actions == [InvalidOperation(argv[1])]
  {
    if |argv| <= 2 {
      return 0, [PrintUsage];
    }
    var operation := argv[1];
    var args := argv[2..];
    actions := [];
    if operation == "build" {
      var xmlPath := GetArgumentValue(args, XmlArg);
      var xsdPath := GetArgumentValue(args, XsdArg);
      var binPath := GetArgumentValue(args, BinArg);
      var wbDir := GetArgumentValue(args, DirArg);
      if binPath.Some? {
        actions := actions + [BuildEngineData(xmlPath, xsdPath, binPath.value)];
      }
      if wbDir.Some? {
        actions := actions + [BuildWaveBanks(xmlPath, xsdPath, wbDir.value)];
      }
    } else if operation == "validate" {
      var xmlPath := GetArgumentValue(args, XmlArg);
      var xsdPath := GetArgumentValue(args, XsdArg);
      actions := [Validate(xmlPath, xsdPath)];
    } else if operation == "view" {
      var binPath := GetArgumentValue(args, BinArg);
      if isEngineDataBinary(binPath) {
        actions := [ViewEngineData(binPath)];
      } else if isWaveBankBinary(binPath) {
        actions := [ViewWaveBank(binPath)];
      } else {
        actions := [NotABinary(binPath)];
      }
    } else {
      return 0, [InvalidOperation(operation)];
    }
    return 0, actions;
  }

  /** A flag in the last position has no value: `kowalski build -bin` builds nothing. */
  lemma TrailingFlagHasNoValue(args: seq<string>, name: string)
    requires name !in args
    ensures FlagValue(args + [name], name) == None
  {
    var all := args + [name];
    assert forall j :: 0 <= j < |all| - 1 ==> all[j] == args[j];
    FlagIndexIsFirst(all, name, -1);
  }
}
