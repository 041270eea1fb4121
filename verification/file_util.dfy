/**
 * Path helpers of the build tools (src/tools/kwl_fileutil.c). Paths are C strings:
 * a parameter is the string's characters, without the NUL; a returned `char*` is
 * the whole buffer the function allocates, NUL included when it writes one.
 */
module FileUtil {

  /** A string C can pass: no NUL inside it. */
  predicate NoNul(s: seq<char>) {
    forall i :: 0 <= i < |s| ==> s[i] != '\0'
  }

  predicate EndsWithSep(p: seq<char>) {
    |p| > 0 && p[|p| - 1] == '/'
  }

  predicate StartsWithSep(p: seq<char>) {
    |p| > 0 && p[0] == '/'
  }

  /** `path` without one trailing separator. */
  function TrimTrailingSep(path: seq<char>): seq<char> {
    if EndsWithSep(path) then path[..|path| - 1] else path
  }

  /** `path` without one leading separator. */
  function TrimLeadingSep(path: seq<char>): seq<char> {
    if StartsWithSep(path) then path[1..] else path
  }

  /**
   * The join appendPathElement is meant to produce: the two parts with exactly one
   * separator between them, whether or not either brought its own.
   */
  function JoinPath(path: seq<char>, toAppend: seq<char>): seq<char> {
    TrimTrailingSep(path) + ['/'] + TrimLeadingSep(toAppend)
  }

  /**
   * The buffer kwlAppendPathElement (lines 57-90) fills. The second copy starts at
   * toAppend[0] whether or not that is a separator, and copies one byte fewer when
   * it is: the separator is kept and the terminating NUL is not copied.
   */
  function AppendedBuffer(path: seq<char>, toAppend: seq<char>): seq<char> {
    TrimTrailingSep(path) + ['/'] + toAppend + (if StartsWithSep(toAppend) then [] else ['\0'])
  }

  /** The characters of a NUL-terminated buffer, up to the first NUL. */
  function Content(buf: seq<char>): (s: seq<char>)
    requires '\0' in buf
    ensures NoNul(s) && |s| < |buf| && buf[|s|] == '\0' && s == buf[..|s|]
  {
    if buf[0] == '\0' then [] else [buf[0]] + Content(buf[1..])
  }

  /**
   * The string a returned buffer stands for when it is passed on as a `char*`: its
   * characters up to the NUL. A buffer without a NUL is taken whole.
   */
  function CString(buf: seq<char>): (s: seq<char>)
    ensures NoNul(s)
    ensures '\0' in buf ==> |s| < |buf| && buf[|s|] == '\0' && s == buf[..|s|]
    ensures '\0' !in buf ==> s == buf
  {
    if '\0' in buf then Content(buf) else buf
  }

  /** The content of `s` followed by its NUL is `s`. */
  lemma {:induction false} ContentOfTerminated(s: seq<char>)
    requires NoNul(s)
    ensures '\0' in s + ['\0'] && Content(s + ['\0']) == s
  {
    assert (s + ['\0'])[|s|] == '\0';
    if s != [] {
      assert (s + ['\0'])[1..] == s[1..] + ['\0'];
      ContentOfTerminated(s[1..]);
    }
  }

  /** memcpy(&dst[at], src, n): the `n` characters from `at` on become those of `src`. */
  method MemCpy(dst: array<char>, at: nat, src: seq<char>, n: nat)
    requires n <= |src| && at + n <= dst.Length
    modifies dst
    ensures dst[..] == old(dst[..])[..at] + src[..n] + old(dst[..])[at + n..]
    ensures at + n == dst.Length ==> dst[..] == old(dst[..])[..at] + src[..n]
  {
    ghost var before := dst[..];
    var k := 0;
    while k < n
      invariant 0 <= k <= n
      invariant dst[..] == before[..at] + src[..k] + before[at + k..]
    {
      dst[at + k] := src[k];
      k := k + 1;
      assert src[..k] == src[..k - 1] + [src[k - 1]];
    }
    assert before[at + n..] == [] || at + n < dst.Length;
  }

  /**
   * kwlAppendPathElement (lines 57-90): allocates finalLen + 1 characters and fills
   * them with the path, one separator and the appended element, as written.
   */
  method AppendPathElement(path: seq<char>, toAppend: seq<char>) returns (final: seq<char>)
    requires NoNul(path) && NoNul(toAppend)
    ensures final == AppendedBuffer(path, toAppend)
    ensures !StartsWithSep(toAppend) ==> final == JoinPath(path, toAppend) + ['\0']
    ensures StartsWithSep(toAppend) ==> '\0' !in final
  {
    var pathMem := path + ['\0'];
    var appMem := toAppend + ['\0'];
    var plen := |path|;
    var appLen := |toAppend|;
    var pEndsWithSep := if plen > 0 && path[plen - 1] == '/' then 1 else 0;
    var appStartsWithSep := if appLen > 0 && toAppend[0] == '/' then 1 else 0;
    var finalLen := plen - pEndsWithSep + appLen - appStartsWithSep + 1;
    var buf := new char[finalLen + 1];
    var sepIdx := plen - pEndsWithSep;
    MemCpy(buf, 0, pathMem, sepIdx + 1);
    buf[sepIdx] := '/';
    ghost var head := HeadAfterSeparator(buf[..], path, sepIdx);
    MemCpy(buf, sepIdx + 1, appMem, appLen - appStartsWithSep + 1);
    final := buf[..];
    AppendedBufferShape(path, toAppend, head, appMem[..appLen - appStartsWithSep + 1]);
  }

  /** The two copies of kwlAppendPathElement put together. */
  lemma AppendedBufferShape(path: seq<char>, toAppend: seq<char>, head: seq<char>, tail: seq<char>)
    requires NoNul(path) && NoNul(toAppend)
    requires head == TrimTrailingSep(path) + ['/']
    requires tail == (toAppend + ['\0'])[..|toAppend| - (if StartsWithSep(toAppend) then 1 else 0) + 1]
    ensures head + tail == AppendedBuffer(path, toAppend)
    ensures !StartsWithSep(toAppend) ==> head + tail == JoinPath(path, toAppend) + ['\0']
    ensures StartsWithSep(toAppend) ==> '\0' !in head + tail
  {
    if StartsWithSep(toAppend) {
      assert tail == toAppend;
      assert forall i :: 0 <= i < |head + tail| ==> (head + tail)[i] != '\0';
    } else {
      assert tail == toAppend + ['\0'];
    }
  }

  /** After the first copy and the separator store, the buffer starts with the trimmed path and "/". */
  lemma HeadAfterSeparator(buf: seq<char>, path: seq<char>, sepIdx: nat) returns (head: seq<char>)
    requires sepIdx == |TrimTrailingSep(path)| && sepIdx < |buf|
    requires buf[..sepIdx] == (path + ['\0'])[..sepIdx] && buf[sepIdx] == '/'
    ensures head == buf[..sepIdx + 1] == TrimTrailingSep(path) + ['/']
  {
    head := buf[..sepIdx + 1];
    assert (path + ['\0'])[..sepIdx] == TrimTrailingSep(path);
    assert head == buf[..sepIdx] + [buf[sepIdx]];
  }

  /**
   * The evident intent of kwlAppendPathElement: the second copy skips the appended
   * element's leading separator, so the result is the one-separator join, terminated.
   */
  method AppendPathElementCorrected(path: seq<char>, toAppend: seq<char>) returns (final: seq<char>)
    requires NoNul(path) && NoNul(toAppend)
    ensures final == JoinPath(path, toAppend) + ['\0']
  {
    var pathMem := path + ['\0'];
    var appMem := toAppend + ['\0'];
    var plen := |path|;
    var appLen := |toAppend|;
    var pEndsWithSep := if plen > 0 && path[plen - 1] == '/' then 1 else 0;
    var appStartsWithSep := if appLen > 0 && toAppend[0] == '/' then 1 else 0;
    var finalLen := plen - pEndsWithSep + appLen - appStartsWithSep + 1;
    var buf := new char[finalLen + 1];
    var sepIdx := plen - pEndsWithSep;
    MemCpy(buf, 0, pathMem, sepIdx + 1);
    buf[sepIdx] := '/';
    ghost var head := HeadAfterSeparator(buf[..], path, sepIdx);
    var rest := appMem[appStartsWithSep..];
    assert rest[..|rest|] == rest;
    MemCpy(buf, sepIdx + 1, rest, |rest|);
    final := buf[..];
    assert final == head + rest;
    CorrectedShape(path, toAppend, head, rest);
  }

  /** The two copies of the corrected append put together. */
  lemma CorrectedShape(path: seq<char>, toAppend: seq<char>, head: seq<char>, rest: seq<char>)
    requires head == TrimTrailingSep(path) + ['/']
    requires rest == (toAppend + ['\0'])[if StartsWithSep(toAppend) then 1 else 0..]
    ensures head + rest == JoinPath(path, toAppend) + ['\0']
  {
    assert rest == TrimLeadingSep(toAppend) + ['\0'];
  }

  /** The join keeps one separator however many of the two parts supply. */
  lemma JoinPathOneSeparator(p: seq<char>, a: seq<char>)
    requires !EndsWithSep(p) && !StartsWithSep(a)
    ensures JoinPath(p, a) == p + ['/'] + a
    ensures JoinPath(p + ['/'], a) == p + ['/'] + a
    ensures JoinPath(p, ['/'] + a) == p + ['/'] + a
    ensures JoinPath(p + ['/'], ['/'] + a) == p + ['/'] + a
  {
    assert (p + ['/'])[..|p|] == p;
    assert (['/'] + a)[1..] == a;
  }

  /** As written, an element with a leading separator yields "//" and no terminator. */
  lemma AppendLeadingSeparatorUnterminated()
    ensures AppendedBuffer("sounds", "/a.wav") == "sounds//a.wav"
    ensures '\0' !in AppendedBuffer("sounds", "/a.wav")
    ensures JoinPath("sounds", "/a.wav") + ['\0'] == "sounds/a.wav\0"
  {
  }

  /** The index of the last separator in `path`. */
  function LastSepIndex(path: seq<char>): (k: nat)
    requires '/' in path
    ensures k < |path| && path[k] == '/'
    ensures forall j :: k < j < |path| ==> path[j] != '/'
  {
    if path[|path| - 1] == '/' then |path| - 1 else LastSepIndex(path[..|path| - 1])
  }

  /**
   * kwlGetFileDirectory (lines 92-114): scans back for the last separator and returns
   * the path up to it, NUL-terminated. A path without a separator leaves lastSepIdx
   * unset in the source, so it is excluded.
   */
  method GetFileDirectory(path: seq<char>) returns (dir: seq<char>)
    requires NoNul(path) && '/' in path
    ensures dir == path[..LastSepIndex(path)] + ['\0']
  {
    var len := |path|;
    var lastSepIdx := 0;
    var i := len - 1;
    while i >= 0
      invariant LastSepIndex(path) <= i < len
      invariant forall j :: i < j < len ==> path[j] != '/'
      decreases i
    {
      if path[i] == '/' {
        lastSepIdx := i;
        break;
      }
      i := i - 1;
    }
    assert lastSepIdx == LastSepIndex(path);
    var str := new char[lastSepIdx + 1];
    MemCpy(str, 0, path, lastSepIdx);
    str[lastSepIdx] := '\0';
    dir := str[..];
    assert dir == str[..lastSepIdx] + [str[lastSepIdx]];
  }

  /**
   * kwlGetAudioFilePath (lines 116-148): the audio file's path is the root directory
   * joined with the relative path; a relative root is taken from the directory of the
   * project file. The intermediate root of the relative case is passed on as a C
   * string, read up to its NUL.
   */
  method GetAudioFilePath(xmlPath: seq<char>, rootDir: seq<char>, rootIsRelative: bool,
                          relPath: seq<char>) returns (path: seq<char>)
    requires NoNul(xmlPath) && NoNul(rootDir) && NoNul(relPath)
    requires rootIsRelative ==> '/' in xmlPath
    ensures rootIsRelative ==>
      path == AppendedBuffer(CString(AppendedBuffer(xmlPath[..LastSepIndex(xmlPath)], rootDir)), relPath)
    ensures !rootIsRelative ==> path == AppendedBuffer(rootDir, relPath)
    ensures rootIsRelative && !StartsWithSep(rootDir) && !StartsWithSep(relPath) ==>
      path == JoinPath(JoinPath(xmlPath[..LastSepIndex(xmlPath)], rootDir), relPath) + ['\0']
    ensures !rootIsRelative && !StartsWithSep(relPath) ==> path == JoinPath(rootDir, relPath) + ['\0']
  {
    if rootIsRelative {
      var xmlRootDir := GetFileDirectory(xmlPath);
      var dir := xmlPath[..LastSepIndex(xmlPath)];
      ContentOfTerminated(dir);
      var audioRootDir := AppendPathElement(Content(xmlRootDir), rootDir);
      if !StartsWithSep(rootDir) {
        assert NoNul(JoinPath(dir, rootDir));
        ContentOfTerminated(JoinPath(dir, rootDir));
      }
      path := AppendPathElement(CString(audioRootDir), relPath);
      return;
    }
    path := AppendPathElement(rootDir, relPath);
  }
}
