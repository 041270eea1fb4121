/**
 * Helpers of the build tools over a parsed project XML tree (src/tools/kwl_xmlutil.c).
 * A libxml node is modelled by its type, its name, its attribute list and its children,
 * all in document order; a NULL node or value is None.
 */
module XmlUtil {
  import opened Wrappers
  import FileUtil

  /** Whether a node is an element (XML_ELEMENT_NODE) or some other kind of node. */
  datatype NodeType = ElementNode | OtherNode

  /** An attribute: its name and the content of its value. */
  datatype Attr = Attr(name: string, value: string)

  datatype Node = Node(nodeType: NodeType, name: string, properties: seq<Attr>, children: seq<Node>)

  // ---------------------------------------------------------------------------------
  // Traversal

  /**
   * The nodes kwlTraverseNodeTree (lines 33-52) hands to its callback, in order: for
   * each child of `root`, first everything below it when it is named `branch`, then
   * the child itself when it is named `leaf`.
   */
  function TraverseNodeTree(root: Node, branch: string, leaf: string): (visited: seq<Node>)
    ensures forall n :: n in visited ==> n.name == leaf
    decreases root, 1
  {
    TraverseChildren(root.children, branch, leaf)
  }

  function TraverseChildren(cs: seq<Node>, branch: string, leaf: string): (visited: seq<Node>)
    ensures forall n :: n in visited ==> n.name == leaf
    decreases cs, 0
  {
    if cs == [] then []
    else
      (if cs[0].name == branch then TraverseNodeTree(cs[0], branch, leaf) else [])
      + (if cs[0].name == leaf then [cs[0]] else [])
      + TraverseChildren(cs[1..], branch, leaf)
  }

  /**
   * Every child of the root named `leaf` is visited, and so is everything visited
   * below every child named `branch`.
   */
  lemma {:induction false} TraverseReaches(cs: seq<Node>, branch: string, leaf: string, k: nat)
    requires k < |cs|
    ensures cs[k].name == leaf ==> cs[k] in TraverseChildren(cs, branch, leaf)
    ensures cs[k].name == branch ==>
      forall n :: n in TraverseNodeTree(cs[k], branch, leaf) ==> n in TraverseChildren(cs, branch, leaf)
    decreases |cs|
  {
    if k > 0 {
      TraverseReaches(cs[1..], branch, leaf, k - 1);
      assert cs[1..][k - 1] == cs[k];
    }
  }

  // ---------------------------------------------------------------------------------
  // Attributes

  /** The value of the first attribute called `name`, if any. */
  function AttributeLookup(attrs: seq<Attr>, name: string): Option<string> {
    if attrs == [] then None
    else if attrs[0].name == name then Some(attrs[0].value)
    else AttributeLookup(attrs[1..], name)
  }

  /** AttributeLookup finds the first attribute with the name, and finds none only when there is none. */
  lemma {:induction false} AttributeLookupFirst(attrs: seq<Attr>, name: string)
    ensures AttributeLookup(attrs, name).None? <==> forall i :: 0 <= i < |attrs| ==> attrs[i].name != name
    ensures forall i :: (0 <= i < |attrs| && attrs[i].name == name && (forall j :: 0 <= j < i ==> attrs[j].name != name))
                        ==> AttributeLookup(attrs, name) == Some(attrs[i].value)
  {
    if attrs != [] {
      AttributeLookupFirst(attrs[1..], name);
      forall i | 0 < i < |attrs| && attrs[i].name == name && (forall j :: 0 <= j < i ==> attrs[j].name != name)
        ensures AttributeLookup(attrs, name) == Some(attrs[i].value)
      {
        assert attrs[0].name != name;
        assert attrs[1..][i - 1] == attrs[i];
      }
    }
  }

  /** kwlGetAttributeValue (lines 55-69): walks the attribute list to the first match. */
  method GetAttributeValue(node: Node, name: string) returns (r: Option<string>)
    ensures r == AttributeLookup(node.properties, name)
  {
    var i := 0;
    while i < |node.properties|
      invariant 0 <= i <= |node.properties|
      invariant AttributeLookup(node.properties, name) == AttributeLookup(node.properties[i..], name)
    {
      if node.properties[i].name == name {
        return Some(node.properties[i].value);
      }
      assert node.properties[i..][1..] == node.properties[i + 1..];
      i := i + 1;
    }
    return None;
  }

  /**
   * kwlGetAttributeValueCopy (lines 71-97): the same search, then a fresh
   * NUL-terminated copy of the value.
   */
  method GetAttributeValueCopy(node: Node, name: string) returns (r: Option<seq<char>>)
    requires forall a :: a in node.properties ==> FileUtil.NoNul(a.value)
    ensures r.None? <==> AttributeLookup(node.properties, name).None?
    ensures r.Some? ==> r.value == AttributeLookup(node.properties, name).value + ['\0']
  {
    var val: Option<string> := None;
    var i := 0;
    while i < |node.properties|
      invariant 0 <= i <= |node.properties|
      invariant AttributeLookup(node.properties, name) == AttributeLookup(node.properties[i..], name)
    {
      if node.properties[i].name == name {
        val := Some(node.properties[i].value);
        break;
      }
      assert node.properties[i..][1..] == node.properties[i + 1..];
      i := i + 1;
    }
    if val.None? {
      return None;
    }
    assert val == AttributeLookup(node.properties, name);
    var len := |val.value| + 1;
    var ret := new char[len];
    FileUtil.MemCpy(ret, 0, val.value, len - 1);
    ret[len - 1] := '\0';
    r := Some(ret[..]);
    assert ret[..] == ret[..len - 1] + [ret[len - 1]];
  }

  /**
   * kwlGetBoolAttributeValue (lines 109-124): 1 exactly when the attribute is
   * present and spelled "true", "True" or "TRUE"; an absent attribute is 0.
   */
  method GetBoolAttributeValue(node: Node, attribute: string) returns (r: int)
    ensures r == 0 || r == 1
    ensures r == 1 <==> AttributeLookup(node.properties, attribute) in {Some("true"), Some("True"), Some("TRUE")}
  {
    var trueVals := ["true", "True", "TRUE"];
    var val := GetAttributeValue(node, attribute);
    var i := 0;
    while i < 3
      invariant 0 <= i <= 3
      invariant forall k :: 0 <= k < i ==> val != Some(trueVals[k])
    {
      if val == Some(trueVals[i]) {
        return 1;
      }
      i := i + 1;
    }
    assert val != Some("true") && val != Some("True") && val != Some("TRUE") by {
      assert trueVals[0] == "true" && trueVals[1] == "True" && trueVals[2] == "TRUE";
    }
    return 0;
  }

  // ---------------------------------------------------------------------------------
  // Children

  /** The names of a sequence of nodes. */
  function Names(cs: seq<Node>): (names: seq<string>)
    ensures |names| == |cs|
  {
    seq(|cs|, i requires 0 <= i < |cs| => cs[i].name)
  }

  /** How many of `cs` carry the name, counted from the back. */
  function CountNamed(cs: seq<Node>, name: string): nat
  {
    if cs == [] then 0
    else CountNamed(cs[..|cs| - 1], name) + (if cs[|cs| - 1].name == name then 1 else 0)
  }

  /** The count is the name's multiplicity among the names. */
  lemma {:induction false} CountNamedMultiplicity(cs: seq<Node>, name: string)
    ensures CountNamed(cs, name) == multiset(Names(cs))[name]
  {
    if cs != [] {
      var init := cs[..|cs| - 1];
      CountNamedMultiplicity(init, name);
      assert Names(cs) == Names(init) + [cs[|cs| - 1].name];
      assert multiset(Names(cs)) == multiset(Names(init)) + multiset{cs[|cs| - 1].name};
    }
  }

  /** kwlGetChildCount (lines 127-140): how many children carry the name. */
  method GetChildCount(node: Node, childName: string) returns (count: int)
    ensures count == multiset(Names(node.children))[childName]
  {
    count := 0;
    var i := 0;
    while i < |node.children|
      invariant 0 <= i <= |node.children|
      invariant count == CountNamed(node.children[..i], childName)
    {
      assert node.children[..i + 1][..i] == node.children[..i];
      if node.children[i].name == childName {
        count := count + 1;
      }
      i := i + 1;
    }
    assert node.children[..i] == node.children;
    CountNamedMultiplicity(node.children, childName);
  }

  /** kwlGetChild (lines 216-227): the first child with the name, if any. */
  method GetChild(node: Node, name: string) returns (r: Option<Node>)
    ensures r.None? <==> forall i :: 0 <= i < |node.children| ==> node.children[i].name != name
    ensures r.Some? ==> (exists i :: 0 <= i < |node.children| && node.children[i] == r.value &&
                                     r.value.name == name && forall j :: 0 <= j < i ==> node.children[j].name != name)
  {
    var i := 0;
    while i < |node.children|
      invariant 0 <= i <= |node.children|
      invariant forall j :: 0 <= j < i ==> node.children[j].name != name
    {
      if node.children[i].name == name {
        return Some(node.children[i]);
      }
      i := i + 1;
    }
    return None;
  }

  /** An element whose attribute `idAttr` has the value `id`. */
  predicate HasId(c: Node, idAttr: string, id: string) {
    c.nodeType == ElementNode && AttributeLookup(c.properties, idAttr) == Some(id)
  }

  /** The first of `cs` that HasId, if any. */
  function ChildWithId(cs: seq<Node>, idAttr: string, id: string): (r: Option<Node>)
    ensures r.None? <==> forall i :: 0 <= i < |cs| ==> !HasId(cs[i], idAttr, id)
    ensures r.Some? ==> (exists i :: 0 <= i < |cs| && cs[i] == r.value && HasId(r.value, idAttr, id) &&
                                     forall j :: 0 <= j < i ==> !HasId(cs[j], idAttr, id))
  {
    if cs == [] then None
    else if HasId(cs[0], idAttr, id) then Some(cs[0])
    else
      var r := ChildWithId(cs[1..], idAttr, id);
      assert forall i :: 1 <= i < |cs| ==> cs[i] == cs[1..][i - 1];
      r
  }

  /**
   * kwlGetChildWithIdAttributeValue (lines 229-251): skips children that are not
   * elements or have no id, and returns the first whose id matches.
   */
  method GetChildWithIdAttributeValue(node: Node, idAttr: string, id: string) returns (r: Option<Node>)
    ensures r == ChildWithId(node.children, idAttr, id)
  {
    var i := 0;
    while i < |node.children|
      invariant 0 <= i <= |node.children|
      invariant ChildWithId(node.children, idAttr, id) == ChildWithId(node.children[i..], idAttr, id)
    {
      var curr := node.children[i];
      assert node.children[i..][1..] == node.children[i + 1..];
      if curr.nodeType != ElementNode {
        i := i + 1;
        continue;
      }
      var currId := GetAttributeValue(curr, idAttr);
      if currId.None? {
        i := i + 1;
        continue;
      }
      if currId.value == id {
        return Some(curr);
      }
      i := i + 1;
    }
    return None;
  }

  // ---------------------------------------------------------------------------------
  // Node paths

  /** The index of the first separator in `s`, or |s| if there is none. */
  function FirstSep(s: string): (i: nat)
    ensures i <= |s| && (i < |s| ==> s[i] == '/')
    ensures forall k :: 0 <= k < i ==> s[k] != '/'
  {
    if s == [] || s[0] == '/' then 0 else 1 + FirstSep(s[1..])
  }

  /** The elements of a node path: the pieces between separators, empty ones included. */
  function SplitPath(s: string): (parts: seq<string>)
    ensures |parts| >= 1
    decreases |s|
  {
    var i := FirstSep(s);
    if i == |s| then [s] else [s[..i]] + SplitPath(s[i + 1..])
  }

  /** Path elements put back together with separators. */
  function JoinPathElements(parts: seq<string>): string
    requires |parts| >= 1
  {
    if |parts| == 1 then parts[0] else parts[0] + "/" + JoinPathElements(parts[1..])
  }

  /** Splitting a path loses nothing: joining the elements gives the path back, and no element holds a separator. */
  lemma {:induction false} SplitPathRoundTrip(s: string)
    ensures JoinPathElements(SplitPath(s)) == s
    ensures forall k :: 0 <= k < |SplitPath(s)| ==> '/' !in SplitPath(s)[k]
    decreases |s|
  {
    var i := FirstSep(s);
    if i < |s| {
      SplitPathRoundTrip(s[i + 1..]);
      assert SplitPath(s)[1..] == SplitPath(s[i + 1..]);
      assert s == s[..i] + "/" + s[i + 1..];
    }
  }

  /** The node reached from `node` by following each element as an id, if every step succeeds. */
  function Resolve(node: Node, idAttr: string, elements: seq<string>): Option<Node>
    decreases |elements|
  {
    if elements == [] then Some(node)
    else match ChildWithId(node.children, idAttr, elements[0])
      case None => None
      case Some(c) => Resolve(c, idAttr, elements[1..])
  }

  /** Resolving a path in two halves is resolving it at once. */
  lemma {:induction false} ResolveAppend(node: Node, idAttr: string, a: seq<string>, b: seq<string>)
    ensures Resolve(node, idAttr, a + b) ==
      match Resolve(node, idAttr, a)
      case None => None
      case Some(m) => Resolve(m, idAttr, b)
    decreases |a|
  {
    if a != [] {
      assert (a + b)[0] == a[0] && (a + b)[1..] == a[1..] + b;
      match ChildWithId(node.children, idAttr, a[0])
      case None =>
      case Some(c) => ResolveAppend(c, idAttr, a[1..], b);
    } else {
      assert a + b == b;
    }
  }

  /** A path "p/q" with no separator in p resolves p first, then q from there. */
  lemma ResolvePathStep(node: Node, idAttr: string, p: string, q: string)
    requires '/' !in p
    ensures SplitPath(p + "/" + q) == [p] + SplitPath(q)
    ensures Resolve(node, idAttr, SplitPath(p + "/" + q)) ==
      match ChildWithId(node.children, idAttr, p)
      case None => None
      case Some(c) => Resolve(c, idAttr, SplitPath(q))
  {
    var s := p + "/" + q;
    assert forall k :: 0 <= k < |p| ==> s[k] == p[k];
    assert s[|p|] == '/';
    assert FirstSep(s) == |p|;
    assert s[..|p|] == p && s[|p| + 1..] == q;
  }

  /** The first separator of `s` is at `i` when `i` is where the scan stops. */
  lemma {:induction false} FirstSepAt(s: string, i: nat)
    requires i <= |s| && (i < |s| ==> s[i] == '/')
    requires forall k :: 0 <= k < i ==> s[k] != '/'
    ensures FirstSep(s) == i
  {
    if s != [] && s[0] != '/' {
      FirstSepAt(s[1..], i - 1);
    }
  }

  /** One step of path resolution: the first element, then the remaining path, if any. */
  lemma ResolveFirstElement(node: Node, idAttr: string, rest: string, i: nat)
    requires i == FirstSep(rest)
    ensures Resolve(node, idAttr, SplitPath(rest)) ==
      match ChildWithId(node.children, idAttr, rest[..i])
      case None => None
      case Some(c) => if i == |rest| then Some(c) else Resolve(c, idAttr, SplitPath(rest[i + 1..]))
  {
    var parts := SplitPath(rest);
    assert parts[0] == rest[..i];
    if i == |rest| {
      assert parts == [rest];
    } else {
      assert parts[1..] == SplitPath(rest[i + 1..]);
    }
  }

  /** ResolveFirstElement for the element of `path` from `start` to `end`. */
  lemma ResolveElementAt(node: Node, idAttr: string, path: string, start: nat, end: nat)
    requires start <= end <= |path| && end - start == FirstSep(path[start..])
    ensures Resolve(node, idAttr, SplitPath(path[start..])) ==
      match ChildWithId(node.children, idAttr, path[start..end])
      case None => None
      case Some(c) => if end == |path| then Some(c) else Resolve(c, idAttr, SplitPath(path[end + 1..]))
  {
    var rest := path[start..];
    var i := end - start;
    assert rest[..i] == path[start..end];
    if end < |path| {
      assert rest[i + 1..] == path[end + 1..];
    }
    ResolveFirstElement(node, idAttr, rest, i);
  }

  /** The scan for the end of the element that starts at `start` (lines 277-280). */
  method ScanElement(path: string, start: nat) returns (end: nat)
    requires start <= |path|
    ensures start <= end <= |path| && end - start == FirstSep(path[start..])
  {
    end := start;
    while end < |path|
      invariant start <= end <= |path|
      invariant forall k :: start <= k < end ==> path[k] != '/'
    {
      if path[end] == '/' {
        break;
      }
      end := end + 1;
    }
    FirstSepAt(path[start..], end - start);
  }

  /**
   * kwlResolveNodePath (lines 253-302): an empty path or one that starts with a
   * separator gives NULL; otherwise each element in turn selects the first child
   * with that id, and the first missing step gives NULL.
   */
  method ResolveNodePath(root: Node, idAttr: string, path: string) returns (r: Option<Node>)
    ensures |path| == 0 || path[0] == '/' ==> r.None?
    ensures |path| > 0 && path[0] != '/' ==> r == Resolve(root, idAttr, SplitPath(path))
  {
    var pathLen := |path|;
    if pathLen == 0 {
      return None;
    }
    if path[0] == '/' {
      return None;
    }
    var currStart := 0;
    var currEnd := 0;
    var currNode := root;
    ghost var goal := Resolve(root, idAttr, SplitPath(path));
    while currEnd < pathLen
      invariant 0 <= currEnd <= pathLen && currStart <= pathLen + 1
      invariant currEnd < pathLen ==> currStart <= pathLen
      invariant currEnd < pathLen ==> goal == Resolve(currNode, idAttr, SplitPath(path[currStart..]))
      invariant currEnd == pathLen ==> goal == Some(currNode)
      decreases pathLen + 1 - currStart
    {
      currEnd := ScanElement(path, currStart);
      var currPathElement := path[currStart..currEnd];
      ResolveElementAt(currNode, idAttr, path, currStart, currEnd);
      var next := GetChildWithIdAttributeValue(currNode, idAttr, currPathElement);
      if next.None? {
        return None;
      }
      currNode := next.value;
      currStart := currEnd + 1;
    }
    return Some(currNode);
  }
}
