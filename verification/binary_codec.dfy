/**
 * The shapes the tools' binary formats share: a run of writes to an output stream,
 * and a run of reads, counted by a number read before it, from an input stream.
 */
module BinaryCodec {
  import opened FileOutputStream
  import opened ResultCodes

  // ---------------------------------------------------------------------------------
  // Writing

  /** The bytes of several writes, one after another. */
  function Concat(parts: seq<seq<Byte>>): (r: seq<Byte>)
  {
    if parts == [] then [] else Concat(parts[..|parts| - 1]) + parts[|parts| - 1]
  }

  /** The encodings of the items of a list, in order. */
  function Map<T>(enc: T -> seq<Byte>, xs: seq<T>): (parts: seq<seq<Byte>>)
    ensures |parts| == |xs|
  {
    seq(|xs|, i requires 0 <= i < |xs| => enc(xs[i]))
  }

  /** One more write appends its bytes. */
  lemma ConcatSnoc(parts: seq<seq<Byte>>, p: seq<Byte>)
    ensures Concat(parts + [p]) == Concat(parts) + p
  {
    assert (parts + [p])[..|parts|] == parts;
  }

  /** Writes seen from the front: the first write's bytes, then the others'. */
  lemma {:induction false} ConcatCons(p: seq<Byte>, parts: seq<seq<Byte>>)
    ensures Concat([p] + parts) == p + Concat(parts)
    decreases |parts|
  {
    if parts == [] {
      assert [p] + parts == [] + [p];
      ConcatSnoc([], p);
    } else {
      var init := parts[..|parts| - 1];
      var last := parts[|parts| - 1];
      assert [p] + parts == ([p] + init) + [last];
      ConcatSnoc([p] + init, last);
      ConcatCons(p, init);
      ConcatSnoc(init, last);
      assert parts == init + [last];
    }
  }

  /** The writes of a list, split around its k-th write. */
  lemma {:induction false} ConcatSplit(parts: seq<seq<Byte>>, k: nat)
    requires k < |parts|
    ensures Concat(parts) == Concat(parts[..k]) + parts[k] + Concat(parts[k + 1..])
    decreases |parts|
  {
    if k == |parts| - 1 {
      assert parts == parts[..k] + [parts[k]];
      ConcatSnoc(parts[..k], parts[k]);
      assert parts[k + 1..] == [];
    } else {
      var init := parts[..|parts| - 1];
      var last := parts[|parts| - 1];
      assert parts == init + [last];
      ConcatSnoc(init, last);
      ConcatSplit(init, k);
      assert init[..k] == parts[..k] && init[k] == parts[k];
      assert parts[k + 1..] == init[k + 1..] + [last];
      ConcatSnoc(init[k + 1..], last);
      AppendAssoc(Concat(parts[..k]) + parts[k], Concat(init[k + 1..]), last);
    }
  }

  /** Writes of equal lengths take equal room. */
  lemma {:induction false} ConcatLength(a: seq<seq<Byte>>, b: seq<seq<Byte>>)
    requires |a| == |b| && forall i :: 0 <= i < |a| ==> |a[i]| == |b[i]|
    ensures |Concat(a)| == |Concat(b)|
    decreases |a|
  {
    if a != [] {
      ConcatLength(a[..|a| - 1], b[..|b| - 1]);
    }
  }

  /** The encodings of a list: the first item's, then the others'. */
  lemma MapCons<T>(enc: T -> seq<Byte>, xs: seq<T>)
    requires xs != []
    ensures Map(enc, xs) == [enc(xs[0])] + Map(enc, xs[1..])
  {
  }

  /** The first i items of a list, encoded, grow by one item's encoding. */
  lemma MapSnoc<T>(enc: T -> seq<Byte>, xs: seq<T>, i: nat)
    requires i < |xs|
    ensures Concat(Map(enc, xs[..i + 1])) == Concat(Map(enc, xs[..i])) + enc(xs[i])
  {
    assert Map(enc, xs[..i + 1]) == Map(enc, xs[..i]) + [enc(xs[i])];
    ConcatSnoc(Map(enc, xs[..i]), enc(xs[i]));
  }

  /** Writing item i after the first i items' encodings gives the first i + 1 items' encodings. */
  lemma AppendItem<T>(head: seq<Byte>, enc: T -> seq<Byte>, xs: seq<T>, i: nat)
    requires i < |xs|
    ensures head + Concat(Map(enc, xs[..i])) + enc(xs[i]) == head + Concat(Map(enc, xs[..i + 1]))
  {
    MapSnoc(enc, xs, i);
  }

  /** One more part written after the first i. */
  lemma AppendPart(head: seq<Byte>, parts: seq<seq<Byte>>, i: nat)
    requires i < |parts|
    ensures head + Concat(parts[..i]) + parts[i] == head + Concat(parts[..i + 1])
  {
    assert parts[..i + 1] == parts[..i] + [parts[i]];
    ConcatSnoc(parts[..i], parts[i]);
  }

  /** Bytes written after bytes after bytes. */
  lemma AppendAssoc(a: seq<Byte>, b: seq<Byte>, c: seq<Byte>)
    ensures a + (b + c) == (a + b) + c
  {
  }

  // ---------------------------------------------------------------------------------
  // Reading

  /** The codes a read can fail with: the file ends too early, or its data is inconsistent. */
  type ReadError = c: ResultCode | c == StreamError || c == EngineDataStructureError witness StreamError

  /** What a read leaves: the value and the bytes after it, or the reason it failed. */
  datatype Parsed<T> = Parsed(value: T, rest: seq<Byte>) | Failed(code: ReadError)
  {
    /** A failed read ends the reading: `:-` passes its code on. */
    predicate IsFailure() {
      Failed?
    }

    function PropagateFailure<U>(): Parsed<U>
      requires Failed?
    {
      Failed(code)
    }

    /** A successful read gives its value together with where it stopped. */
    function Extract(): Parsed<T>
      requires Parsed?
    {
      this
    }
  }

  /** Items already read, put in front of what the remaining reads give. */
  function Prepend<T>(xs: seq<T>, p: Parsed<seq<T>>): (r: Parsed<seq<T>>)
    ensures p.Failed? ==> r == p
    ensures p.Parsed? ==> r == Parsed(xs + p.value, p.rest)
  {
    match p
    case Failed(c) => Failed(c)
    case Parsed(ys, rest) => Parsed(xs + ys, rest)
  }

  /** Putting no items in front changes nothing. */
  lemma PrependNothing<T>(p: Parsed<seq<T>>)
    ensures Prepend([], p) == p
  {
    if p.Parsed? {
      assert [] + p.value == p.value;
    }
  }

  /** Putting items in front in two steps is putting them in front at once. */
  lemma PrependTwice<T>(xs: seq<T>, x: T, p: Parsed<seq<T>>)
    ensures Prepend(xs, Prepend([x], p)) == Prepend(xs + [x], p)
  {
    if p.Parsed? {
      assert xs + ([x] + p.value) == (xs + [x]) + p.value;
    }
  }

  /**
   * `n` items, each read by `item` from where the previous one stopped; the
   * first failing item decides the result. A count below one reads nothing.
   */
  function ParseList<T>(item: seq<Byte> -> Parsed<T>, s: seq<Byte>, n: int): (r: Parsed<seq<T>>)
    ensures r.Parsed? ==> |r.value| == if n < 0 then 0 else n
    decreases n
  {
    if n <= 0 then Parsed([], s)
    else match item(s)
      case Failed(c) => Failed(c)
      case Parsed(x, rest) => Prepend([x], ParseList(item, rest, n - 1))
  }

  /** Items that each read back as themselves read back as a list. */
  lemma {:induction false} ParseListRoundTrip<T>(item: seq<Byte> -> Parsed<T>, enc: T -> seq<Byte>, xs: seq<T>, rest: seq<Byte>)
    requires forall x, r :: x in xs ==> item(enc(x) + r) == Parsed(x, r)
    ensures ParseList(item, Concat(Map(enc, xs)) + rest, |xs|) == Parsed(xs, rest)
    decreases |xs|
  {
    if xs != [] {
      var tail := xs[1..];
      MapCons(enc, xs);
      ConcatCons(enc(xs[0]), Map(enc, tail));
      AppendAssoc(enc(xs[0]), Concat(Map(enc, tail)), rest);
      assert xs[0] in xs;
      assert forall x :: x in tail ==> x in xs;
      ParseListRoundTrip(item, enc, tail, rest);
      assert xs == [xs[0]] + tail;
    }
  }
}
