/** Byte strings as Go sees them: `len` of a Go string counts UTF-8 bytes,
    so every piece of text in this model is a sequence of bytes. */
module GoStrings {

  newtype byte = b: int | 0 <= b < 256

  type Bytes = seq<byte>

  const NL: Bytes := [10]             // "\n"
  const DOT: Bytes := [46]            // "."
  const COLON_SP: Bytes := [58, 32]   // ": "

  /** Total length of a list of byte strings. */
  function TotalLength(parts: seq<Bytes>): nat
  {
    if parts == [] then 0 else |parts[0]| + TotalLength(parts[1..])
  }

  /** Go's strings.Join: the parts in order, `sep` between neighbours. */
  function Join(parts: seq<Bytes>, sep: Bytes): (r: Bytes)
    ensures parts == [] ==> r == []
    ensures parts != [] ==> |r| == TotalLength(parts) + (|parts| - 1) * |sep|
  {
    if |parts| == 0 then []
    else if |parts| == 1 then parts[0]
    else parts[0] + sep + Join(parts[1..], sep)
  }

  /** Every part preceded by `sep`, concatenated: what follows the first part in a join. */
  function Prefixed(parts: seq<Bytes>, sep: Bytes): (r: Bytes)
  {
    if parts == [] then [] else sep + parts[0] + Prefixed(parts[1..], sep)
  }

  /** A join is its first part followed by every other part preceded by the separator. */
  lemma {:induction false} JoinIsPrefixed(parts: seq<Bytes>, sep: Bytes)
    requires parts != []
    ensures Join(parts, sep) == parts[0] + Prefixed(parts[1..], sep)
  {
    if |parts| > 1 {
      JoinIsPrefixed(parts[1..], sep);
      assert parts[1..][1..] == parts[2..];
    }
  }

  /** A prefixed list of one part, a middle list and a last part, written out. */
  lemma PrefixedLayout(second: Bytes, middle: seq<Bytes>, last: Bytes, sep: Bytes)
    ensures Prefixed([second] + middle + [last], sep)
      == (sep + second) + Prefixed(middle, sep) + (sep + last)
  {
    PrefixedAppend([second] + middle, [last], sep);
    PrefixedAppend([second], middle, sep);
    PrefixedSingle(second, sep);
    PrefixedSingle(last, sep);
  }

  /** A join of two leading parts, a middle list and a last part, written out. */
  lemma JoinLayout(first: Bytes, second: Bytes, middle: seq<Bytes>, last: Bytes, sep: Bytes)
    ensures Join([first, second] + middle + [last], sep)
      == (first + sep + second) + Prefixed(middle, sep) + (sep + last)
  {
    var parts := [first, second] + middle + [last];
    assert parts[0] == first && parts[1..] == [second] + middle + [last];
    JoinIsPrefixed(parts, sep);
    PrefixedLayout(second, middle, last, sep);
  }

  /** Prefixed distributes over concatenation of the list. */
  lemma {:induction false} PrefixedAppend(a: seq<Bytes>, b: seq<Bytes>, sep: Bytes)
    ensures Prefixed(a + b, sep) == Prefixed(a, sep) + Prefixed(b, sep)
  {
    if a == [] {
      assert a + b == b;
    } else {
      assert (a + b)[0] == a[0];
      assert (a + b)[1..] == a[1..] + b;
      PrefixedAppend(a[1..], b, sep);
    }
  }

  /** The length of a prefixed list: each part plus one separator. */
  lemma {:induction false} PrefixedLength(parts: seq<Bytes>, sep: Bytes)
    ensures |Prefixed(parts, sep)| == TotalLength(parts) + |parts| * |sep|
  {
    if parts != [] {
      PrefixedLength(parts[1..], sep);
    }
  }

  /** A one-part list prefixed is the separator and the part. */
  lemma PrefixedSingle(part: Bytes, sep: Bytes)
    ensures Prefixed([part], sep) == sep + part
  {
  }

  /** Removing the first part of a prefixed list, inside any context, removes
      exactly that part and the separator before it. */
  lemma PrefixedDropFirst(head: Bytes, part: Bytes, rest: seq<Bytes>, tail: Bytes, sep: Bytes)
    ensures var shorter := head + Prefixed(rest, sep) + tail;
      |head| <= |shorter|
      && head + Prefixed([part] + rest, sep) + tail == shorter[..|head|] + sep + part + shorter[|head|..]
  {
    PrefixedAppend([part], rest, sep);
    PrefixedSingle(part, sep);
    var shorter := head + Prefixed(rest, sep) + tail;
    Splice(head, sep + part, Prefixed(rest, sep), tail);
    assert shorter[..|head|] + (sep + part) + shorter[|head|..] == shorter[..|head|] + sep + part + shorter[|head|..];
  }

  /** Inserting `x` between `head` and the rest of a sequence. */
  lemma Splice<T>(head: seq<T>, x: seq<T>, mid: seq<T>, tail: seq<T>)
    ensures var whole := head + mid + tail;
      |head| <= |whole| && head + (x + mid) + tail == whole[..|head|] + x + whole[|head|..]
  {
  }
}
