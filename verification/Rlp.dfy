/** Canonical RLP (Ethereum Yellow Paper, Appendix B): decoding and encoding. */
module Rlp {
  type byte = x: int | 0 <= x < 256
  type Bytes = seq<byte>

  datatype Result<+T> = Ok(value: T) | Err(error: string)

  datatype Kind = String | List

  /** A decoded item: raw is its whole encoding, payload what follows the prefix. */
  datatype RlpItem = RlpItem(kind: Kind, payload: Bytes, raw: Bytes, children: seq<RlpItem>)

  datatype Decoded = Decoded(item: RlpItem, rest: Bytes)

  /** What an item means: a byte string or a list of items. */
  datatype Tree = Leaf(bytes: Bytes) | Node(trees: seq<Tree>)

  // ---------------------------------------------------------------------------
  // Big-endian numbers
  // ---------------------------------------------------------------------------

  function FromBytes(s: Bytes): nat {
    if s == [] then 0 else 256 * FromBytes(s[..|s| - 1]) + s[|s| - 1]
  }

  /** The shortest non-empty big-endian form. */
  function ToBytes(n: nat): (s: Bytes)
    ensures |s| > 0 && (n > 0 ==> s[0] != 0)
  {
    if n < 256 then [n] else ToBytes(n / 256) + [n % 256]
  }

  function Pow256(k: nat): (p: nat)
    ensures p > 0
  {
    if k == 0 then 1 else 256 * Pow256(k - 1)
  }

  const TWO_64: nat := 0x1_0000_0000_0000_0000

  lemma Pow256Of8()
    ensures Pow256(8) == TWO_64
  {
    assert Pow256(2) == 0x1_0000;
    assert Pow256(4) == 0x1_0000_0000;
    assert Pow256(6) == 0x1_0000_0000_0000;
  }

  lemma {:induction false} FromToBytes(n: nat)
    ensures FromBytes(ToBytes(n)) == n
  {
    if n < 256 {
      assert FromBytes([n][..0]) == 0;
    } else {
      FromToBytes(n / 256);
      assert ToBytes(n)[..|ToBytes(n)| - 1] == ToBytes(n / 256);
    }
  }

  lemma {:induction false} FromBytesBound(s: Bytes)
    ensures FromBytes(s) < Pow256(|s|)
  {
    if s != [] {
      FromBytesBound(s[..|s| - 1]);
    }
  }

  lemma {:induction false} FromBytesPositive(s: Bytes)
    requires s != [] && s[0] != 0
    ensures FromBytes(s) >= Pow256(|s| - 1)
  {
    if |s| == 1 {
      assert FromBytes(s[..0]) == 0;
    } else {
      FromBytesPositive(s[..|s| - 1]);
    }
  }

  /** A form without a leading zero is the shortest one. */
  lemma {:induction false} ToFromBytes(s: Bytes)
    requires s != [] && s[0] != 0
    ensures ToBytes(FromBytes(s)) == s
  {
    var front, last := s[..|s| - 1], s[|s| - 1];
    assert s == front + [last];
    if |s| == 1 {
      assert FromBytes(front) == 0;
    } else {
      ToFromBytes(front);
      FromBytesPositive(front);
      assert FromBytes(front) >= 1;
      assert FromBytes(s) / 256 == FromBytes(front) && FromBytes(s) % 256 == last;
    }
  }

  lemma {:induction false} ToBytesLength(n: nat, k: nat)
    requires k > 0 && n < Pow256(k)
    ensures |ToBytes(n)| <= k
  {
    if n >= 256 {
      assert Pow256(1) == 256;
      ToBytesLength(n / 256, k - 1);
    }
  }

  // ---------------------------------------------------------------------------
  // Decoding
  // ---------------------------------------------------------------------------

  datatype Length = Length(length: nat, offset: nat)

  function LongLength(input: Bytes, lengthBytes: nat): (r: Result<Length>)
    requires lengthBytes > 0
    ensures r.Ok? ==> r.value.offset == 1 + lengthBytes <= |input|
  {
    if lengthBytes > 8 || |input| < 1 + lengthBytes then Err("invalid RLP length prefix")
    else
      var encoded := input[1..1 + lengthBytes];
      if encoded[0] == 0 then Err("non-canonical RLP length prefix")
      else if FromBytes(encoded) > |input| then Err("RLP length exceeds input")
      else Ok(Length(FromBytes(encoded), 1 + lengthBytes))
  }

  /** The item that ends at position end of input and whose payload starts at offset. */
  function StringItem(input: Bytes, offset: nat, end: nat): Decoded
    requires offset <= end <= |input|
  {
    Decoded(RlpItem(String, input[offset..end], input[..end], []), input[end..])
  }

  function Decode(input: Bytes): (r: Result<Decoded>)
    ensures r.Ok? ==> |r.value.rest| < |input| && r.value.item.raw + r.value.rest == input
    decreases |input|, 0
  {
    if |input| == 0 then Err("truncated RLP item")
    else
      var prefix := input[0];
      if prefix < 0x80 then Ok(StringItem(input, 0, 1))
      else if prefix <= 0xb7 then
        var length := prefix - 0x80;
        if |input| < 1 + length then Err("truncated RLP string")
        else if length == 1 && input[1] < 0x80 then Err("non-canonical RLP string")
        else Ok(StringItem(input, 1, 1 + length))
      else if prefix <= 0xbf then
        var l := LongLength(input, prefix - 0xb7);
        if l.Err? then Err(l.error)
        else if l.value.length < 56 then Err("non-canonical long RLP string")
        else if l.value.length > |input| - l.value.offset then Err("truncated RLP string")
        else Ok(StringItem(input, l.value.offset, l.value.offset + l.value.length))
      else if prefix <= 0xf7 then
        var length := prefix - 0xc0;
        if |input| < 1 + length then Err("truncated RLP list")
        else DecodeListAt(input, 1, 1 + length)
      else
        var l := LongLength(input, prefix - 0xf7);
        if l.Err? then Err(l.error)
        else if l.value.length < 56 then Err("non-canonical long RLP list")
        else if l.value.length > |input| - l.value.offset then Err("truncated RLP list")
        else DecodeListAt(input, l.value.offset, l.value.offset + l.value.length)
  }

  function DecodeListAt(input: Bytes, start: nat, end: nat): (r: Result<Decoded>)
    requires 0 < start <= end <= |input|
    ensures r.Ok? ==> |r.value.rest| < |input| && r.value.item.raw + r.value.rest == input
    decreases end - start, 2
  {
    var children := DecodeChildren(input[start..end]);
    if children.Err? then Err(children.error)
    else Ok(Decoded(RlpItem(List, input[start..end], input[..end], children.value), input[end..]))
  }

  /** The items that fill remaining; each consumes at least one byte. */
  function DecodeChildren(remaining: Bytes): (r: Result<seq<RlpItem>>)
    decreases |remaining|, 1
  {
    if |remaining| == 0 then Ok([])
    else
      var first := Decode(remaining);
      if first.Err? then Err(first.error)
      else
        var others := DecodeChildren(first.value.rest);
        if others.Err? then others else Ok([first.value.item] + others.value)
  }

  // ---------------------------------------------------------------------------
  // Encoding
  // ---------------------------------------------------------------------------

  /** The prefix of a payload of n bytes; base is 0x80 for strings and 0xc0 for lists. */
  function Prefix(base: int, n: nat): Bytes
    requires base == 0x80 || base == 0xc0
  {
    if n <= 55 then [base + n]
    else
      var length := ToBytes(n % TWO_64);
      Pow256Of8();
      ToBytesLength(n % TWO_64, 8);
      [base + 55 + |length|] + length
  }

  function EncodeBytes(payload: Bytes): Bytes {
    if |payload| == 1 && payload[0] < 0x80 then payload else Prefix(0x80, |payload|) + payload
  }

  function EncodeList(payload: Bytes): Bytes {
    Prefix(0xc0, |payload|) + payload
  }

  function Encode(t: Tree): Bytes {
    match t
    case Leaf(bytes) => EncodeBytes(bytes)
    case Node(trees) => EncodeList(EncodeAll(trees))
  }

  function EncodeAll(trees: seq<Tree>): Bytes {
    if trees == [] then [] else Encode(trees[0]) + EncodeAll(trees[1..])
  }

  function TreeOf(item: RlpItem): Tree
    decreases item, 0
  {
    match item.kind
    case String => Leaf(item.payload)
    case List => Node(TreesOf(item.children))
  }

  function TreesOf(items: seq<RlpItem>): (trees: seq<Tree>)
    ensures |trees| == |items|
    decreases items, 1
  {
    if items == [] then [] else [TreeOf(items[0])] + TreesOf(items[1..])
  }

  // ---------------------------------------------------------------------------
  // Decoding what was encoded
  // ---------------------------------------------------------------------------

  /** A long prefix reads back as the length it stands for. */
  lemma LongPrefix(base: int, n: nat, tail: Bytes)
    requires base == 0x80 || base == 0xc0
    requires 55 < n < TWO_64 && n <= |tail|
    ensures var p := Prefix(base, n);
            && |p| >= 2 && 0 < p[0] - base - 55 <= 8
            && LongLength(p + tail, p[0] - base - 55) == Ok(Length(n, |p|))
  {
    var length := ToBytes(n);
    Pow256Of8();
    ToBytesLength(n, 8);
    FromToBytes(n);
    var input := Prefix(base, n) + tail;
    assert Prefix(base, n) == [base + 55 + |length|] + length;
    assert input[1..1 + |length|] == length;
  }

  lemma DecodeOfBytes(payload: Bytes, tail: Bytes)
    requires |payload| < TWO_64
    ensures Decode(EncodeBytes(payload) + tail) == Ok(Decoded(RlpItem(String, payload, EncodeBytes(payload), []), tail))
  {
    var raw := EncodeBytes(payload);
    var input := raw + tail;
    if |payload| == 1 && payload[0] < 0x80 {
      StringAt(input, [], payload, tail);
    } else if |payload| <= 55 {
      StringAt(input, [0x80 + |payload|], payload, tail);
    } else {
      DecodeOfLongBytes(payload, tail);
    }
  }

  lemma DecodeOfLongBytes(payload: Bytes, tail: Bytes)
    requires 55 < |payload| < TWO_64
    ensures Decode(EncodeBytes(payload) + tail) == Ok(Decoded(RlpItem(String, payload, EncodeBytes(payload), []), tail))
  {
    var p := Prefix(0x80, |payload|);
    var input := p + payload + tail;
    LongPrefix(0x80, |payload|, payload + tail);
    assert input == p + (payload + tail);
    StringAt(input, p, payload, tail);
  }

  lemma StringAt(input: Bytes, prefix: Bytes, payload: Bytes, tail: Bytes)
    requires input == prefix + payload + tail
    ensures StringItem(input, |prefix|, |prefix| + |payload|)
        == Decoded(RlpItem(String, payload, prefix + payload, []), tail)
  {
  }

  lemma DecodeOfList(payload: Bytes, children: seq<RlpItem>, tail: Bytes)
    requires |payload| < TWO_64 && DecodeChildren(payload) == Ok(children)
    ensures Decode(EncodeList(payload) + tail)
        == Ok(Decoded(RlpItem(List, payload, EncodeList(payload), children), tail))
  {
    var p := Prefix(0xc0, |payload|);
    var input := p + payload + tail;
    ListAt(input, p, payload, tail, children);
    if |payload| > 55 {
      LongPrefix(0xc0, |payload|, payload + tail);
      assert input == p + (payload + tail);
    }
  }

  lemma ListAt(input: Bytes, prefix: Bytes, payload: Bytes, tail: Bytes, children: seq<RlpItem>)
    requires |prefix| > 0 && input == prefix + payload + tail && DecodeChildren(payload) == Ok(children)
    ensures DecodeListAt(input, |prefix|, |prefix| + |payload|)
        == Ok(Decoded(RlpItem(List, payload, prefix + payload, children), tail))
  {
    assert input[|prefix|..|prefix| + |payload|] == payload;
  }

  lemma EncodeNotEmpty(t: Tree)
    ensures |Encode(t)| > 0
  {
  }

  /** Decoding an encoded tree followed by any tail returns the tree and the tail. */
  lemma {:induction false} DecodeEncode(t: Tree, tail: Bytes)
    requires |Encode(t)| < TWO_64
    ensures var r := Decode(Encode(t) + tail);
            r.Ok? && r.value.rest == tail && r.value.item.raw == Encode(t) && TreeOf(r.value.item) == t
    decreases t, 0
  {
    match t
    case Leaf(bytes) =>
      DecodeOfBytes(bytes, tail);
    case Node(trees) =>
      var children := DecodeEncodeAll(trees);
      DecodeOfList(EncodeAll(trees), children, tail);
  }

  lemma {:induction false} DecodeEncodeAll(trees: seq<Tree>) returns (children: seq<RlpItem>)
    requires |EncodeAll(trees)| < TWO_64
    ensures DecodeChildren(EncodeAll(trees)) == Ok(children) && TreesOf(children) == trees
    decreases trees, 1
  {
    if trees == [] {
      children := [];
    } else {
      EncodeNotEmpty(trees[0]);
      DecodeEncode(trees[0], EncodeAll(trees[1..]));
      var others := DecodeEncodeAll(trees[1..]);
      var first := Decode(EncodeAll(trees)).value.item;
      children := [first] + others;
      assert children[1..] == others;
    }
  }

  // ---------------------------------------------------------------------------
  // Encoding what was decoded
  // ---------------------------------------------------------------------------

  function Raws(items: seq<RlpItem>): Bytes {
    if items == [] then [] else items[0].raw + Raws(items[1..])
  }

  /** The item is encoded the only way it can be. */
  ghost predicate Canonical(item: RlpItem)
    decreases item, 0
  {
    match item.kind
    case String => item.raw == EncodeBytes(item.payload) && item.children == []
    case List =>
      && item.raw == EncodeList(item.payload) && item.payload == Raws(item.children) && AllCanonical(item.children)
  }

  ghost predicate AllCanonical(items: seq<RlpItem>)
    decreases items, 1
  {
    items != [] ==> Canonical(items[0]) && AllCanonical(items[1..])
  }

  lemma LongLengthIsPrefix(base: int, input: Bytes)
    requires base == 0x80 || base == 0xc0
    requires |input| > 0 && base + 55 < input[0] <= base + 63
    requires LongLength(input, input[0] - base - 55).Ok? && LongLength(input, input[0] - base - 55).value.length >= 56
    ensures var l := LongLength(input, input[0] - base - 55).value;
            input[..l.offset] == Prefix(base, l.length)
  {
    var k := input[0] - base - 55;
    var encoded := input[1..1 + k];
    ToFromBytes(encoded);
    FromBytesBound(encoded);
    Pow256Monotone(k, 8);
    Pow256Of8();
    assert input[..1 + k] == [input[0]] + encoded;
  }

  lemma {:induction false} Pow256Monotone(j: nat, k: nat)
    requires j <= k
    ensures Pow256(j) <= Pow256(k)
  {
    if j < k {
      Pow256Monotone(j, k - 1);
    }
  }

  lemma StringAtIsCanonical(input: Bytes, offset: nat, end: nat)
    requires offset <= end <= |input| && input[..offset] == Prefix(0x80, end - offset)
    requires !(end - offset == 1 && input[offset] < 0x80)
    ensures Canonical(StringItem(input, offset, end).item)
  {
    assert input[..end] == input[..offset] + input[offset..end];
  }

  lemma ListAtIsCanonical(input: Bytes, start: nat, end: nat)
    requires 0 < start <= end <= |input| && input[..start] == Prefix(0xc0, end - start)
    requires DecodeListAt(input, start, end).Ok?
    ensures Canonical(DecodeListAt(input, start, end).value.item)
    decreases end - start, 2
  {
    ChildrenAreCanonical(input[start..end]);
    assert input[..end] == input[..start] + input[start..end];
  }

  lemma {:induction false} DecodedIsCanonical(input: Bytes)
    requires Decode(input).Ok?
    ensures Canonical(Decode(input).value.item)
    decreases |input|, 0
  {
    var prefix := input[0];
    if prefix < 0x80 {
      assert input[0..1] == input[..1];
    } else if prefix <= 0xbf {
      DecodedStringIsCanonical(input);
    } else if prefix <= 0xf7 {
      ListAtIsCanonical(input, 1, 1 + (prefix - 0xc0));
    } else {
      LongLengthIsPrefix(0xc0, input);
      var l := LongLength(input, prefix - 0xf7).value;
      ListAtIsCanonical(input, l.offset, l.offset + l.length);
    }
  }

  lemma DecodedStringIsCanonical(input: Bytes)
    requires Decode(input).Ok? && 0x80 <= input[0] <= 0xbf
    ensures Canonical(Decode(input).value.item)
  {
    var prefix := input[0];
    if prefix <= 0xb7 {
      StringAtIsCanonical(input, 1, 1 + (prefix - 0x80));
    } else {
      LongLengthIsPrefix(0x80, input);
      var l := LongLength(input, prefix - 0xb7).value;
      StringAtIsCanonical(input, l.offset, l.offset + l.length);
    }
  }

  lemma {:induction false} ChildrenAreCanonical(payload: Bytes)
    requires DecodeChildren(payload).Ok?
    ensures AllCanonical(DecodeChildren(payload).value) && Raws(DecodeChildren(payload).value) == payload
    decreases |payload|, 1
  {
    if payload != [] {
      DecodedIsCanonical(payload);
      var first := Decode(payload).value;
      ChildrenAreCanonical(first.rest);
      var children := DecodeChildren(payload).value;
      assert children[1..] == DecodeChildren(first.rest).value;
    }
  }

  lemma {:induction false} CanonicalEncodes(item: RlpItem)
    requires Canonical(item)
    ensures Encode(TreeOf(item)) == item.raw
    decreases item, 0
  {
    if item.kind.List? {
      AllCanonicalEncode(item.children);
    }
  }

  lemma {:induction false} AllCanonicalEncode(items: seq<RlpItem>)
    requires AllCanonical(items)
    ensures EncodeAll(TreesOf(items)) == Raws(items)
    decreases items, 1
  {
    if items != [] {
      CanonicalEncodes(items[0]);
      AllCanonicalEncode(items[1..]);
      assert TreesOf(items)[1..] == TreesOf(items[1..]);
    }
  }

  /** Any accepted input encodes back to exactly the bytes consumed. */
  lemma EncodeDecode(input: Bytes)
    requires Decode(input).Ok?
    ensures var d := Decode(input).value;
            Encode(TreeOf(d.item)) + d.rest == input && Encode(TreeOf(d.item)) == d.item.raw
  {
    DecodedIsCanonical(input);
    CanonicalEncodes(Decode(input).value.item);
  }

  /** No encoding is a prefix of another: a tree and what follows it are determined by the bytes. */
  lemma UniquelyDecodable(t: Tree, u: Tree, x: Bytes, y: Bytes)
    requires |Encode(t)| < TWO_64 && |Encode(u)| < TWO_64 && Encode(t) + x == Encode(u) + y
    ensures t == u && x == y
  {
    DecodeEncode(t, x);
    DecodeEncode(u, y);
  }

  // ---------------------------------------------------------------------------
  // The loops
  // ---------------------------------------------------------------------------

  lemma FromBytesSnoc(s: Bytes, i: nat)
    requires i < |s|
    ensures FromBytes(s[..i + 1]) == 256 * FromBytes(s[..i]) + s[i]
  {
    assert s[..i + 1][..i] == s[..i];
  }

  /** Shift in one byte at a time. */
  method Accumulate(encoded: Bytes) returns (value: nat)
    ensures value == FromBytes(encoded)
  {
    value := 0;
    for i := 0 to |encoded|
      invariant value == FromBytes(encoded[..i])
    {
      FromBytesSnoc(encoded, i);
      value := value * 256 + encoded[i];
    }
    assert encoded[..|encoded|] == encoded;
  }

  method DecodeLongLength(input: Bytes, lengthBytes: nat) returns (r: Result<Length>)
    requires lengthBytes > 0
    ensures r == LongLength(input, lengthBytes)
    ensures r.Ok? ==> r.value.length < TWO_64
  {
    if lengthBytes > 8 || |input| < 1 + lengthBytes {
      return Err("invalid RLP length prefix");
    }
    var encoded := input[1..1 + lengthBytes];
    if encoded[0] == 0 {
      return Err("non-canonical RLP length prefix");
    }
    FromBytesBound(encoded);
    Pow256Monotone(lengthBytes, 8);
    Pow256Of8();
    var length := Accumulate(encoded);
    if length > |input| {
      return Err("RLP length exceeds input");
    }
    return Ok(Length(length, 1 + lengthBytes));
  }

  lemma {:induction false} DecodeChildrenPrefix(items: seq<RlpItem>, payload: Bytes, remaining: Bytes)
    requires Splits(items, payload, remaining)
    ensures DecodeChildren(remaining).Err? ==> DecodeChildren(payload) == DecodeChildren(remaining)
    ensures DecodeChildren(remaining).Ok? ==> DecodeChildren(payload) == Ok(items + DecodeChildren(remaining).value)
    decreases |items|
  {
    if items == [] {
      assert DecodeChildren(remaining).Ok? ==>
          items + DecodeChildren(remaining).value == DecodeChildren(remaining).value;
    } else {
      DecodeChildrenPrefix(items[1..], Decode(payload).value.rest, remaining);
      assert items == [items[0]] + items[1..];
      if DecodeChildren(remaining).Ok? {
        assert items + DecodeChildren(remaining).value == [items[0]] + (items[1..] + DecodeChildren(remaining).value);
      }
    }
  }

  /** Decoding payload yields items one by one and then leaves remaining. */
  ghost predicate Splits(items: seq<RlpItem>, payload: Bytes, remaining: Bytes)
    decreases |items|
  {
    if items == [] then payload == remaining
    else
      && payload != [] && Decode(payload).Ok? && Decode(payload).value.item == items[0]
      && Splits(items[1..], Decode(payload).value.rest, remaining)
  }

  lemma {:induction false} SplitsSnoc(items: seq<RlpItem>, payload: Bytes, remaining: Bytes)
    requires Splits(items, payload, remaining) && remaining != [] && Decode(remaining).Ok?
    ensures Splits(items + [Decode(remaining).value.item], payload, Decode(remaining).value.rest)
    decreases |items|
  {
    if items == [] {
      assert (items + [Decode(remaining).value.item])[1..] == [];
    } else {
      SplitsSnoc(items[1..], Decode(payload).value.rest, remaining);
      assert (items + [Decode(remaining).value.item])[1..] == items[1..] + [Decode(remaining).value.item];
    }
  }

  method DecodeRLPList(input: Bytes, start: nat, end: nat) returns (r: Result<Decoded>)
    requires 0 < start <= end <= |input|
    ensures r == DecodeListAt(input, start, end)
  {
    var payload := input[start..end];
    var children: seq<RlpItem> := [];
    var remaining := payload;
    while |remaining| > 0
      invariant Splits(children, payload, remaining)
    {
      DecodeChildrenPrefix(children, payload, remaining);
      var child := Decode(remaining);
      if child.Err? {
        return Err(child.error);
      }
      SplitsSnoc(children, payload, remaining);
      children := children + [child.value.item];
      remaining := child.value.rest;
    }
    DecodeChildrenPrefix(children, payload, remaining);
    assert children + [] == children;
    return Ok(Decoded(RlpItem(List, payload, input[..end], children), input[end..]));
  }

  /** The eight-byte big-endian form of n, modulo 2^64. */
  function FixedBytes(n: nat, k: nat): (s: Bytes)
    ensures |s| == k
  {
    if k == 0 then [] else FixedBytes(n / 256, k - 1) + [n % 256]
  }

  lemma {:induction false} FixedBytesValue(n: nat, k: nat)
    ensures FromBytes(FixedBytes(n, k)) == n % Pow256(k)
  {
    if k > 0 {
      FixedBytesValue(n / 256, k - 1);
      var s := FixedBytes(n, k);
      assert s[..k - 1] == FixedBytes(n / 256, k - 1);
      ModSplit(n, Pow256(k - 1));
    }
  }

  lemma ModSplit(n: nat, p: nat)
    requires p > 0
    ensures n % (256 * p) == 256 * ((n / 256) % p) + n % 256
  {
    var q, r := n / 256, n % 256;
    var a, b := q / p, q % p;
    assert q == a * p + b;
    assert n == 256 * q + r == (256 * p) * a + (256 * b + r);
    assert 256 * b + r < 256 * p;
    DivModUnique(n, 256 * p, a, 256 * b + r);
  }

  lemma MultipleGap(d: nat, lower: nat, upper: nat)
    requires lower < upper
    ensures d * lower + d <= d * upper
  {
    var k := upper - lower;
    assert d * upper == d * (lower + k) == d * lower + d * k;
    assert d * k == d * (k - 1) + d;
    assert d * (k - 1) >= 0;
  }

  lemma DivModUnique(n: nat, d: nat, a: nat, r: nat)
    requires d > 0 && n == d * a + r && r < d
    ensures n % d == r
  {
    var q, m := n / d, n % d;
    assert n == d * q + m;
    if a < q {
      MultipleGap(d, a, q);
    } else if q < a {
      MultipleGap(d, q, a);
    }
  }

  lemma {:induction false} DropZeros(s: Bytes)
    requires |s| > 0 && s[0] == 0
    ensures FromBytes(s[1..]) == FromBytes(s)
  {
    if |s| == 1 {
      assert s[..0] == [] && s[1..] == [];
    } else {
      DropZeros(s[..|s| - 1]);
      assert s[..|s| - 1][1..] == s[1..][..|s| - 2];
    }
  }

  /** Strip leading zeros from the eight-byte form: what is left is the shortest form. */
  method Shortest(n: nat) returns (encoded: Bytes)
    ensures encoded == ToBytes(n % TWO_64)
  {
    var buffer := FixedBytes(n, 8);
    FixedBytesValue(n, 8);
    Pow256Of8();
    encoded := buffer;
    while |encoded| > 1 && encoded[0] == 0
      invariant 0 < |encoded| <= 8 && FromBytes(encoded) == n % TWO_64
    {
      DropZeros(encoded);
      encoded := encoded[1..];
    }
    if encoded[0] != 0 {
      ToFromBytes(encoded);
    } else {
      assert FromBytes(encoded[..0]) == 0;
    }
  }

  method EncodeLongItem(base: int, payload: Bytes) returns (encoded: Bytes)
    requires (base == 0x80 || base == 0xc0) && |payload| > 55
    ensures encoded == Prefix(base, |payload|) + payload
  {
    var lengthBytes := Shortest(|payload|);
    Pow256Of8();
    ToBytesLength(|payload| % TWO_64, 8);
    encoded := [base + 55 + |lengthBytes|] + lengthBytes + payload;
  }

  // ---------------------------------------------------------------------------
  // Integers
  // ---------------------------------------------------------------------------

  /** The encoding of a number below 2^64: zero is the empty string. */
  function EncodedUint(value: nat): Bytes {
    EncodeBytes(if value == 0 then [] else ToBytes(value))
  }

  method EncodeUint(value: nat) returns (encoded: Bytes)
    requires value < TWO_64
    ensures encoded == EncodedUint(value)
  {
    if value == 0 {
      return EncodeBytes([]);
    }
    var bytes := Shortest(value);
    return EncodeBytes(bytes);
  }

  /** Decode an integer of at most size bytes. */
  method DecodeUint(item: RlpItem, size: nat) returns (r: Result<nat>)
    ensures r == UintOf(item, size)
  {
    if item.kind != String {
      return Err("RLP integer is not a string");
    }
    if |item.payload| > size {
      return Err("RLP integer exceeds its width");
    }
    if |item.payload| > 0 && item.payload[0] == 0 {
      return Err("RLP integer has a leading zero");
    }
    var value := Accumulate(item.payload);
    return Ok(value);
  }

  function UintOf(item: RlpItem, size: nat): Result<nat> {
    if item.kind != String then Err("RLP integer is not a string")
    else if |item.payload| > size then Err("RLP integer exceeds its width")
    else if |item.payload| > 0 && item.payload[0] == 0 then Err("RLP integer has a leading zero")
    else Ok(FromBytes(item.payload))
  }

  /** Every number that fits round-trips, with any tail. */
  lemma UintRoundTrip(value: nat, size: nat, tail: Bytes)
    requires value < Pow256(size) && size <= 8
    ensures var d := Decode(EncodedUint(value) + tail);
            d.Ok? && d.value.rest == tail && UintOf(d.value.item, size) == Ok(value)
  {
    var bytes := if value == 0 then [] else ToBytes(value);
    if value > 0 {
      ToBytesLength(value, size);
      FromToBytes(value);
    }
    DecodeOfBytes(bytes, tail);
  }

  /** An integer is accepted in its shortest form only. */
  lemma UintIsMinimal(input: Bytes, size: nat)
    requires Decode(input).Ok? && UintOf(Decode(input).value.item, size).Ok?
    ensures var item := Decode(input).value.item;
            item.raw == EncodedUint(UintOf(item, size).value) && UintOf(item, size).value < Pow256(size)
  {
    var item := Decode(input).value.item;
    DecodedIsCanonical(input);
    FromBytesBound(item.payload);
    Pow256Monotone(|item.payload|, size);
    if item.payload != [] {
      ToFromBytes(item.payload);
      FromBytesPositive(item.payload);
    }
  }
}
