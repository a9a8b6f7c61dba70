/** Stream headers: two minimal uvarints of at most 32 bits, parsed one byte at a time. */
module Wire {
  import opened Rlp

  const TWO_32: nat := 0x1_0000_0000
  const MAX_FIELD_LEN := 5
  const MAX_HEADER_LEN := 10
  const RESERVED_FAMILY := 19

  datatype Selector = Selector(family: nat, protocol: nat)

  /** A parse of what has arrived: a value and its length, a valid start, or an error. */
  datatype Parse<+T> = Done(value: T, length: nat) | More | Bad(error: string)

  // ---------------------------------------------------------------------------
  // Uvarints
  // ---------------------------------------------------------------------------

  function Uvarint(n: nat): (s: Bytes)
    ensures |s| > 0
  {
    if n < 128 then [n] else [n % 128 + 128] + Uvarint(n / 128)
  }

  /** The low seven bits of each byte, least significant first. */
  function Value(s: Bytes): nat {
    if s == [] then 0 else s[0] % 128 + 128 * Value(s[1..])
  }

  /** How many bytes at the start of b say that another follows. */
  function Continued(b: Bytes): (n: nat)
    ensures n <= |b|
    ensures forall i :: 0 <= i < n ==> b[i] >= 128
    ensures n < |b| ==> b[n] < 128
  {
    if b == [] || b[0] < 128 then 0 else 1 + Continued(b[1..])
  }

  lemma {:induction false} ContinuedAtLeast(b: Bytes, n: nat)
    requires n <= |b| && forall i :: 0 <= i < n ==> b[i] >= 128
    ensures Continued(b) >= n
  {
    if n > 0 {
      ContinuedAtLeast(b[1..], n - 1);
    }
  }

  lemma ContinuedIs(b: Bytes, n: nat)
    requires n <= |b| && (forall i :: 0 <= i < n ==> b[i] >= 128) && (n < |b| ==> b[n] < 128)
    ensures Continued(b) == n
  {
    ContinuedAtLeast(b, n);
  }

  function Pow128(k: nat): (p: nat)
    ensures p > 0
  {
    if k == 0 then 1 else 128 * Pow128(k - 1)
  }

  lemma Pow128Of5()
    ensures Pow128(5) == 0x8_0000_0000
  {
    assert Pow128(2) == 0x4000;
  }

  lemma ContinuedCons(b: byte, rest: Bytes)
    requires b >= 128
    ensures Continued([b] + rest) == 1 + Continued(rest) && Value([b] + rest) == b % 128 + 128 * Value(rest)
  {
    assert ([b] + rest)[1..] == rest;
  }

  lemma {:induction false} UvarintShape(n: nat)
    ensures var s := Uvarint(n); Continued(s) == |s| - 1 && Value(s) == n && (|s| > 1 ==> s[|s| - 1] != 0)
  {
    if n < 128 {
      assert Value([n][1..]) == 0;
    } else {
      UvarintShape(n / 128);
      ContinuedCons(n % 128 + 128, Uvarint(n / 128));
    }
  }

  lemma {:induction false} UvarintLength(n: nat, k: nat)
    requires k > 0 && n < Pow128(k)
    ensures |Uvarint(n)| <= k
  {
    if n >= 128 {
      assert Pow128(1) == 128;
      UvarintLength(n / 128, k - 1);
    }
  }

  lemma UvarintStep(b: byte, rest: Bytes)
    requires b >= 128 && Value(rest) > 0 && Uvarint(Value(rest)) == rest
    ensures Uvarint(Value([b] + rest)) == [b] + rest && Value([b] + rest) > 0
  {
    ContinuedCons(b, rest);
    Recompose(b, Value(rest));
  }

  lemma Recompose(b: byte, q: nat)
    requires b >= 128
    ensures (b % 128 + 128 * q) / 128 == q && (b % 128 + 128 * q) % 128 + 128 == b
  {
  }

  /** A minimal form is the form of its value. */
  lemma {:induction false} UvarintOfValue(s: Bytes)
    requires s != [] && Continued(s) == |s| - 1 && (|s| > 1 ==> s[|s| - 1] != 0)
    ensures Uvarint(Value(s)) == s && (s[|s| - 1] != 0 ==> Value(s) > 0)
  {
    if |s| == 1 {
      assert Value(s[1..]) == 0;
    } else {
      var rest := s[1..];
      assert rest[|rest| - 1] == s[|s| - 1];
      assert s == [s[0]] + rest;
      ContinuedCons(s[0], rest);
      UvarintOfValue(rest);
      UvarintStep(s[0], rest);
    }
  }

  lemma {:induction false} ValueSnoc(s: Bytes, b: byte)
    ensures Value(s + [b]) == Value(s) + (b % 128) * Pow128(|s|)
  {
    var all := s + [b];
    if s == [] {
      assert Value(all[1..]) == 0;
    } else {
      var d, p := b % 128, Pow128(|s| - 1);
      ValueSnoc(s[1..], b);
      assert all[1..] == s[1..] + [b];
      assert Value(all) == s[0] % 128 + 128 * (Value(s[1..]) + d * p);
      assert 128 * (d * p) == d * (128 * p);
    }
  }

  // ---------------------------------------------------------------------------
  // One field
  // ---------------------------------------------------------------------------

  function Field(b: Bytes): Parse<nat> {
    var n := Continued(b);
    if n >= MAX_FIELD_LEN then Bad("field exceeds 32 bits")
    else if n == |b| then More
    else if n > 0 && b[n] == 0 then Bad("field is not a minimal uvarint")
    else if Value(b[..n + 1]) >= TWO_32 then Bad("field exceeds 32 bits")
    else Done(Value(b[..n + 1]), n + 1)
  }

  method ParseField(b: Bytes) returns (r: Parse<nat>)
    ensures r == Field(b)
  {
    var value, weight := 0, 1;
    var limit := if |b| < MAX_FIELD_LEN then |b| else MAX_FIELD_LEN;
    for i := 0 to limit
      invariant forall j :: 0 <= j < i ==> b[j] >= 128
      invariant value == Value(b[..i]) && weight == Pow128(i)
    {
      assert b[..i + 1] == b[..i] + [b[i]];
      ValueSnoc(b[..i], b[i]);
      // value < weight, so setting the bits is adding them.
      value := value + (b[i] % 128) * weight;
      if b[i] < 128 {
        ContinuedIs(b, i);
        if i > 0 && b[i] == 0 {
          return Bad("field is not a minimal uvarint");
        }
        if value >= TWO_32 {
          return Bad("field exceeds 32 bits");
        }
        return Done(value, i + 1);
      }
      weight := weight * 128;
    }
    if |b| >= MAX_FIELD_LEN {
      ContinuedAtLeast(b, MAX_FIELD_LEN);
      return Bad("field exceeds 32 bits");
    }
    ContinuedIs(b, |b|);
    return More;
  }

  lemma {:induction false} ContinuedAppend(s: Bytes, tail: Bytes)
    requires Continued(s) < |s|
    ensures Continued(s + tail) == Continued(s)
  {
    if s[0] >= 128 {
      ContinuedAppend(s[1..], tail);
      assert (s + tail)[1..] == s[1..] + tail;
    }
  }

  lemma FieldAt(b: Bytes, n: nat)
    requires n < MAX_FIELD_LEN && n < |b| && Continued(b) == n && (n > 0 ==> b[n] != 0) && Value(b[..n + 1]) < TWO_32
    ensures Field(b) == Done(Value(b[..n + 1]), n + 1)
  {
  }

  lemma FieldOfShape(s: Bytes, tail: Bytes)
    requires 0 < |s| <= MAX_FIELD_LEN && Continued(s) == |s| - 1 && (|s| > 1 ==> s[|s| - 1] != 0) && Value(s) < TWO_32
    ensures Field(s + tail) == Done(Value(s), |s|)
  {
    var b := s + tail;
    ContinuedAppend(s, tail);
    assert b[..|s|] == s && b[|s| - 1] == s[|s| - 1];
    FieldAt(b, |s| - 1);
  }

  /** A 32-bit value's uvarint parses back, whatever follows. */
  lemma FieldRoundTrip(n: nat, tail: Bytes)
    requires n < TWO_32
    ensures Field(Uvarint(n) + tail) == Done(n, |Uvarint(n)|)
    ensures |Uvarint(n)| <= MAX_FIELD_LEN
  {
    UvarintShape(n);
    Pow128Of5();
    UvarintLength(n, 5);
    FieldOfShape(Uvarint(n), tail);
  }

  /** What is accepted is the uvarint of the result. */
  lemma FieldAccepted(b: Bytes)
    requires Field(b).Done?
    ensures var r := Field(b); r.value < TWO_32 && 0 < r.length <= |b| && b[..r.length] == Uvarint(r.value)
  {
    var n := Continued(b);
    ContinuedIs(b[..n + 1], n);
    UvarintOfValue(b[..n + 1]);
  }

  /** Part of a field is neither a field nor an error. */
  lemma FieldPrefix(n: nat, k: nat)
    requires n < TWO_32 && k < |Uvarint(n)|
    ensures Field(Uvarint(n)[..k]) == More
  {
    UvarintShape(n);
    Pow128Of5();
    UvarintLength(n, 5);
    ContinuedIs(Uvarint(n)[..k], k);
  }

  /** A decision does not change when more arrives. */
  lemma FieldStable(b: Bytes, tail: Bytes)
    requires Field(b) != More
    ensures Field(b + tail) == Field(b)
  {
    var n := Continued(b);
    if n < |b| {
      ContinuedIs(b + tail, n);
      assert n < MAX_FIELD_LEN ==> (b + tail)[..n + 1] == b[..n + 1];
    } else {
      ContinuedAtLeast(b + tail, n);
    }
  }

  // ---------------------------------------------------------------------------
  // A header
  // ---------------------------------------------------------------------------

  function AppendSelector(dst: Bytes, s: Selector): Bytes {
    dst + Uvarint(s.family) + Uvarint(s.protocol)
  }

  function Header(s: Selector): Bytes {
    AppendSelector([], s)
  }

  function ParseSelector(b: Bytes): (r: Parse<Selector>)
    ensures r.Done? ==> 0 < r.length <= |b|
  {
    var family := Field(b);
    if family.More? then More
    else if family.Bad? then Bad(family.error)
    else if family.value == RESERVED_FAMILY then Bad("family 19 is reserved")
    else
      FieldAccepted(b);
      var protocol := Field(b[family.length..]);
      if protocol.More? then More
      else if protocol.Bad? then Bad(protocol.error)
      else
        FieldAccepted(b[family.length..]);
        Done(Selector(family.value, protocol.value), family.length + protocol.length)
  }

  lemma SelectorOfFields(b: Bytes, family: nat, n: nat, protocol: nat, m: nat)
    requires family != RESERVED_FAMILY && n <= |b| && Field(b) == Done(family, n) && Field(b[n..]) == Done(protocol, m)
    ensures ParseSelector(b) == Done(Selector(family, protocol), n + m)
  {
  }

  ghost predicate Fits(s: Selector) {
    s.family < TWO_32 && s.protocol < TWO_32
  }

  /** Every selector outside the reserved family round-trips with any tail. */
  lemma SelectorRoundTrip(s: Selector, tail: Bytes)
    requires Fits(s) && s.family != RESERVED_FAMILY
    ensures ParseSelector(Header(s) + tail) == Done(s, |Header(s)|) && |Header(s)| <= MAX_HEADER_LEN
  {
    var family, protocol := Uvarint(s.family), Uvarint(s.protocol);
    FieldRoundTrip(s.family, protocol + tail);
    FieldRoundTrip(s.protocol, tail);
    TwoFields(family, protocol, tail, s.family, s.protocol);
    HeaderParts(s);
  }

  lemma HeaderParts(s: Selector)
    ensures Header(s) == Uvarint(s.family) + Uvarint(s.protocol)
  {
    assert [] + Uvarint(s.family) == Uvarint(s.family);
  }

  lemma TwoFields(f: Bytes, p: Bytes, tail: Bytes, family: nat, protocol: nat)
    requires family != RESERVED_FAMILY
    requires Field(f + (p + tail)) == Done(family, |f|) && Field(p + tail) == Done(protocol, |p|)
    ensures ParseSelector(f + p + tail) == Done(Selector(family, protocol), |f| + |p|)
  {
    var b := f + p + tail;
    assert b == f + (p + tail);
    assert b[|f|..] == p + tail;
    SelectorOfFields(b, family, |f|, protocol, |p|);
  }

  /** An accepted prefix is the header of the result. */
  lemma SelectorAccepted(b: Bytes)
    requires ParseSelector(b).Done?
    ensures var r := ParseSelector(b);
            Fits(r.value) && r.value.family != RESERVED_FAMILY && b[..r.length] == Header(r.value)
  {
    var family := Field(b);
    FieldAccepted(b);
    var protocol := Field(b[family.length..]);
    FieldAccepted(b[family.length..]);
    SplitPrefix(b, family.length, protocol.length);
    SelectorOfFields(b, family.value, family.length, protocol.value, protocol.length);
    assert Header(Selector(family.value, protocol.value)) == Uvarint(family.value) + Uvarint(protocol.value);
  }

  lemma SplitPrefix(b: Bytes, n: nat, m: nat)
    requires n + m <= |b|
    ensures b[..n + m] == b[..n] + b[n..][..m]
  {
  }

  /** Every proper prefix of a header is incomplete. */
  lemma SelectorPrefix(s: Selector, k: nat)
    requires Fits(s) && s.family != RESERVED_FAMILY && k < |Header(s)|
    ensures ParseSelector(Header(s)[..k]) == More
  {
    var family, protocol := Uvarint(s.family), Uvarint(s.protocol);
    if k < |family| {
      assert Header(s)[..k] == family[..k];
      FieldPrefix(s.family, k);
    } else {
      var rest := protocol[..k - |family|];
      assert Header(s)[..k] == family + rest;
      FieldRoundTrip(s.family, rest);
      assert (family + rest)[|family|..] == rest;
      FieldPrefix(s.protocol, k - |family|);
    }
  }

  /** A decision does not change when more arrives. */
  lemma SelectorStable(b: Bytes, tail: Bytes)
    requires ParseSelector(b) != More
    ensures ParseSelector(b + tail) == ParseSelector(b)
  {
    FieldStable(b, tail);
    if Field(b).Done? {
      var n := Field(b).length;
      FieldAccepted(b);
      if Field(b).value != RESERVED_FAMILY {
        FieldStable(b[n..], tail);
        assert (b + tail)[n..] == b[n..] + tail;
      }
    }
  }

  /** Ten bytes decide. */
  lemma SelectorDecides(b: Bytes)
    requires |b| >= MAX_HEADER_LEN
    ensures ParseSelector(b) != More
  {
    if Field(b).Done? {
      FieldAccepted(b);
    }
  }

  /** The first byte alone tells the reserved family, in what is sent and in what is parsed. */
  lemma ReservedFirstByte(s: Selector, b: Bytes)
    requires b != []
    ensures Header(s)[0] == 0x13 <==> s.family == RESERVED_FAMILY
    ensures b[0] == 0x13 ==> ParseSelector(b) == Bad("family 19 is reserved")
    ensures ParseSelector(b) == Bad("family 19 is reserved") ==> b[0] == 0x13
  {
    if b[0] == 0x13 {
      ContinuedIs(b, 0);
      assert Value(b[..1]) == 0x13 by {
        assert b[..1][1..] == [];
      }
    }
    if Field(b).Done? {
      FieldAccepted(b);
      assert b[0] == b[..Field(b).length][0];
    }
  }

  /** No header is a prefix of another, the reserved family's included. */
  lemma HeadersUniquelyDecodable(s: Selector, t: Selector, x: Bytes, y: Bytes)
    requires Fits(s) && Fits(t) && Header(s) + x == Header(t) + y
    ensures s == t && x == y
  {
    assert Header(s) + x == Uvarint(s.family) + (Uvarint(s.protocol) + x);
    assert Header(t) + y == Uvarint(t.family) + (Uvarint(t.protocol) + y);
    FieldRoundTrip(s.family, Uvarint(s.protocol) + x);
    FieldRoundTrip(t.family, Uvarint(t.protocol) + y);
    SuffixesAgree(Uvarint(s.family), Uvarint(s.protocol) + x, Uvarint(t.protocol) + y);
    FieldRoundTrip(s.protocol, x);
    FieldRoundTrip(t.protocol, y);
    SuffixesAgree(Uvarint(s.protocol), x, y);
  }

  lemma SuffixesAgree(p: Bytes, x: Bytes, y: Bytes)
    requires p + x == p + y
    ensures x == y
  {
    assert (p + x)[|p|..] == x;
    assert (p + y)[|p|..] == y;
  }

  // ---------------------------------------------------------------------------
  // Reading from a stream
  // ---------------------------------------------------------------------------

  /** How a stream ends: cleanly, or with an error of its own. */
  datatype End = Clean | Failed(error: string)

  datatype ReadResult = Read(selector: Selector) | Invalid(error: string) | Eof | UnexpectedEof | Broken(error: string)

  class Reader {
    var remaining: Bytes
    const end: End

    constructor (bytes: Bytes, end: End)
      ensures remaining == bytes && this.end == end
    {
      remaining := bytes;
      this.end := end;
    }

    /** What reading a header from input that ends this way gives. */
    ghost function Outcome(input: Bytes): ReadResult {
      match ParseSelector(input)
      case Done(selector, _) => Read(selector)
      case Bad(error) => Invalid(error)
      case More => if end.Failed? then Broken(end.error) else if input == [] then Eof else UnexpectedEof
    }

    /**
     * Reading byte by byte gives what parsing the whole input at once gives,
     * and takes no byte beyond the one that decided.
     */
    method ReadSelector() returns (r: ReadResult)
      modifies this
      ensures r == Outcome(old(remaining))
      ensures r.Read? ==> old(remaining) == Header(r.selector) + remaining
      ensures exists n :: 0 <= n <= |old(remaining)| && remaining == old(remaining)[n..] && n <= MAX_HEADER_LEN
                && (ParseSelector(old(remaining)) == More ==> n == |old(remaining)|)
                && forall k :: 0 <= k < n ==> ParseSelector(old(remaining)[..k]) == More
    {
      ghost var input := remaining;
      var head: Bytes := [];
      for i := 0 to MAX_HEADER_LEN
        invariant i <= |input| && head == input[..i] && remaining == input[i..]
        invariant forall k :: 0 <= k <= i ==> ParseSelector(input[..k]) == More
      {
        if |remaining| == 0 {
          assert head == input;
          assert input[|input|..] == [];
          if end.Failed? {
            return Broken(end.error);
          }
          return if i > 0 then UnexpectedEof else Eof;
        }
        head := head + [remaining[0]];
        remaining := remaining[1..];
        assert head == input[..i + 1];
        assert head + input[i + 1..] == input;
        var parsed := ParseSelector(head);
        if parsed.Bad? {
          SelectorStable(head, input[i + 1..]);
          return Invalid(parsed.error);
        }
        if parsed.Done? {
          SelectorStable(head, input[i + 1..]);
          ExactHeader(head, input[..i]);
          return Read(parsed.value);
        }
      }
      SelectorDecides(input[..MAX_HEADER_LEN]);
      assert false;
    }
  }

  /** A header decides as soon as it is all there. */
  lemma DecidedByHeader(b: Bytes, k: nat)
    requires ParseSelector(b).Done? && ParseSelector(b).length <= k <= |b|
    ensures ParseSelector(b[..k]) == ParseSelector(b)
  {
    var r := ParseSelector(b);
    SelectorAccepted(b);
    SelectorRoundTrip(r.value, b[r.length..k]);
    assert b[..k] == b[..r.length] + b[r.length..k];
  }

  /** The byte that completes a header is its last. */
  lemma ExactHeader(b: Bytes, before: Bytes)
    requires ParseSelector(b).Done? && |b| == |before| + 1 && before <= b && ParseSelector(before) == More
    ensures b == Header(ParseSelector(b).value)
  {
    SelectorAccepted(b);
    assert before == b[..|before|] && b[..|b|] == b;
    if ParseSelector(b).length < |b| {
      DecidedByHeader(b, |before|);
    }
  }

  // ---------------------------------------------------------------------------
  // Outcome codes
  // ---------------------------------------------------------------------------

  const STACK_CODES: set<nat> := {0, 1, 2, 8, 9, 10, 11, 12, 13}

  datatype Code = Code(value: nat, protocol: bool)

  /** A code a program can hold: a named stack value, or any value parsed or built for a protocol. */
  ghost predicate Holds(c: Code) {
    if c.protocol then c.value < TWO_64 / 2 else c.value in STACK_CODES
  }

  function ToWire(c: Code): nat {
    (if c.protocol then c.value * 2 + 1 else c.value * 2) % TWO_64
  }

  function ParseCode(raw: nat): Code {
    if raw % 2 != 0 then Code(raw / 2, true)
    else if raw / 2 !in STACK_CODES then Code(0, false)
    else Code(raw / 2, false)
  }

  /** Codes round-trip; a received number does exactly when it is a protocol's or a known stack value. */
  lemma CodeRoundTrip(c: Code, raw: nat)
    requires Holds(c) && raw < TWO_64
    ensures ParseCode(ToWire(c)) == c && Holds(ParseCode(raw))
    ensures ToWire(ParseCode(raw)) == raw <==> raw % 2 == 1 || raw / 2 in STACK_CODES
  {
    assert c.protocol ==> ToWire(c) == c.value * 2 + 1;
    assert !c.protocol ==> ToWire(c) == c.value * 2;
  }
}
