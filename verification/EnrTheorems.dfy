/** What a record decoder accepts, and that signing produces exactly that. */
module EnrTheorems {
  import opened Basics
  import opened Rlp
  import opened Enr

  /** Every value is one canonical RLP item. */
  ghost predicate Values(entries: seq<Entry>) {
    forall e :: e in entries ==> Single(e.value).Ok?
  }

  /** The items are the keys and values of the entries, in turn. */
  ghost predicate Represents(items: seq<RlpItem>, entries: seq<Entry>) {
    && |items| == 2 * |entries|
    && (entries != [] ==>
          && items[0].kind == String && items[0].payload == entries[0].key && items[1].raw == entries[0].value
          && Represents(items[2..], entries[1..]))
  }

  lemma {:induction false} RepresentedEntries(items: seq<RlpItem>, entries: seq<Entry>, previous: Option<Bytes>)
    requires Represents(items, entries)
    ensures EntriesOf(items, previous).Ok? <==> Ascending(entries, previous)
    ensures EntriesOf(items, previous).Ok? ==> EntriesOf(items, previous).value == entries
  {
    if entries != [] {
      RepresentedEntries(items[2..], entries[1..], Some(entries[0].key));
      assert entries == [entries[0]] + entries[1..];
    }
  }

  lemma {:induction false} EntriesAreRepresented(items: seq<RlpItem>, previous: Option<Bytes>)
    requires |items| % 2 == 0 && EntriesOf(items, previous).Ok?
    ensures Represents(items, EntriesOf(items, previous).value)
  {
    if items != [] {
      EntriesAreRepresented(items[2..], Some(items[0].payload));
      var entries := EntriesOf(items, previous).value;
      assert entries[1..] == EntriesOf(items[2..], Some(items[0].payload)).value;
    }
  }

  // ---------------------------------------------------------------------------
  // An encoded record decodes
  // ---------------------------------------------------------------------------

  lemma SingleWithTail(value: Bytes, tail: Bytes)
    requires Single(value).Ok? && |value| < TWO_64
    ensures var d := Decode(value + tail); d.Ok? && d.value.item.raw == value && d.value.rest == tail
  {
    EncodeDecode(value);
    var t := TreeOf(Single(value).value);
    assert Encode(t) == value;
    DecodeEncode(t, tail);
  }

  lemma {:induction false} FieldsDecode(entries: seq<Entry>) returns (items: seq<RlpItem>)
    requires Values(entries) && |Fields(entries)| < TWO_64
    ensures DecodeChildren(Fields(entries)) == Ok(items) && Represents(items, entries)
  {
    if entries == [] {
      items := [];
    } else {
      var e, others := entries[0], Fields(entries[1..]);
      var key, value := FieldDecode(e, others);
      var rest := FieldsDecode(entries[1..]);
      items := TwoChildren(Fields(entries), e.value + others, others, key, value, rest);
    }
  }

  lemma FieldDecode(e: Entry, others: Bytes) returns (key: RlpItem, value: RlpItem)
    requires Single(e.value).Ok? && |EncodeBytes(e.key) + e.value + others| < TWO_64
    ensures Decode(EncodeBytes(e.key) + e.value + others) == Ok(Decoded(key, e.value + others))
    ensures Decode(e.value + others) == Ok(Decoded(value, others))
    ensures key.kind == String && key.payload == e.key && value.raw == e.value
  {
    EncodeBytesLength(e.key);
    DecodeOfBytes(e.key, e.value + others);
    Associate(EncodeBytes(e.key), e.value, others);
    key := RlpItem(String, e.key, EncodeBytes(e.key), []);
    SingleWithTail(e.value, others);
    value := Decode(e.value + others).value.item;
  }

  lemma Associate(a: Bytes, b: Bytes, c: Bytes)
    ensures a + b + c == a + (b + c)
  {
  }

  lemma EncodeBytesLength(payload: Bytes)
    ensures |payload| <= |EncodeBytes(payload)|
  {
  }

  lemma OneChild(input: Bytes, item: RlpItem, rest: Bytes, others: seq<RlpItem>)
    requires Decode(input) == Ok(Decoded(item, rest)) && DecodeChildren(rest) == Ok(others)
    ensures DecodeChildren(input) == Ok([item] + others)
  {
    assert |rest| < |input|;
  }

  lemma TwoChildren(input: Bytes, middle: Bytes, last: Bytes, first: RlpItem, second: RlpItem,
      rest: seq<RlpItem>) returns (items: seq<RlpItem>)
    requires Decode(input) == Ok(Decoded(first, middle)) && Decode(middle) == Ok(Decoded(second, last))
    requires DecodeChildren(last) == Ok(rest)
    ensures DecodeChildren(input) == Ok(items) && |items| == 2 + |rest|
    ensures items[0] == first && items[1] == second && items[2..] == rest
  {
    OneChild(middle, second, last, rest);
    OneChild(input, first, middle, [second] + rest);
    items := [first] + ([second] + rest);
  }

  lemma ShapeOfList(raw: Bytes, payload: Bytes, children: seq<RlpItem>, seqNo: nat)
    requires |raw| <= MAX_RECORD_SIZE && Decode(raw) == Ok(Decoded(RlpItem(List, payload, raw, children), []))
    requires |children| >= 2 && |children| % 2 == 0
    requires children[0].kind == String && |children[0].payload| == SIGNATURE_SIZE
        && UintOf(children[1], 8) == Ok(seqNo)
    ensures ShapeOf(raw) == Ok(Shape(children[0].payload, seqNo, children[1..]))
  {
  }

  lemma RawsOfRest(children: seq<RlpItem>, first: Bytes, rest: Bytes)
    requires children != [] && children[0].raw == first && Raws(children) == first + rest
    ensures Raws(children[1..]) == rest
  {
    assert (first + rest)[|first|..] == rest;
    assert (first + Raws(children[1..]))[|first|..] == Raws(children[1..]);
  }

  lemma ShapeOfChildren(payload: Bytes, children: seq<RlpItem>, signature: Bytes, seqNo: nat)
    requires |EncodeList(payload)| <= MAX_RECORD_SIZE && DecodeChildren(payload) == Ok(children)
    requires |children| >= 2 && |children| % 2 == 0 && |signature| == SIGNATURE_SIZE
    requires children[0].kind == String && children[0].payload == signature && UintOf(children[1], 8) == Ok(seqNo)
    ensures ShapeOf(EncodeList(payload)) == Ok(Shape(signature, seqNo, children[1..]))
  {
    EncodeListLength(payload);
    WholeList(payload, children);
    ShapeOfList(EncodeList(payload), payload, children, seqNo);
  }

  lemma EncodedShape(signature: Bytes, seqNo: nat, entries: seq<Entry>) returns (fields: seq<RlpItem>)
    requires |signature| == SIGNATURE_SIZE && seqNo < TWO_64 && Values(entries)
    requires |EncodeRecord(signature, seqNo, entries)| <= MAX_RECORD_SIZE
    ensures |fields| % 2 == 1 && ShapeOf(EncodeRecord(signature, seqNo, entries)) == Ok(Shape(signature, seqNo, fields))
    ensures Represents(fields[1..], entries) && Raws(fields) == SignedContent(seqNo, entries)
  {
    var content := SignedContent(seqNo, entries);
    var payload := EncodeBytes(signature) + content;
    EncodeListLength(payload);
    var children := RecordChildren(signature, seqNo, entries);
    fields := children[1..];
    assert fields[1..] == children[2..];
    assert |children| % 2 == 0;
    ChildrenAreCanonical(payload);
    RawsOfRest(children, EncodeBytes(signature), content);
    ShapeOfChildren(payload, children, signature, seqNo);
  }

  lemma WholeList(payload: Bytes, children: seq<RlpItem>)
    requires |payload| < TWO_64 && DecodeChildren(payload) == Ok(children)
    ensures Decode(EncodeList(payload)) == Ok(Decoded(RlpItem(List, payload, EncodeList(payload), children), []))
  {
    DecodeOfList(payload, children, []);
    assert EncodeList(payload) + [] == EncodeList(payload);
  }

  lemma EncodeListLength(payload: Bytes)
    ensures |payload| <= |EncodeList(payload)|
  {
  }

  lemma RecordChildren(signature: Bytes, seqNo: nat, entries: seq<Entry>) returns (children: seq<RlpItem>)
    requires |signature| == SIGNATURE_SIZE && seqNo < TWO_64 && Values(entries)
    requires |EncodeBytes(signature) + SignedContent(seqNo, entries)| < TWO_64
    ensures DecodeChildren(EncodeBytes(signature) + SignedContent(seqNo, entries)) == Ok(children)
    ensures |children| >= 2 && children[0].kind == String && children[0].payload == signature
        && children[0].raw == EncodeBytes(signature)
    ensures UintOf(children[1], 8) == Ok(seqNo) && Represents(children[2..], entries)
  {
    var items := FieldsDecode(entries);
    Pow256Of8();
    UintRoundTrip(seqNo, 8, Fields(entries));
    DecodeOfBytes(signature, SignedContent(seqNo, entries));
    var first := RlpItem(String, signature, EncodeBytes(signature), []);
    var second := Decode(SignedContent(seqNo, entries)).value.item;
    children := TwoChildren(EncodeBytes(signature) + SignedContent(seqNo, entries), SignedContent(seqNo, entries),
        Fields(entries), first, second, items);
  }

  // ---------------------------------------------------------------------------
  // What is accepted
  // ---------------------------------------------------------------------------

  /** raw is the encoding of these parts, and they meet every condition on a v4 record. */
  ghost predicate Genuine<K>(s: Scheme<K>, raw: Bytes, signature: Bytes, seqNo: nat, entries: seq<Entry>) {
    && raw == EncodeRecord(signature, seqNo, entries) && |raw| <= MAX_RECORD_SIZE
    && |signature| == SIGNATURE_SIZE && seqNo < TWO_64
    && Values(entries) && Ascending(entries, None)
    && var pub := Identify(s, MapOf(entries));
       pub.Ok? && s.verifyHash(pub.value, s.keccak256(EncodeList(SignedContent(seqNo, entries))), signature)
  }

  lemma GenuineIsAccepted<K>(s: Scheme<K>, raw: Bytes, signature: Bytes, seqNo: nat, entries: seq<Entry>)
    requires Genuine(s, raw, signature, seqNo, entries)
    ensures RecordOf(s, raw) == Ok(Record(raw, seqNo, Identify(s, MapOf(entries)).value, MapOf(entries)))
  {
    var fields := EncodedShape(signature, seqNo, entries);
    RepresentedEntries(fields[1..], entries, None);
  }

  /** Fields read from canonical items encode back to the items' bytes. */
  lemma {:induction false} CanonicalFields(items: seq<RlpItem>, entries: seq<Entry>)
    requires Represents(items, entries) && AllCanonical(items) && |Raws(items)| < TWO_64
    ensures Raws(items) == Fields(entries) && Values(entries)
  {
    if entries != [] {
      var key, value, others := items[0], items[1], items[2..];
      assert items[1..][1..] == others;
      assert AllCanonical(items[1..]) && AllCanonical(others);
      assert Raws(items) == key.raw + (value.raw + Raws(others));
      CanonicalFields(others, entries[1..]);
      CanonicalIsSingle(value);
      assert key.raw + (value.raw + Raws(others)) == key.raw + value.raw + Raws(others);
      assert forall e :: e in entries ==> e == entries[0] || e in entries[1..];
    }
  }

  lemma CanonicalIsSingle(item: RlpItem)
    requires Canonical(item) && |item.raw| < TWO_64
    ensures Single(item.raw).Ok?
  {
    CanonicalEncodes(item);
    DecodeEncode(TreeOf(item), []);
    assert item.raw + [] == item.raw;
  }

  lemma ShapeIsCanonical(raw: Bytes)
    requires ShapeOf(raw).Ok?
    ensures var shape := ShapeOf(raw).value;
            && |shape.signature| == SIGNATURE_SIZE && |raw| <= MAX_RECORD_SIZE
            && AllCanonical(shape.fields) && UintOf(shape.fields[0], 8) == Ok(shape.seqNo)
            && raw == EncodeList(EncodeBytes(shape.signature) + Raws(shape.fields))
  {
    DecodedIsCanonical(raw);
    var root := Decode(raw).value.item;
    assert root.raw == raw by { assert root.raw + [] == raw; }
    assert Canonical(root.children[0]);
    assert Raws(root.children) == root.children[0].raw + Raws(root.children[1..]);
  }

  lemma CanonicalUint(item: RlpItem)
    requires Canonical(item) && UintOf(item, 8).Ok?
    ensures item.raw == EncodedUint(UintOf(item, 8).value) && UintOf(item, 8).value < TWO_64
  {
    FromBytesBound(item.payload);
    Pow256Monotone(|item.payload|, 8);
    Pow256Of8();
    if item.payload != [] {
      ToFromBytes(item.payload);
      FromBytesPositive(item.payload);
    }
  }

  /** Everything accepted is the encoding of its own signature, sequence number and entries in key order. */
  lemma AcceptedIsGenuine<K>(s: Scheme<K>, raw: Bytes) returns (signature: Bytes, entries: seq<Entry>)
    requires RecordOf(s, raw).Ok?
    ensures var record := RecordOf(s, raw).value;
            Genuine(s, raw, signature, record.seqNo, entries) && entries == Sorted(record.entries) && record.raw == raw
  {
    var shape := ShapeOf(raw).value;
    var items := shape.fields[1..];
    signature, entries := shape.signature, EntriesOf(items, None).value;
    ShapeIsCanonical(raw);
    CanonicalUint(shape.fields[0]);
    EntriesAreRepresented(items, None);
    RepresentedEntries(items, entries, None);
    RawsAreShort(shape.signature, shape.fields);
    assert Raws(shape.fields) == shape.fields[0].raw + Raws(items);
    CanonicalFields(items, entries);
    SortedOfMap(entries);
  }

  lemma RawsAreShort(signature: Bytes, fields: seq<RlpItem>)
    requires |EncodeList(EncodeBytes(signature) + Raws(fields))| <= MAX_RECORD_SIZE
    ensures |Raws(fields)| <= MAX_RECORD_SIZE
  {
  }

  /** Acceptance, exactly. */
  lemma AcceptedIff<K>(s: Scheme<K>, raw: Bytes)
    ensures RecordOf(s, raw).Ok? <==> exists signature, seqNo, entries :: Genuine(s, raw, signature, seqNo, entries)
  {
    if RecordOf(s, raw).Ok? {
      var signature, entries := AcceptedIsGenuine(s, raw);
      assert Genuine(s, raw, signature, RecordOf(s, raw).value.seqNo, entries);
    }
    forall signature, seqNo, entries | Genuine(s, raw, signature, seqNo, entries)
      ensures RecordOf(s, raw).Ok?
    {
      GenuineIsAccepted(s, raw, signature, seqNo, entries);
    }
  }

  // ---------------------------------------------------------------------------
  // Sorting by key
  // ---------------------------------------------------------------------------

  function Insert(e: Entry, sorted: seq<Entry>): seq<Entry> {
    if sorted != [] && Before(sorted[0].key, e.key) then [sorted[0]] + Insert(e, sorted[1..])
    else [e] + sorted
  }

  lemma {:induction false} InsertElements(e: Entry, sorted: seq<Entry>)
    ensures forall x :: x in Insert(e, sorted) <==> x == e || x in sorted
  {
    if sorted != [] && Before(sorted[0].key, e.key) {
      InsertElements(e, sorted[1..]);
      assert forall x :: x in sorted <==> x == sorted[0] || x in sorted[1..];
    }
  }

  /** An insertion is strictly ascending exactly when the rest was and the key is new. */
  lemma {:induction false} InsertAscending(e: Entry, sorted: seq<Entry>, previous: Option<Bytes>)
    ensures Ascending(Insert(e, sorted), previous) <==>
            Ascending(sorted, previous) && e.key !in Keys(sorted) && (previous.Some? ==> Before(previous.value, e.key))
    decreases |sorted|, 1
  {
    if sorted == [] {
      assert Insert(e, sorted) == [e];
      assert [e][1..] == [];
    } else {
      BeforeTotal(sorted[0].key, e.key);
      assert sorted[0] in sorted;
      if Before(sorted[0].key, e.key) {
        InsertAfterHead(e, sorted, previous);
      } else {
        InsertBeforeHead(e, sorted, previous);
      }
    }
  }

  lemma InsertAfterHead(e: Entry, sorted: seq<Entry>, previous: Option<Bytes>)
    requires sorted != [] && Before(sorted[0].key, e.key)
    ensures Ascending(Insert(e, sorted), previous) <==>
            Ascending(sorted, previous) && e.key !in Keys(sorted) && (previous.Some? ==> Before(previous.value, e.key))
    decreases |sorted|, 0
  {
    var head, tail := sorted[0], sorted[1..];
    InsertAscending(e, tail, Some(head.key));
    assert Insert(e, sorted)[1..] == Insert(e, tail);
    BeforeTotal(head.key, e.key);
    assert e.key in Keys(sorted) <==> e.key in Keys(tail) by {
      assert forall x :: x in sorted <==> x == head || x in tail;
    }
    if previous.Some? && Before(previous.value, head.key) {
      BeforeTransitive(previous.value, head.key, e.key);
    }
  }

  lemma InsertBeforeHead(e: Entry, sorted: seq<Entry>, previous: Option<Bytes>)
    requires sorted != [] && !Before(sorted[0].key, e.key)
    ensures Ascending(Insert(e, sorted), previous) <==>
            Ascending(sorted, previous) && e.key !in Keys(sorted) && (previous.Some? ==> Before(previous.value, e.key))
  {
    var head := sorted[0];
    assert Insert(e, sorted)[1..] == sorted;
    assert head in sorted && head.key in Keys(sorted);
    BeforeTotal(head.key, e.key);
    BeforeTotal(e.key, e.key);
    if Ascending(sorted, Some(e.key)) {
      forall x | x in sorted
        ensures x.key != e.key
      {
        AscendingFrom(sorted, e.key, x);
      }
      if previous.Some? && Before(previous.value, e.key) {
        BeforeTransitive(previous.value, e.key, head.key);
      }
    }
  }

  /** The entries of a map in key order. */
  ghost function Sorted(m: map<Bytes, Bytes>): seq<Entry>
    decreases |m|
  {
    if m == map[] then []
    else
      var k :| k in m;
      Insert(Entry(k, m[k]), Sorted(m - {k}))
  }

  lemma {:induction false} SortedLists(m: map<Bytes, Bytes>)
    ensures Ascending(Sorted(m), None)
    ensures forall e :: e in Sorted(m) <==> e.key in m && m[e.key] == e.value
    decreases |m|
  {
    if m != map[] {
      var k :| k in m && Sorted(m) == Insert(Entry(k, m[k]), Sorted(m - {k}));
      SortedLists(m - {k});
      InsertElements(Entry(k, m[k]), Sorted(m - {k}));
      InsertAscending(Entry(k, m[k]), Sorted(m - {k}), None);
    }
  }

  lemma SortedOfMap(entries: seq<Entry>)
    requires Ascending(entries, None)
    ensures Sorted(MapOf(entries)) == entries
  {
    AscendingLists(entries);
    SortedLists(MapOf(entries));
    forall e
      ensures e in entries <==> e in Sorted(MapOf(entries))
    {
      if e.key in MapOf(entries) {
        var x :| x in entries && x.key == e.key;
      }
    }
    AscendingUnique(Sorted(MapOf(entries)), entries, None);
  }

  // ---------------------------------------------------------------------------
  // Signing
  // ---------------------------------------------------------------------------

  /** An entry as given to Sign: its key, and its value's encoding or the reason there is none. */
  datatype NewEntry = NewEntry(key: Bytes, value: Result<Bytes>)

  datatype Signer<!K> = Signer(pub: K, compressed: Bytes, signHash: Bytes -> Bytes)

  function Sort(entries: seq<Entry>): seq<Entry> {
    if entries == [] then [] else Insert(entries[0], Sort(entries[1..]))
  }

  ghost predicate DistinctKeys(entries: seq<Entry>) {
    forall i, j :: 0 <= i < j < |entries| ==> entries[i].key != entries[j].key
  }

  lemma {:induction false} SortElements(entries: seq<Entry>)
    ensures forall e :: e in Sort(entries) <==> e in entries
  {
    if entries != [] {
      SortElements(entries[1..]);
      InsertElements(entries[0], Sort(entries[1..]));
      assert forall e :: e in entries <==> e == entries[0] || e in entries[1..];
    }
  }

  /** Sorting gives strictly ascending keys exactly when no key appears twice. */
  lemma {:induction false} SortAscending(entries: seq<Entry>)
    ensures Ascending(Sort(entries), None) <==> DistinctKeys(entries)
  {
    if entries != [] {
      var head, tail := entries[0], entries[1..];
      SortAscending(tail);
      SortElements(tail);
      InsertAscending(head, Sort(tail), None);
      DistinctHead(entries);
    }
  }

  lemma DistinctHead(entries: seq<Entry>)
    requires entries != []
    ensures DistinctKeys(entries) <==> DistinctKeys(entries[1..]) && entries[0].key !in Keys(entries[1..])
  {
    var tail := entries[1..];
    if DistinctKeys(entries) {
      forall e | e in tail
        ensures e.key != entries[0].key
      {
        var j :| 0 <= j < |tail| && tail[j] == e;
        assert entries[j + 1] == e;
      }
    }
    if DistinctKeys(tail) && entries[0].key !in Keys(tail) {
      forall i, j | 0 <= i < j < |entries|
        ensures entries[i].key != entries[j].key
      {
        assert entries[j] == tail[j - 1];
        if i > 0 {
          assert entries[i] == tail[i - 1];
        } else {
          assert entries[j] in tail;
        }
      }
    }
  }

  lemma {:induction false} DistinctLists(entries: seq<Entry>)
    requires DistinctKeys(entries)
    ensures Lists(MapOf(entries), entries)
  {
    MapOfKeys(entries);
    if entries != [] {
      var front, last := entries[..|entries| - 1], entries[|entries| - 1];
      DistinctLists(front);
      assert forall e :: e in entries ==> e in front || e == last;
    }
  }

  /** Sorting does not change what is under which key. */
  lemma SortKeepsMap(entries: seq<Entry>)
    requires DistinctKeys(entries)
    ensures MapOf(Sort(entries)) == MapOf(entries) && Lists(MapOf(entries), entries)
  {
    SortAscending(entries);
    SortElements(entries);
    AscendingLists(Sort(entries));
    DistinctLists(entries);
    SameKeys(Sort(entries), entries);
    ListsOnlyOne(MapOf(Sort(entries)), MapOf(entries), entries);
  }

  lemma SameKeys(a: seq<Entry>, b: seq<Entry>)
    requires forall e :: e in a <==> e in b
    ensures Keys(a) == Keys(b)
  {
  }

  function Marshal(given: seq<NewEntry>): Result<seq<Entry>> {
    if given == [] then Ok([])
    else if given[0].value.Err? then Err(given[0].value.error)
    else
      var others := Marshal(given[1..]);
      if others.Err? then others else Ok([Entry(given[0].key, given[0].value.value)] + others.value)
  }

  /** The entries Sign adds itself. */
  function OwnEntries<K>(signer: Signer<K>): seq<Entry> {
    [Entry(ID, EncodeBytes(V4)), Entry(SECP256K1, EncodeBytes(signer.compressed))]
  }

  function SignEntries<K>(s: Scheme<K>, signer: Signer<K>, seqNo: nat, sorted: seq<Entry>): Bytes {
    EncodeRecord(signer.signHash(s.keccak256(EncodeList(SignedContent(seqNo, sorted)))), seqNo, sorted)
  }

  method Sign<K>(s: Scheme<K>, signer: Option<Signer<K>>, seqNo: nat, given: seq<NewEntry>)
      returns (r: Result<Record<K>>)
    requires seqNo < TWO_64
    ensures signer.None? || Marshal(given).Err? ==> r.Err?
    ensures signer.Some? && Marshal(given).Ok? ==>
              r == RecordOf(s,
                  SignEntries(s, signer.value, seqNo, Sort(OwnEntries(signer.value) + Marshal(given).value)))
  {
    if signer.None? {
      return Err("nil ENR signing key");
    }
    var signed := OwnEntries(signer.value);
    ghost var own := signed;
    assert given[0..] == given;
    for i := 0 to |given|
      invariant Marshal(given[i..]).Err? ==> Marshal(given).Err?
      invariant Marshal(given[i..]).Ok? ==>
          Marshal(given).Ok? && own + Marshal(given).value == signed + Marshal(given[i..]).value
    {
      assert given[i..][1..] == given[i + 1..];
      if given[i].value.Err? {
        return Err(given[i].value.error);
      }
      var e := Entry(given[i].key, given[i].value.value);
      ghost var rest := Marshal(given[i + 1..]);
      assert rest.Ok? ==> signed + ([e] + rest.value) == signed + [e] + rest.value;
      signed := signed + [e];
    }
    assert signed == own + Marshal(given).value;
    signed := Sort(signed);
    var content := EncodeSignedContent(seqNo, signed);
    var signature := signer.value.signHash(s.keccak256(EncodeList(content)));
    r := DecodeRecord(s, EncodeList(EncodeBytes(signature) + content));
  }

  /** A signer whose 33-byte key parses back and whose 64-byte signatures verify. */
  ghost predicate Honest<K>(s: Scheme<K>, signer: Signer<K>) {
    && |signer.compressed| == 33 && s.parsePubKey(signer.compressed) == Ok(signer.pub)
    && forall h :: |signer.signHash(h)| == SIGNATURE_SIZE && s.verifyHash(signer.pub, h, signer.signHash(h))
  }

  lemma StringOfEncoded(payload: Bytes)
    requires |payload| < TWO_64
    ensures StringOf(EncodeBytes(payload)) == Ok(payload) && Single(EncodeBytes(payload)).Ok?
  {
    DecodeOfBytes(payload, []);
    assert EncodeBytes(payload) + [] == EncodeBytes(payload);
  }

  lemma OwnIdentity<K>(s: Scheme<K>, signer: Signer<K>, all: seq<Entry>)
    requires Honest(s, signer) && Lists(MapOf(all), all) && OwnEntries(signer) <= all
    ensures Identify(s, MapOf(all)) == Ok(signer.pub)
  {
    var own := OwnEntries(signer);
    assert own[0] == all[0] && own[1] == all[1];
    assert all[0] in all && all[1] in all;
    StringOfEncoded(V4);
    StringOfEncoded(signer.compressed);
  }

  lemma SortedValues(entries: seq<Entry>)
    requires Values(entries)
    ensures Values(Sort(entries))
  {
    SortElements(entries);
  }

  /**
   * Signing succeeds exactly when no key appears twice, id and secp256k1 included, and the record fits;
   * the record then holds the signer's key, the sequence number and every entry.
   */
  lemma SignIff<K>(s: Scheme<K>, signer: Signer<K>, seqNo: nat, given: seq<Entry>)
    requires Honest(s, signer) && seqNo < TWO_64 && Values(given)
    ensures var all := OwnEntries(signer) + given;
            var raw := SignEntries(s, signer, seqNo, Sort(all));
            && (RecordOf(s, raw).Ok? <==> DistinctKeys(all) && |raw| <= MAX_RECORD_SIZE)
            && (RecordOf(s, raw).Ok? ==> RecordOf(s, raw).value == Record(raw, seqNo, signer.pub, MapOf(all)))
  {
    var all := OwnEntries(signer) + given;
    var raw := SignEntries(s, signer, seqNo, Sort(all));
    var hash := s.keccak256(EncodeList(SignedContent(seqNo, Sort(all))));
    StringOfEncoded(V4);
    StringOfEncoded(signer.compressed);
    assert Values(all);
    SortedValues(all);
    SortAscending(all);
    if DistinctKeys(all) && |raw| <= MAX_RECORD_SIZE {
      SortKeepsMap(all);
      OwnIdentity(s, signer, all);
      assert Genuine(s, raw, signer.signHash(hash), seqNo, Sort(all));
      GenuineIsAccepted(s, raw, signer.signHash(hash), seqNo, Sort(all));
    } else if |raw| <= MAX_RECORD_SIZE {
      var fields := EncodedShape(signer.signHash(hash), seqNo, Sort(all));
      RepresentedEntries(fields[1..], Sort(all), None);
    }
  }
}
