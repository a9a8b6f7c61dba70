/** Ethereum node records (EIP-778): decoding, signing, and that they agree. */
module Enr {
  import opened Basics
  import opened Rlp

  const MAX_RECORD_SIZE := 300
  const SIGNATURE_SIZE := 64
  const ID: Bytes := [105, 100]
  const V4: Bytes := [118, 52]
  const SECP256K1: Bytes := [115, 101, 99, 112, 50, 53, 54, 107, 49]

  /** The cryptography a record is checked with; nothing is known about it. */
  datatype Scheme<!K> = Scheme(
    parsePubKey: Bytes -> Result<K>,
    verifyHash: (K, Bytes, Bytes) -> bool,
    keccak256: Bytes -> Bytes)

  /** A key and its value as raw RLP. */
  datatype Entry = Entry(key: Bytes, value: Bytes)

  datatype Record<K> = Record(raw: Bytes, seqNo: nat, pub: K, entries: map<Bytes, Bytes>)

  // ---------------------------------------------------------------------------
  // Byte order of keys
  // ---------------------------------------------------------------------------

  /** a sorts strictly before b, bytewise. */
  predicate Before(a: Bytes, b: Bytes) {
    b != [] && (a == [] || a[0] < b[0] || (a[0] == b[0] && Before(a[1..], b[1..])))
  }

  lemma {:induction false} BeforeTotal(a: Bytes, b: Bytes)
    ensures a == b || Before(a, b) || Before(b, a)
    ensures !(Before(a, b) && Before(b, a)) && !Before(a, a)
  {
    if a != [] && b != [] {
      BeforeTotal(a[1..], b[1..]);
      assert a == [a[0]] + a[1..] && b == [b[0]] + b[1..];
    }
    if a != [] {
      BeforeTotal(a[1..], a[1..]);
    }
  }

  lemma {:induction false} BeforeTransitive(a: Bytes, b: Bytes, c: Bytes)
    requires Before(a, b) && Before(b, c)
    ensures Before(a, c)
  {
    if a != [] && a[0] == b[0] && b[0] == c[0] {
      BeforeTransitive(a[1..], b[1..], c[1..]);
    }
  }

  ghost function Keys(entries: seq<Entry>): set<Bytes> {
    set e | e in entries :: e.key
  }

  /** Keys strictly ascend, all of them after previous. */
  ghost predicate Ascending(entries: seq<Entry>, previous: Option<Bytes>) {
    entries != [] ==>
      && (previous.Some? ==> Before(previous.value, entries[0].key))
      && Ascending(entries[1..], Some(entries[0].key))
  }

  lemma {:induction false} AscendingFrom(entries: seq<Entry>, previous: Bytes, e: Entry)
    requires Ascending(entries, Some(previous)) && e in entries
    ensures Before(previous, e.key)
  {
    if e != entries[0] {
      AscendingFrom(entries[1..], entries[0].key, e);
      BeforeTransitive(previous, entries[0].key, e.key);
    }
  }

  lemma HeadIsLeast(entries: seq<Entry>, previous: Option<Bytes>, e: Entry)
    requires Ascending(entries, previous) && e in entries
    ensures e == entries[0] || Before(entries[0].key, e.key)
  {
    if e != entries[0] {
      assert e in entries[1..];
      AscendingFrom(entries[1..], entries[0].key, e);
    }
  }

  /** The entries as a map, later ones winning. */
  function MapOf(entries: seq<Entry>): map<Bytes, Bytes> {
    if entries == [] then map[]
    else
      var last := entries[|entries| - 1];
      MapOf(entries[..|entries| - 1])[last.key := last.value]
  }

  lemma {:induction false} MapOfKeys(entries: seq<Entry>)
    ensures MapOf(entries).Keys == Keys(entries)
  {
    if entries != [] {
      var front := entries[..|entries| - 1];
      MapOfKeys(front);
      assert entries == front + [entries[|entries| - 1]];
      assert forall e :: e in entries <==> e in front || e == entries[|entries| - 1];
    }
  }

  /** A map says which entry is under which key: no key has two entries. */
  ghost predicate Lists(m: map<Bytes, Bytes>, entries: seq<Entry>) {
    && m.Keys == Keys(entries)
    && forall e :: e in entries ==> e.key in m && m[e.key] == e.value
  }

  lemma ListsOnlyOne(m: map<Bytes, Bytes>, n: map<Bytes, Bytes>, entries: seq<Entry>)
    requires Lists(m, entries) && Lists(n, entries)
    ensures m == n
  {
    forall k | k in m
      ensures k in n && m[k] == n[k]
    {
      var e :| e in entries && e.key == k;
    }
    assert m.Keys == n.Keys;
  }

  lemma {:induction false} AscendingSplit(front: seq<Entry>, back: seq<Entry>, previous: Option<Bytes>)
    requires Ascending(front + back, previous)
    ensures Ascending(front, previous)
    ensures forall a, b :: a in front && b in back ==> Before(a.key, b.key)
  {
    if front != [] {
      var all := front + back;
      assert all[1..] == front[1..] + back;
      AscendingSplit(front[1..], back, Some(front[0].key));
      forall b | b in back
        ensures Before(front[0].key, b.key)
      {
        assert b in all[1..];
        AscendingFrom(all[1..], front[0].key, b);
      }
      assert forall a :: a in front ==> a == front[0] || a in front[1..];
    }
  }

  lemma {:induction false} AscendingLists(entries: seq<Entry>)
    requires Ascending(entries, None)
    ensures Lists(MapOf(entries), entries)
  {
    MapOfKeys(entries);
    if entries != [] {
      var front, last := entries[..|entries| - 1], entries[|entries| - 1];
      assert entries == front + [last];
      AscendingSplit(front, [last], None);
      AscendingLists(front);
      forall e | e in entries
        ensures MapOf(entries)[e.key] == e.value
      {
        if e in front {
          BeforeTotal(e.key, last.key);
          assert Before(e.key, last.key);
        }
      }
    }
  }

  /** The ascending listing of a map is unique. */
  lemma {:induction false} AscendingUnique(a: seq<Entry>, b: seq<Entry>, previous: Option<Bytes>)
    requires Ascending(a, previous) && Ascending(b, previous)
    requires forall e :: e in a <==> e in b
    ensures a == b
  {
    assert a != [] ==> a[0] in b;
    assert b != [] ==> b[0] in a;
    if a != [] {
      HeadIsLeast(a, previous, b[0]);
      HeadIsLeast(b, previous, a[0]);
      BeforeTotal(a[0].key, b[0].key);
      assert a[0] == b[0];
      TailElements(a, b, previous);
      AscendingUnique(a[1..], b[1..], Some(a[0].key));
      assert a == [a[0]] + a[1..] && b == [b[0]] + b[1..];
    }
  }

  lemma TailElements(a: seq<Entry>, b: seq<Entry>, previous: Option<Bytes>)
    requires Ascending(a, previous) && Ascending(b, previous)
    requires forall e :: e in a <==> e in b
    requires a != [] && b != [] && a[0] == b[0]
    ensures forall e :: e in a[1..] <==> e in b[1..]
  {
    forall e
      ensures e in a[1..] <==> e in a && e != a[0]
      ensures e in b[1..] <==> e in b && e != b[0]
    {
      BeforeTotal(e.key, e.key);
      if e in a[1..] { AscendingFrom(a[1..], a[0].key, e); }
      if e in b[1..] { AscendingFrom(b[1..], b[0].key, e); }
    }
  }

  // ---------------------------------------------------------------------------
  // Encoding
  // ---------------------------------------------------------------------------

  function Fields(entries: seq<Entry>): Bytes {
    if entries == [] then [] else EncodeBytes(entries[0].key) + entries[0].value + Fields(entries[1..])
  }

  lemma Regroup(a: Bytes, b: Bytes, c: Bytes, d: Bytes)
    ensures a + (b + c + d) == a + b + c + d
  {
  }

  function SignedContent(seqNo: nat, entries: seq<Entry>): Bytes {
    EncodedUint(seqNo) + Fields(entries)
  }

  function EncodeRecord(signature: Bytes, seqNo: nat, entries: seq<Entry>): Bytes {
    EncodeList(EncodeBytes(signature) + SignedContent(seqNo, entries))
  }

  lemma {:induction false} FieldsSnoc(entries: seq<Entry>, e: Entry)
    ensures Fields(entries + [e]) == Fields(entries) + EncodeBytes(e.key) + e.value
  {
    var all := entries + [e];
    if entries == [] {
      assert all[1..] == [];
    } else {
      FieldsSnoc(entries[1..], e);
      assert all[1..] == entries[1..] + [e];
      Regroup(EncodeBytes(all[0].key) + all[0].value, Fields(entries[1..]), EncodeBytes(e.key), e.value);
    }
  }

  method EncodeSignedContent(seqNo: nat, entries: seq<Entry>) returns (content: Bytes)
    requires seqNo < TWO_64
    ensures content == SignedContent(seqNo, entries)
  {
    content := EncodeUint(seqNo);
    ghost var number := content;
    for i := 0 to |entries|
      invariant content == number + Fields(entries[..i])
    {
      FieldsGrow(number, entries, i);
      content := content + EncodeBytes(entries[i].key);
      content := content + entries[i].value;
    }
    assert entries[..|entries|] == entries;
  }

  lemma FieldsGrow(number: Bytes, entries: seq<Entry>, i: nat)
    requires i < |entries|
    ensures number + Fields(entries[..i + 1])
        == number + Fields(entries[..i]) + EncodeBytes(entries[i].key) + entries[i].value
  {
    FieldsSnoc(entries[..i], entries[i]);
    assert entries[..i + 1] == entries[..i] + [entries[i]];
    Regroup(number, Fields(entries[..i]), EncodeBytes(entries[i].key), entries[i].value);
  }

  // ---------------------------------------------------------------------------
  // Decoding
  // ---------------------------------------------------------------------------

  /** raw is one RLP item and nothing else. */
  function Single(raw: Bytes): Result<RlpItem> {
    var d := Decode(raw);
    if d.Err? then Err(d.error)
    else if |d.value.rest| != 0 then Err("trailing bytes after RLP item")
    else Ok(d.value.item)
  }

  function StringOf(raw: Bytes): Result<Bytes> {
    var item := Single(raw);
    if item.Err? then Err(item.error)
    else if item.value.kind != String then Err("RLP item is not a byte string")
    else Ok(item.value.payload)
  }

  function EntriesOf(items: seq<RlpItem>, previous: Option<Bytes>): Result<seq<Entry>>
    requires |items| % 2 == 0
  {
    if items == [] then Ok([])
    else if items[0].kind != String then Err("ENR key must be an RLP byte string")
    else if previous.Some? && !Before(previous.value, items[0].payload) then Err("ENR keys must be strictly ascending")
    else
      var others := EntriesOf(items[2..], Some(items[0].payload));
      if others.Err? then others else Ok([Entry(items[0].payload, items[1].raw)] + others.value)
  }

  /** The public key of a v4 record. */
  function Identify<K>(s: Scheme<K>, entries: map<Bytes, Bytes>): Result<K> {
    if ID !in entries then Err("ENR key is missing: id")
    else
      var id := StringOf(entries[ID]);
      if id.Err? then Err(id.error)
      else if id.value != V4 then Err("ENR identity scheme is not v4")
      else if SECP256K1 !in entries then Err("ENR key is missing: secp256k1")
      else
        var compressed := StringOf(entries[SECP256K1]);
        if compressed.Err? then Err(compressed.error) else s.parsePubKey(compressed.value)
  }

  /** A well-shaped record, before its entries are looked at. */
  datatype Shape = Shape(signature: Bytes, seqNo: nat, fields: seq<RlpItem>)

  function ShapeOf(raw: Bytes): (r: Result<Shape>)
    ensures r.Ok? ==> |r.value.fields| % 2 == 1
  {
    var d := Decode(raw);
    if |raw| > MAX_RECORD_SIZE then Err("ENR exceeds 300-byte limit")
    else if d.Err? then Err(d.error)
    else if |d.value.rest| != 0 then Err("trailing bytes after ENR")
    else
      var root := d.value.item;
      if root.kind != List then Err("ENR must be an RLP list")
      else if |root.children| < 2 || (|root.children| - 2) % 2 != 0 then
        Err("ENR must contain a signature, sequence, and entries")
      else if root.children[0].kind != String || |root.children[0].payload| != SIGNATURE_SIZE then
        Err("ENR signature must contain 64 bytes")
      else
        var seqNo := UintOf(root.children[1], 8);
        if seqNo.Err? then Err(seqNo.error)
        else Ok(Shape(root.children[0].payload, seqNo.value, root.children[1..]))
  }

  function RecordOf<K>(s: Scheme<K>, raw: Bytes): Result<Record<K>> {
    var shape := ShapeOf(raw);
    if shape.Err? then Err(shape.error)
    else
      var entries := EntriesOf(shape.value.fields[1..], None);
      if entries.Err? then Err(entries.error)
      else
        var pub := Identify(s, MapOf(entries.value));
        if pub.Err? then Err(pub.error)
        else if !s.verifyHash(pub.value, s.keccak256(EncodeList(Raws(shape.value.fields))),
            shape.value.signature) then Err("invalid ENR signature")
        else Ok(Record(raw, shape.value.seqNo, pub.value, MapOf(entries.value)))
  }

  /** What the loop over the fields still has to do. */
  function Resume(done: seq<Entry>, rest: Result<seq<Entry>>): Result<seq<Entry>> {
    if rest.Err? then rest else Ok(done + rest.value)
  }

  lemma EntriesStep(fields: seq<RlpItem>, i: nat, previous: Option<Bytes>)
    requires i + 2 <= |fields| && (|fields| - i) % 2 == 0
    requires fields[i].kind == String && (previous.Some? ==> Before(previous.value, fields[i].payload))
    ensures EntriesOf(fields[i..], previous)
         == Resume([Entry(fields[i].payload, fields[i + 1].raw)], EntriesOf(fields[i + 2..], Some(fields[i].payload)))
  {
    assert fields[i..][2..] == fields[i + 2..];
  }

  lemma ResumeMore(done: seq<Entry>, e: Entry, rest: Result<seq<Entry>>)
    ensures Resume(done, Resume([e], rest)) == Resume(done + [e], rest)
    ensures MapOf(done + [e]) == MapOf(done)[e.key := e.value]
  {
    assert (done + [e])[..|done|] == done;
    if rest.Ok? {
      assert done + ([e] + rest.value) == done + [e] + rest.value;
    }
  }

  lemma ResumeAll(rest: Result<seq<Entry>>)
    ensures Resume([], rest) == rest
  {
    if rest.Ok? {
      assert [] + rest.value == rest.value;
    }
  }

  function AsMap(entries: Result<seq<Entry>>): Result<map<Bytes, Bytes>> {
    if entries.Err? then Err(entries.error) else Ok(MapOf(entries.value))
  }

  lemma EntriesStop(fields: seq<RlpItem>, i: nat, previous: Option<Bytes>)
    requires i + 2 <= |fields| && (|fields| - i) % 2 == 0
    ensures fields[i].kind != String ==> EntriesOf(fields[i..], previous) == Err("ENR key must be an RLP byte string")
    ensures fields[i].kind == String && previous.Some? && !Before(previous.value, fields[i].payload) ==>
              EntriesOf(fields[i..], previous) == Err("ENR keys must be strictly ascending")
  {
  }

  method ReadEntries(fields: seq<RlpItem>) returns (r: Result<map<Bytes, Bytes>>)
    requires |fields| % 2 == 0
    ensures r == AsMap(EntriesOf(fields, None))
  {
    var entries: map<Bytes, Bytes> := map[];
    var previous: Option<Bytes> := None;
    ghost var done: seq<Entry> := [];
    var i := 0;
    assert fields[0..] == fields;
    ResumeAll(EntriesOf(fields, None));
    while i < |fields|
      invariant 0 <= i <= |fields| && (|fields| - i) % 2 == 0
      invariant entries == MapOf(done) && (i > 0) == previous.Some?
      invariant EntriesOf(fields, None) == Resume(done, EntriesOf(fields[i..], previous))
    {
      EntriesStop(fields, i, previous);
      var key := fields[i];
      if key.kind != String {
        return Err("ENR key must be an RLP byte string");
      }
      if i > 0 && !Before(previous.value, key.payload) {
        return Err("ENR keys must be strictly ascending");
      }
      EntriesAdvance(fields, i, previous, done);
      done := done + [Entry(key.payload, fields[i + 1].raw)];
      previous := Some(key.payload);
      entries := entries[key.payload := fields[i + 1].raw];
      i := i + 2;
    }
    assert done + [] == done;
    return Ok(entries);
  }

  lemma EntriesAdvance(fields: seq<RlpItem>, i: nat, previous: Option<Bytes>, done: seq<Entry>)
    requires i + 2 <= |fields| && (|fields| - i) % 2 == 0
    requires fields[i].kind == String && (previous.Some? ==> Before(previous.value, fields[i].payload))
    ensures var e := Entry(fields[i].payload, fields[i + 1].raw);
            && Resume(done, EntriesOf(fields[i..], previous))
                == Resume(done + [e], EntriesOf(fields[i + 2..], Some(fields[i].payload)))
            && MapOf(done + [e]) == MapOf(done)[e.key := e.value]
  {
    EntriesStep(fields, i, previous);
    ResumeMore(done, Entry(fields[i].payload, fields[i + 1].raw), EntriesOf(fields[i + 2..], Some(fields[i].payload)));
  }

  lemma {:induction false} RawsSnoc(items: seq<RlpItem>, item: RlpItem)
    ensures Raws(items + [item]) == Raws(items) + item.raw
  {
    if items == [] {
      assert items + [item] == [item];
      assert Raws([item][1..]) == [];
    } else {
      RawsSnoc(items[1..], item);
      assert (items + [item])[1..] == items[1..] + [item];
    }
  }

  method Content(fields: seq<RlpItem>) returns (content: Bytes)
    ensures content == Raws(fields)
  {
    content := [];
    for i := 0 to |fields|
      invariant content == Raws(fields[..i])
    {
      RawsSnoc(fields[..i], fields[i]);
      assert fields[..i + 1] == fields[..i] + [fields[i]];
      content := content + fields[i].raw;
    }
    assert fields[..|fields|] == fields;
  }

  method DecodeRecord<K>(s: Scheme<K>, raw: Bytes) returns (r: Result<Record<K>>)
    ensures r == RecordOf(s, raw)
  {
    var shape := ShapeOf(raw);
    if shape.Err? {
      return Err(shape.error);
    }
    var entries := ReadEntries(shape.value.fields[1..]);
    if entries.Err? {
      return Err(entries.error);
    }
    var pub := Identify(s, entries.value);
    if pub.Err? {
      return Err(pub.error);
    }
    var content := Content(shape.value.fields);
    if !s.verifyHash(pub.value, s.keccak256(EncodeList(content)), shape.value.signature) {
      return Err("invalid ENR signature");
    }
    return Ok(Record(raw, shape.value.seqNo, pub.value, entries.value));
  }
}
