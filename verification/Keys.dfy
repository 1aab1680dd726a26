/** The argument encoder (src/cachau/keys.py).

  A Python value is modelled by the branch of `_feed` that handles it.  Text is its
  UTF-8 bytes; numbers are their `str`/`repr` text; a class is its identity bytes
  (`module.qualname`).  `h` is the digest function: any function to 32 bytes. */
module Keys {
  import opened Bytes
  import opened Sorting
  import opened Wrappers

  type Digest = d: Bytes | |d| == 32 witness seq(32, i => 0)
  type Hash = Bytes -> Digest

  datatype Kind = KInt | KFloat | KComplex | KStr | KBytes

  /** `cls` is the identity of the concrete class when it is not the builtin itself. */
  datatype Value =
    | NoneValue
    | Member(identity: Bytes)
    | Bool(value: bool)
    | Scalar(kind: Kind, cls: Option<Bytes>, text: Bytes)
    | PathValue(windows: bool, text: Bytes)
    | Record(identity: Bytes, fields: seq<Field>)
    | Sequence(isTuple: bool, cls: Option<Bytes>, items: seq<Value>)
    | Mapping(cls: Option<Bytes>, pairs: seq<Pair>)
    | Collection(frozen: bool, cls: Option<Bytes>, members: seq<Value>)
    | Unsupported

  datatype Field = Field(name: Bytes, value: Value)

  datatype Pair = Pair(key: Value, item: Value)

  // -------------------------------------------------------------------- emissions

  datatype Tag =
    | TNone | TEnum | TBool | TInt | TFloat | TComplex | TStr | TBytes | TPathWin | TPathPosix
    | TDataclass | TFields | TField | TTuple | TList | TDict | TFrozenset | TSet | TSubtype | TArg | TCustomKey

  function TagText(tag: Tag): string {
    match tag
    case TNone => "none"
    case TEnum => "enum"
    case TBool => "bool"
    case TInt => "int"
    case TFloat => "float"
    case TComplex => "complex"
    case TStr => "str"
    case TBytes => "bytes"
    case TPathWin => "path-win"
    case TPathPosix => "path-posix"
    case TDataclass => "dataclass"
    case TFields => "fields"
    case TField => "field"
    case TTuple => "tuple"
    case TList => "list"
    case TDict => "dict"
    case TFrozenset => "frozenset"
    case TSet => "set"
    case TSubtype => "subtype"
    case TArg => "arg"
    case TCustomKey => "custom-key"
  }

  const NUL: Byte := 0

  function Head(tag: Tag): Bytes {
    Ascii(TagText(tag)) + [NUL]
  }

  /** Tag, NUL, 8-byte length, payload. */
  function Emit(tag: Tag, payload: Bytes): Bytes
  {
    Head(tag) + Be8(|payload|) + payload
  }

  /** Tag, NUL, 8-byte count. */
  function EmitCount(tag: Tag, count: nat): Bytes
  {
    Head(tag) + Be8(count)
  }

  lemma TagHasNoNul(tag: Tag)
    ensures NUL !in Ascii(TagText(tag))
  {
  }

  /** The tag with this length and these first two characters. */
  function ReadTag(length: nat, c: char, d: char): Tag {
    if length == 3 then (if c == 'i' then TInt else if c == 'a' then TArg else if d == 't' then TStr else TSet)
    else if length == 4 then
      (if c == 'n' then TNone else if c == 'e' then TEnum else if c == 'b' then TBool else if c == 'l' then TList else TDict)
    else if length == 5 then
      (if c == 'b' then TBytes else if c == 't' then TTuple else if d == 'l' then TFloat else TField)
    else if length == 6 then TFields
    else if length == 7 then (if c == 'c' then TComplex else TSubtype)
    else if length == 8 then TPathWin
    else if length == 9 then (if c == 'd' then TDataclass else TFrozenset)
    else if c == 'p' then TPathPosix
    else TCustomKey
  }

  lemma TagsRead(tag: Tag)
    ensures var text := TagText(tag);
      && |text| >= 3 && text[0] < 128 as char && text[1] < 128 as char
      && ReadTag(|text|, text[0], text[1]) == tag
  {
  }

  lemma TagsDiffer(a: Tag, b: Tag)
    requires Ascii(TagText(a)) == Ascii(TagText(b))
    ensures a == b
  {
    var x, y := TagText(a), TagText(b);
    TagsRead(a);
    TagsRead(b);
    AsciiAgrees(x, y, 0);
    AsciiAgrees(x, y, 1);
  }

  lemma AsciiAgrees(x: string, y: string, i: nat)
    requires Ascii(x) == Ascii(y) && i < |x|
    requires i < |y| && x[i] < 128 as char && y[i] < 128 as char
    ensures |x| == |y| && x[i] == y[i]
  {
    assert |Ascii(x)| == |x| && |Ascii(y)| == |y|;
    assert Ascii(x)[i] == Ascii(y)[i];
  }

  /** The tag of an emission can be read off the stream. */
  lemma HeadSplit(a: Tag, r: Bytes, b: Tag, s: Bytes)
    requires Head(a) + r == Head(b) + s
    ensures a == b && r == s
  {
    TagHasNoNul(a);
    TagHasNoNul(b);
    DelimitedSplit(Ascii(TagText(a)), r, Ascii(TagText(b)), s, NUL);
    TagsDiffer(a, b);
  }

  // ------------------------------------------------------------ what is encodable

  predicate ClassFits(cls: Option<Bytes>) {
    cls.Some? ==> |cls.value| < LIMIT
  }

  /** No member of the value is of an unsupported type, and every length fits in
    8 bytes: what `_feed` needs not to raise. */
  predicate Encodable(v: Value)
    decreases v, 1
  {
    match v
    case NoneValue => true
    case Member(identity) => |identity| < LIMIT
    case Bool(_) => true
    case Scalar(_, cls, text) => ClassFits(cls) && |text| < LIMIT
    case PathValue(_, text) => |text| < LIMIT
    case Record(identity, fields) => |identity| < LIMIT && |fields| < LIMIT && FieldsEncodable(fields)
    case Sequence(_, cls, items) => ClassFits(cls) && |items| < LIMIT && AllEncodable(items)
    case Mapping(cls, pairs) => ClassFits(cls) && |pairs| < LIMIT && PairsEncodable(pairs)
    case Collection(_, cls, members) => ClassFits(cls) && |members| < LIMIT && AllEncodable(members)
    case Unsupported => false
  }

  predicate AllEncodable(vs: seq<Value>)
    decreases vs, 0
  {
    vs == [] || (Encodable(vs[0]) && AllEncodable(vs[1..]))
  }

  predicate FieldsEncodable(fields: seq<Field>)
    decreases fields, 0
  {
    fields == []
    || (|fields[0].name| < LIMIT && Encodable(fields[0].value) && FieldsEncodable(fields[1..]))
  }

  predicate PairsEncodable(pairs: seq<Pair>)
    decreases pairs, 0
  {
    pairs == []
    || (assert pairs[0].key < pairs[0];
        Encodable(pairs[0].key) && Encodable(pairs[0].item) && PairsEncodable(pairs[1..]))
  }

  // ------------------------------------------------------------------- the stream

  function KindTag(kind: Kind): Tag {
    match kind
    case KInt => TInt
    case KFloat => TFloat
    case KComplex => TComplex
    case KStr => TStr
    case KBytes => TBytes
  }

  /** Only a value whose concrete class is not the builtin says so. */
  function Subtype(cls: Option<Bytes>): Bytes
  {
    if cls.None? then [] else Emit(TSubtype, cls.value)
  }

  predicate DigestLeq(a: Digest, b: Digest) {
    LexLeq(a, b)
  }

  datatype Entry = Entry(key: Digest, item: Digest)

  /** Tuple order: by key digest, then by item digest. */
  predicate EntryLeq(a: Entry, b: Entry) {
    if a.key == b.key then LexLeq(a.item, b.item) else LexLeq(a.key, b.key)
  }

  function FlatDigests(digests: seq<Digest>): Bytes {
    if digests == [] then [] else digests[0] + FlatDigests(digests[1..])
  }

  function FlatEntries(entries: seq<Entry>): Bytes {
    if entries == [] then [] else entries[0].key + entries[0].item + FlatEntries(entries[1..])
  }

  /** The bytes `_feed` hands to the hasher, for a value it accepts. */
  function Encode(h: Hash, v: Value): Bytes
    decreases v, 1
  {
    match v
    case NoneValue => Emit(TNone, [])
    case Member(identity) => Emit(TEnum, identity)
    case Bool(b) => Emit(TBool, [if b then 1 else 0])
    case Scalar(kind, cls, text) => Subtype(cls) + Emit(KindTag(kind), text)
    case PathValue(windows, text) => Emit(if windows then TPathWin else TPathPosix, text)
    case Record(identity, fields) =>
      Emit(TDataclass, identity) + (EmitCount(TFields, |fields|) + EncodeFields(h, fields))
    case Sequence(isTuple, cls, items) =>
      Subtype(cls) + (EmitCount(if isTuple then TTuple else TList, |items|) + EncodeAll(h, items))
    case Mapping(cls, pairs) =>
      Subtype(cls) + (EmitCount(TDict, |pairs|) + FlatEntries(Sort(EntryLeq, Entries(h, pairs))))
    case Collection(frozen, cls, members) =>
      Subtype(cls) + (EmitCount(if frozen then TFrozenset else TSet, |members|)
        + FlatDigests(Sort(DigestLeq, Digests(h, members))))
    case Unsupported => []
  }

  function EncodeAll(h: Hash, vs: seq<Value>): Bytes
    decreases vs, 0
  {
    if vs == [] then [] else Encode(h, vs[0]) + EncodeAll(h, vs[1..])
  }

  function EncodeFields(h: Hash, fields: seq<Field>): Bytes
    decreases fields, 0
  {
    if fields == [] then []
    else Emit(TField, fields[0].name) + (Encode(h, fields[0].value) + EncodeFields(h, fields[1..]))
  }

  function Digests(h: Hash, vs: seq<Value>): (r: seq<Digest>)
    ensures |r| == |vs|
    decreases vs, 0
  {
    if vs == [] then [] else [h(Encode(h, vs[0]))] + Digests(h, vs[1..])
  }

  function EntryOf(h: Hash, pair: Pair): Entry
    decreases pair, 0
  {
    Entry(h(Encode(h, pair.key)), h(Encode(h, pair.item)))
  }

  function Entries(h: Hash, pairs: seq<Pair>): (r: seq<Entry>)
    ensures |r| == |pairs|
    decreases pairs, 0
  {
    if pairs == [] then [] else [EntryOf(h, pairs[0])] + Entries(h, pairs[1..])
  }

  /** The streams digested on their own while `v` is fed: its dictionary keys and
    items and its set members, at every depth. */
  function Hashed(h: Hash, v: Value): set<Bytes>
    decreases v, 1
  {
    match v
    case Record(_, fields) => HashedFields(h, fields)
    case Sequence(_, _, items) => HashedAll(h, items)
    case Mapping(_, pairs) => HashedPairs(h, pairs)
    case Collection(_, _, members) => HashedMembers(h, members)
    case _ => {}
  }

  function HashedAll(h: Hash, vs: seq<Value>): set<Bytes>
    decreases vs, 0
  {
    if vs == [] then {} else Hashed(h, vs[0]) + HashedAll(h, vs[1..])
  }

  function HashedFields(h: Hash, fields: seq<Field>): set<Bytes>
    decreases fields, 0
  {
    if fields == [] then {} else Hashed(h, fields[0].value) + HashedFields(h, fields[1..])
  }

  function HashedMembers(h: Hash, vs: seq<Value>): set<Bytes>
    decreases vs, 0
  {
    if vs == [] then {} else {Encode(h, vs[0])} + Hashed(h, vs[0]) + HashedMembers(h, vs[1..])
  }

  function HashedPairs(h: Hash, pairs: seq<Pair>): set<Bytes>
    decreases pairs, 0
  {
    if pairs == [] then {}
    else
      assert pairs[0].key < pairs[0];
      {Encode(h, pairs[0].key), Encode(h, pairs[0].item)} + Hashed(h, pairs[0].key) + Hashed(h, pairs[0].item)
      + HashedPairs(h, pairs[1..])
  }

  /** The digest tells these streams apart. */
  ghost predicate Separates(h: Hash, streams: set<Bytes>) {
    forall x, y :: x in streams && y in streams && h(x) == h(y) ==> x == y
  }

  // --------------------------------------------------------- when values are the same

  /** Equality with type tags: dictionaries and sets up to order, classes up to
    their identity bytes. */
  ghost predicate Same(a: Value, b: Value)
    decreases a, 1
  {
    match a
    case Record(identity, fields) => b.Record? && identity == b.identity && SameFields(fields, b.fields)
    case Sequence(isTuple, cls, items) =>
      b.Sequence? && isTuple == b.isTuple && cls == b.cls && SameAll(items, b.items)
    case Mapping(cls, pairs) => b.Mapping? && cls == b.cls && SamePairs(pairs, b.pairs)
    case Collection(frozen, cls, members) =>
      b.Collection? && frozen == b.frozen && cls == b.cls && SameMembers(members, b.members)
    case _ => a == b
  }

  ghost predicate SameAll(xs: seq<Value>, ys: seq<Value>)
    decreases xs, 0
  {
    |xs| == |ys| && (xs == [] || (Same(xs[0], ys[0]) && SameAll(xs[1..], ys[1..])))
  }

  ghost predicate SameFields(xs: seq<Field>, ys: seq<Field>)
    decreases xs, 0
  {
    |xs| == |ys|
    && (xs == [] || (xs[0].name == ys[0].name && Same(xs[0].value, ys[0].value) && SameFields(xs[1..], ys[1..])))
  }

  /** The members pair off, each with one that is the same. */
  ghost predicate SameMembers(xs: seq<Value>, ys: seq<Value>)
    decreases xs, 0
  {
    |xs| == |ys|
    && (xs == [] || exists j :: 0 <= j < |ys| && Same(xs[0], ys[j]) && SameMembers(xs[1..], Except(ys, j)))
  }

  ghost predicate SamePairs(xs: seq<Pair>, ys: seq<Pair>)
    decreases xs, 0
  {
    |xs| == |ys|
    && (xs == []
        || (assert xs[0].key < xs[0];
            exists j :: 0 <= j < |ys| && Same(xs[0].key, ys[j].key) && Same(xs[0].item, ys[j].item)
              && SamePairs(xs[1..], Except(ys, j))))
  }

  // --------------------------------------------------------------- reading a stream

  lemma EmitSplit(tag: Tag, p: Bytes, r: Bytes, q: Bytes, s: Bytes)
    requires |p| < LIMIT && |q| < LIMIT
    requires Emit(tag, p) + r == Emit(tag, q) + s
    ensures p == q && r == s
  {
    Associate(Head(tag) + Be8(|p|), p, r);
    Associate(Head(tag) + Be8(|q|), q, s);
    Associate(Head(tag), Be8(|p|), p + r);
    Associate(Head(tag), Be8(|q|), q + s);
    FixedSplit(Head(tag), Be8(|p|) + (p + r), Head(tag), Be8(|q|) + (q + s));
    FixedSplit(Be8(|p|), p + r, Be8(|q|), q + s);
    Be8Injective(|p|, |q|);
    FixedSplit(p, r, q, s);
  }

  lemma CountSplit(tag: Tag, m: nat, r: Bytes, n: nat, s: Bytes)
    requires m < LIMIT && n < LIMIT
    requires EmitCount(tag, m) + r == EmitCount(tag, n) + s
    ensures m == n && r == s
  {
    assert EmitCount(tag, m) + r == Head(tag) + (Be8(m) + r);
    assert EmitCount(tag, n) + s == Head(tag) + (Be8(n) + s);
    FixedSplit(Head(tag), Be8(m) + r, Head(tag), Be8(n) + s);
    FixedSplit(Be8(m), r, Be8(n), s);
    Be8Injective(m, n);
  }

  lemma CountedSplit(tag: Tag, m: nat, x: Bytes, r: Bytes, n: nat, y: Bytes, s: Bytes)
    requires m < LIMIT && n < LIMIT
    requires (EmitCount(tag, m) + x) + r == (EmitCount(tag, n) + y) + s
    ensures m == n && x + r == y + s
  {
    Associate(EmitCount(tag, m), x, r);
    Associate(EmitCount(tag, n), y, s);
    CountSplit(tag, m, x + r, n, y + s);
  }

  /** The tag the value's own branch emits. */
  function TagOf(v: Value): (tag: Tag)
    ensures tag != TSubtype
  {
    match v
    case NoneValue => TNone
    case Member(_) => TEnum
    case Bool(_) => TBool
    case Scalar(kind, _, _) => KindTag(kind)
    case PathValue(windows, _) => if windows then TPathWin else TPathPosix
    case Record(_, _) => TDataclass
    case Sequence(isTuple, _, _) => if isTuple then TTuple else TList
    case Mapping(_, _) => TDict
    case Collection(frozen, _, _) => if frozen then TFrozenset else TSet
    case Unsupported => TNone
  }

  function ClassOf(v: Value): Option<Bytes> {
    match v
    case Scalar(_, cls, _) => cls
    case Sequence(_, cls, _) => cls
    case Mapping(cls, _) => cls
    case Collection(_, cls, _) => cls
    case _ => None
  }

  /** The value's stream after its subtype emission. */
  function Plain(h: Hash, v: Value): Bytes
  {
    match v
    case Scalar(kind, _, text) => Emit(KindTag(kind), text)
    case Sequence(isTuple, _, items) => EmitCount(if isTuple then TTuple else TList, |items|) + EncodeAll(h, items)
    case Mapping(_, pairs) => EmitCount(TDict, |pairs|) + FlatEntries(Sort(EntryLeq, Entries(h, pairs)))
    case Collection(frozen, _, members) =>
      EmitCount(if frozen then TFrozenset else TSet, |members|) + FlatDigests(Sort(DigestLeq, Digests(h, members)))
    case _ => Encode(h, v)
  }

  lemma EncodeParts(h: Hash, v: Value)
    requires Encodable(v)
    ensures ClassFits(ClassOf(v)) && Encode(h, v) == Subtype(ClassOf(v)) + Plain(h, v)
  {
  }

  lemma PlainHead(h: Hash, v: Value) returns (body: Bytes)
    requires Encodable(v)
    ensures Plain(h, v) == Head(TagOf(v)) + body
  {
    body := Plain(h, v)[|Head(TagOf(v))|..];
  }

  /** A subtype emission and a branch's own tag cannot be confused. */
  lemma SubtypeIsNotTag(c: Bytes, p: Bytes, tag: Tag, rest: Bytes)
    requires |c| < LIMIT && tag != TSubtype
    ensures Emit(TSubtype, c) + p != Head(tag) + rest
  {
    var tail := Be8(|c|) + (c + p);
    assert Emit(TSubtype, c) + p == Head(TSubtype) + tail;
    if Emit(TSubtype, c) + p == Head(tag) + rest {
      HeadSplit(TSubtype, tail, tag, rest);
    }
  }

  lemma SubtypeSplit(c: Option<Bytes>, p: Bytes, d: Option<Bytes>, q: Bytes, x: Tag, px: Bytes, y: Tag, qy: Bytes)
    requires ClassFits(c) && ClassFits(d)
    requires p == Head(x) + px && q == Head(y) + qy && x != TSubtype && y != TSubtype
    requires Subtype(c) + p == Subtype(d) + q
    ensures c == d && p == q
  {
    assert c.None? ==> Subtype(c) + p == p;
    assert d.None? ==> Subtype(d) + q == q;
    if c.None? && d.Some? {
      SubtypeIsNotTag(d.value, q, x, px);
    } else if c.Some? && d.None? {
      SubtypeIsNotTag(c.value, p, y, qy);
    } else if c.Some? {
      EmitSplit(TSubtype, c.value, p, d.value, q);
    }
  }

  /** How a value's stream starts, whatever follows it. */
  lemma StreamStart(h: Hash, v: Value, r: Bytes) returns (body: Bytes)
    requires Encodable(v)
    ensures ClassFits(ClassOf(v))
    ensures Encode(h, v) + r == Subtype(ClassOf(v)) + (Plain(h, v) + r)
    ensures Plain(h, v) + r == Head(TagOf(v)) + body
  {
    EncodeParts(h, v);
    var x := PlainHead(h, v);
    body := x + r;
    Associate(Subtype(ClassOf(v)), Plain(h, v), r);
    Associate(Head(TagOf(v)), x, r);
  }

  /** Two value streams that agree start with the same subtype and the same tag. */
  lemma SameShape(h: Hash, a: Value, b: Value, r: Bytes, s: Bytes)
    requires Encodable(a) && Encodable(b)
    requires Encode(h, a) + r == Encode(h, b) + s
    ensures ClassOf(a) == ClassOf(b) && TagOf(a) == TagOf(b)
    ensures Plain(h, a) + r == Plain(h, b) + s
  {
    var x := StreamStart(h, a, r);
    var y := StreamStart(h, b, s);
    SubtypeSplit(ClassOf(a), Plain(h, a) + r, ClassOf(b), Plain(h, b) + s, TagOf(a), x, TagOf(b), y);
    HeadSplit(TagOf(a), x, TagOf(b), y);
  }

  // ------------------------------------------- equal streams come from same values

  lemma {:induction false} DigestsSplit(a: seq<Digest>, r: Bytes, b: seq<Digest>, s: Bytes)
    requires |a| == |b| && FlatDigests(a) + r == FlatDigests(b) + s
    ensures a == b && r == s
  {
    if a == [] {
      assert FlatDigests(a) + r == r && FlatDigests(b) + s == s;
    } else {
      Associate(a[0], FlatDigests(a[1..]), r);
      Associate(b[0], FlatDigests(b[1..]), s);
      FixedSplit(a[0], FlatDigests(a[1..]) + r, b[0], FlatDigests(b[1..]) + s);
      DigestsSplit(a[1..], r, b[1..], s);
    }
  }

  lemma {:induction false} EntriesSplit(a: seq<Entry>, r: Bytes, b: seq<Entry>, s: Bytes)
    requires |a| == |b| && FlatEntries(a) + r == FlatEntries(b) + s
    ensures a == b && r == s
  {
    if a == [] {
      assert FlatEntries(a) + r == r && FlatEntries(b) + s == s;
    } else {
      var x, y := FlatEntries(a[1..]), FlatEntries(b[1..]);
      Associate(a[0].key + a[0].item, x, r);
      Associate(b[0].key + b[0].item, y, s);
      FixedSplit(a[0].key + a[0].item, x + r, b[0].key + b[0].item, y + s);
      FixedSplit(a[0].key, a[0].item, b[0].key, b[0].item);
      EntriesSplit(a[1..], r, b[1..], s);
    }
  }

  lemma DigestOrder()
    ensures TotalOrder(DigestLeq)
  {
    forall x: Digest, y: Digest ensures DigestLeq(x, y) || DigestLeq(y, x) {
      LexTotal(x, y);
    }
    forall x: Digest, y: Digest | DigestLeq(x, y) && DigestLeq(y, x) ensures x == y {
      LexTotal(x, y);
    }
    forall x: Digest, y: Digest, z: Digest | DigestLeq(x, y) && DigestLeq(y, z) ensures DigestLeq(x, z) {
      LexTransitive(x, y, z);
    }
  }

  lemma EntryOrder()
    ensures TotalOrder(EntryLeq)
  {
    forall x: Entry, y: Entry ensures EntryLeq(x, y) || EntryLeq(y, x) {
      LexTotal(x.key, y.key);
      LexTotal(x.item, y.item);
    }
    forall x: Entry, y: Entry | EntryLeq(x, y) && EntryLeq(y, x) ensures x == y {
      LexTotal(x.key, y.key);
      LexTotal(x.item, y.item);
    }
    forall x: Entry, y: Entry, z: Entry | EntryLeq(x, y) && EntryLeq(y, z) ensures EntryLeq(x, z) {
      if x.key == y.key == z.key {
        LexTransitive(x.item, y.item, z.item);
      } else if x.key != y.key && y.key != z.key {
        LexTransitive(x.key, y.key, z.key);
        LexTotal(x.key, y.key);
      }
    }
  }

  lemma {:induction false} PickDigest(digests: seq<Digest>, d: Digest) returns (j: nat)
    requires d in multiset(digests)
    ensures j < |digests| && digests[j] == d
  {
    assert d in digests;
    j :| 0 <= j < |digests| && digests[j] == d;
  }

  lemma {:induction false} DigestsAt(h: Hash, vs: seq<Value>, j: nat)
    requires AllEncodable(vs) && j < |vs|
    ensures Encodable(vs[j]) && Digests(h, vs)[j] == h(Encode(h, vs[j]))
    ensures Encode(h, vs[j]) in HashedMembers(h, vs) && Hashed(h, vs[j]) <= HashedMembers(h, vs)
  {
    if j > 0 {
      DigestsAt(h, vs[1..], j - 1);
    }
  }

  lemma {:induction false} DigestsConcat(h: Hash, a: seq<Value>, b: seq<Value>)
    ensures Digests(h, a + b) == Digests(h, a) + Digests(h, b)
  {
    if a == [] {
      assert a + b == b;
    } else {
      assert (a + b)[1..] == a[1..] + b;
      DigestsConcat(h, a[1..], b);
    }
  }

  lemma DigestsWithout(h: Hash, vs: seq<Value>, j: nat)
    requires AllEncodable(vs) && j < |vs|
    ensures AllEncodable(Except(vs, j)) && Digests(h, Except(vs, j)) == Except(Digests(h, vs), j)
    ensures HashedMembers(h, Except(vs, j)) <= HashedMembers(h, vs)
  {
    EncodableExcept(vs, j);
    DigestsExcept(h, vs, j);
    HashedExcept(h, vs, j);
  }

  lemma {:induction false} EncodableExcept(vs: seq<Value>, j: nat)
    requires AllEncodable(vs) && j < |vs|
    ensures AllEncodable(Except(vs, j))
  {
    if j > 0 {
      EncodableExcept(vs[1..], j - 1);
      assert Except(vs, j)[1..] == Except(vs[1..], j - 1);
    } else {
      assert Except(vs, j) == vs[1..];
    }
  }

  lemma {:induction false} HashedConcat(h: Hash, a: seq<Value>, b: seq<Value>)
    ensures HashedMembers(h, a + b) == HashedMembers(h, a) + HashedMembers(h, b)
  {
    if a == [] {
      assert a + b == b;
    } else {
      assert (a + b)[1..] == a[1..] + b;
      HashedConcat(h, a[1..], b);
    }
  }

  lemma HashedTail(h: Hash, vs: seq<Value>)
    requires vs != []
    ensures HashedMembers(h, vs[1..]) <= HashedMembers(h, vs)
  {
  }

  lemma HashedExcept(h: Hash, vs: seq<Value>, j: nat)
    requires j < |vs|
    ensures HashedMembers(h, Except(vs, j)) <= HashedMembers(h, vs)
  {
    assert vs == vs[..j] + vs[j..];
    assert vs[j..][1..] == vs[j + 1..];
    HashedConcat(h, vs[..j], vs[j..]);
    HashedConcat(h, vs[..j], vs[j..][1..]);
    HashedTail(h, vs[j..]);
  }

  lemma DigestsExcept(h: Hash, vs: seq<Value>, j: nat)
    requires j < |vs|
    ensures Digests(h, Except(vs, j)) == Except(Digests(h, vs), j)
  {
    var rest := vs[j + 1..];
    assert vs == vs[..j] + vs[j..];
    assert vs[j..][1..] == rest;
    DigestsConcat(h, vs[..j], vs[j..]);
    DigestsConcat(h, vs[..j], rest);
    WithoutMiddle(Digests(h, vs[..j]), h(Encode(h, vs[j])), Digests(h, rest));
  }

  lemma WithoutMiddle<T>(a: seq<T>, x: T, c: seq<T>)
    ensures Except(a + ([x] + c), |a|) == a + c
  {
  }

  lemma {:induction false} EntriesAt(h: Hash, pairs: seq<Pair>, j: nat)
    requires PairsEncodable(pairs) && j < |pairs|
    ensures Encodable(pairs[j].key) && Encodable(pairs[j].item)
    ensures Entries(h, pairs)[j] == EntryOf(h, pairs[j])
    ensures Encode(h, pairs[j].key) in HashedPairs(h, pairs) && Encode(h, pairs[j].item) in HashedPairs(h, pairs)
    ensures Hashed(h, pairs[j].key) <= HashedPairs(h, pairs) && Hashed(h, pairs[j].item) <= HashedPairs(h, pairs)
  {
    if j > 0 {
      EntriesAt(h, pairs[1..], j - 1);
    }
  }

  lemma ExceptRest<T>(s: seq<T>, j: nat)
    requires 0 < j < |s|
    ensures var left := Except(s, j); left[0] == s[0] && left[1..] == Except(s[1..], j - 1) && left == [s[0]] + left[1..]
  {
  }

  lemma {:induction false} EntriesWithout(h: Hash, pairs: seq<Pair>, j: nat)
    requires PairsEncodable(pairs) && j < |pairs|
    ensures PairsEncodable(Except(pairs, j)) && Entries(h, Except(pairs, j)) == Except(Entries(h, pairs), j)
  {
    var rest, entries := pairs[1..], Entries(h, pairs[1..]);
    if j == 0 {
      assert Except(pairs, 0) == rest;
      assert Except(Entries(h, pairs), 0) == entries;
    } else {
      EntriesWithout(h, rest, j - 1);
      ExceptRest(pairs, j);
      ExceptRest(Entries(h, pairs), j);
    }
  }

  lemma {:induction false} HashedPairsWithout(h: Hash, pairs: seq<Pair>, j: nat)
    requires j < |pairs|
    ensures HashedPairs(h, Except(pairs, j)) <= HashedPairs(h, pairs)
  {
    var rest := pairs[1..];
    if j == 0 {
      assert Except(pairs, 0) == rest;
    } else {
      HashedPairsWithout(h, rest, j - 1);
      var left := Except(pairs, j);
      assert left[0] == pairs[0] && left[1..] == Except(rest, j - 1);
    }
  }

  /** Unique decoding: if two value streams agree up to what follows, the values are
    the same and so is what follows.  In particular no value's stream is a proper
    prefix of another's. */
  lemma {:induction false} Unique(h: Hash, streams: set<Bytes>, a: Value, b: Value, r: Bytes, s: Bytes)
    requires Encodable(a) && Encodable(b) && Separates(h, streams)
    requires Hashed(h, a) <= streams && Hashed(h, b) <= streams
    requires Encode(h, a) + r == Encode(h, b) + s
    ensures Same(a, b) && r == s
    decreases a, 3
  {
    SameShape(h, a, b, r, s);
    SameTagSameKind(a, b);
    UniquePlain(h, streams, a, b, r, s);
  }

  lemma SameTagSameKind(a: Value, b: Value)
    requires !a.Unsupported? && !b.Unsupported? && TagOf(a) == TagOf(b)
    ensures a.Record? <==> b.Record?
    ensures a.Sequence? <==> b.Sequence?
    ensures a.Mapping? <==> b.Mapping?
    ensures a.Collection? <==> b.Collection?
  {
  }

  lemma {:induction false} UniquePlain(h: Hash, streams: set<Bytes>, a: Value, b: Value, r: Bytes, s: Bytes)
    requires Encodable(a) && Encodable(b) && Separates(h, streams)
    requires Hashed(h, a) <= streams && Hashed(h, b) <= streams
    requires (a.Record? <==> b.Record?) && (a.Sequence? <==> b.Sequence?)
    requires (a.Mapping? <==> b.Mapping?) && (a.Collection? <==> b.Collection?)
    requires TagOf(a) == TagOf(b) && ClassOf(a) == ClassOf(b) && Plain(h, a) + r == Plain(h, b) + s
    ensures Same(a, b) && r == s
    decreases a, 2
  {
    if a.Record? {
      UniqueRecordValue(h, streams, a, b, r, s);
    } else if a.Sequence? {
      UniqueSequenceValue(h, streams, a, b, r, s);
    } else if a.Mapping? {
      UniqueMappingValue(h, streams, a, b, r, s);
    } else if a.Collection? {
      UniqueCollectionValue(h, streams, a, b, r, s);
    } else {
      UniqueLeaf(h, a, b, r, s);
    }
  }

  lemma {:induction false} UniqueRecordValue(h: Hash, streams: set<Bytes>, a: Value, b: Value, r: Bytes, s: Bytes)
    requires a.Record? && b.Record? && Encodable(a) && Encodable(b) && Separates(h, streams)
    requires Hashed(h, a) <= streams && Hashed(h, b) <= streams
    requires TagOf(a) == TagOf(b) && ClassOf(a) == ClassOf(b) && Plain(h, a) + r == Plain(h, b) + s
    ensures Same(a, b) && r == s
    decreases a, 1
  {
    UniqueRecord(h, streams, a.identity, a.fields, b.identity, b.fields, r, s);
  }

  lemma {:induction false} UniqueSequenceValue(h: Hash, streams: set<Bytes>, a: Value, b: Value, r: Bytes, s: Bytes)
    requires a.Sequence? && b.Sequence? && Encodable(a) && Encodable(b) && Separates(h, streams)
    requires Hashed(h, a) <= streams && Hashed(h, b) <= streams
    requires TagOf(a) == TagOf(b) && ClassOf(a) == ClassOf(b) && Plain(h, a) + r == Plain(h, b) + s
    ensures Same(a, b) && r == s
    decreases a, 1
  {
    UniqueSequence(h, streams, TagOf(a), a.items, b.items, r, s);
  }

  lemma {:induction false} UniqueMappingValue(h: Hash, streams: set<Bytes>, a: Value, b: Value, r: Bytes, s: Bytes)
    requires a.Mapping? && b.Mapping? && Encodable(a) && Encodable(b) && Separates(h, streams)
    requires Hashed(h, a) <= streams && Hashed(h, b) <= streams
    requires TagOf(a) == TagOf(b) && ClassOf(a) == ClassOf(b) && Plain(h, a) + r == Plain(h, b) + s
    ensures Same(a, b) && r == s
    decreases a, 1
  {
    UniqueMapping(h, streams, a.pairs, b.pairs, r, s);
  }

  lemma {:induction false} UniqueCollectionValue(h: Hash, streams: set<Bytes>, a: Value, b: Value, r: Bytes, s: Bytes)
    requires a.Collection? && b.Collection? && Encodable(a) && Encodable(b) && Separates(h, streams)
    requires Hashed(h, a) <= streams && Hashed(h, b) <= streams
    requires TagOf(a) == TagOf(b) && ClassOf(a) == ClassOf(b) && Plain(h, a) + r == Plain(h, b) + s
    ensures Same(a, b) && r == s
    decreases a, 1
  {
    UniqueCollection(h, streams, TagOf(a), a.members, b.members, r, s);
  }

  lemma {:induction false} UniqueRecord(h: Hash, streams: set<Bytes>, id1: Bytes, xs: seq<Field>, id2: Bytes, ys: seq<Field>,
                                        r: Bytes, s: Bytes)
    requires |id1| < LIMIT && |id2| < LIMIT && |xs| < LIMIT && |ys| < LIMIT
    requires FieldsEncodable(xs) && FieldsEncodable(ys) && Separates(h, streams)
    requires HashedFields(h, xs) <= streams && HashedFields(h, ys) <= streams
    requires (Emit(TDataclass, id1) + (EmitCount(TFields, |xs|) + EncodeFields(h, xs))) + r
          == (Emit(TDataclass, id2) + (EmitCount(TFields, |ys|) + EncodeFields(h, ys))) + s
    ensures id1 == id2 && SameFields(xs, ys) && r == s
    decreases xs, 1
  {
    var m, n := |xs|, |ys|;
    var x, y := EncodeFields(h, xs), EncodeFields(h, ys);
    Nest(Emit(TDataclass, id1), EmitCount(TFields, m), x, r);
    Nest(Emit(TDataclass, id2), EmitCount(TFields, n), y, s);
    EmitSplit(TDataclass, id1, EmitCount(TFields, m) + (x + r), id2, EmitCount(TFields, n) + (y + s));
    CountSplit(TFields, m, x + r, n, y + s);
    UniqueFields(h, streams, xs, ys, r, s);
  }

  lemma {:induction false} UniqueSequence(h: Hash, streams: set<Bytes>, tag: Tag, xs: seq<Value>, ys: seq<Value>,
                                          r: Bytes, s: Bytes)
    requires |xs| < LIMIT && |ys| < LIMIT && AllEncodable(xs) && AllEncodable(ys) && Separates(h, streams)
    requires HashedAll(h, xs) <= streams && HashedAll(h, ys) <= streams
    requires (EmitCount(tag, |xs|) + EncodeAll(h, xs)) + r == (EmitCount(tag, |ys|) + EncodeAll(h, ys)) + s
    ensures SameAll(xs, ys) && r == s
    decreases xs, 1
  {
    CountedSplit(tag, |xs|, EncodeAll(h, xs), r, |ys|, EncodeAll(h, ys), s);
    UniqueAll(h, streams, xs, ys, r, s);
  }

  lemma {:induction false} UniqueMapping(h: Hash, streams: set<Bytes>, xs: seq<Pair>, ys: seq<Pair>, r: Bytes, s: Bytes)
    requires |xs| < LIMIT && |ys| < LIMIT && PairsEncodable(xs) && PairsEncodable(ys) && Separates(h, streams)
    requires HashedPairs(h, xs) <= streams && HashedPairs(h, ys) <= streams
    requires (EmitCount(TDict, |xs|) + FlatEntries(Sort(EntryLeq, Entries(h, xs)))) + r
          == (EmitCount(TDict, |ys|) + FlatEntries(Sort(EntryLeq, Entries(h, ys)))) + s
    ensures SamePairs(xs, ys) && r == s
    decreases xs, 1
  {
    var x, y := Sort(EntryLeq, Entries(h, xs)), Sort(EntryLeq, Entries(h, ys));
    CountedSplit(TDict, |xs|, FlatEntries(x), r, |ys|, FlatEntries(y), s);
    EntriesSplit(x, r, y, s);
    PairsMatch(h, streams, xs, ys);
  }

  lemma {:induction false} UniqueCollection(h: Hash, streams: set<Bytes>, tag: Tag, xs: seq<Value>, ys: seq<Value>,
                                            r: Bytes, s: Bytes)
    requires |xs| < LIMIT && |ys| < LIMIT && AllEncodable(xs) && AllEncodable(ys) && Separates(h, streams)
    requires HashedMembers(h, xs) <= streams && HashedMembers(h, ys) <= streams
    requires (EmitCount(tag, |xs|) + FlatDigests(Sort(DigestLeq, Digests(h, xs)))) + r
          == (EmitCount(tag, |ys|) + FlatDigests(Sort(DigestLeq, Digests(h, ys)))) + s
    ensures SameMembers(xs, ys) && r == s
    decreases xs, 1
  {
    var x, y := Sort(DigestLeq, Digests(h, xs)), Sort(DigestLeq, Digests(h, ys));
    CountedSplit(tag, |xs|, FlatDigests(x), r, |ys|, FlatDigests(y), s);
    DigestsSplit(x, r, y, s);
    MembersMatch(h, streams, xs, ys);
  }

  function LeafPayload(v: Value): Bytes {
    match v
    case Member(identity) => identity
    case Bool(b) => [if b then 1 else 0]
    case Scalar(_, _, text) => text
    case PathValue(_, text) => text
    case _ => []
  }

  predicate IsLeaf(v: Value) {
    !v.Record? && !v.Sequence? && !v.Mapping? && !v.Collection? && !v.Unsupported?
  }

  lemma LeafPlain(h: Hash, v: Value)
    requires IsLeaf(v) && Encodable(v)
    ensures |LeafPayload(v)| < LIMIT && Plain(h, v) == Emit(TagOf(v), LeafPayload(v))
  {
  }

  lemma LeafFromPayload(a: Value, b: Value)
    requires IsLeaf(a) && IsLeaf(b)
    requires ClassOf(a) == ClassOf(b) && TagOf(a) == TagOf(b) && LeafPayload(a) == LeafPayload(b)
    ensures a == b
  {
    if a.Bool? {
      assert LeafPayload(a)[0] == LeafPayload(b)[0];
    }
  }

  lemma UniqueLeaf(h: Hash, a: Value, b: Value, r: Bytes, s: Bytes)
    requires IsLeaf(a) && IsLeaf(b) && Encodable(a) && Encodable(b)
    requires ClassOf(a) == ClassOf(b) && TagOf(a) == TagOf(b) && Plain(h, a) + r == Plain(h, b) + s
    ensures a == b && r == s
  {
    LeafPlain(h, a);
    LeafPlain(h, b);
    EmitSplit(TagOf(a), LeafPayload(a), r, LeafPayload(b), s);
    LeafFromPayload(a, b);
  }

  lemma {:induction false} UniqueAll(h: Hash, streams: set<Bytes>, xs: seq<Value>, ys: seq<Value>, r: Bytes, s: Bytes)
    requires AllEncodable(xs) && AllEncodable(ys) && |xs| == |ys| && Separates(h, streams)
    requires HashedAll(h, xs) <= streams && HashedAll(h, ys) <= streams
    requires EncodeAll(h, xs) + r == EncodeAll(h, ys) + s
    ensures SameAll(xs, ys) && r == s
    decreases xs, 0
  {
    if xs == [] {
      assert EncodeAll(h, xs) + r == r && EncodeAll(h, ys) + s == s;
    } else {
      var x, y := EncodeAll(h, xs[1..]), EncodeAll(h, ys[1..]);
      Associate(Encode(h, xs[0]), x, r);
      Associate(Encode(h, ys[0]), y, s);
      Unique(h, streams, xs[0], ys[0], x + r, y + s);
      UniqueAll(h, streams, xs[1..], ys[1..], r, s);
    }
  }

  lemma {:induction false} UniqueFields(
      h: Hash, streams: set<Bytes>, xs: seq<Field>, ys: seq<Field>, r: Bytes, s: Bytes)
    requires FieldsEncodable(xs) && FieldsEncodable(ys) && |xs| == |ys| && Separates(h, streams)
    requires HashedFields(h, xs) <= streams && HashedFields(h, ys) <= streams
    requires EncodeFields(h, xs) + r == EncodeFields(h, ys) + s
    ensures SameFields(xs, ys) && r == s
    decreases xs, 0
  {
    if xs == [] {
      assert EncodeFields(h, xs) + r == r && EncodeFields(h, ys) + s == s;
    } else {
      var x, y := EncodeFields(h, xs[1..]), EncodeFields(h, ys[1..]);
      var u, v := Encode(h, xs[0].value), Encode(h, ys[0].value);
      Associate(Emit(TField, xs[0].name), u + x, r);
      Associate(Emit(TField, ys[0].name), v + y, s);
      EmitSplit(TField, xs[0].name, (u + x) + r, ys[0].name, (v + y) + s);
      Associate(u, x, r);
      Associate(v, y, s);
      Unique(h, streams, xs[0].value, ys[0].value, x + r, y + s);
      UniqueFields(h, streams, xs[1..], ys[1..], r, s);
    }
  }

  /** Equal bags of member digests: the members pair off. */
  lemma {:induction false} MembersMatch(h: Hash, streams: set<Bytes>, xs: seq<Value>, ys: seq<Value>)
    requires AllEncodable(xs) && AllEncodable(ys) && Separates(h, streams)
    requires HashedMembers(h, xs) <= streams && HashedMembers(h, ys) <= streams
    requires multiset(Digests(h, xs)) == multiset(Digests(h, ys))
    ensures SameMembers(xs, ys)
    decreases xs, 0
  {
    var dx, dy := Digests(h, xs), Digests(h, ys);
    assert |dx| == |multiset(dx)| == |multiset(dy)| == |dy|;
    if xs != [] {
      assert dx[0] in multiset(dx);
      var j := PickDigest(dy, dx[0]);
      DigestsAt(h, ys, j);
      DigestsWithout(h, ys, j);
      assert Encode(h, xs[0]) == Encode(h, ys[j]);
      Unique(h, streams, xs[0], ys[j], [], []);
      ExceptMultiset(dy, j);
      ExceptMultiset(dx, 0);
      assert Except(dx, 0) == Digests(h, xs[1..]);
      MembersMatch(h, streams, xs[1..], Except(ys, j));
    }
  }

  lemma {:induction false} PickEntry(entries: seq<Entry>, e: Entry) returns (j: nat)
    requires e in multiset(entries)
    ensures j < |entries| && entries[j] == e
  {
    assert e in entries;
    j :| 0 <= j < |entries| && entries[j] == e;
  }

  lemma {:induction false} PairsMatch(h: Hash, streams: set<Bytes>, xs: seq<Pair>, ys: seq<Pair>)
    requires PairsEncodable(xs) && PairsEncodable(ys) && Separates(h, streams)
    requires HashedPairs(h, xs) <= streams && HashedPairs(h, ys) <= streams
    requires multiset(Entries(h, xs)) == multiset(Entries(h, ys))
    ensures SamePairs(xs, ys)
    decreases xs, 0
  {
    var dx, dy := Entries(h, xs), Entries(h, ys);
    assert |dx| == |multiset(dx)| == |multiset(dy)| == |dy|;
    if xs != [] {
      assert xs[0].key < xs[0];
      assert dx[0] in multiset(dx);
      var j := PickEntry(dy, dx[0]);
      EntriesAt(h, ys, j);
      EntriesWithout(h, ys, j);
      HashedPairsWithout(h, ys, j);
      Unique(h, streams, xs[0].key, ys[j].key, [], []);
      Unique(h, streams, xs[0].item, ys[j].item, [], []);
      ExceptMultiset(dy, j);
      ExceptMultiset(dx, 0);
      assert Except(dx, 0) == Entries(h, xs[1..]);
      PairsMatch(h, streams, xs[1..], Except(ys, j));
    }
  }

  // ------------------------------------------- same values have equal streams

  lemma {:induction false} SameEncode(h: Hash, a: Value, b: Value)
    requires Encodable(a) && Encodable(b) && Same(a, b)
    ensures Encode(h, a) == Encode(h, b)
    decreases a, 1
  {
    match a {
      case Record(_, fields) => SameFieldsEncode(h, fields, b.fields);
      case Sequence(_, _, items) => SameAllEncode(h, items, b.items);
      case Mapping(_, pairs) =>
        SamePairsEncode(h, pairs, b.pairs);
        EntryOrder();
        SortForgetsOrder(EntryLeq, Entries(h, pairs), Entries(h, b.pairs));
      case Collection(_, _, members) =>
        SameMembersEncode(h, members, b.members);
        DigestOrder();
        SortForgetsOrder(DigestLeq, Digests(h, members), Digests(h, b.members));
      case _ =>
    }
  }

  lemma {:induction false} SameAllEncode(h: Hash, xs: seq<Value>, ys: seq<Value>)
    requires AllEncodable(xs) && AllEncodable(ys) && SameAll(xs, ys)
    ensures EncodeAll(h, xs) == EncodeAll(h, ys)
    decreases xs, 0
  {
    if xs != [] {
      SameEncode(h, xs[0], ys[0]);
      SameAllEncode(h, xs[1..], ys[1..]);
    }
  }

  lemma {:induction false} SameFieldsEncode(h: Hash, xs: seq<Field>, ys: seq<Field>)
    requires FieldsEncodable(xs) && FieldsEncodable(ys) && SameFields(xs, ys)
    ensures EncodeFields(h, xs) == EncodeFields(h, ys)
    decreases xs, 0
  {
    if xs != [] {
      SameEncode(h, xs[0].value, ys[0].value);
      SameFieldsEncode(h, xs[1..], ys[1..]);
    }
  }

  lemma {:induction false} SameMembersEncode(h: Hash, xs: seq<Value>, ys: seq<Value>)
    requires AllEncodable(xs) && AllEncodable(ys) && SameMembers(xs, ys)
    ensures multiset(Digests(h, xs)) == multiset(Digests(h, ys))
    decreases xs, 0
  {
    if xs != [] {
      var j :| 0 <= j < |ys| && Same(xs[0], ys[j]) && SameMembers(xs[1..], Except(ys, j));
      DigestsAt(h, ys, j);
      DigestsWithout(h, ys, j);
      SameEncode(h, xs[0], ys[j]);
      SameMembersEncode(h, xs[1..], Except(ys, j));
      SameFirstAndRest(h(Encode(h, xs[0])), Digests(h, xs[1..]), Digests(h, ys), j);
    }
  }

  lemma SameAfterRemoval<T>(a: seq<T>, i: nat, b: seq<T>, j: nat)
    requires i < |a| && j < |b| && a[i] == b[j]
    requires multiset(a) - multiset{a[i]} == multiset(b) - multiset{b[j]}
    ensures multiset(a) == multiset(b)
  {
    assert a[i] in multiset(a) && b[j] in multiset(b);
    assert multiset(a) == multiset(a) - multiset{a[i]} + multiset{a[i]};
    assert multiset(b) == multiset(b) - multiset{b[j]} + multiset{b[j]};
  }

  lemma SameFirstAndRest<T>(first: T, rest: seq<T>, b: seq<T>, j: nat)
    requires j < |b| && first == b[j] && multiset(rest) == multiset(Except(b, j))
    ensures multiset([first] + rest) == multiset(b)
  {
    assert ([first] + rest)[1..] == rest;
    assert Except([first] + rest, 0) == rest;
    ExceptMultiset([first] + rest, 0);
    ExceptMultiset(b, j);
    SameAfterRemoval([first] + rest, 0, b, j);
  }

  lemma {:induction false} SamePairsEncode(h: Hash, xs: seq<Pair>, ys: seq<Pair>)
    requires PairsEncodable(xs) && PairsEncodable(ys) && SamePairs(xs, ys)
    ensures multiset(Entries(h, xs)) == multiset(Entries(h, ys))
    decreases xs, 0
  {
    if xs != [] {
      assert xs[0].key < xs[0];
      var j :| 0 <= j < |ys| && Same(xs[0].key, ys[j].key) && Same(xs[0].item, ys[j].item)
        && SamePairs(xs[1..], Except(ys, j));
      EntriesAt(h, ys, j);
      EntriesWithout(h, ys, j);
      SameEncode(h, xs[0].key, ys[j].key);
      SameEncode(h, xs[0].item, ys[j].item);
      SamePairsEncode(h, xs[1..], Except(ys, j));
      SameFirstAndRest(EntryOf(h, xs[0]), Entries(h, xs[1..]), Entries(h, ys), j);
    }
  }

  /** Two values have equal streams exactly when they are the same, provided the
    digest separates the streams digested on the way. */
  lemma EqualStreamsIffSame(h: Hash, a: Value, b: Value)
    requires Encodable(a) && Encodable(b) && Separates(h, Hashed(h, a) + Hashed(h, b))
    ensures Encode(h, a) == Encode(h, b) <==> Same(a, b)
  {
    if Encode(h, a) == Encode(h, b) {
      Unique(h, Hashed(h, a) + Hashed(h, b), a, b, [], []);
    } else if Same(a, b) {
      SameEncode(h, a, b);
    }
  }

  lemma {:induction false} SameAllAt(h: Hash, xs: seq<Value>, ys: seq<Value>, i: nat)
    requires AllEncodable(xs) && AllEncodable(ys) && SameAll(xs, ys) && i < |xs|
    ensures i < |ys| && Encode(h, xs[i]) == Encode(h, ys[i])
  {
    if i == 0 {
      SameEncode(h, xs[0], ys[0]);
    } else {
      SameAllAt(h, xs[1..], ys[1..], i - 1);
    }
  }

  lemma {:induction false} SameFieldsAt(h: Hash, xs: seq<Field>, ys: seq<Field>, i: nat)
    requires FieldsEncodable(xs) && FieldsEncodable(ys) && SameFields(xs, ys) && i < |xs|
    ensures i < |ys| && xs[i].name == ys[i].name && Encode(h, xs[i].value) == Encode(h, ys[i].value)
  {
    if i == 0 {
      SameEncode(h, xs[0].value, ys[0].value);
    } else {
      SameFieldsAt(h, xs[1..], ys[1..], i - 1);
    }
  }

  /** A stream shows the branch a value takes, its concrete class, and what the value is
    made of: `1`, `1.0`, `True` and `"1"`, a tuple and a list, a set and a frozenset, a
    value and one of a subclass all differ; so do sequences and records that differ at
    a place or in a name. */
  lemma StreamsShow(h: Hash, a: Value, b: Value)
    requires Encodable(a) && Encodable(b) && Separates(h, Hashed(h, a) + Hashed(h, b)) && Encode(h, a) == Encode(h, b)
    ensures a.NoneValue? || a.Member? || a.Bool? || a.Scalar? || a.PathValue? ==> a == b
    ensures a.Record? ==>
      && b.Record? && a.identity == b.identity && |a.fields| == |b.fields|
      && forall i :: 0 <= i < |a.fields| ==>
           a.fields[i].name == b.fields[i].name && Encode(h, a.fields[i].value) == Encode(h, b.fields[i].value)
    ensures a.Sequence? ==>
      && b.Sequence? && a.isTuple == b.isTuple && a.cls == b.cls && |a.items| == |b.items|
      && forall i :: 0 <= i < |a.items| ==> Encode(h, a.items[i]) == Encode(h, b.items[i])
    ensures a.Mapping? ==> b.Mapping? && a.cls == b.cls && |a.pairs| == |b.pairs|
    ensures a.Collection? ==>
      b.Collection? && a.frozen == b.frozen && a.cls == b.cls && |a.members| == |b.members|
  {
    EqualStreamsIffSame(h, a, b);
    if a.Sequence? {
      forall i | 0 <= i < |a.items| ensures i < |b.items| && Encode(h, a.items[i]) == Encode(h, b.items[i]) {
        SameAllAt(h, a.items, b.items, i);
      }
    } else if a.Record? {
      forall i | 0 <= i < |a.fields|
        ensures i < |b.fields| && a.fields[i].name == b.fields[i].name
          && Encode(h, a.fields[i].value) == Encode(h, b.fields[i].value)
      {
        SameFieldsAt(h, a.fields, b.fields, i);
      }
    }
  }

  lemma SameLengths<T>(xs: seq<T>, ys: seq<T>)
    requires multiset(xs) == multiset(ys)
    ensures |xs| == |ys|
  {
    assert |multiset(xs)| == |xs| && |multiset(ys)| == |ys|;
  }

  /** Where the first of one list is in another of the same elements. */
  lemma FirstIn<T>(xs: seq<T>, ys: seq<T>) returns (j: nat)
    requires xs != [] && multiset(xs) == multiset(ys)
    ensures j < |ys| && ys[j] == xs[0] && multiset(xs[1..]) == multiset(Except(ys, j))
  {
    assert xs[0] in multiset(ys);
    j :| 0 <= j < |ys| && ys[j] == xs[0];
    ExceptMultiset(ys, j);
    assert xs == [xs[0]] + xs[1..];
  }

  lemma FirstAndRest<T>(a: seq<T>, b: seq<T>, j: nat)
    requires a != [] && j < |b| && a[0] == b[j] && multiset(a[1..]) == multiset(Except(b, j))
    ensures multiset(a) == multiset(b)
  {
    ExceptMultiset(b, j);
    assert a == [a[0]] + a[1..];
    SameAfterRemoval(a, 0, b, j);
  }

  lemma {:induction false} DigestsPermute(h: Hash, xs: seq<Value>, ys: seq<Value>)
    requires AllEncodable(xs) && AllEncodable(ys) && multiset(xs) == multiset(ys)
    ensures multiset(Digests(h, xs)) == multiset(Digests(h, ys))
    decreases |xs|
  {
    SameLengths(xs, ys);
    if xs != [] {
      var j := FirstIn(xs, ys);
      DigestsAt(h, ys, j);
      DigestsWithout(h, ys, j);
      DigestsPermute(h, xs[1..], Except(ys, j));
      assert Digests(h, xs)[1..] == Digests(h, xs[1..]);
      FirstAndRest(Digests(h, xs), Digests(h, ys), j);
    }
  }

  lemma {:induction false} EntriesPermute(h: Hash, xs: seq<Pair>, ys: seq<Pair>)
    requires PairsEncodable(xs) && PairsEncodable(ys) && multiset(xs) == multiset(ys)
    ensures multiset(Entries(h, xs)) == multiset(Entries(h, ys))
    decreases |xs|
  {
    SameLengths(xs, ys);
    if xs != [] {
      var j := FirstIn(xs, ys);
      EntriesAt(h, ys, j);
      EntriesWithout(h, ys, j);
      EntriesPermute(h, xs[1..], Except(ys, j));
      assert Entries(h, xs)[1..] == Entries(h, xs[1..]);
      FirstAndRest(Entries(h, xs), Entries(h, ys), j);
    }
  }

  lemma SortedDigestsAgree(a: seq<Digest>, b: seq<Digest>)
    requires multiset(a) == multiset(b)
    ensures Sort(DigestLeq, a) == Sort(DigestLeq, b)
  {
    DigestOrder();
    SortForgetsOrder(DigestLeq, a, b);
  }

  lemma SortedEntriesAgree(a: seq<Entry>, b: seq<Entry>)
    requires multiset(a) == multiset(b)
    ensures Sort(EntryLeq, a) == Sort(EntryLeq, b)
  {
    EntryOrder();
    SortForgetsOrder(EntryLeq, a, b);
  }

  lemma SameBody(h: Hash, a: Value, b: Value)
    requires Encodable(a) && Encodable(b) && ClassOf(a) == ClassOf(b) && Plain(h, a) == Plain(h, b)
    ensures Encode(h, a) == Encode(h, b)
  {
    EncodeParts(h, a);
    EncodeParts(h, b);
  }

  /** The order in which a set is iterated does not show. */
  lemma SetOrderDoesNotShow(h: Hash, a: Value, b: Value)
    requires a.Collection? && b.Collection? && Encodable(a) && Encodable(b)
    requires a.frozen == b.frozen && a.cls == b.cls && multiset(a.members) == multiset(b.members)
    ensures Encode(h, a) == Encode(h, b)
  {
    DigestsPermute(h, a.members, b.members);
    SortedDigestsAgree(Digests(h, a.members), Digests(h, b.members));
    SameLengths(a.members, b.members);
    SameBody(h, a, b);
  }

  /** Nor does the order in which a dictionary is. */
  lemma DictOrderDoesNotShow(h: Hash, a: Value, b: Value)
    requires a.Mapping? && b.Mapping? && Encodable(a) && Encodable(b)
    requires a.cls == b.cls && multiset(a.pairs) == multiset(b.pairs)
    ensures Encode(h, a) == Encode(h, b)
  {
    EntriesPermute(h, a.pairs, b.pairs);
    SortedEntriesAgree(Entries(h, a.pairs), Entries(h, b.pairs));
    SameLengths(a.pairs, b.pairs);
    SameBody(h, a, b);
  }

  /** No value's stream is a proper prefix of another's. */
  lemma PrefixFree(h: Hash, a: Value, b: Value, rest: Bytes)
    requires Encodable(a) && Encodable(b) && Separates(h, Hashed(h, a) + Hashed(h, b))
    requires Encode(h, a) + rest == Encode(h, b)
    ensures rest == [] && Same(a, b)
  {
    assert Encode(h, b) == Encode(h, b) + [];
    Unique(h, Hashed(h, a) + Hashed(h, b), a, b, rest, []);
  }

  // ----------------------------------------------------------------- whole calls

  /** One bound argument of a normalized call. */
  datatype Argument = Argument(name: Bytes, value: Value)

  function Kept(args: seq<Argument>, ignore: set<Bytes>): seq<Argument> {
    if args == [] then []
    else if args[0].name in ignore then Kept(args[1..], ignore)
    else [args[0]] + Kept(args[1..], ignore)
  }

  /** The kept arguments are those whose names are not ignored. */
  lemma {:induction false} KeptAreNotIgnored(args: seq<Argument>, ignore: set<Bytes>, a: Argument)
    ensures a in Kept(args, ignore) <==> a in args && a.name !in ignore
    ensures (forall i :: 0 <= i < |args| ==> args[i].name !in ignore) ==> Kept(args, ignore) == args
  {
    if args != [] {
      KeptAreNotIgnored(args[1..], ignore, a);
      assert args == [args[0]] + args[1..];
    }
  }

  /** Two calls of one function agree on the kept arguments exactly when they agree on
    every argument not ignored. */
  lemma {:induction false} AgreeOnKept(xs: seq<Argument>, ys: seq<Argument>, ignore: set<Bytes>)
    requires |xs| == |ys| && forall i :: 0 <= i < |xs| ==> xs[i].name == ys[i].name
    ensures SameArguments(Kept(xs, ignore), Kept(ys, ignore))
      <==> forall i :: 0 <= i < |xs| && xs[i].name !in ignore ==> Same(xs[i].value, ys[i].value)
  {
    if xs != [] {
      var a, b := Kept(xs[1..], ignore), Kept(ys[1..], ignore);
      AgreeOnKept(xs[1..], ys[1..], ignore);
      assert forall i :: 1 <= i < |xs| ==> xs[i] == xs[1..][i - 1] && ys[i] == ys[1..][i - 1];
      assert forall i :: 0 <= i < |xs| - 1 ==> xs[1..][i] == xs[i + 1] && ys[1..][i] == ys[i + 1];
      if xs[0].name !in ignore {
        SameArgumentsFirst(xs[0], a, ys[0], b);
      }
    }
  }

  lemma SameArgumentsFirst(x: Argument, xs: seq<Argument>, y: Argument, ys: seq<Argument>)
    ensures SameArguments([x] + xs, [y] + ys) <==> x.name == y.name && Same(x.value, y.value) && SameArguments(xs, ys)
  {
    var a, b := [x] + xs, [y] + ys;
    assert a[0] == x && b[0] == y;
    assert forall i :: 0 <= i < |xs| ==> a[i + 1] == xs[i];
    assert forall i :: 0 <= i < |ys| ==> b[i + 1] == ys[i];
    assert forall i :: 1 <= i < |a| ==> a[i] == xs[i - 1];
    assert forall i :: 1 <= i < |b| ==> b[i] == ys[i - 1];
  }

  predicate ArgumentsEncodable(args: seq<Argument>) {
    args == [] || (|args[0].name| < LIMIT && Encodable(args[0].value) && ArgumentsEncodable(args[1..]))
  }

  function EncodeArguments(h: Hash, args: seq<Argument>): Bytes
  {
    if args == [] then []
    else Emit(TArg, args[0].name) + (Encode(h, args[0].value) + EncodeArguments(h, args[1..]))
  }

  function HashedArguments(h: Hash, args: seq<Argument>): set<Bytes>
  {
    if args == [] then {} else Hashed(h, args[0].value) + HashedArguments(h, args[1..])
  }

  ghost predicate SameArguments(xs: seq<Argument>, ys: seq<Argument>) {
    |xs| == |ys|
    && forall i :: 0 <= i < |xs| ==> xs[i].name == ys[i].name && Same(xs[i].value, ys[i].value)
  }

  lemma {:induction false} UniqueArguments(h: Hash, streams: set<Bytes>, xs: seq<Argument>, ys: seq<Argument>)
    requires ArgumentsEncodable(xs) && ArgumentsEncodable(ys) && Separates(h, streams)
    requires HashedArguments(h, xs) <= streams && HashedArguments(h, ys) <= streams
    requires EncodeArguments(h, xs) == EncodeArguments(h, ys)
    ensures SameArguments(xs, ys)
  {
    if xs != [] && ys != [] {
      var x, y := EncodeArguments(h, xs[1..]), EncodeArguments(h, ys[1..]);
      EmitSplit(TArg, xs[0].name, Encode(h, xs[0].value) + x, ys[0].name, Encode(h, ys[0].value) + y);
      Unique(h, streams, xs[0].value, ys[0].value, x, y);
      UniqueArguments(h, streams, xs[1..], ys[1..]);
      SameArgumentsCons(xs, ys);
    }
  }

  lemma SameArgumentsCons(xs: seq<Argument>, ys: seq<Argument>)
    requires xs != [] && ys != [] && xs[0].name == ys[0].name && Same(xs[0].value, ys[0].value)
    requires SameArguments(xs[1..], ys[1..])
    ensures SameArguments(xs, ys)
  {
    forall i | 0 <= i < |xs| ensures xs[i].name == ys[i].name && Same(xs[i].value, ys[i].value) {
      if i > 0 {
        assert xs[i] == xs[1..][i - 1] && ys[i] == ys[1..][i - 1];
      }
    }
  }

  lemma {:induction false} SameArgumentsEncode(h: Hash, xs: seq<Argument>, ys: seq<Argument>)
    requires ArgumentsEncodable(xs) && ArgumentsEncodable(ys) && SameArguments(xs, ys)
    ensures EncodeArguments(h, xs) == EncodeArguments(h, ys)
  {
    if xs != [] {
      SameEncode(h, xs[0].value, ys[0].value);
      forall i | 0 <= i < |xs[1..]|
        ensures xs[1..][i].name == ys[1..][i].name && Same(xs[1..][i].value, ys[1..][i].value)
      {
        assert xs[1..][i] == xs[i + 1] && ys[1..][i] == ys[i + 1];
      }
      SameArgumentsEncode(h, xs[1..], ys[1..]);
    }
  }

  /** The key digest of a normalized call. */
  function ArgumentsDigest(h: Hash, args: seq<Argument>, ignore: set<Bytes>): Digest
  {
    h(EncodeArguments(h, Kept(args, ignore)))
  }

  /** Two normalized calls share a digest exactly when they agree on every argument
    that is not ignored, provided the digest separates the streams it is given. */
  lemma CallsSeparated(h: Hash, xs: seq<Argument>, ys: seq<Argument>, ignore: set<Bytes>)
    requires ArgumentsEncodable(Kept(xs, ignore)) && ArgumentsEncodable(Kept(ys, ignore))
    requires Separates(h, HashedArguments(h, Kept(xs, ignore)) + HashedArguments(h, Kept(ys, ignore))
      + {EncodeArguments(h, Kept(xs, ignore)), EncodeArguments(h, Kept(ys, ignore))})
    ensures ArgumentsDigest(h, xs, ignore) == ArgumentsDigest(h, ys, ignore)
      <==> SameArguments(Kept(xs, ignore), Kept(ys, ignore))
  {
    var a, b := Kept(xs, ignore), Kept(ys, ignore);
    var inner := HashedArguments(h, a) + HashedArguments(h, b);
    if ArgumentsDigest(h, xs, ignore) == ArgumentsDigest(h, ys, ignore) {
      assert Separates(h, inner);
      UniqueArguments(h, inner, a, b);
    }
    if SameArguments(a, b) {
      SameArgumentsEncode(h, a, b);
    }
  }

  function EncodeCustomKey(h: Hash, key: Value): Bytes
  {
    Emit(TCustomKey, []) + Encode(h, key)
  }

  /** Emissions with different tags differ, whatever follows. */
  lemma TagsSeparate(a: Tag, p: Bytes, r: Bytes, b: Tag, q: Bytes, s: Bytes)
    requires |p| < LIMIT && |q| < LIMIT && a != b
    ensures Emit(a, p) + r != Emit(b, q) + s
  {
    var x, y := Be8(|p|) + (p + r), Be8(|q|) + (q + s);
    assert Emit(a, p) + r == Head(a) + x;
    assert Emit(b, q) + s == Head(b) + y;
    if Emit(a, p) + r == Emit(b, q) + s {
      HeadSplit(a, x, b, y);
    }
  }

  /** A custom key is never digested from the same stream as an argument list. */
  lemma CustomKeyIsNoArgumentList(h: Hash, key: Value, args: seq<Argument>)
    requires Encodable(key) && ArgumentsEncodable(args)
    ensures EncodeCustomKey(h, key) != EncodeArguments(h, args)
  {
    if args != [] {
      TagsSeparate(TCustomKey, [], Encode(h, key), TArg, args[0].name,
                   Encode(h, args[0].value) + EncodeArguments(h, args[1..]));
    }
  }

  /** Two custom keys share a stream exactly when they are the same value. */
  lemma CustomKeysSeparated(h: Hash, a: Value, b: Value)
    requires Encodable(a) && Encodable(b)
    requires Separates(h, Hashed(h, a) + Hashed(h, b))
    ensures EncodeCustomKey(h, a) == EncodeCustomKey(h, b) <==> Same(a, b)
  {
    if EncodeCustomKey(h, a) == EncodeCustomKey(h, b) {
      EmitSplit(TCustomKey, [], Encode(h, a), [], Encode(h, b));
    }
    EqualStreamsIffSame(h, a, b);
  }

  // -------------------------------------------------------- the hasher, in place

  lemma {:induction false} AllEncodableAt(vs: seq<Value>, i: nat)
    requires i < |vs| && !(Encodable(vs[i]))
    ensures !AllEncodable(vs)
  {
    if i > 0 {
      AllEncodableAt(vs[1..], i - 1);
    }
  }

  lemma {:induction false} FieldsEncodableAt(fields: seq<Field>, i: nat)
    requires i < |fields| && !(|fields[i].name| < LIMIT && Encodable(fields[i].value))
    ensures !FieldsEncodable(fields)
  {
    if i > 0 {
      FieldsEncodableAt(fields[1..], i - 1);
    }
  }

  lemma {:induction false} PairsEncodableAt(pairs: seq<Pair>, i: nat)
    requires i < |pairs| && !(Encodable(pairs[i].key) && Encodable(pairs[i].item))
    ensures !PairsEncodable(pairs)
  {
    if i > 0 {
      PairsEncodableAt(pairs[1..], i - 1);
    }
  }

  lemma {:induction false} EncodeAllSnoc(h: Hash, vs: seq<Value>, v: Value)
    requires AllEncodable(vs) && Encodable(v)
    ensures AllEncodable(vs + [v])
    ensures EncodeAll(h, vs + [v]) == EncodeAll(h, vs) + Encode(h, v)
  {
    if vs == [] {
      assert EncodeAll(h, [v]) == Encode(h, v) + [];
    } else {
      assert (vs + [v])[1..] == vs[1..] + [v];
      EncodeAllSnoc(h, vs[1..], v);
      Associate(Encode(h, vs[0]), EncodeAll(h, vs[1..]), Encode(h, v));
    }
  }

  lemma {:induction false} DigestsSnoc(h: Hash, vs: seq<Value>, v: Value)
    requires AllEncodable(vs) && Encodable(v)
    ensures AllEncodable(vs + [v])
    ensures Digests(h, vs + [v]) == Digests(h, vs) + [h(Encode(h, v))]
  {
    if vs != [] {
      assert (vs + [v])[1..] == vs[1..] + [v];
      DigestsSnoc(h, vs[1..], v);
    }
  }

  lemma {:induction false} EncodeFieldsSnoc(h: Hash, fields: seq<Field>, f: Field)
    requires FieldsEncodable(fields) && |f.name| < LIMIT && Encodable(f.value)
    ensures FieldsEncodable(fields + [f])
    ensures EncodeFields(h, fields + [f]) == EncodeFields(h, fields) + (Emit(TField, f.name) + Encode(h, f.value))
  {
    if fields == [] {
      assert EncodeFields(h, [f]) == Emit(TField, f.name) + (Encode(h, f.value) + []);
    } else {
      var e, v, r := Emit(TField, fields[0].name), Encode(h, fields[0].value), EncodeFields(h, fields[1..]);
      var x := Emit(TField, f.name) + Encode(h, f.value);
      assert (fields + [f])[1..] == fields[1..] + [f];
      EncodeFieldsSnoc(h, fields[1..], f);
      Associate(e, v + r, x);
      Associate(v, r, x);
    }
  }

  lemma {:induction false} EntriesSnoc(h: Hash, pairs: seq<Pair>, p: Pair)
    requires PairsEncodable(pairs) && Encodable(p.key) && Encodable(p.item)
    ensures PairsEncodable(pairs + [p])
    ensures Entries(h, pairs + [p]) == Entries(h, pairs) + [EntryOf(h, p)]
  {
    if pairs != [] {
      assert (pairs + [p])[1..] == pairs[1..] + [p];
      EntriesSnoc(h, pairs[1..], p);
    }
  }

  lemma EncodeAllStep(h: Hash, vs: seq<Value>, i: nat)
    requires i < |vs| && AllEncodable(vs[..i]) && Encodable(vs[i])
    ensures AllEncodable(vs[..i + 1])
    ensures EncodeAll(h, vs[..i + 1]) == EncodeAll(h, vs[..i]) + Encode(h, vs[i])
  {
    var done, last := vs[..i], vs[i];
    assert vs[..i + 1] == done + [last];
    EncodeAllSnoc(h, done, last);
  }

  lemma DigestsStep(h: Hash, vs: seq<Value>, i: nat)
    requires i < |vs| && AllEncodable(vs[..i]) && Encodable(vs[i])
    ensures AllEncodable(vs[..i + 1])
    ensures Digests(h, vs[..i + 1]) == Digests(h, vs[..i]) + [h(Encode(h, vs[i]))]
  {
    var done, last := vs[..i], vs[i];
    assert vs[..i + 1] == done + [last];
    DigestsSnoc(h, done, last);
  }

  lemma FieldsStep(h: Hash, fields: seq<Field>, i: nat)
    requires i < |fields| && FieldsEncodable(fields[..i])
    requires |fields[i].name| < LIMIT && Encodable(fields[i].value)
    ensures FieldsEncodable(fields[..i + 1])
    ensures EncodeFields(h, fields[..i + 1])
         == EncodeFields(h, fields[..i]) + (Emit(TField, fields[i].name) + Encode(h, fields[i].value))
  {
    var done, last := fields[..i], fields[i];
    assert fields[..i + 1] == done + [last];
    EncodeFieldsSnoc(h, done, last);
  }

  lemma EntriesStep(h: Hash, pairs: seq<Pair>, i: nat)
    requires i < |pairs| && PairsEncodable(pairs[..i]) && Encodable(pairs[i].key) && Encodable(pairs[i].item)
    ensures PairsEncodable(pairs[..i + 1])
    ensures Entries(h, pairs[..i + 1]) == Entries(h, pairs[..i]) + [EntryOf(h, pairs[i])]
  {
    var done, last := pairs[..i], pairs[i];
    assert pairs[..i + 1] == done + [last];
    EntriesSnoc(h, done, last);
  }

  lemma {:induction false} FlatSnoc(digests: seq<Digest>, d: Digest)
    ensures FlatDigests(digests + [d]) == FlatDigests(digests) + d
  {
    if digests != [] {
      assert (digests + [d])[1..] == digests[1..] + [d];
      FlatSnoc(digests[1..], d);
    }
  }

  lemma {:induction false} FlatEntriesSnoc(entries: seq<Entry>, e: Entry)
    ensures FlatEntries(entries + [e]) == FlatEntries(entries) + (e.key + e.item)
  {
    if entries != [] {
      assert (entries + [e])[1..] == entries[1..] + [e];
      FlatEntriesSnoc(entries[1..], e);
    }
  }

  lemma Regroup(a: Bytes, b: Bytes, c: Bytes, d: Bytes)
    ensures ((a + b) + c) + d == a + (b + (c + d))
  {
  }

  /** A hasher remembers the bytes it has been fed. */
  class Hasher {
    var fed: Bytes

    constructor ()
      ensures fed == []
    {
      fed := [];
    }

    method Update(bytes: Bytes)
      modifies this
      ensures fed == old(fed) + bytes
    {
      fed := fed + bytes;
    }

    method EmitBytes(tag: Tag, payload: Bytes)
      requires |payload| < LIMIT
      modifies this
      ensures fed == old(fed) + Emit(tag, payload)
    {
      Update(Ascii(TagText(tag)));
      Update([NUL]);
      Update(Be8(|payload|));
      Update(payload);
    }

    method EmitNumber(tag: Tag, count: nat)
      requires count < LIMIT
      modifies this
      ensures fed == old(fed) + EmitCount(tag, count)
    {
      Update(Ascii(TagText(tag)));
      Update([NUL]);
      Update(Be8(count));
    }

    method EmitConcreteType(cls: Option<Bytes>)
      requires ClassFits(cls)
      modifies this
      ensures fed == old(fed) + Subtype(cls)
    {
      if cls.Some? {
        EmitBytes(TSubtype, cls.value);
      }
    }

    /** `_feed`: `ok` is false when it raises. */
    method Feed(h: Hash, v: Value) returns (ok: bool)
      modifies this
      ensures ok == Encodable(v)
      ensures ok ==> fed == old(fed) + Encode(h, v)
      decreases v, 3
    {
      ok := Fits(v);
      if ok {
        match v {
          case NoneValue => EmitBytes(TNone, []);
          case Member(identity) => EmitBytes(TEnum, identity);
          case Bool(b) => EmitBytes(TBool, [if b then 1 else 0]);
          case Scalar(_, _, _) => FeedScalar(h, v);
          case PathValue(windows, text) => EmitBytes(if windows then TPathWin else TPathPosix, text);
          case Record(_, _) => ok := FeedRecord(h, v);
          case Sequence(_, _, _) => ok := FeedSequence(h, v);
          case Mapping(_, _) => ok := FeedMapping(h, v);
          case Collection(_, _, _) => ok := FeedCollection(h, v);
        }
      }
    }

    method FeedScalar(h: Hash, v: Value)
      requires v.Scalar? && Encodable(v)
      modifies this
      ensures fed == old(fed) + Encode(h, v)
    {
      EmitConcreteType(v.cls);
      EmitBytes(KindTag(v.kind), v.text);
      Associate(old(fed), Subtype(v.cls), Emit(KindTag(v.kind), v.text));
    }

    method FeedRecord(h: Hash, v: Value) returns (ok: bool)
      requires v.Record? && Fits(v)
      modifies this
      ensures ok == FieldsEncodable(v.fields)
      ensures ok ==> fed == old(fed) + Encode(h, v)
      decreases v, 2
    {
      EmitBytes(TDataclass, v.identity);
      EmitNumber(TFields, |v.fields|);
      ok := FeedFields(h, v.fields);
      Regroup(old(fed), Emit(TDataclass, v.identity), EmitCount(TFields, |v.fields|), EncodeFields(h, v.fields));
    }

    method FeedSequence(h: Hash, v: Value) returns (ok: bool)
      requires v.Sequence? && Fits(v)
      modifies this
      ensures ok == AllEncodable(v.items)
      ensures ok ==> fed == old(fed) + Encode(h, v)
      decreases v, 2
    {
      EmitConcreteType(v.cls);
      EmitNumber(if v.isTuple then TTuple else TList, |v.items|);
      ok := FeedAll(h, v.items);
      Regroup(old(fed), Subtype(v.cls), EmitCount(TagOf(v), |v.items|), EncodeAll(h, v.items));
    }

    method FeedMapping(h: Hash, v: Value) returns (ok: bool)
      requires v.Mapping? && Fits(v)
      modifies this
      ensures ok == PairsEncodable(v.pairs)
      ensures ok ==> fed == old(fed) + Encode(h, v)
      decreases v, 2
    {
      EmitConcreteType(v.cls);
      EmitNumber(TDict, |v.pairs|);
      ok := FeedPairs(h, v.pairs);
      Regroup(old(fed), Subtype(v.cls), EmitCount(TDict, |v.pairs|), FlatEntries(Sort(EntryLeq, Entries(h, v.pairs))));
    }

    method FeedCollection(h: Hash, v: Value) returns (ok: bool)
      requires v.Collection? && Fits(v)
      modifies this
      ensures ok == AllEncodable(v.members)
      ensures ok ==> fed == old(fed) + Encode(h, v)
      decreases v, 2
    {
      EmitConcreteType(v.cls);
      EmitNumber(if v.frozen then TFrozenset else TSet, |v.members|);
      ok := FeedMembers(h, v.members);
      Regroup(old(fed), Subtype(v.cls), EmitCount(TagOf(v), |v.members|),
              FlatDigests(Sort(DigestLeq, Digests(h, v.members))));
    }

    method FeedAll(h: Hash, vs: seq<Value>) returns (ok: bool)
      modifies this
      ensures ok == AllEncodable(vs)
      ensures ok ==> fed == old(fed) + EncodeAll(h, vs)
      decreases vs, 0
    {
      for i := 0 to |vs|
        invariant AllEncodable(vs[..i]) && fed == old(fed) + EncodeAll(h, vs[..i])
      {
        ok := Feed(h, vs[i]);
        if !ok {
          AllEncodableAt(vs, i);
          return;
        }
        EncodeAllStep(h, vs, i);
        Associate(old(fed), EncodeAll(h, vs[..i]), Encode(h, vs[i]));
      }
      assert vs[..|vs|] == vs;
      ok := true;
    }

    method FeedField(h: Hash, field: Field) returns (ok: bool)
      modifies this
      ensures ok == (|field.name| < LIMIT && Encodable(field.value))
      ensures ok ==> fed == old(fed) + (Emit(TField, field.name) + Encode(h, field.value))
      decreases field, 0
    {
      ok := |field.name| < LIMIT;
      if ok {
        EmitBytes(TField, field.name);
        ok := Feed(h, field.value);
        Associate(old(fed), Emit(TField, field.name), Encode(h, field.value));
      }
    }

    method FeedFields(h: Hash, fields: seq<Field>) returns (ok: bool)
      modifies this
      ensures ok == FieldsEncodable(fields)
      ensures ok ==> fed == old(fed) + EncodeFields(h, fields)
      decreases fields, 0
    {
      for i := 0 to |fields|
        invariant FieldsEncodable(fields[..i]) && fed == old(fed) + EncodeFields(h, fields[..i])
      {
        ghost var part := Emit(TField, fields[i].name) + Encode(h, fields[i].value);
        ok := FeedField(h, fields[i]);
        if !ok {
          FieldsEncodableAt(fields, i);
          return;
        }
        FieldsStep(h, fields, i);
        Associate(old(fed), EncodeFields(h, fields[..i]), part);
      }
      assert fields[..|fields|] == fields;
      ok := true;
    }

    /** `_digest_value`: a fresh hasher for one value. */
    static method DigestValue(h: Hash, v: Value) returns (ok: bool, digest: Digest)
      ensures ok == Encodable(v)
      ensures ok ==> digest == h(Encode(h, v))
      decreases v, 4
    {
      var hasher := new Hasher();
      ok := hasher.Feed(h, v);
      assert ok ==> hasher.fed == Encode(h, v);
      digest := h(hasher.fed);
    }

    method FeedMembers(h: Hash, vs: seq<Value>) returns (ok: bool)
      modifies this
      ensures ok == AllEncodable(vs)
      ensures ok ==> fed == old(fed) + FlatDigests(Sort(DigestLeq, Digests(h, vs)))
      decreases vs, 2
    {
      var digests;
      ok, digests := DigestMembers(h, vs);
      if ok {
        UpdateDigests(Sort(DigestLeq, digests));
      }
    }

    /** The digests of each member, in iteration order. */
    static method DigestMembers(h: Hash, vs: seq<Value>) returns (ok: bool, digests: seq<Digest>)
      ensures ok == AllEncodable(vs)
      ensures ok ==> digests == Digests(h, vs)
      decreases vs, 1
    {
      digests := [];
      for i := 0 to |vs|
        invariant AllEncodable(vs[..i]) && digests == Digests(h, vs[..i])
      {
        var digest;
        ok, digest := DigestValue(h, vs[i]);
        if !ok {
          AllEncodableAt(vs, i);
          return;
        }
        DigestsStep(h, vs, i);
        digests := digests + [digest];
      }
      assert vs[..|vs|] == vs;
      ok := true;
    }

    method UpdateDigests(ordered: seq<Digest>)
      modifies this
      ensures fed == old(fed) + FlatDigests(ordered)
    {
      for i := 0 to |ordered|
        invariant fed == old(fed) + FlatDigests(ordered[..i])
      {
        FlatSnoc(ordered[..i], ordered[i]);
        assert ordered[..i + 1] == ordered[..i] + [ordered[i]];
        Associate(old(fed), FlatDigests(ordered[..i]), ordered[i]);
        Update(ordered[i]);
      }
      assert ordered[..|ordered|] == ordered;
    }

    method FeedPairs(h: Hash, pairs: seq<Pair>) returns (ok: bool)
      modifies this
      ensures ok == PairsEncodable(pairs)
      ensures ok ==> fed == old(fed) + FlatEntries(Sort(EntryLeq, Entries(h, pairs)))
      decreases pairs, 2
    {
      var entries;
      ok, entries := DigestPairs(h, pairs);
      if ok {
        UpdateEntries(Sort(EntryLeq, entries));
      }
    }

    static method DigestPair(h: Hash, pair: Pair) returns (ok: bool, entry: Entry)
      ensures ok == (Encodable(pair.key) && Encodable(pair.item))
      ensures ok ==> entry == EntryOf(h, pair)
      decreases pair, 0
    {
      var key, item;
      ok, key := DigestValue(h, pair.key);
      item := key;
      if ok {
        ok, item := DigestValue(h, pair.item);
      }
      entry := Entry(key, item);
    }

    /** The digests of each key and item, in iteration order. */
    static method DigestPairs(h: Hash, pairs: seq<Pair>) returns (ok: bool, entries: seq<Entry>)
      ensures ok == PairsEncodable(pairs)
      ensures ok ==> entries == Entries(h, pairs)
      decreases pairs, 1
    {
      entries := [];
      for i := 0 to |pairs|
        invariant PairsEncodable(pairs[..i]) && entries == Entries(h, pairs[..i])
      {
        var entry;
        ok, entry := DigestPair(h, pairs[i]);
        if !ok {
          PairsEncodableAt(pairs, i);
          return;
        }
        EntriesStep(h, pairs, i);
        entries := entries + [entry];
      }
      assert pairs[..|pairs|] == pairs;
      ok := true;
    }

    method UpdateEntries(ordered: seq<Entry>)
      modifies this
      ensures fed == old(fed) + FlatEntries(ordered)
    {
      for i := 0 to |ordered|
        invariant fed == old(fed) + FlatEntries(ordered[..i])
      {
        FlatEntriesSnoc(ordered[..i], ordered[i]);
        assert ordered[..i + 1] == ordered[..i] + [ordered[i]];
        Regroup(old(fed), FlatEntries(ordered[..i]), ordered[i].key, ordered[i].item);
        Update(ordered[i].key);
        Update(ordered[i].item);
      }
      assert ordered[..|ordered|] == ordered;
    }

    method FeedArgument(h: Hash, argument: Argument) returns (ok: bool)
      modifies this
      ensures ok == (|argument.name| < LIMIT && Encodable(argument.value))
      ensures ok ==> fed == old(fed) + (Emit(TArg, argument.name) + Encode(h, argument.value))
    {
      ok := |argument.name| < LIMIT;
      if ok {
        EmitBytes(TArg, argument.name);
        ok := Feed(h, argument.value);
        Associate(old(fed), Emit(TArg, argument.name), Encode(h, argument.value));
      }
    }
  }

  /** The lengths and the branch of `v` itself, its members aside, can be fed. */
  predicate Fits(v: Value) {
    match v
    case NoneValue => true
    case Member(identity) => |identity| < LIMIT
    case Bool(_) => true
    case Scalar(_, cls, text) => ClassFits(cls) && |text| < LIMIT
    case PathValue(_, text) => |text| < LIMIT
    case Record(identity, fields) => |identity| < LIMIT && |fields| < LIMIT
    case Sequence(_, cls, items) => ClassFits(cls) && |items| < LIMIT
    case Mapping(cls, pairs) => ClassFits(cls) && |pairs| < LIMIT
    case Collection(_, cls, members) => ClassFits(cls) && |members| < LIMIT
    case Unsupported => false
  }

  lemma {:induction false} EncodeArgumentsSnoc(h: Hash, args: seq<Argument>, a: Argument)
    requires ArgumentsEncodable(args) && |a.name| < LIMIT && Encodable(a.value)
    ensures ArgumentsEncodable(args + [a])
    ensures EncodeArguments(h, args + [a]) == EncodeArguments(h, args) + (Emit(TArg, a.name) + Encode(h, a.value))
  {
    if args == [] {
      assert EncodeArguments(h, [a]) == Emit(TArg, a.name) + (Encode(h, a.value) + []);
    } else {
      var e, v, r := Emit(TArg, args[0].name), Encode(h, args[0].value), EncodeArguments(h, args[1..]);
      var x := Emit(TArg, a.name) + Encode(h, a.value);
      assert (args + [a])[1..] == args[1..] + [a];
      EncodeArgumentsSnoc(h, args[1..], a);
      Associate(e, v + r, x);
      Associate(v, r, x);
    }
  }

  lemma {:induction false} ArgumentsEncodableAt(args: seq<Argument>, i: nat)
    requires i < |args| && !(|args[i].name| < LIMIT && Encodable(args[i].value))
    ensures !ArgumentsEncodable(args)
  {
    if i > 0 {
      ArgumentsEncodableAt(args[1..], i - 1);
    }
  }

  lemma ArgumentsStep(h: Hash, args: seq<Argument>, i: nat)
    requires i < |args| && ArgumentsEncodable(args[..i]) && |args[i].name| < LIMIT && Encodable(args[i].value)
    ensures ArgumentsEncodable(args[..i + 1])
    ensures EncodeArguments(h, args[..i + 1])
         == EncodeArguments(h, args[..i]) + (Emit(TArg, args[i].name) + Encode(h, args[i].value))
  {
    var done, last := args[..i], args[i];
    assert args[..i + 1] == done + [last];
    EncodeArgumentsSnoc(h, done, last);
  }

  /** Feed the arguments already filtered by `ignore`. */
  method FeedKept(h: Hash, hasher: Hasher, kept: seq<Argument>) returns (ok: bool)
    requires hasher.fed == []
    modifies hasher
    ensures ok == ArgumentsEncodable(kept)
    ensures ok ==> hasher.fed == EncodeArguments(h, kept)
  {
    for i := 0 to |kept|
      invariant ArgumentsEncodable(kept[..i]) && hasher.fed == EncodeArguments(h, kept[..i])
    {
      ok := hasher.FeedArgument(h, kept[i]);
      if !ok {
        ArgumentsEncodableAt(kept, i);
        return;
      }
      ArgumentsStep(h, kept, i);
    }
    assert kept[..|kept|] == kept;
    ok := true;
  }

  /** `digest_arguments`: the digest of the kept arguments, or an error when one of
    them cannot be hashed.  Ignored arguments are never fed. */
  method DigestArguments(h: Hash, args: seq<Argument>, ignore: set<Bytes>) returns (ok: bool, digest: Digest)
    ensures ok == ArgumentsEncodable(Kept(args, ignore))
    ensures ok ==> digest == ArgumentsDigest(h, args, ignore)
  {
    var hasher := new Hasher();
    ok := FeedKept(h, hasher, Kept(args, ignore));
    digest := h(hasher.fed);
  }

  /** `digest_custom_key`. */
  method DigestCustomKey(h: Hash, key: Value) returns (ok: bool, digest: Digest)
    ensures ok == Encodable(key)
    ensures ok ==> digest == h(EncodeCustomKey(h, key))
  {
    var hasher := new Hasher();
    hasher.EmitBytes(TCustomKey, []);
    assert hasher.fed == Emit(TCustomKey, []);
    ok := hasher.Feed(h, key);
    digest := h(hasher.fed);
  }
}
