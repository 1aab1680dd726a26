/** The entry file format and the disk backend (src/cachau/disk.py).

  A file is a magic line, a line of JSON metadata and the payload.  Serialization is a
  pair of functions that may fail; an instant is the number its JSON text stands for. */
module Disk {
  import opened Bytes
  import opened JsonText
  import opened Wrappers
  import Json

  const NEWLINE: Byte := 10
  const HEADER_CHUNK: nat := 8 * 1024
  const HEADER_LIMIT: nat := 1024 * 1024
  const FLOAT_DIGITS: nat := 53

  type Number = v: Json.Value | v.Integer? || v.Float? witness Json.Integer(0)

  /** What an entry records beside its value; instants are decimal texts, and the
    dependency fingerprints are listed in the order of the dictionary. */
  datatype Entry = Entry(
    namespace: Text, created: Bytes, expires: Option<Bytes>, size: Option<int>, deps: Option<seq<Dependency>>)

  datatype Dependency = Dependency(name: Text, fingerprint: Text)

  /** What a strict read finds. */
  datatype Facts = Facts(
    namespace: Text, created: Number, expires: Option<Number>, size: Option<int>, deps: Option<map<Text, Text>>)

  /** A row of a metadata scan: what could not be read is missing. */
  datatype Row = Row(
    key: Text, namespace: Text, size: Option<int>, created: Option<Number>, expires: Option<Number>,
    deps: Option<map<Text, Text>>)

  function Chars(s: string): (t: Text)
    ensures |t| == |s|
  {
    seq(|s|, i requires 0 <= i < |s| => s[i] as int % 0x11_0000)
  }

  // --------------------------------------------------------------------- the header

  function Magic(): Bytes {
    Ascii("cachau-entry/1")
  }

  /** Where the first newline is; the length when there is none. */
  function NewlineAt(s: Bytes): (n: nat)
    ensures n <= |s|
    ensures n < |s| ==> s[n] == NEWLINE
    ensures forall i :: 0 <= i < n ==> s[i] != NEWLINE
  {
    if s == [] || s[0] == NEWLINE then 0 else 1 + NewlineAt(s[1..])
  }

  /** Where the second newline is; the length when there is none. */
  function SecondNewline(s: Bytes): (n: nat)
    ensures n <= |s|
  {
    var first := NewlineAt(s);
    if first == |s| then |s| else first + 1 + NewlineAt(s[first + 1..])
  }

  datatype Header = Header(metadata: Json.Value, offset: nat)

  /** The header by any reader of its second line. */
  function HeaderBy(loads: Bytes -> Option<Json.Value>, prefix: Bytes): (r: Option<Header>)
    ensures r.Some? ==> r.value.offset <= |prefix|
  {
    var first, second := NewlineAt(prefix), SecondNewline(prefix);
    if first == |prefix| || prefix[..first] != Magic() || second == |prefix| then None
    else
      var metadata := loads(prefix[first + 1..second]);
      if metadata.None? then None else Some(Header(metadata.value, second + 1))
  }

  function Loader(python: Json.Interpreter): Bytes -> Option<Json.Value> {
    (line: Bytes) => Json.Loads(python, line)
  }

  /** `_parse_header`: the metadata and where the payload begins. */
  function ParseHeader(python: Json.Interpreter, prefix: Bytes): (r: Option<Header>)
    ensures r.Some? ==> r.value.offset <= |prefix|
  {
    HeaderBy(Loader(python), prefix)
  }

  lemma {:induction false} NewlineInPrefix(s: Bytes, n: nat)
    requires n <= |s|
    ensures NewlineAt(s[..n]) == if NewlineAt(s) < n then NewlineAt(s) else n
  {
    if n > 0 && s[0] != NEWLINE {
      NewlineInPrefix(s[1..], n - 1);
      assert s[..n][1..] == s[1..][..n - 1];
    }
  }

  lemma SecondInPrefix(content: Bytes, n: nat)
    requires n <= |content|
    ensures SecondNewline(content[..n]) == if SecondNewline(content) < n then SecondNewline(content) else n
  {
    var first := NewlineAt(content);
    NewlineInPrefix(content, n);
    if first < n {
      NewlineInPrefix(content[first + 1..], n - first - 1);
      assert content[..n][first + 1..] == content[first + 1..][..n - first - 1];
    }
  }

  lemma PrefixHeader(loads: Bytes -> Option<Json.Value>, content: Bytes, n: nat)
    requires n <= |content|
    ensures HeaderBy(loads, content[..n]) == if SecondNewline(content) < n then HeaderBy(loads, content) else None
  {
    NewlineInPrefix(content, n);
    SecondInPrefix(content, n);
    SecondAfterFirst(content);
    SecondAfterFirst(content[..n]);
    if SecondNewline(content) < n {
      PrefixSlices(content, n, NewlineAt(content), SecondNewline(content));
    }
  }

  /** A prefix of a file parses as the whole file does once it has the second newline,
    and not before. */
  lemma PrefixParses(python: Json.Interpreter, content: Bytes, n: nat)
    requires n <= |content|
    ensures ParseHeader(python, content[..n])
         == if SecondNewline(content) < n then ParseHeader(python, content) else None
  {
    PrefixHeader(Loader(python), content, n);
  }

  lemma PrefixSlices(content: Bytes, n: nat, first: nat, second: nat)
    requires first < second < n <= |content|
    ensures content[..n][..first] == content[..first]
    ensures content[..n][first + 1..second] == content[first + 1..second]
  {
  }

  lemma SecondAfterFirst(content: Bytes)
    ensures var first, second := NewlineAt(content), SecondNewline(content);
      first <= second && (first < |content| ==> first < second)
  {
  }

  lemma {:induction false} Scales(a: nat, b: nat, c: nat)
    requires a <= b
    ensures a * c <= b * c
  {
    if c > 0 {
      Scales(a, b, c - 1);
    }
  }

  lemma NextRound(i: nat, rounds: nat, chunk: nat)
    requires i * chunk < rounds * chunk
    ensures (i + 1) * chunk == i * chunk + chunk && (i + 1) * chunk <= rounds * chunk
  {
    if rounds <= i {
      Scales(rounds, i, chunk);
    } else {
      Scales(i + 1, rounds, chunk);
    }
  }

  function Least(a: nat, b: nat): nat {
    if a < b then a else b
  }

  /** `_read_metadata`: read a chunk at a time until the second newline, the limit or
    the end.  It finds what parsing the whole file finds whenever the second newline
    lies within the limit, whatever the chunk size; and when the chunks fill the limit
    exactly, as the program's do, only then. */
  method ReadMetadata(python: Json.Interpreter, content: Bytes, chunk: nat, limit: nat, ghost rounds: nat)
    returns (r: Option<Json.Value>)
    requires chunk > 0
    ensures SecondNewline(content) < limit ==> r == MetadataOf(python, content)
    ensures SecondNewline(content) >= limit + chunk ==> r == None
    ensures limit == rounds * chunk && SecondNewline(content) >= limit ==> r == None
  {
    var prefix: Bytes := [];
    ghost var i := 0;
    while SecondNewline(prefix) == |prefix| && |prefix| < limit
      invariant prefix <= content && |prefix| < limit + chunk
      invariant limit == rounds * chunk ==> |prefix| <= limit && (|prefix| == i * chunk || prefix == content)
      decreases |content| - |prefix|
    {
      var more := content[|prefix|..Least(|prefix| + chunk, |content|)];
      if more == [] {
        break;
      }
      if limit == rounds * chunk {
        NextRound(i, rounds, chunk);
      }
      assert content[..|prefix| + |more|] == content[..|prefix|] + more;
      prefix := prefix + more;
      i := i + 1;
    }
    PrefixParses(python, content, |prefix|);
    SecondInPrefix(content, |prefix|);
    assert content[..|prefix|] == prefix;
    var header := ParseHeader(python, prefix);
    r := if header.Some? then Some(header.value.metadata) else None;
  }

  /** With the program's own chunk and limit: the whole file's metadata exactly when
    the second newline lies within the first mebibyte. */
  method ReadFileMetadata(python: Json.Interpreter, content: Bytes) returns (r: Option<Json.Value>)
    ensures r == if SecondNewline(content) < HEADER_LIMIT then MetadataOf(python, content) else None
  {
    r := ReadMetadata(python, content, HEADER_CHUNK, HEADER_LIMIT, 128);
  }

  function MetadataOf(python: Json.Interpreter, content: Bytes): Option<Json.Value> {
    if ParseHeader(python, content).Some? then Some(ParseHeader(python, content).value.metadata) else None
  }

  // ------------------------------------------------------------------- the validators

  /** A field of a JSON object read as a dictionary: the last of its name. */
  function Lookup(fields: seq<Json.Field>, name: Text): Option<Json.Value> {
    if fields == [] then None
    else if fields[|fields| - 1].name == name then Some(fields[|fields| - 1].value)
    else Lookup(fields[..|fields| - 1], name)
  }

  /** Every value of the dictionary is a string; a repeated name's earlier values are
    not in it. */
  predicate AllStrings(fields: seq<Json.Field>) {
    forall i :: 0 <= i < |fields| ==>
      var v := Lookup(fields, fields[i].name); v.Some? && v.value.String?
  }

  /** The fields as a dictionary of strings. */
  function AsMap(fields: seq<Json.Field>): map<Text, Text> {
    if fields == [] then map[]
    else
      var last := fields[|fields| - 1];
      AsMap(fields[..|fields| - 1])[last.name := if last.value.String? then last.value.chars else []]
  }

  /** A repeated name has its last value, as in a dictionary built field by field. */
  lemma LastValueCounts(fields: seq<Json.Field>, field: Json.Field, other: Text)
    ensures Lookup(fields + [field], field.name) == Some(field.value)
    ensures other != field.name ==> Lookup(fields + [field], other) == Lookup(fields, other)
    ensures Lookup([], other) == None
  {
    assert (fields + [field])[..|fields|] == fields;
  }

  lemma {:induction false} AsMapLooksUp(fields: seq<Json.Field>, name: Text)
    ensures name in AsMap(fields) <==> Lookup(fields, name).Some?
    ensures Lookup(fields, name).Some? && Lookup(fields, name).value.String? ==>
      AsMap(fields)[name] == Lookup(fields, name).value.chars
    decreases |fields|
  {
    if fields != [] {
      AsMapLooksUp(fields[..|fields| - 1], name);
    }
  }

  function CheckedString(v: Option<Json.Value>): Option<Text> {
    if v.Some? && v.value.String? then Some(v.value.chars) else None
  }

  function Pow2(k: nat): nat {
    if k == 0 then 1 else 2 * Pow2(k - 1)
  }

  /** The integer rounds beyond the largest float. */
  predicate Overflows(n: int) {
    var size := if n < 0 then -n else n;
    size + Pow2(970) >= Pow2(1024)
  }

  /** An integer no float is near. */
  predicate TooLarge(v: Option<Json.Value>) {
    v.Some? && v.value.Integer? && Overflows(v.value.n)
  }

  /** A number a float can be, and not a boolean; `Some(None)` is a permitted null. */
  function CheckedInstant(v: Option<Json.Value>, optional: bool): Option<Option<Number>> {
    if v.None? || TooLarge(v) then None
    else if v.value.Null? && optional then Some(None)
    else if v.value.Integer? || v.value.Float? then Some(Some(v.value))
    else None
  }

  function CheckedSize(v: Option<Json.Value>): Option<Option<int>> {
    if v.None? then None
    else if v.value.Null? then Some(None)
    else if v.value.Integer? then Some(Some(v.value.n))
    else None
  }

  function CheckedDependencies(v: Option<Json.Value>): Option<Option<map<Text, Text>>> {
    if v.None? || v.value.Null? then Some(None)
    else if v.value.Object? && AllStrings(v.value.fields) then Some(Some(AsMap(v.value.fields)))
    else None
  }

  datatype Found = Found(key: Text, facts: Facts)

  /** `_entry_from_metadata`: every field is well formed, or nothing is found. */
  function Strict(metadata: Json.Value): Option<Found> {
    if !metadata.Object? then None
    else
      var get := (name: string) => Lookup(metadata.fields, Chars(name));
      var key, namespace := CheckedString(get("key")), CheckedString(get("namespace"));
      var created, expires := CheckedInstant(get("created_at"), false), CheckedInstant(get("expires_at"), true);
      var size, deps := CheckedSize(get("size")), CheckedDependencies(get("dependency_fingerprints"));
      if || key.None? || namespace.None? || created.None? || created.value.None? || expires.None?
         || size.None? || deps.None?
      then None
      else Some(Found(key.value, Facts(namespace.value, created.value.value, expires.value, size.value, deps.value)))
  }

  predicate IsNumber(v: Json.Value) {
    v.Float? || (v.Integer? && !TooLarge(Some(v)))
  }

  /** A strict read wants an object with a string key and namespace, an instant of
    creation that is a number a float can be, an expiry that is such a number or null, a
    size that is an integer or null, and dependencies that are strings by name, null or
    missing: no booleans, no missing fields, no other kinds. */
  lemma StrictWants(fields: seq<Json.Field>)
    ensures var key, namespace := Lookup(fields, Chars("key")), Lookup(fields, Chars("namespace"));
      var created, expires := Lookup(fields, Chars("created_at")), Lookup(fields, Chars("expires_at"));
      var size, deps := Lookup(fields, Chars("size")), Lookup(fields, Chars("dependency_fingerprints"));
      Strict(Json.Object(fields)).Some? <==>
        && key.Some? && key.value.String? && namespace.Some? && namespace.value.String?
        && created.Some? && IsNumber(created.value)
        && expires.Some? && (expires.value.Null? || IsNumber(expires.value))
        && size.Some? && (size.value.Null? || size.value.Integer?)
        && (deps.None? || deps.value.Null? || (deps.value.Object? && AllStrings(deps.value.fields)))
    ensures forall v :: Strict(v).Some? ==> v.Object?
  {
  }

  function OptionalInstant(v: Option<Json.Value>): Option<Number> {
    if v.Some? && (v.value.Integer? || v.value.Float?) then Some(v.value) else None
  }

  function OptionalSize(v: Option<Json.Value>): Option<int> {
    if v.Some? && v.value.Integer? then Some(v.value.n) else None
  }

  function LenientDependencies(v: Option<Json.Value>): Option<map<Text, Text>> {
    if v.Some? && v.value.Object? && AllStrings(v.value.fields) then Some(AsMap(v.value.fields)) else None
  }

  datatype ScanError = NotAnObject | FloatOverflow

  /** One row of `iter_metadata`.  A null is taken for metadata that could not be read;
    any other value is asked for its fields, which only an object has; and what is
    taken for an instant is made a float. */
  function Lenient(metadata: Json.Value): Result<Option<Row>, ScanError> {
    if metadata.Null? then Ok(None)
    else if !metadata.Object? then Err(NotAnObject)
    else
      var get := (name: string) => Lookup(metadata.fields, Chars(name));
      var key, namespace := CheckedString(get("key")), CheckedString(get("namespace"));
      if key.None? || namespace.None? then Ok(None)
      else if TooLarge(get("created_at")) || TooLarge(get("expires_at")) then Err(FloatOverflow)
      else
        Ok(Some(Row(key.value, namespace.value, OptionalSize(get("size")), OptionalInstant(get("created_at")),
                    OptionalInstant(get("expires_at")), LenientDependencies(get("dependency_fingerprints")))))
  }

  /** The row a strict read's facts amount to. */
  function RowOf(found: Found): Row {
    var facts := found.facts;
    Row(found.key, facts.namespace, facts.size, Some(facts.created), facts.expires, facts.deps)
  }

  lemma InstantsAgree(v: Option<Json.Value>, optional: bool)
    requires CheckedInstant(v, optional).Some?
    ensures OptionalInstant(v) == CheckedInstant(v, optional).value && !TooLarge(v)
  {
  }

  lemma OthersAgree(size: Option<Json.Value>, deps: Option<Json.Value>)
    ensures CheckedSize(size).Some? ==> OptionalSize(size) == CheckedSize(size).value
    ensures CheckedDependencies(deps).Some? ==> LenientDependencies(deps) == CheckedDependencies(deps).value
  {
  }

  /** Whatever the strict read accepts, the metadata scan reports the same facts of. */
  lemma ValidatorsAgree(metadata: Json.Value)
    requires Strict(metadata).Some?
    ensures Lenient(metadata) == Ok(Some(RowOf(Strict(metadata).value)))
  {
    var fields := metadata.fields;
    InstantsAgree(Lookup(fields, Chars("created_at")), false);
    InstantsAgree(Lookup(fields, Chars("expires_at")), true);
    OthersAgree(Lookup(fields, Chars("size")), Lookup(fields, Chars("dependency_fingerprints")));
  }

  function Numeric(v: Option<Json.Value>): Option<Json.Value> {
    if v.Some? && (v.value.Integer? || v.value.Float?) then v else None
  }

  /** Each fact of a row, and of a strict read, is what is found under its name. */
  lemma FactsUnderTheirNames(fields: seq<Json.Field>)
    ensures Lenient(Json.Object(fields)).Ok? && Lenient(Json.Object(fields)).result.Some? ==>
      var row := Lenient(Json.Object(fields)).result.value;
      && Lookup(fields, Chars("key")) == Some(Json.String(row.key))
      && Lookup(fields, Chars("namespace")) == Some(Json.String(row.namespace))
      && row.created == Numeric(Lookup(fields, Chars("created_at")))
      && row.expires == Numeric(Lookup(fields, Chars("expires_at")))
      && (forall n :: row.size == Some(n) <==> Lookup(fields, Chars("size")) == Some(Json.Integer(n)))
    ensures Strict(Json.Object(fields)).Some? ==>
      var found := Strict(Json.Object(fields)).value;
      && Lookup(fields, Chars("key")) == Some(Json.String(found.key))
      && Lookup(fields, Chars("namespace")) == Some(Json.String(found.facts.namespace))
      && Lookup(fields, Chars("created_at")) == Some(found.facts.created)
      && found.facts.expires == Numeric(Lookup(fields, Chars("expires_at")))
      && (forall n :: found.facts.size == Some(n) <==> Lookup(fields, Chars("size")) == Some(Json.Integer(n)))
  {
  }

  /** What a metadata scan makes of a file. */
  function ScannedRow(python: Json.Interpreter, content: Bytes): Result<Option<Row>, ScanError> {
    if SecondNewline(content) < HEADER_LIMIT && MetadataOf(python, content).Some?
    then Lenient(MetadataOf(python, content).value)
    else Ok(None)
  }

  /** An object with a key and a namespace: what a scan reports. */
  predicate Keyed(metadata: Json.Value) {
    && metadata.Object?
    && CheckedString(Lookup(metadata.fields, Chars("key"))).Some?
    && CheckedString(Lookup(metadata.fields, Chars("namespace"))).Some?
  }

  /** One of its two instants is an integer no float is near. */
  predicate HasHugeInstant(metadata: Json.Value) {
    && metadata.Object?
    && (|| TooLarge(Lookup(metadata.fields, Chars("created_at")))
        || TooLarge(Lookup(metadata.fields, Chars("expires_at"))))
  }

  /** The metadata scan of one file.  When the header fits the scan, its row carries
    what a strict read of the whole file found; when the header is longer, it finds
    nothing.  It raises, and the whole scan with it, exactly when the metadata within
    the limit is neither null nor an object, or is a row with a huge instant: a strict
    read reports a miss for both. */
  method ScanRow(python: Json.Interpreter, content: Bytes) returns (r: Result<Option<Row>, ScanError>)
    ensures r == ScannedRow(python, content)
    ensures MetadataOf(python, content).Some? && Strict(MetadataOf(python, content).value).Some? ==>
      r == Ok(if SecondNewline(content) < HEADER_LIMIT
              then Some(RowOf(Strict(MetadataOf(python, content).value).value)) else None)
    ensures r.Err? <==>
      && SecondNewline(content) < HEADER_LIMIT && MetadataOf(python, content).Some?
      && var metadata := MetadataOf(python, content).value;
         (!metadata.Null? && !metadata.Object?) || (Keyed(metadata) && HasHugeInstant(metadata))
    ensures r.Err? ==> Strict(MetadataOf(python, content).value).None?
  {
    var metadata := ReadFileMetadata(python, content);
    if metadata.None? {
      return Ok(None);
    }
    if Strict(metadata.value).Some? {
      ValidatorsAgree(metadata.value);
    }
    r := Lenient(metadata.value);
  }

  // ------------------------------------------------------------------- printing a file

  function DependencyFields(deps: seq<Dependency>): (r: seq<Json.Field>)
    ensures |r| == |deps|
  {
    seq(|deps|, i requires 0 <= i < |deps| => Json.Field(deps[i].name, Json.String(deps[i].fingerprint)))
  }

  /** The names of the metadata fields in their order, then the serializer's. */
  function Names(): (r: seq<Text>)
    ensures |r| == 8
  {
    [Chars("key"), Chars("namespace"), Chars("created_at"), Chars("expires_at"), Chars("size"),
     Chars("dependency_fingerprints"), Chars("serializer"), Chars("pickle")]
  }

  /** The value of the metadata field at a place. */
  function FieldValue(key: Text, e: Entry, i: nat): Json.Value {
    if i == 0 then Json.String(key)
    else if i == 1 then Json.String(e.namespace)
    else if i == 2 then Json.Float(e.created)
    else if i == 3 then if e.expires.Some? then Json.Float(e.expires.value) else Json.Null
    else if i == 4 then if e.size.Some? then Json.Integer(e.size.value) else Json.Null
    else if i == 5 then if e.deps.Some? then Json.Object(DependencyFields(e.deps.value)) else Json.Null
    else Json.String(Names()[7])
  }

  /** The metadata dictionary of `set`, in its order. */
  function MetadataFields(key: Text, e: Entry): (r: seq<Json.Field>)
    ensures |r| == 7
  {
    seq(7, i requires 0 <= i < 7 => Json.Field(Names()[i], FieldValue(key, e, i)))
  }

  function Metadata(key: Text, e: Entry): Json.Value {
    Json.Object(MetadataFields(key, e))
  }

  /** A file of the format with this line of metadata. */
  function LineFile(line: Bytes, payload: Bytes): Bytes {
    Magic() + ([NEWLINE] + (line + ([NEWLINE] + payload)))
  }

  /** What `set` writes. */
  function FileOf(key: Text, e: Entry, payload: Bytes): Bytes {
    LineFile(Json.Print(Metadata(key, e)), payload)
  }

  /** Instants are texts of floats. */
  predicate Writable(e: Entry) {
    Json.FloatText(e.created) && (e.expires.Some? ==> Json.FloatText(e.expires.value))
  }

  /** `json.dumps` accepts the metadata. */
  predicate Written(python: Json.Interpreter, key: Text, e: Entry) {
    Writable(e) && Json.Allowed(python, Metadata(key, e))
  }

  predicate NoNewline(s: Bytes) {
    forall i :: 0 <= i < |s| ==> s[i] != NEWLINE
  }

  lemma {:induction false} NewlineAfter(s: Bytes, r: Bytes)
    requires NoNewline(s)
    ensures NewlineAt(s + ([NEWLINE] + r)) == |s|
  {
    if s == [] {
      assert s + ([NEWLINE] + r) == [NEWLINE] + r;
    } else {
      assert (s + ([NEWLINE] + r))[1..] == s[1..] + ([NEWLINE] + r);
      NewlineAfter(s[1..], r);
    }
  }

  lemma MagicIsOneLine()
    ensures NoNewline(Magic())
  {
  }

  lemma LinesAt(line: Bytes, payload: Bytes)
    requires NoNewline(line)
    ensures var inner := line + ([NEWLINE] + payload); var content := Magic() + ([NEWLINE] + inner);
      && NewlineAt(content) == |Magic()| && content[..|Magic()|] == Magic() && content[|Magic()| + 1..] == inner
      && SecondNewline(content) == |Magic()| + 1 + |line| < |content|
  {
    var inner := line + ([NEWLINE] + payload);
    var content := Magic() + ([NEWLINE] + inner);
    MagicIsOneLine();
    NewlineAfter(Magic(), inner);
    NewlineAfter(line, payload);
    assert content[|Magic()| + 1..] == inner;
  }

  /** A file of two lines and a payload parses into its second line and its payload,
    whatever newlines the payload holds. */
  lemma TwoLines(python: Json.Interpreter, line: Bytes, payload: Bytes)
    requires NoNewline(line)
    ensures var content := LineFile(line, payload);
      && SecondNewline(content) == |Magic()| + 1 + |line| < |content|
      && ParseHeader(python, content)
           == (if Json.Loads(python, line).None? then None
               else Some(Header(Json.Loads(python, line).value, |Magic()| + 2 + |line|)))
      && content[|Magic()| + 2 + |line|..] == payload
  {
    var inner, m := line + ([NEWLINE] + payload), |Magic()|;
    var content := Magic() + ([NEWLINE] + inner);
    LinesAt(line, payload);
    assert inner[..|line|] == line && inner[|line| + 1..] == payload;
    assert content[m + 1..m + 1 + |line|] == content[m + 1..][..|line|];
    assert content[m + 2 + |line|..] == content[m + 1..][|line| + 1..];
  }

  lemma CutAt(s: Bytes, n: nat)
    requires n < |s|
    ensures s == s[..n] + ([s[n]] + s[n + 1..])
  {
    assert s[n..] == [s[n]] + s[n + 1..];
    assert s == s[..n] + s[n..];
  }

  lemma SplitAt(s: Bytes, n: nat)
    requires n == NewlineAt(s) < |s|
    ensures NoNewline(s[..n]) && s == s[..n] + ([NEWLINE] + s[n + 1..])
  {
    CutAt(s, n);
  }

  /** A header that parses is that of a file of two lines: the format's name with its
    version, spelled out, and a line that loads. */
  lemma HeadersAreOfTheFormat(python: Json.Interpreter, content: Bytes)
    requires ParseHeader(python, content).Some?
    ensures var header := ParseHeader(python, content).value;
      exists line: Bytes, payload: Bytes {:trigger LineFile(line, payload)} ::
        && content == Ascii("cachau-entry/1") + ([NEWLINE] + (line + ([NEWLINE] + payload))) && NoNewline(line)
        && content == LineFile(line, payload)
        && Json.Loads(python, line) == Some(header.metadata) && content[header.offset..] == payload
  {
    var first, second := NewlineAt(content), SecondNewline(content);
    var inner := content[first + 1..];
    SplitAt(content, first);
    SplitAt(inner, NewlineAt(inner));
    var line, payload := inner[..NewlineAt(inner)], inner[NewlineAt(inner) + 1..];
    assert content[first + 1..second] == line;
    assert content[second + 1..] == payload;
    assert content == LineFile(line, payload);
  }

  /** A file whose first line is anything but the format's name and version does not
    parse, whatever follows; nor does one of a single line. */
  lemma OtherFormatsAreRefused(python: Json.Interpreter, first: Bytes, rest: Bytes)
    requires NoNewline(first)
    ensures ParseHeader(python, first) == None
    ensures first != Ascii("cachau-entry/1") ==> ParseHeader(python, first + ([NEWLINE] + rest)) == None
  {
    var content := first + ([NEWLINE] + rest);
    NewlineAfter(first, rest);
    assert content[..|first|] == first;
  }

  // -------------------------------------------------------------------- reading it back

  function MergedDependencies(deps: seq<Dependency>): (r: seq<Dependency>)
    ensures |r| == |deps|
  {
    seq(|deps|, i requires 0 <= i < |deps| => Dependency(Merged(deps[i].name), Merged(deps[i].fingerprint)))
  }

  /** The entry with surrogate pairs merged in every string. */
  function MergedEntry(e: Entry): Entry {
    e.(namespace := Merged(e.namespace), deps := if e.deps.Some? then Some(MergedDependencies(e.deps.value)) else None)
  }

  function DependencyMap(deps: seq<Dependency>): map<Text, Text> {
    AsMap(DependencyFields(deps))
  }

  /** The facts of an entry. */
  function FactsOf(e: Entry): Facts {
    Facts(e.namespace, Json.Float(e.created),
          if e.expires.Some? then Some(Json.Float(e.expires.value)) else None, e.size,
          if e.deps.Some? then Some(DependencyMap(e.deps.value)) else None)
  }

  lemma {:induction false} SettledAt(fields: seq<Json.Field>, i: nat)
    requires i < |fields|
    ensures Json.SettledFields(fields)[i] == Json.Field(Merged(fields[i].name), Json.Settled(fields[i].value))
  {
    if i > 0 {
      SettledAt(fields[1..], i - 1);
    }
  }

  lemma {:induction false} PlainUnmerged(t: Text)
    requires forall i :: 0 <= i < |t| ==> t[i] < 128
    ensures Merged(t) == t
  {
    if t != [] {
      PlainUnmerged(t[1..]);
      assert t == [t[0]] + t[1..];
    }
  }

  lemma PlainName(s: string)
    requires forall i :: 0 <= i < |s| ==> s[i] < 128 as char
    ensures Merged(Chars(s)) == Chars(s)
  {
    PlainUnmerged(Chars(s));
  }

  lemma NamesAreUnmerged(i: nat)
    requires i < 8
    ensures Merged(Names()[i]) == Names()[i]
  {
    if i == 0 {
      PlainName("key");
    } else if i == 1 {
      PlainName("namespace");
    } else if i == 2 {
      PlainName("created_at");
    } else if i == 3 {
      PlainName("expires_at");
    } else if i == 4 {
      PlainName("size");
    } else if i == 5 {
      PlainName("dependency_fingerprints");
    } else if i == 6 {
      PlainName("serializer");
    } else {
      PlainName("pickle");
    }
  }

  lemma NamesDiffer()
    ensures Chars("created_at") != Chars("expires_at") && Chars("created_at") != Chars("serializer")
    ensures Chars("expires_at") != Chars("serializer")
  {
    assert Chars("created_at")[0] == 99 && Chars("expires_at")[0] == 101 && Chars("serializer")[0] == 115;
  }

  lemma SettledDependencies(deps: seq<Dependency>)
    ensures Json.SettledFields(DependencyFields(deps)) == DependencyFields(MergedDependencies(deps))
  {
    forall i | 0 <= i < |deps|
      ensures Json.SettledFields(DependencyFields(deps))[i] == DependencyFields(MergedDependencies(deps))[i]
    {
      SettledAt(DependencyFields(deps), i);
    }
  }

  lemma SettledEach(fields: seq<Json.Field>, merged: seq<Json.Field>)
    requires |fields| == |merged|
    requires forall i :: 0 <= i < |fields| ==> Settles(fields[i], merged[i])
    ensures Json.SettledFields(fields) == merged
  {
    forall i | 0 <= i < |fields| ensures Json.SettledFields(fields)[i] == merged[i] {
      SettledAt(fields, i);
    }
  }

  predicate Settles(field: Json.Field, merged: Json.Field) {
    merged == Json.Field(Merged(field.name), Json.Settled(field.value))
  }

  lemma ValueSettles(key: Text, e: Entry, i: nat)
    requires i < 7
    ensures Json.Settled(FieldValue(key, e, i)) == FieldValue(Merged(key), MergedEntry(e), i)
  {
    if i == 5 {
      if e.deps.Some? {
        SettledDependencies(e.deps.value);
      }
    } else if i == 6 {
      NamesAreUnmerged(7);
    }
  }

  lemma SettledMetadata(key: Text, e: Entry)
    ensures Json.Settled(Metadata(key, e)) == Metadata(Merged(key), MergedEntry(e))
  {
    var a, b := MetadataFields(key, e), MetadataFields(Merged(key), MergedEntry(e));
    forall i | 0 <= i < 7 ensures Settles(a[i], b[i]) {
      NamesAreUnmerged(i);
      ValueSettles(key, e, i);
    }
    SettledEach(a, b);
  }

  lemma {:induction false} LookupAt(fields: seq<Json.Field>, i: nat)
    requires i < |fields| && forall j :: i < j < |fields| ==> fields[j].name != fields[i].name
    ensures Lookup(fields, fields[i].name) == Some(fields[i].value)
    decreases |fields|
  {
    if i < |fields| - 1 {
      assert fields[|fields| - 1].name != fields[i].name;
      LookupAt(fields[..|fields| - 1], i);
    }
  }

  lemma {:induction false} StringIsFound(fields: seq<Json.Field>, i: nat)
    requires i < |fields| && forall j :: 0 <= j < |fields| ==> fields[j].value.String?
    ensures Lookup(fields, fields[i].name).Some? && Lookup(fields, fields[i].name).value.String?
    decreases |fields|
  {
    if fields[|fields| - 1].name != fields[i].name {
      StringIsFound(fields[..|fields| - 1], i);
    }
  }

  lemma DependenciesAreStrings(deps: seq<Dependency>)
    ensures AllStrings(DependencyFields(deps))
  {
    forall i | 0 <= i < |deps| {
      StringIsFound(DependencyFields(deps), i);
    }
  }

  lemma FieldFound(key: Text, e: Entry, i: nat)
    requires i < 6
    ensures Lookup(MetadataFields(key, e), Names()[i]) == Some(FieldValue(key, e, i))
  {
    NamesDiffer();
    LookupAt(MetadataFields(key, e), i);
  }

  /** What `set` writes under each name. */
  lemma WrittenUnderTheirNames(key: Text, e: Entry)
    ensures var fields := MetadataFields(key, e);
      && Lookup(fields, Chars("key")) == Some(Json.String(key))
      && Lookup(fields, Chars("namespace")) == Some(Json.String(e.namespace))
      && Lookup(fields, Chars("created_at")) == Some(Json.Float(e.created))
      && Lookup(fields, Chars("expires_at"))
           == Some(if e.expires.Some? then Json.Float(e.expires.value) else Json.Null)
      && Lookup(fields, Chars("size")) == Some(if e.size.Some? then Json.Integer(e.size.value) else Json.Null)
  {
    FieldFound(key, e, 0);
    FieldFound(key, e, 1);
    FieldFound(key, e, 2);
    FieldFound(key, e, 3);
    FieldFound(key, e, 4);
  }

  /** The strict read of printed metadata finds the key and the entry's facts. */
  lemma StrictReads(key: Text, e: Entry)
    ensures Strict(Metadata(key, e)) == Some(Found(key, FactsOf(e)))
  {
    FieldFound(key, e, 0);
    FieldFound(key, e, 1);
    FieldFound(key, e, 2);
    FieldFound(key, e, 3);
    FieldFound(key, e, 4);
    FieldFound(key, e, 5);
    if e.deps.Some? {
      DependenciesAreStrings(e.deps.value);
    }
  }

  datatype Contents = Contents(found: Found, payload: Bytes)

  /** `_split_file` and `_entry_from_metadata`: the key, the facts and the payload. */
  function ReadFile(python: Json.Interpreter, content: Bytes): Option<Contents> {
    var header := ParseHeader(python, content);
    if header.None? || Strict(header.value.metadata).None? then None
    else Some(Contents(Strict(header.value.metadata).value, content[header.value.offset..]))
  }

  /** Files of other formats and versions are a miss for a read, and no row of a scan. */
  lemma OtherFormatsAreMisses(python: Json.Interpreter, first: Bytes, rest: Bytes)
    requires NoNewline(first) && first != Ascii("cachau-entry/1")
    ensures ReadFile(python, first + ([NEWLINE] + rest)) == None
    ensures ScannedRow(python, first + ([NEWLINE] + rest)) == Ok(None)
  {
    OtherFormatsAreRefused(python, first, rest);
  }

  lemma {:induction false} FieldsPrintable(fields: seq<Json.Field>)
    requires forall i :: 0 <= i < |fields| ==> Json.Printable(fields[i].value)
    ensures Json.PrintableFields(fields)
  {
    if fields != [] {
      FieldsPrintable(fields[1..]);
    }
  }

  lemma MetadataPrintable(key: Text, e: Entry)
    requires Writable(e)
    ensures Json.Printable(Metadata(key, e))
  {
    if e.deps.Some? {
      FieldsPrintable(DependencyFields(e.deps.value));
    }
    FieldsPrintable(MetadataFields(key, e));
  }

  /** Reading back a written file finds its payload untouched, and its key and facts
    with surrogate pairs merged. */
  lemma FileReads(python: Json.Interpreter, key: Text, e: Entry, payload: Bytes)
    requires Json.Decodes(python) && Written(python, key, e)
    ensures ReadFile(python, FileOf(key, e, payload))
         == Some(Contents(Found(Merged(key), FactsOf(MergedEntry(e))), payload))
  {
    var line := Json.Print(Metadata(key, e));
    MetadataPrintable(key, e);
    Json.PrintIsPlain(Metadata(key, e));
    Json.LoadsDumped(python, Metadata(key, e));
    TwoLines(python, line, payload);
    SettledMetadata(key, e);
    StrictReads(Merged(key), MergedEntry(e));
  }

  // --------------------------------------------------------- files a scan stumbles over

  /** A short line that holds a printed value is scanned as that value. */
  lemma LineIsScanned(python: Json.Interpreter, v: Json.Value, payload: Bytes)
    requires Json.Decodes(python) && Json.Printable(v) && Json.Allowed(python, v)
    requires |Json.Print(v)| < HEADER_LIMIT - 16
    ensures ScannedRow(python, LineFile(Json.Print(v), payload)) == Lenient(Json.Settled(v))
  {
    Json.PrintIsPlain(v);
    Json.LoadsDumped(python, v);
    TwoLines(python, Json.Print(v), payload);
  }

  /** The line `null` is skipped. */
  lemma NullLineIsSkipped(python: Json.Interpreter, payload: Bytes)
    requires Json.Decodes(python)
    ensures ScannedRow(python, LineFile(Ascii("null"), payload)) == Ok(None)
  {
    LineIsScanned(python, Json.Null, payload);
  }

  /** The line `[]` makes the scan raise, where a full read reports a miss. */
  lemma ArrayLineRaises(python: Json.Interpreter, payload: Bytes)
    requires Json.Decodes(python) && python.nesting > 0
    ensures ScannedRow(python, LineFile([Json.FIRST, Json.LAST], payload)) == Err(NotAnObject)
    ensures ReadFile(python, LineFile([Json.FIRST, Json.LAST], payload)) == None
  {
    var v := Json.Array([]);
    assert Json.Print(v) == [Json.FIRST, Json.LAST];
    LineIsScanned(python, v, payload);
    Json.LoadsDumped(python, v);
    Json.PrintIsPlain(v);
    TwoLines(python, Json.Print(v), payload);
  }

  lemma {:induction false} Pow2Adds(k: nat, m: nat)
    ensures Pow2(k + m) == Pow2(k) * Pow2(m)
  {
    if k > 0 {
      Pow2Adds(k - 1, m);
      assert Pow2(k) * Pow2(m) == 2 * (Pow2(k - 1) * Pow2(m));
    }
  }

  lemma HalfUnit(m: nat, e: nat)
    requires e > 0
    ensures (Pow2(m) - 1) * Pow2(e) + Pow2(e - 1) == Pow2(m + e) - Pow2(e - 1)
  {
    Pow2Adds(m, e);
    assert (Pow2(m) - 1) * Pow2(e) == Pow2(m) * Pow2(e) - Pow2(e);
  }

  /** The largest float has 53 binary digits and 971 zeros behind them: an integer
    overflows when it is at least half a unit beyond that. */
  lemma OverflowsBeyondTheLargest(n: int, largest: int, unit: int)
    requires largest == (Pow2(FLOAT_DIGITS) - 1) * unit && unit == Pow2(1024 - FLOAT_DIGITS)
    ensures Overflows(n) <==> 2 * n >= 2 * largest + unit || 2 * n <= -(2 * largest + unit)
  {
    HalfUnit(FLOAT_DIGITS, 1024 - FLOAT_DIGITS);
    HalfIs(1024 - FLOAT_DIGITS);
  }

  lemma HalfIs(e: nat)
    requires e > 0
    ensures Pow2(e) == 2 * Pow2(e - 1)
  {
  }

  function Power10(k: nat): nat {
    if k == 0 then 1 else 10 * Power10(k - 1)
  }

  lemma EightTimes(k: nat)
    ensures Pow2(k + 3) == 8 * Pow2(k)
  {
    assert Pow2(k + 2) == 2 * Pow2(k + 1);
  }

  /** A one and `k` zeros is at least two to the `3 * k`. */
  lemma {:induction false} Power10Facts(k: nat)
    ensures |Decimal(Power10(k))| == k + 1 && Power10(k) >= Pow2(3 * k)
  {
    if k > 0 {
      Power10Facts(k - 1);
      EightTimes(3 * (k - 1));
    }
  }

  lemma {:induction false} Pow2Grows(k: nat, m: nat)
    requires k <= m
    ensures 0 < Pow2(k) <= Pow2(m)
    decreases m
  {
    if k < m {
      Pow2Grows(k, m - 1);
    } else if k > 0 {
      Pow2Grows(k - 1, k - 1);
    }
  }

  function HugeValue(k: nat, i: nat): Json.Value {
    if i < 2 then Json.String([]) else Json.Integer(Power10(k))
  }

  /** A key, a namespace, and a power of ten as the instant of creation. */
  function HugeFields(k: nat): (r: seq<Json.Field>)
    ensures |r| == 3
  {
    seq(3, i requires 0 <= i < 3 => Json.Field(Names()[i], HugeValue(k, i)))
  }

  function HugeRow(k: nat): Json.Value {
    Json.Object(HugeFields(k))
  }

  lemma {:induction false} EscapedLength(t: Text)
    ensures |t| <= |EscapedText(t)| <= 12 * |t|
  {
    if t != [] {
      EscapedLength(t[1..]);
    }
  }

  /** How much a field adds to a line. */
  lemma FieldLength(fields: seq<Json.Field>)
    requires fields != []
    ensures |Json.PrintFields(fields)|
         <= 12 * |fields[0].name| + |Json.Print(fields[0].value)| + |Json.PrintFields(fields[1..])| + 6
  {
    EscapedLength(fields[0].name);
  }

  lemma HugeValueLength(k: nat, i: nat)
    ensures |Json.Print(HugeValue(k, i))| <= k + 2
  {
    if i < 2 {
      EscapedLength([]);
    } else {
      Power10Facts(k);
    }
  }

  lemma NameLengths(i: nat)
    requires i < 3
    ensures |Names()[i]| <= 10
  {
  }

  lemma HugeFieldLength(k: nat, i: nat)
    requires i < 3
    ensures |Json.PrintFields(HugeFields(k)[i..])| <= 130 + k + |Json.PrintFields(HugeFields(k)[i + 1..])|
  {
    var fields := HugeFields(k)[i..];
    NameLengths(i);
    HugeValueLength(k, i);
    FieldLength(fields);
    assert fields[0].name == Names()[i] && fields[0].value == HugeValue(k, i);
    assert fields[1..] == HugeFields(k)[i + 1..];
  }

  lemma HugeFieldsLength(k: nat)
    ensures |Json.PrintFields(HugeFields(k)[0..])| <= 390 + 3 * k
  {
    HugeFieldLength(k, 0);
    HugeFieldLength(k, 1);
    HugeFieldLength(k, 2);
    assert HugeFields(k)[3..] == [];
  }

  lemma HugeRowLength(k: nat)
    ensures |Json.Print(HugeRow(k))| < 500 + 3 * k
  {
    HugeFieldsLength(k);
    assert HugeFields(k)[0..] == HugeFields(k);
  }

  lemma HugeRowIsKeyed(k: nat)
    requires k >= 342
    ensures Keyed(HugeRow(k)) && HasHugeInstant(HugeRow(k))
  {
    var fields := HugeFields(k);
    Power10Facts(k);
    Pow2Grows(1024, 3 * k);
    NamesDiffer();
    LookupAt(fields, 0);
    LookupAt(fields, 1);
    LookupAt(fields, 2);
  }

  lemma {:induction false} FieldsAllowed(python: Json.Interpreter, fields: seq<Json.Field>)
    requires forall i :: 0 <= i < |fields| ==> Json.Allowed(python, fields[i].value)
    ensures Json.AllowedFields(python, fields)
  {
    if fields != [] {
      FieldsAllowed(python, fields[1..]);
    }
  }

  lemma HugeRowAllowed(python: Json.Interpreter, k: nat)
    requires python.nesting > 0 && (python.digits.Some? ==> python.digits.value > k)
    ensures Json.Printable(HugeRow(k)) && Json.Allowed(python, HugeRow(k))
  {
    var inner := python.(nesting := python.nesting - 1);
    var fields := HugeFields(k);
    Power10Facts(k);
    forall i | 0 <= i < 3 ensures Json.Printable(fields[i].value) && Json.Allowed(inner, fields[i].value) {
      assert fields[i].value == HugeValue(k, i);
    }
    FieldsPrintable(fields);
    FieldsAllowed(inner, fields);
  }

  /** Whatever the row, a key and a huge instant make the scan raise. */
  lemma HugeInstantIsFatal(metadata: Json.Value)
    requires Keyed(metadata) && HasHugeInstant(metadata)
    ensures Lenient(metadata) == Err(FloatOverflow)
  {
  }

  lemma HugeRowSettled(k: nat)
    ensures Json.Settled(HugeRow(k)) == HugeRow(k)
  {
    var fields := HugeFields(k);
    forall i | 0 <= i < 3 ensures Settles(fields[i], fields[i]) {
      NamesAreUnmerged(i);
      assert i < 2 ==> Json.Settled(fields[i].value) == fields[i].value;
    }
    SettledEach(fields, fields);
  }

  /** A row created at ten to the 342nd, or any larger power on a short enough line,
    makes the scan raise, if the interpreter reads the integer at all. */
  lemma HugeInstantRaises(python: Json.Interpreter, k: nat, payload: Bytes)
    requires Json.Decodes(python) && python.nesting > 0 && 342 <= k < 300_000
    requires python.digits.Some? ==> python.digits.value > k
    ensures ScannedRow(python, LineFile(Json.Print(HugeRow(k)), payload)) == Err(FloatOverflow)
  {
    HugeRowAllowed(python, k);
    HugeRowLength(k);
    HugeRowIsKeyed(k);
    HugeRowSettled(k);
    HugeInstantIsFatal(HugeRow(k));
    LineIsScanned(python, HugeRow(k), payload);
  }

  lemma FirstValueLength(fields: seq<Json.Field>)
    requires fields != []
    ensures |Json.Print(fields[0].value)| <= |Json.PrintFields(fields)|
  {
  }

  lemma KeyLength(key: Text, e: Entry)
    ensures |key| <= |Json.Print(Metadata(key, e))|
  {
    EscapedLength(key);
    FirstValueLength(MetadataFields(key, e));
  }

  /** An entry whose key is longer than a mebibyte is read and never scanned. */
  lemma LongKeyIsNotScanned(python: Json.Interpreter, key: Text, e: Entry, payload: Bytes)
    requires Json.Decodes(python) && Written(python, key, e) && |key| >= 1_048_576
    ensures ReadFile(python, FileOf(key, e, payload)).Some?
    ensures ScannedRow(python, FileOf(key, e, payload)) == Ok(None)
  {
    FileReads(python, key, e, payload);
    KeyLength(key, e);
    MetadataPrintable(key, e);
    Json.PrintIsPlain(Metadata(key, e));
    TwoLines(python, Json.Print(Metadata(key, e)), payload);
  }

  // ---------------------------------------------------- exactly which entries survive

  predicate UnpairedDependencies(deps: seq<Dependency>) {
    forall i :: 0 <= i < |deps| ==> Unpaired(deps[i].name) && Unpaired(deps[i].fingerprint)
  }

  /** No string of the entry has a high surrogate directly before a low one. */
  predicate UnpairedEntry(e: Entry) {
    Unpaired(e.namespace) && (e.deps.Some? ==> UnpairedDependencies(e.deps.value))
  }

  /** A dictionary has one value per label. */
  predicate DistinctLabels(deps: seq<Dependency>) {
    forall i, j :: 0 <= i < j < |deps| ==> deps[i].name != deps[j].name
  }

  lemma {:induction false} DependencyMapHolds(deps: seq<Dependency>, i: nat)
    requires i < |deps|
    ensures deps[i].name in DependencyMap(deps)
    ensures DistinctLabels(deps) ==> DependencyMap(deps)[deps[i].name] == deps[i].fingerprint
    decreases |deps|
  {
    var before := deps[..|deps| - 1];
    assert DependencyFields(deps)[..|deps| - 1] == DependencyFields(before);
    if i < |before| {
      DependencyMapHolds(before, i);
    }
  }

  lemma {:induction false} DependencyMapHasOnly(deps: seq<Dependency>, name: Text)
    requires UnpairedDependencies(deps) && name in DependencyMap(deps)
    ensures Unpaired(name) && Unpaired(DependencyMap(deps)[name])
    decreases |deps|
  {
    var before, last := deps[..|deps| - 1], deps[|deps| - 1];
    assert DependencyFields(deps)[..|deps| - 1] == DependencyFields(before);
    assert UnpairedDependencies(before);
    if name != last.name {
      DependencyMapHasOnly(before, name);
    }
  }

  lemma MergedIsUnpaired(deps: seq<Dependency>)
    ensures UnpairedDependencies(MergedDependencies(deps))
    ensures MergedDependencies(deps) == deps <==> UnpairedDependencies(deps)
  {
    var merged := MergedDependencies(deps);
    forall i | 0 <= i < |deps|
      ensures Unpaired(merged[i].name) && Unpaired(merged[i].fingerprint)
        && (merged[i] == deps[i] <==> Unpaired(deps[i].name) && Unpaired(deps[i].fingerprint))
    {
      MergedUnchanged(deps[i].name);
      MergedUnchanged(deps[i].fingerprint);
    }
    if UnpairedDependencies(deps) {
      assert merged == deps;
    } else if merged == deps {
      assert forall i :: 0 <= i < |deps| ==> merged[i] == deps[i];
    }
  }

  lemma SameMapUnpaired(deps: seq<Dependency>)
    requires DistinctLabels(deps)
    ensures DependencyMap(MergedDependencies(deps)) == DependencyMap(deps) <==> UnpairedDependencies(deps)
  {
    MergedIsUnpaired(deps);
    if DependencyMap(MergedDependencies(deps)) == DependencyMap(deps) {
      forall i | 0 <= i < |deps| ensures Unpaired(deps[i].name) && Unpaired(deps[i].fingerprint) {
        DependencyMapHolds(deps, i);
        DependencyMapHasOnly(MergedDependencies(deps), deps[i].name);
      }
    }
  }

  /** A written entry reads back as itself exactly when no high surrogate directly
    precedes a low one in its key, its namespace, its labels or its fingerprints. */
  lemma FileRoundTrips(python: Json.Interpreter, key: Text, e: Entry, payload: Bytes)
    requires Json.Decodes(python) && Written(python, key, e) && (e.deps.Some? ==> DistinctLabels(e.deps.value))
    ensures ReadFile(python, FileOf(key, e, payload)) == Some(Contents(Found(key, FactsOf(e)), payload))
      <==> Unpaired(key) && UnpairedEntry(e)
  {
    FileReads(python, key, e, payload);
    MergedUnchanged(key);
    MergedUnchanged(e.namespace);
    if e.deps.Some? {
      SameMapUnpaired(e.deps.value);
    }
  }

  /** A dependency whose label is a surrogate pair is not found under its label again:
    the stored fingerprints are not those of the declaration, so each later call finds
    the dependency changed. */
  lemma PairInLabelIsLost(python: Json.Interpreter, key: Text, e: Entry, payload: Bytes, i: nat, high: Code, low: Code)
    requires Json.Decodes(python) && Written(python, key, e)
    requires e.deps.Some? && i < |e.deps.value| && e.deps.value[i].name == [high, low] && High(high) && Low(low)
    ensures ReadFile(python, FileOf(key, e, payload)).Some?
    ensures var deps := ReadFile(python, FileOf(key, e, payload)).value.found.facts.deps;
      deps.Some? && [high, low] !in deps.value && deps != FactsOf(e).deps
  {
    var deps := e.deps.value;
    FileReads(python, key, e, payload);
    MergedIsUnpaired(deps);
    if [high, low] in DependencyMap(MergedDependencies(deps)) {
      DependencyMapHasOnly(MergedDependencies(deps), [high, low]);
    }
    DependencyMapHolds(deps, i);
  }

  // ---------------------------------------------------------------------- the backend

  /** What reading or writing a key may come to. */
  datatype Failure = BadKey | NotSerializable | NotWritten

  type Name(==, !new)

  type Payload(==, !new)

  datatype Loaded = Loaded(facts: Facts, value: Payload)

  /** A directory of entry files.  `path` names the file of a key (the digest of its
    encoding; no name when the key cannot be encoded); `dumps` and `loads` are the
    serializer. */
  class DiskBackend {
    const python: Json.Interpreter
    const path: Text -> Option<Name>
    const dumps: Payload -> Option<Bytes>
    const loads: Bytes -> Option<Payload>
    var files: map<Name, Bytes>

    constructor (python: Json.Interpreter, path: Text -> Option<Name>, dumps: Payload -> Option<Bytes>,
        loads: Bytes -> Option<Payload>)
      ensures files == map[] && this.python == python
      ensures this.path == path && this.dumps == dumps && this.loads == loads
    {
      this.python, this.path, this.dumps, this.loads, files := python, path, dumps, loads, map[];
    }

    /** The entry a read of the key serves: its file's, if that is well formed and was
      written for this very key. */
    function Held(key: Text): Option<Loaded>
      reads this
    {
      if path(key).None? || path(key).value !in files then None
      else
        var content := files[path(key).value];
        var r := ReadFile(python, content);
        if r.None? || loads(r.value.payload).None? || r.value.found.key != key then None
        else Some(Loaded(r.value.found.facts, loads(r.value.payload).value))
    }

    /** A write replaces the whole file or changes nothing; `lands` is whether the
      file system lets it. */
    method Set(key: Text, e: Entry, value: Payload, lands: bool) returns (r: Result<(), Failure>)
      requires Writable(e)
      modifies this
      ensures r.Ok? <==> dumps(value).Some? && Json.Allowed(python, Metadata(key, e)) && path(key).Some? && lands
      ensures files
        == if r.Ok? then old(files)[path(key).value := FileOf(key, e, dumps(value).value)] else old(files)
    {
      if dumps(value).None? || !Json.Allowed(python, Metadata(key, e)) {
        return Err(NotSerializable);
      }
      if path(key).None? {
        return Err(BadKey);
      }
      if !lands {
        return Err(NotWritten);
      }
      files := files[path(key).value := FileOf(key, e, dumps(value).value)];
      r := Ok(());
    }

    /** The key has a file that is no entry: its header, its metadata or its payload
      cannot be read. */
    predicate Malformed(key: Text)
      reads this
    {
      && path(key).Some? && path(key).value in files
      && var r := ReadFile(python, files[path(key).value]); r.None? || loads(r.value.payload).None?
    }

    /** A file of another format or version is malformed, so that reading its key
      removes it. */
    lemma OtherFormatsAreMalformed(key: Text, first: Bytes, rest: Bytes)
      requires path(key).Some? && path(key).value in files
      requires NoNewline(first) && first != Ascii("cachau-entry/1")
      requires files[path(key).value] == first + ([NEWLINE] + rest)
      ensures Malformed(key) && Held(key) == None
    {
      OtherFormatsAreMisses(python, first, rest);
    }

    /** A read serves what `Held` says.  A malformed file is a miss, and is removed
      exactly when asked to and possible; a well-formed file of another key is a miss
      and stays. */
    method Load(key: Text, removeCorrupt: bool, removable: bool) returns (r: Result<Option<Loaded>, Failure>)
      modifies this
      ensures path(key).None? <==> r.Err?
      ensures r.Ok? ==> r.result == old(Held(key))
      ensures forall k :: Held(k) == old(Held(k))
      ensures files
        == if old(Malformed(key)) && removeCorrupt && removable then old(files) - {path(key).value} else old(files)
    {
      if path(key).None? {
        return Err(BadKey);
      }
      var name := path(key).value;
      if name !in files {
        return Ok(None);
      }
      var read := ReadFile(python, files[name]);
      if read.None? || loads(read.value.payload).None? {
        if removeCorrupt && removable {
          files := files - {name};
        }
        return Ok(None);
      }
      if read.value.found.key != key {
        return Ok(None);
      }
      r := Ok(Some(Loaded(read.value.found.facts, loads(read.value.payload).value)));
    }

    method Delete(key: Text) returns (r: Result<(), Failure>)
      modifies this
      ensures r.Ok? <==> path(key).Some?
      ensures r.Ok? ==> Held(key).None? && files == old(files) - {path(key).value}
      ensures r.Err? ==> files == old(files)
    {
      if path(key).None? {
        return Err(BadKey);
      }
      files := files - {path(key).value};
      r := Ok(());
    }

    /** After a write the key is served its value and its facts, when the serializer
      gives back what it was given and no string has a surrogate pair to merge; and a
      key that shares the file's name is served nothing. */
    lemma WrittenIsHeld(key: Text, e: Entry, value: Payload, other: Text)
      requires Json.Decodes(python) && Written(python, key, e) && UnpairedEntry(e) && Unpaired(key)
      requires dumps(value).Some? && loads(dumps(value).value) == Some(value)
      requires path(key).Some? && path(other) == path(key)
      requires path(key).value in files && files[path(key).value] == FileOf(key, e, dumps(value).value)
      ensures Held(other) == if other == key then Some(Loaded(FactsOf(e), value)) else None
    {
      FileReads(python, key, e, dumps(value).value);
      MergedUnchanged(key);
      MergedUnchanged(e.namespace);
      if e.deps.Some? {
        MergedIsUnpaired(e.deps.value);
      }
    }
  }
}
