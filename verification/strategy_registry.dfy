/** Immutable strategy policies as TOML snapshots (crypto/strategy_registry.py). */
module StrategyRegistry {
  import opened Wrappers
  import opened Toml
  import Sorting

  /** A decimal and a float are known by the text Python prints for them; a duration is whole seconds and microseconds. */
  datatype Value =
    | Null
    | Decimal(text: string)
    | Duration(seconds: int, micros: int)
    | Texts(items: seq<string>)
    | Whole(number: int)
    | Float(text: string)
    | Text(content: string)

  datatype Kind = DECIMAL | DURATION | TEXTS | WHOLE | FLOAT | TEXT

  /** `since` is the schema version that introduced the field. */
  datatype Field = Field(name: string, kind: Kind, optional: bool, since: nat, default: Value)

  datatype Policy = Policy(version: string, values: map<string, Value>)

  /**
   * What the registry is parametric in: the fields of a policy, the version pattern, the semantic rules, Python's
   * reading of decimals and floats (each gives the text it prints again), and Python's equality of values.
   */
  datatype Setting = Setting(
    fields: seq<Field>,
    versionOk: string -> bool,
    rules: Policy -> bool,
    decimal: string -> Option<string>,
    float: string -> Option<string>,
    same: (Value, Value) -> bool)

  datatype Error =
    | INVALID_VERSION
    | INVALID_POLICY
    | NEWER_FIELDS_CHANGED
    | NOT_WRITABLE
    | INVALID_TOML
    | ROOT_FIELDS
    | SCHEMA_VERSION
    | IDENTITY_MISMATCH
    | RESERVED_SCHEMA
    | NULL_FIELDS
    | POLICY_FIELDS
    | INVALID_VALUE
    | ALREADY_EXISTS
    | NOT_FOUND

  const NEWEST_SCHEMA := 5

  function SchemaOf(version: string): nat {
    if version in {"dynamic-intraday-v2.1", "dynamic-intraday-v2.2", "dynamic-intraday-v2.3"} then 1
    else if version in {"dynamic-intraday-v2.4", "dynamic-intraday-v2.5"} then 2
    else if version == "dynamic-intraday-v2.6" then 3
    else if version == "dynamic-intraday-v2.7" then 4
    else NEWEST_SCHEMA
  }

  // ---------------------------------------------------------------- what a policy is

  predicate Typed(st: Setting, f: Field, v: Value) {
    match v
    case Null => f.optional
    case Decimal(t) => f.kind == DECIMAL && st.decimal(t) == Some(t)
    case Duration(_, micros) => f.kind == DURATION && 0 <= micros < 1000000
    case Texts(_) => f.kind == TEXTS
    case Whole(_) => f.kind == WHOLE
    case Float(t) => f.kind == FLOAT && st.float(t) == Some(t)
    case Text(_) => f.kind == TEXT
  }

  predicate HasFields(st: Setting, p: Policy) {
    p.values.Keys == set f <- st.fields :: f.name
  }

  predicate WellTyped(st: Setting, p: Policy) {
    forall f <- st.fields :: f.name in p.values && Typed(st, f, p.values[f.name])
  }

  predicate Same(st: Setting, p: Policy, q: Policy) {
    && p.version == q.version && p.values.Keys == q.values.Keys
    && forall n <- p.values :: n in q.values && st.same(p.values[n], q.values[n])
  }

  ghost predicate GoodSetting(st: Setting) {
    && (forall i, j :: 0 <= i < j < |st.fields| ==> st.fields[i].name != st.fields[j].name)
    && (forall f <- st.fields :: BareKey(f.name) && 1 <= f.since <= NEWEST_SCHEMA && Typed(st, f, f.default))
    && (forall v :: st.versionOk(v) ==> Writable(v))
    && (forall t :: st.decimal(t).Some? ==> Writable(st.decimal(t).value) && st.decimal(st.decimal(t).value) == st.decimal(t))
    && (forall t :: st.float(t).Some? ==> IsFloat(st.float(t).value) && st.float(st.float(t).value) == st.float(t))
    && (forall v :: st.same(v, v))
    && (forall p, q :: Same(st, p, q) ==> st.rules(p) == st.rules(q))
  }

  /** A setting of one whole-number field, with the simplest readings. */
  lemma SettingExample()
    ensures GoodSetting(Setting([Field("n", WHOLE, false, 1, Whole(3))], v => Writable(v), p => true,
                                t => if Writable(t) then Some(t) else None, t => if IsFloat(t) then Some(t) else None,
                                (v, w) => v == w))
  {
  }

  // ---------------------------------------------------------------- writing

  /** The TOML value; null fields are listed apart and never get here. */
  function RawOf(v: Value): Raw {
    match v
    case Null => RText("")
    case Decimal(t) => RText(t)
    case Duration(seconds, _) => RInt(seconds)
    case Texts(items) => RTexts(items)
    case Whole(n) => RInt(n)
    case Float(t) => RFloat(t)
    case Text(t) => RText(t)
  }

  function Encoded(v: Value): Result<string, string> {
    if v.Duration? && v.micros != 0 then Err("must use whole-second precision") else Show(RawOf(v))
  }

  predicate Written(f: Field, schema: nat) { f.since <= schema }

  function NullNames(fields: seq<Field>, schema: nat, values: map<string, Value>): (r: seq<string>)
    requires forall f <- fields :: f.name in values
    decreases |fields|
  {
    if fields == [] then [] else
      (if Written(fields[0], schema) && values[fields[0].name].Null? then [fields[0].name] else [])
      + NullNames(fields[1..], schema, values)
  }

  /** The written fields that have a value, with that value, in the order of the fields. */
  function Configured(fields: seq<Field>, schema: nat, values: map<string, Value>): seq<(string, Value)>
    requires forall f <- fields :: f.name in values
    decreases |fields|
  {
    if fields == [] then [] else
      (if Written(fields[0], schema) && !values[fields[0].name].Null? then [(fields[0].name, values[fields[0].name])] else [])
      + Configured(fields[1..], schema, values)
  }

  function PairLines(cs: seq<(string, Value)>): Result<seq<string>, string>
    decreases |cs|
  {
    if cs == [] then Ok([])
    else match Encoded(cs[0].1)
      case Err(e) => Err(e)
      case Ok(shown) =>
        match PairLines(cs[1..])
        case Err(e) => Err(e)
        case Ok(others) => Ok([ShowPair(cs[0].0, shown)] + others)
  }

  function Comment(): string {
    "# Generated immutable strategy snapshot. " + "Do not edit after publication."
  }

  function HeadLines(schema: nat, version: string, nulls: string): seq<string> {
    [Comment(),
     ShowPair("schema_version", ShowInt(schema)),
     ShowPair("strategy_version", version),
     ShowPair("null_fields", nulls),
     "",
     "[policy]"]
  }

  predicate NewerFieldsAreDefaults(st: Setting, p: Policy) {
    forall f <- st.fields :: !Written(f, SchemaOf(p.version)) ==> f.name in p.values && st.same(p.values[f.name], f.default)
  }

  function Serialize(st: Setting, p: Policy): Result<string, Error> {
    if !st.versionOk(p.version) then Err(INVALID_VERSION)
    else if !WellTyped(st, p) || !st.rules(p) then Err(INVALID_POLICY)
    else if !NewerFieldsAreDefaults(st, p) then Err(NEWER_FIELDS_CHANGED)
    else
      var schema := SchemaOf(p.version);
      var version := ShowText(p.version);
      var nulls := ShowTexts(NullNames(st.fields, schema, p.values));
      var pairs := PairLines(Configured(st.fields, schema, p.values));
      if version.Err? || nulls.Err? || pairs.Err? then Err(NOT_WRITABLE)
      else Ok(Unlines(HeadLines(schema, version.value, nulls.value) + pairs.value))
  }

  // ---------------------------------------------------------------- reading

  datatype Document = Document(root: map<string, Raw>, table: Option<map<string, Raw>>)

  function ReadOne(line: string, doc: Document): Result<Document, Error> {
    match ReadLine(line)
    case Err(_) => Err(INVALID_TOML)
    case Ok(Nothing) => Ok(doc)
    case Ok(Header(name)) =>
      if name != "policy" then Err(ROOT_FIELDS)
      else if doc.table.Some? || name in doc.root then Err(INVALID_TOML)
      else Ok(doc.(table := Some(map[])))
    case Ok(Pair(key, raw)) =>
      if doc.table.None? then
        if key in doc.root then Err(INVALID_TOML) else Ok(doc.(root := doc.root[key := raw]))
      else if key in doc.table.value then Err(INVALID_TOML)
      else Ok(doc.(table := Some(doc.table.value[key := raw])))
  }

  function ReadLines(lines: seq<string>, doc: Document): Result<Document, Error>
    decreases |lines|
  {
    if lines == [] then Ok(doc)
    else match ReadOne(lines[0], doc)
      case Err(e) => Err(e)
      case Ok(next) => ReadLines(lines[1..], next)
  }

  function Parse(text: string): Result<Document, Error> {
    ReadLines(Lines(text), Document(map[], None))
  }

  function Decode(st: Setting, f: Field, raw: Raw): Option<Value> {
    match (f.kind, raw)
    case (DECIMAL, RText(t)) => if st.decimal(t).Some? then Some(Decimal(st.decimal(t).value)) else None
    case (DURATION, RInt(n)) => Some(Duration(n, 0))
    case (TEXTS, RTexts(items)) => Some(Texts(items))
    case (WHOLE, RInt(n)) => Some(Whole(n))
    case (FLOAT, RFloat(t)) => if st.float(t).Some? then Some(Float(st.float(t).value)) else None
    case (TEXT, RText(t)) => Some(Text(t))
    case _ => None
  }

  /** The value of one field: configured, null, or the default of a field the schema does not know. */
  function FieldValue(st: Setting, f: Field, table: map<string, Raw>, nulls: seq<string>): Option<Value> {
    if f.name in table then Decode(st, f, table[f.name])
    else if f.name in nulls then Some(Null)
    else Some(f.default)
  }

  function Values(st: Setting, fields: seq<Field>, table: map<string, Raw>, nulls: seq<string>): Option<map<string, Value>>
    decreases |fields|
  {
    if fields == [] then Some(map[])
    else match (FieldValue(st, fields[0], table, nulls), Values(st, fields[1..], table, nulls))
      case (Some(v), Some(others)) => Some(others[fields[0].name := v])
      case _ => None
  }

  predicate Knows(st: Setting, schema: nat, name: string) {
    exists f <- st.fields :: f.name == name && Written(f, schema)
  }

  /** Every field of the schema is configured or null, never both; only known fields are named; only optional ones null. */
  predicate CoversFields(st: Setting, schema: nat, table: map<string, Raw>, nulls: seq<string>) {
    && (forall n <- nulls :: n !in table)
    && (forall n <- table.Keys :: Knows(st, schema, n))
    && (forall n <- nulls :: Knows(st, schema, n))
    && (forall f <- st.fields :: Written(f, schema) ==> f.name in table || f.name in nulls)
    && (forall f <- st.fields :: f.name in nulls && Written(f, schema) ==> f.optional)
  }

  function PolicyOf(st: Setting, doc: Document, expected: string): Result<Policy, Error> {
    if doc.root.Keys != {"schema_version", "strategy_version", "null_fields"} || doc.table.None? then Err(ROOT_FIELDS)
    else
      var schema, version, nulls := doc.root["schema_version"], doc.root["strategy_version"], doc.root["null_fields"];
      if !schema.RInt? || !(1 <= schema.number <= NEWEST_SCHEMA) then Err(SCHEMA_VERSION)
      else if !version.RText? || !st.versionOk(version.content) then Err(INVALID_VERSION)
      else if version.content != expected then Err(IDENTITY_MISMATCH)
      else if SchemaOf(version.content) != schema.number then Err(RESERVED_SCHEMA)
      else if !nulls.RTexts? || !Sorting.NoRepeats(nulls.items) then Err(NULL_FIELDS)
      else if !CoversFields(st, schema.number, doc.table.value, nulls.items) then Err(POLICY_FIELDS)
      else match Values(st, st.fields, doc.table.value, nulls.items)
        case None => Err(INVALID_VALUE)
        case Some(values) =>
          var p := Policy(version.content, values);
          if WellTyped(st, p) && st.rules(p) then Ok(p) else Err(INVALID_POLICY)
  }

  function Load(st: Setting, text: string, expected: string): Result<Policy, Error> {
    match Parse(text)
    case Err(e) => Err(e)
    case Ok(doc) => PolicyOf(st, doc, expected)
  }

  // ---------------------------------------------------------------- reading back what was written

  function WithPairs(m: map<string, Raw>, cs: seq<(string, Value)>): map<string, Raw>
    decreases |cs|
  {
    if cs == [] then m else WithPairs(m[cs[0].0 := RawOf(cs[0].1)], cs[1..])
  }

  function Lookup(cs: seq<(string, Value)>, name: string): Option<Value>
    decreases |cs|
  {
    if cs == [] then None else if cs[0].0 == name then Some(cs[0].1) else Lookup(cs[1..], name)
  }

  predicate DistinctKeys(cs: seq<(string, Value)>)
    decreases |cs|
  {
    cs == [] || (Lookup(cs[1..], cs[0].0).None? && DistinctKeys(cs[1..]))
  }

  lemma {:induction false} WithPairsAt(m: map<string, Raw>, cs: seq<(string, Value)>, n: string)
    requires DistinctKeys(cs)
    ensures n in WithPairs(m, cs) <==> n in m || Lookup(cs, n).Some?
    ensures n in WithPairs(m, cs) ==>
      WithPairs(m, cs)[n] == if Lookup(cs, n).Some? then RawOf(Lookup(cs, n).value) else m[n]
    decreases |cs|
  {
    hide RawOf;
    if cs != [] { WithPairsAt(m[cs[0].0 := RawOf(cs[0].1)], cs[1..], n); }
  }

  ghost predicate Encodable(c: (string, Value)) {
    BareKey(c.0) && !c.1.Null? && Encoded(c.1).Ok? && Showable(RawOf(c.1))
  }

  ghost predicate AllEncodable(cs: seq<(string, Value)>)
    decreases |cs|
  {
    cs == [] || (Encodable(cs[0]) && AllEncodable(cs[1..]))
  }

  ghost predicate Apart(cs: seq<(string, Value)>, m: map<string, Raw>) {
    forall n <- m :: Lookup(cs, n).None?
  }

  lemma PairLineReads(c: (string, Value), doc: Document)
    requires Encodable(c) && doc.table.Some? && c.0 !in doc.table.value
    ensures ReadOne(ShowPair(c.0, Encoded(c.1).value), doc) == Ok(doc.(table := Some(doc.table.value[c.0 := RawOf(c.1)])))
    ensures '\n' !in ShowPair(c.0, Encoded(c.1).value)
  {
    PairRoundTrip(c.0, RawOf(c.1));
    hide ReadLine, Show, ShowPair, Showable, BareKey;
  }

  /** The lines of the pairs add exactly the pairs to the table. */
  lemma {:induction false} PairLinesReadBack(cs: seq<(string, Value)>, doc: Document)
    requires AllEncodable(cs) && DistinctKeys(cs) && PairLines(cs).Ok? && doc.table.Some? && Apart(cs, doc.table.value)
    ensures ReadLines(PairLines(cs).value, doc) == Ok(doc.(table := Some(WithPairs(doc.table.value, cs))))
    ensures forall l <- PairLines(cs).value :: '\n' !in l
    decreases |cs|
  {
    hide ShowPair, ReadOne, RawOf, Encodable, Encoded;
    if cs != [] {
      var first := cs[0];
      assert first.0 !in doc.table.value;
      PairLineReads(first, doc);
      PairLinesReadBack(cs[1..], doc.(table := Some(doc.table.value[first.0 := RawOf(first.1)])));
      var lines := PairLines(cs).value;
      assert lines[1..] == PairLines(cs[1..]).value && lines[0] == ShowPair(first.0, Encoded(first.1).value);
    }
  }

  lemma CommentReads(s: string)
    requires s != "" && s[0] == '#'
    ensures ReadLine(s) == Ok(Nothing)
  {
  }

  lemma CommentIsPlain()
    ensures Comment() != "" && Comment()[0] == '#' && '\n' !in Comment()
  {
  }

  lemma TableHeaderReads()
    ensures ReadLine("[policy]") == Ok(Header("policy")) && '\n' !in "[policy]"
  {
    hide ReadKey, ReadValue;
    assert "[policy]"[1..] == "policy" + "]";
    assert BareKey("policy");
    ReadKeyOf("policy", "]");
    hide BareKey;
  }

  lemma BlankReads()
    ensures ReadLine("") == Ok(Nothing)
  {
  }

  function RootOf(schema: nat, version: string, nulls: seq<string>): map<string, Raw> {
    map["schema_version" := RInt(schema), "strategy_version" := RText(version), "null_fields" := RTexts(nulls)]
  }

  lemma RootPairReads(key: string, raw: Raw, root: map<string, Raw>)
    requires BareKey(key) && Showable(raw) && key !in root
    ensures ReadOne(ShowPair(key, Show(raw).value), Document(root, None)) == Ok(Document(root[key := raw], None))
    ensures '\n' !in ShowPair(key, Show(raw).value)
  {
    PairRoundTrip(key, raw);
    hide ReadLine, Show, ShowPair, Showable, BareKey;
  }

  lemma SixLines(a: string, b: string, c: string, d: string, e: string, f: string, rest: seq<string>,
                 d0: Document, d1: Document, d2: Document, d3: Document, d4: Document, d5: Document, d6: Document)
    requires ReadOne(a, d0) == Ok(d1) && ReadOne(b, d1) == Ok(d2) && ReadOne(c, d2) == Ok(d3)
    requires ReadOne(d, d3) == Ok(d4) && ReadOne(e, d4) == Ok(d5) && ReadOne(f, d5) == Ok(d6)
    ensures ReadLines([a, b, c, d, e, f] + rest, d0) == ReadLines(rest, d6)
  {
    hide ReadOne;
    var all := [a, b, c, d, e, f] + rest;
    assert all[1..] == [b, c, d, e, f] + rest && ([b, c, d, e, f] + rest)[1..] == [c, d, e, f] + rest;
    assert ([c, d, e, f] + rest)[1..] == [d, e, f] + rest && ([d, e, f] + rest)[1..] == [e, f] + rest;
    assert ([e, f] + rest)[1..] == [f] + rest && ([f] + rest)[1..] == rest;
    assert ReadLines([f] + rest, d5) == ReadLines(rest, d6);
    assert ReadLines([e, f] + rest, d4) == ReadLines([f] + rest, d5);
    assert ReadLines([d, e, f] + rest, d3) == ReadLines([e, f] + rest, d4);
    assert ReadLines([c, d, e, f] + rest, d2) == ReadLines([d, e, f] + rest, d3);
    assert ReadLines([b, c, d, e, f] + rest, d1) == ReadLines([c, d, e, f] + rest, d2);
  }

  lemma RootKeysAreBare()
    ensures BareKey("schema_version") && BareKey("strategy_version") && BareKey("null_fields")
  {
  }

  lemma HeadLinesHaveNoBreak(schema: nat, version: string, nulls: seq<string>)
    requires ShowText(version).Ok? && ShowTexts(nulls).Ok?
    ensures forall l <- HeadLines(schema, ShowText(version).value, ShowTexts(nulls).value) :: '\n' !in l
  {
    hide ReadOne, ShowPair, ShowInt, ShowText, ShowTexts, BareKey, Comment;
    RootKeysAreBare();
    RootPairReads("schema_version", RInt(schema), map[]);
    RootPairReads("strategy_version", RText(version), map[]);
    RootPairReads("null_fields", RTexts(nulls), map[]);
    CommentIsPlain();
    TableHeaderReads();
  }

  lemma RootReads(schema: nat, version: string, nulls: seq<string>)
    requires ShowText(version).Ok? && ShowTexts(nulls).Ok?
    ensures var r1 := map["schema_version" := RInt(schema)]; var r2 := r1["strategy_version" := RText(version)];
      && ReadOne(ShowPair("schema_version", ShowInt(schema)), Document(map[], None)) == Ok(Document(r1, None))
      && ReadOne(ShowPair("strategy_version", ShowText(version).value), Document(r1, None)) == Ok(Document(r2, None))
      && ReadOne(ShowPair("null_fields", ShowTexts(nulls).value), Document(r2, None))
         == Ok(Document(RootOf(schema, version, nulls), None))
  {
    hide ReadOne, ShowPair, ShowInt, ShowText, ShowTexts, BareKey;
    RootKeysAreBare();
    var r1 := map["schema_version" := RInt(schema)];
    var r2 := r1["strategy_version" := RText(version)];
    RootPairReads("schema_version", RInt(schema), map[]);
    RootPairReads("strategy_version", RText(version), r1);
    RootPairReads("null_fields", RTexts(nulls), r2);
    assert r2["null_fields" := RTexts(nulls)] == RootOf(schema, version, nulls);
  }

  lemma OtherLinesRead(root: map<string, Raw>)
    requires "policy" !in root
    ensures ReadOne(Comment(), Document(map[], None)) == Ok(Document(map[], None))
    ensures ReadOne("", Document(root, None)) == Ok(Document(root, None))
    ensures ReadOne("[policy]", Document(root, None)) == Ok(Document(root, Some(map[])))
  {
    CommentIsPlain();
    CommentReads(Comment());
    BlankReads();
    TableHeaderReads();
    hide Comment, ReadLine;
  }

  lemma HeadLinesReadBack(schema: nat, version: string, nulls: seq<string>, rest: seq<string>)
    requires ShowText(version).Ok? && ShowTexts(nulls).Ok?
    ensures ReadLines(HeadLines(schema, ShowText(version).value, ShowTexts(nulls).value) + rest, Document(map[], None))
      == ReadLines(rest, Document(RootOf(schema, version, nulls), Some(map[])))
  {
    hide Comment, ReadOne, ShowPair, ShowInt, ShowText, ShowTexts, ReadLines;
    var r1 := map["schema_version" := RInt(schema)];
    var r2 := r1["strategy_version" := RText(version)];
    var r3 := RootOf(schema, version, nulls);
    RootReads(schema, version, nulls);
    OtherLinesRead(r3);
    SixLines(Comment(), ShowPair("schema_version", ShowInt(schema)), ShowPair("strategy_version", ShowText(version).value),
      ShowPair("null_fields", ShowTexts(nulls).value), "", "[policy]", rest,
      Document(map[], None), Document(map[], None), Document(r1, None), Document(r2, None), Document(r3, None),
      Document(r3, None), Document(r3, Some(map[])));
  }

  // ---------------------------------------------------------------- fields written and read

  ghost predicate DistinctNames(fields: seq<Field>) {
    forall i, j :: 0 <= i < j < |fields| ==> fields[i].name != fields[j].name
  }

  lemma FirstIsApart(fields: seq<Field>)
    requires DistinctNames(fields) && fields != []
    ensures DistinctNames(fields[1..]) && forall f <- fields[1..] :: f.name != fields[0].name && f in fields
  {
  }

  lemma {:induction false} ConfiguredAt(fields: seq<Field>, schema: nat, values: map<string, Value>, n: string)
    requires DistinctNames(fields) && forall f <- fields :: f.name in values
    ensures DistinctKeys(Configured(fields, schema, values))
    ensures (forall f <- fields :: f.name != n) ==> Lookup(Configured(fields, schema, values), n).None?
    ensures forall f <- fields :: f.name == n ==>
      Lookup(Configured(fields, schema, values), n) ==
        if Written(f, schema) && !values[n].Null? then Some(values[n]) else None
    decreases |fields|
  {
    if fields != [] {
      FirstIsApart(fields);
      ConfiguredAt(fields[1..], schema, values, n);
      ConfiguredAt(fields[1..], schema, values, fields[0].name);
      var rest := Configured(fields[1..], schema, values);
      if Written(fields[0], schema) && !values[fields[0].name].Null? {
        var whole := Configured(fields, schema, values);
        assert whole == [(fields[0].name, values[fields[0].name])] + rest && whole[1..] == rest;
      } else {
        assert Configured(fields, schema, values) == rest;
      }
      assert fields == [fields[0]] + fields[1..];
    }
  }

  lemma {:induction false} NullNamesAt(fields: seq<Field>, schema: nat, values: map<string, Value>)
    requires DistinctNames(fields) && forall f <- fields :: f.name in values
    ensures Sorting.NoRepeats(NullNames(fields, schema, values))
    ensures forall n <- NullNames(fields, schema, values) ::
      exists f <- fields :: f.name == n && Written(f, schema) && values[n].Null?
    ensures forall f <- fields :: f.name in NullNames(fields, schema, values) <==> Written(f, schema) && values[f.name].Null?
    decreases |fields|
  {
    if fields != [] {
      FirstIsApart(fields);
      NullNamesAt(fields[1..], schema, values);
      var rest := NullNames(fields[1..], schema, values);
      assert fields[0].name !in rest;
      assert NullNames(fields, schema, values) ==
        (if Written(fields[0], schema) && values[fields[0].name].Null? then [fields[0].name] else []) + rest;
    }
  }

  /** What a value needs to be written, besides its type. */
  predicate Plain(v: Value) {
    && (v.Duration? ==> v.micros == 0)
    && (v.Text? ==> Writable(v.content))
    && (v.Texts? ==> forall t <- v.items :: Writable(t))
  }

  lemma {:induction false} ShowAllWorks(ts: seq<string>)
    ensures ShowAll(ts).Ok? <==> forall t <- ts :: Writable(t)
    decreases |ts|
  {
    if ts != [] {
      TextRoundTrip(ts[0], "");
      ShowAllWorks(ts[1..]);
      hide ShowText, Writable;
      assert ts == [ts[0]] + ts[1..];
    }
  }

  lemma EncodedWorks(st: Setting, f: Field, v: Value)
    requires GoodSetting(st) && Typed(st, f, v) && !v.Null?
    ensures Encoded(v).Ok? <==> Plain(v)
    ensures Plain(v) ==> Showable(RawOf(v)) && Decode(st, f, RawOf(v)) == Some(v)
  {
    hide ShowText, ShowTexts, Writable, IsFloat;
    match v {
      case Decimal(t) => assert st.decimal(t).value == t; TextRoundTrip(t, "");
      case Text(t) => TextRoundTrip(t, "");
      case Texts(ts) => ShowAllWorks(ts); TextsShown(ts);
      case Float(t) => assert st.float(t).value == t;
      case _ =>
    }
  }

  lemma TextsShown(ts: seq<string>)
    ensures ShowTexts(ts).Ok? <==> ShowAll(ts).Ok?
  {
  }

  ghost predicate AllPlain(fields: seq<Field>, schema: nat, values: map<string, Value>) {
    forall f <- fields :: Written(f, schema) && f.name in values ==> Plain(values[f.name])
  }

  lemma {:induction false} PairLinesWork(st: Setting, fields: seq<Field>, schema: nat, values: map<string, Value>)
    requires GoodSetting(st) && (forall f <- fields :: f in st.fields)
    requires forall f <- fields :: f.name in values && Typed(st, f, values[f.name])
    ensures PairLines(Configured(fields, schema, values)).Ok? <==> AllPlain(fields, schema, values)
    ensures AllPlain(fields, schema, values) ==> AllEncodable(Configured(fields, schema, values))
    decreases |fields|
  {
    if fields != [] {
      var f := fields[0];
      var v := values[f.name];
      assert forall g <- fields[1..] :: g in fields;
      PairLinesWork(st, fields[1..], schema, values);
      var rest := Configured(fields[1..], schema, values);
      var whole := Configured(fields, schema, values);
      assert fields == [f] + fields[1..];
      if Written(f, schema) && !v.Null? {
        EncodedWorks(st, f, v);
        assert BareKey(f.name);
        hide GoodSetting, Typed, Encoded, Plain, Showable, BareKey, RawOf;
        assert whole == [(f.name, v)] + rest && whole[0] == (f.name, v) && whole[1..] == rest;
      } else {
        assert whole == rest;
      }
    }
  }

  /** Serialization succeeds exactly for valid policies whose newer fields are defaults and whose values are plain. */
  lemma SerializesIff(st: Setting, p: Policy)
    requires GoodSetting(st)
    ensures Serialize(st, p).Ok? <==>
      && st.versionOk(p.version) && WellTyped(st, p) && st.rules(p) && NewerFieldsAreDefaults(st, p)
      && AllPlain(st.fields, SchemaOf(p.version), p.values)
  {
    if st.versionOk(p.version) && WellTyped(st, p) {
      var schema := SchemaOf(p.version);
      TextRoundTrip(p.version, "");
      var nulls := NullNames(st.fields, schema, p.values);
      NullNamesAt(st.fields, schema, p.values);
      forall n <- nulls ensures Writable(n) { BareKeysAreWritable(n); }
      ShowAllWorks(nulls);
      TextsShown(nulls);
      PairLinesWork(st, st.fields, schema, p.values);
      hide GoodSetting, ShowText, ShowTexts, Writable, SchemaOf, PairLines, Configured, AllPlain, WellTyped, NewerFieldsAreDefaults;
    }
  }

  lemma BareKeysAreWritable(s: string)
    requires BareKey(s)
    ensures Writable(s)
  {
  }

  /** The document of a serialized policy. */
  function DocumentOf(st: Setting, p: Policy): Document
    requires WellTyped(st, p)
  {
    var schema := SchemaOf(p.version);
    Document(RootOf(schema, p.version, NullNames(st.fields, schema, p.values)),
             Some(WithPairs(map[], Configured(st.fields, schema, p.values))))
  }

  lemma ParseSerialized(st: Setting, p: Policy)
    requires GoodSetting(st) && Serialize(st, p).Ok?
    ensures Parse(Serialize(st, p).value) == Ok(DocumentOf(st, p))
  {
    SerializesIff(st, p);
    var schema := SchemaOf(p.version);
    var nulls := NullNames(st.fields, schema, p.values);
    var cs := Configured(st.fields, schema, p.values);
    PairLinesWork(st, st.fields, schema, p.values);
    ConfiguredAt(st.fields, schema, p.values, "");
    var doc := Document(RootOf(schema, p.version, nulls), Some(map[]));
    PairLinesReadBack(cs, doc);
    HeadLinesReadBack(schema, p.version, nulls, PairLines(cs).value);
    HeadLinesHaveNoBreak(schema, p.version, nulls);
    var lines := HeadLines(schema, ShowText(p.version).value, ShowTexts(nulls).value) + PairLines(cs).value;
    hide GoodSetting, AllPlain, AllEncodable, HeadLines, ShowText, ShowTexts, ReadLines, WithPairs, Lines, Unlines,
         PairLines, Configured, NullNames, WellTyped, NewerFieldsAreDefaults, SchemaOf, RootOf;
    assert forall l <- lines :: '\n' !in l;
    LinesRoundTrip(lines);
  }

  /** The policy a snapshot stands for: written fields as they are, newer ones at their defaults. */
  function Projected(st: Setting, p: Policy): Policy
    requires WellTyped(st, p)
  {
    Policy(p.version, FieldsOf(st.fields, SchemaOf(p.version), p.values))
  }

  function FieldsOf(fields: seq<Field>, schema: nat, values: map<string, Value>): map<string, Value>
    requires forall f <- fields :: f.name in values
    decreases |fields|
  {
    if fields == [] then map[] else
      FieldsOf(fields[1..], schema, values)[fields[0].name := if Written(fields[0], schema) then values[fields[0].name] else fields[0].default]
  }

  lemma {:induction false} FieldsOfAt(fields: seq<Field>, schema: nat, values: map<string, Value>)
    requires DistinctNames(fields) && forall f <- fields :: f.name in values
    ensures FieldsOf(fields, schema, values).Keys == set f <- fields :: f.name
    ensures forall f <- fields :: FieldsOf(fields, schema, values)[f.name] == if Written(f, schema) then values[f.name] else f.default
    decreases |fields|
  {
    if fields != [] {
      FirstIsApart(fields);
      FieldsOfAt(fields[1..], schema, values);
      assert fields == [fields[0]] + fields[1..];
    }
  }

  lemma {:induction false} ValuesReadBack(st: Setting, fields: seq<Field>, schema: nat, values: map<string, Value>,
                                          table: map<string, Raw>, nulls: seq<string>)
    requires forall f <- fields :: f.name in values
    requires forall f <- fields ::
      FieldValue(st, f, table, nulls) == Some(if Written(f, schema) then values[f.name] else f.default)
    ensures Values(st, fields, table, nulls) == Some(FieldsOf(fields, schema, values))
    decreases |fields|
  {
    hide FieldValue;
    if fields != [] {
      assert forall f <- fields[1..] :: f in fields;
      assert fields[0] in fields;
      ValuesReadBack(st, fields[1..], schema, values, table, nulls);
    }
  }

  /** In the written document each field reads as its own value, or as the default of a newer field. */
  lemma FieldReadsBack(st: Setting, p: Policy, f: Field)
    requires GoodSetting(st) && WellTyped(st, p) && AllPlain(st.fields, SchemaOf(p.version), p.values) && f in st.fields
    ensures var schema := SchemaOf(p.version); var doc := DocumentOf(st, p);
      var nulls := NullNames(st.fields, schema, p.values);
      && FieldValue(st, f, doc.table.value, nulls) == Some(if Written(f, schema) then p.values[f.name] else f.default)
      && (f.name in doc.table.value <==> Written(f, schema) && !p.values[f.name].Null?)
      && (f.name in nulls <==> Written(f, schema) && p.values[f.name].Null?)
  {
    var schema := SchemaOf(p.version);
    var cs := Configured(st.fields, schema, p.values);
    ConfiguredAt(st.fields, schema, p.values, f.name);
    NullNamesAt(st.fields, schema, p.values);
    WithPairsAt(map[], cs, f.name);
    if !p.values[f.name].Null? { EncodedWorks(st, f, p.values[f.name]); }
    hide GoodSetting, AllPlain, Configured, NullNames, WithPairs, Decode, RawOf, Lookup, SchemaOf, Typed, Encoded, DistinctKeys;
  }

  lemma DocumentCovers(st: Setting, p: Policy)
    requires GoodSetting(st) && WellTyped(st, p) && AllPlain(st.fields, SchemaOf(p.version), p.values)
    ensures var schema := SchemaOf(p.version);
      CoversFields(st, schema, DocumentOf(st, p).table.value, NullNames(st.fields, schema, p.values))
  {
    var schema := SchemaOf(p.version);
    var nulls := NullNames(st.fields, schema, p.values);
    var table := DocumentOf(st, p).table.value;
    NullNamesAt(st.fields, schema, p.values);
    forall f <- st.fields
      ensures f.name in table <==> Written(f, schema) && !p.values[f.name].Null?
      ensures f.name in nulls <==> Written(f, schema) && p.values[f.name].Null?
    {
      FieldReadsBack(st, p, f);
    }
    forall n <- table ensures Knows(st, schema, n) {
      ConfiguredAt(st.fields, schema, p.values, n);
      WithPairsAt(map[], Configured(st.fields, schema, p.values), n);
    }
    hide Configured, NullNames, WithPairs, Lookup, SchemaOf, DocumentOf, AllPlain, GoodSetting;
    assert forall f <- st.fields :: p.values[f.name].Null? ==> f.optional;
    assert forall n <- nulls :: Knows(st, schema, n);
  }

  lemma ProjectedFields(st: Setting, p: Policy)
    requires GoodSetting(st) && HasFields(st, p) && WellTyped(st, p)
    ensures Projected(st, p).version == p.version && Projected(st, p).values.Keys == p.values.Keys
    ensures forall f <- st.fields ::
      Projected(st, p).values[f.name] == if Written(f, SchemaOf(p.version)) then p.values[f.name] else f.default
  {
    FieldsOfAt(st.fields, SchemaOf(p.version), p.values);
    hide FieldsOf, SchemaOf, Typed;
  }

  lemma ProjectionKeepsTypes(st: Setting, p: Policy)
    requires GoodSetting(st) && HasFields(st, p) && WellTyped(st, p)
    ensures WellTyped(st, Projected(st, p))
  {
    ProjectedFields(st, p);
    hide Projected, SchemaOf, Typed;
  }

  /** The projection is the same policy to Python and just as valid. */
  lemma ProjectionIsSame(st: Setting, p: Policy)
    requires GoodSetting(st) && HasFields(st, p) && WellTyped(st, p) && NewerFieldsAreDefaults(st, p)
    ensures Same(st, p, Projected(st, p)) && WellTyped(st, Projected(st, p)) && st.rules(Projected(st, p)) == st.rules(p)
    ensures forall f <- st.fields :: Written(f, SchemaOf(p.version)) ==> Projected(st, p).values[f.name] == p.values[f.name]
    ensures SchemaOf(p.version) == NEWEST_SCHEMA ==> Projected(st, p) == p
  {
    ProjectedFields(st, p);
    ProjectionKeepsTypes(st, p);
    var q := Projected(st, p);
    hide Projected, SchemaOf, WellTyped;
    forall n <- p.values ensures st.same(p.values[n], q.values[n]) {
      var f :| f in st.fields && f.name == n;
      assert st.same(p.values[n], p.values[n]);
    }
    if SchemaOf(p.version) == NEWEST_SCHEMA {
      forall n <- p.values ensures p.values[n] == q.values[n] {
        var f :| f in st.fields && f.name == n;
      }
    }
  }

  /**
   * Reading a serialized policy gives the policy back: every written field exactly, every field newer than the
   * version's schema at the default it had to equal. Policies of the newest schema come back unchanged.
   */
  lemma RoundTrip(st: Setting, p: Policy)
    requires GoodSetting(st) && HasFields(st, p) && Serialize(st, p).Ok?
    ensures Load(st, Serialize(st, p).value, p.version) == Ok(Projected(st, p))
    ensures Same(st, p, Projected(st, p))
    ensures forall f <- st.fields :: Written(f, SchemaOf(p.version)) ==> Projected(st, p).values[f.name] == p.values[f.name]
    ensures SchemaOf(p.version) == NEWEST_SCHEMA ==> Load(st, Serialize(st, p).value, p.version) == Ok(p)
  {
    SerializesIff(st, p);
    ParseSerialized(st, p);
    ProjectionIsSame(st, p);
    DocumentReads(st, p);
    hide Serialize, Parse, PolicyOf, DocumentOf, GoodSetting, HasFields, WellTyped, Projected, NewerFieldsAreDefaults, SchemaOf, Same;
  }

  lemma DocumentValues(st: Setting, p: Policy)
    requires GoodSetting(st) && WellTyped(st, p) && AllPlain(st.fields, SchemaOf(p.version), p.values)
    ensures Values(st, st.fields, DocumentOf(st, p).table.value, NullNames(st.fields, SchemaOf(p.version), p.values))
      == Some(FieldsOf(st.fields, SchemaOf(p.version), p.values))
  {
    var schema := SchemaOf(p.version);
    var nulls := NullNames(st.fields, schema, p.values);
    var table := DocumentOf(st, p).table.value;
    assert forall f <- st.fields :: f.name in p.values;
    hide GoodSetting, WellTyped, AllPlain, SchemaOf, NullNames, DocumentOf, FieldValue, Values, FieldsOf;
    forall f <- st.fields
      ensures FieldValue(st, f, table, nulls) == Some(if Written(f, schema) then p.values[f.name] else f.default)
    {
      FieldReadsBack(st, p, f);
    }
    ValuesReadBack(st, st.fields, schema, p.values, table, nulls);
  }

  lemma DocumentReads(st: Setting, p: Policy)
    requires GoodSetting(st) && HasFields(st, p) && WellTyped(st, p) && NewerFieldsAreDefaults(st, p)
    requires st.versionOk(p.version) && st.rules(p) && AllPlain(st.fields, SchemaOf(p.version), p.values)
    ensures PolicyOf(st, DocumentOf(st, p), p.version) == Ok(Projected(st, p))
  {
    var schema := SchemaOf(p.version);
    DocumentRoot(st, p);
    assert Sorting.NoRepeats(NullNames(st.fields, schema, p.values)) by { NullNamesAt(st.fields, schema, p.values); }
    assert 1 <= schema <= NEWEST_SCHEMA;
    hide GoodSetting, HasFields, WellTyped, NewerFieldsAreDefaults, AllPlain, SchemaOf, NullNames, Configured, WithPairs,
         FieldsOf, Values, FieldValue, CoversFields, Sorting.NoRepeats, Same, DocumentOf;
    DocumentCovers(st, p);
    assert WellTyped(st, Projected(st, p)) && st.rules(Projected(st, p)) by { ProjectionIsSame(st, p); }
    DocumentValues(st, p);
  }

  lemma DocumentRoot(st: Setting, p: Policy)
    requires WellTyped(st, p)
    ensures var doc := DocumentOf(st, p); var schema := SchemaOf(p.version);
      && doc.root.Keys == {"schema_version", "strategy_version", "null_fields"} && doc.table.Some?
      && doc.root["schema_version"] == RInt(schema) && doc.root["strategy_version"] == RText(p.version)
      && doc.root["null_fields"] == RTexts(NullNames(st.fields, schema, p.values))
  {
    hide SchemaOf, NullNames, Configured, WithPairs, WellTyped;
  }

  /** Two policies with the same text have the same version and the same written fields. */
  lemma SerializationIsInjective(st: Setting, p: Policy, q: Policy)
    requires GoodSetting(st) && HasFields(st, p) && HasFields(st, q)
    requires Serialize(st, p).Ok? && Serialize(st, p) == Serialize(st, q)
    ensures Projected(st, p) == Projected(st, q)
    ensures SchemaOf(p.version) == NEWEST_SCHEMA ==> p == q
  {
    RoundTrip(st, p);
    RoundTrip(st, q);
    ParseSerialized(st, p);
    ParseSerialized(st, q);
    assert DocumentOf(st, p).root["strategy_version"] == RText(p.version);
    assert DocumentOf(st, q).root["strategy_version"] == RText(q.version);
    ProjectionIsSame(st, p) by { SerializesIff(st, p); }
    ProjectionIsSame(st, q) by { SerializesIff(st, q); }
    hide Serialize, Load, DocumentOf, GoodSetting, HasFields, Projected, SchemaOf, Same;
  }

  // ---------------------------------------------------------------- any accepted text has a canonical form

  predicate WritableRaw(raw: Raw) {
    && (raw.RText? ==> Writable(raw.content))
    && (raw.RTexts? ==> forall t <- raw.items :: Writable(t))
  }

  lemma {:induction false} ReadTextIsWritable(s: string)
    ensures ReadText(s).Ok? ==> Writable(ReadText(s).value.0)
    decreases |s|
  {
    if s != "" && s[0] != '"' {
      if s[0] == '\\' {
        if |s| > 1 { ReadTextIsWritable(s[2..]); }
      } else {
        ReadTextIsWritable(s[1..]);
      }
    }
  }

  lemma {:induction false} ReadElementsAreWritable(s: string)
    ensures ReadElements(s).Ok? ==> forall t <- ReadElements(s).value.0 :: Writable(t)
    decreases |s|
  {
    var t := SkipSpaces(s);
    if t != "" && t[0] == '"' {
      ReadTextIsWritable(t[1..]);
      ReadTextShortens(t[1..]);
      if ReadText(t[1..]).Ok? {
        var rest := SkipSpaces(ReadText(t[1..]).value.1);
        if rest != "" && rest[0] == ',' { ReadElementsAreWritable(rest[1..]); }
      }
      hide ReadText, SkipSpaces, Writable;
    }
  }

  lemma ReadLineIsWritable(line: string)
    ensures ReadLine(line).Ok? && ReadLine(line).value.Pair? ==> WritableRaw(ReadLine(line).value.value)
  {
    var (key, afterKey) := ReadKey(SkipSpaces(line));
    var equals := SkipSpaces(afterKey);
    if equals != "" {
      var s := SkipSpaces(equals[1..]);
      if s != "" {
        ReadTextIsWritable(s[1..]);
        ReadElementsAreWritable(s[1..]);
      }
    }
    hide ReadText, ReadElements, SkipSpaces, ReadKey, Writable, Token, ReadInt, IsFloat;
  }

  ghost predicate WritableDocument(doc: Document) {
    doc.table.Some? ==> forall n <- doc.table.value :: WritableRaw(doc.table.value[n])
  }

  lemma {:induction false} ReadLinesAreWritable(lines: seq<string>, doc: Document)
    requires WritableDocument(doc)
    ensures ReadLines(lines, doc).Ok? ==> WritableDocument(ReadLines(lines, doc).value)
    decreases |lines|
  {
    hide ReadLine, WritableRaw;
    if lines != [] && ReadOne(lines[0], doc).Ok? {
      ReadLineIsWritable(lines[0]);
      ReadLinesAreWritable(lines[1..], ReadOne(lines[0], doc).value);
    }
  }

  lemma {:induction false} ValuesAt(st: Setting, fields: seq<Field>, table: map<string, Raw>, nulls: seq<string>)
    requires DistinctNames(fields) && Values(st, fields, table, nulls).Some?
    ensures var m := Values(st, fields, table, nulls).value;
      && m.Keys == (set f <- fields :: f.name)
      && forall f <- fields :: FieldValue(st, f, table, nulls) == Some(m[f.name])
    decreases |fields|
  {
    hide FieldValue;
    if fields != [] {
      FirstIsApart(fields);
      ValuesAt(st, fields[1..], table, nulls);
      assert fields == [fields[0]] + fields[1..];
    }
  }

  /** In an accepted document every written field is plain and every newer field is its default. */
  lemma AcceptedField(st: Setting, f: Field, schema: nat, table: map<string, Raw>, nulls: seq<string>)
    requires GoodSetting(st) && f in st.fields && CoversFields(st, schema, table, nulls)
    requires forall n <- table :: WritableRaw(table[n])
    requires FieldValue(st, f, table, nulls).Some?
    ensures var v := FieldValue(st, f, table, nulls).value;
      if Written(f, schema) then Plain(v) else v == f.default
  {
    if !Written(f, schema) {
      assert !Knows(st, schema, f.name);
    }
  }

  /**
   * Whatever accepted text a policy came from, the policy can be serialized, and its canonical text loads to it again.
   */
  lemma AcceptedTextHasCanonicalForm(st: Setting, text: string, version: string)
    requires GoodSetting(st) && Load(st, text, version).Ok?
    ensures var p := Load(st, text, version).value;
      && p.version == version && HasFields(st, p)
      && Serialize(st, p).Ok? && Load(st, Serialize(st, p).value, version) == Ok(p)
  {
    var doc := Parse(text).value;
    ReadLinesAreWritable(Lines(text), Document(map[], None));
    var p := Load(st, text, version).value;
    var schema := SchemaOf(version);
    var nulls := doc.root["null_fields"].items;
    AcceptedPolicy(st, doc, version);
    hide Parse, PolicyOf;
    SerializesIff(st, p);
    RoundTrip(st, p);
    FieldsOfAt(st.fields, schema, p.values);
    hide GoodSetting, WellTyped, Serialize, Load, AllPlain, SchemaOf, FieldsOf;
    assert Projected(st, p).values == p.values;
  }

  lemma AcceptedPolicy(st: Setting, doc: Document, version: string)
    requires GoodSetting(st) && PolicyOf(st, doc, version).Ok? && WritableDocument(doc)
    ensures var p := PolicyOf(st, doc, version).value; var schema := SchemaOf(version);
      && p.version == version && HasFields(st, p) && st.versionOk(version) && WellTyped(st, p) && st.rules(p)
      && AllPlain(st.fields, schema, p.values) && NewerFieldsAreDefaults(st, p)
      && forall f <- st.fields :: !Written(f, schema) ==> p.values[f.name] == f.default
  {
    var p := PolicyOf(st, doc, version).value;
    var schema := SchemaOf(version);
    var table := doc.table.value;
    var nulls := doc.root["null_fields"].items;
    ValuesAt(st, st.fields, table, nulls);
    forall f <- st.fields
      ensures if Written(f, schema) then Plain(p.values[f.name]) else p.values[f.name] == f.default
    {
      AcceptedField(st, f, schema, table, nulls);
    }
    hide FieldValue, Values, CoversFields, Plain, Typed, WritableRaw;
  }

  // ---------------------------------------------------------------- publishing

  class Registry {
    const setting: Setting
    var files: map<string, string>

    constructor (setting: Setting)
      ensures this.setting == setting && files == map[]
    {
      this.setting, files := setting, map[];
    }

    /** `stem` is the file name without its suffix. A different snapshot is never overwritten. */
    method WritePolicy(stem: string, p: Policy) returns (r: Result<string, Error>)
      modifies this`files
      ensures files == Published(setting, old(files), stem, p)
      ensures r.Ok? <==> stem == p.version && Serialize(setting, p).Ok? && (stem in old(files) ==> old(files)[stem] == Serialize(setting, p).value)
    {
      if stem != p.version { return Err(IDENTITY_MISMATCH); }
      var payload := Serialize(setting, p);
      if payload.Err? { return Err(payload.error); }
      if stem in files {
        return if files[stem] == payload.value then Ok(stem) else Err(ALREADY_EXISTS);
      }
      files := files[stem := payload.value];
      return Ok(stem);
    }

    method LoadPolicy(version: string) returns (r: Result<Policy, Error>)
      ensures r.Ok? <==> setting.versionOk(version) && version in files && Load(setting, files[version], version).Ok?
      ensures r.Ok? ==> r == Load(setting, files[version], version)
    {
      if !setting.versionOk(version) { return Err(INVALID_VERSION); }
      if version !in files { return Err(NOT_FOUND); }
      return Load(setting, files[version], version);
    }
  }

  function Published(st: Setting, files: map<string, string>, stem: string, p: Policy): map<string, string> {
    if stem == p.version && Serialize(st, p).Ok? && stem !in files then files[stem := Serialize(st, p).value] else files
  }

  /** Publishing never changes a published snapshot, repeating it does nothing, and the published policy loads again. */
  lemma PublishingIsImmutable(st: Setting, files: map<string, string>, stem: string, p: Policy)
    requires GoodSetting(st) && HasFields(st, p)
    ensures var after := Published(st, files, stem, p);
      && (forall v <- files :: v in after && after[v] == files[v])
      && Published(st, after, stem, p) == after
      && (stem == p.version && stem !in files && Serialize(st, p).Ok? ==>
            stem in after && Load(st, after[stem], stem) == Ok(Projected(st, p)))
  {
    hide Serialize, Load, Projected, GoodSetting, HasFields, Same, SchemaOf;
    if Serialize(st, p).Ok? {
      SerializesIff(st, p);
      hide WellTyped, NewerFieldsAreDefaults, AllPlain;
      assert Load(st, Serialize(st, p).value, p.version) == Ok(Projected(st, p)) by { RoundTrip(st, p); }
    }
  }
}
