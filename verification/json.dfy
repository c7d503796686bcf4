/**
  The structured-serialization layer the runtime leans on (serde with serde_json),
  modelled on JSON values rather than on JSON text. The byte-level parser is a
  parameter; what is modelled here is what serde's derived `Serialize` and
  `Deserialize` do for the plain structs of the runtime and of the example
  (structs whose fields are all strings).
*/
module Json {
  import opened Results

  newtype byte = x: int | 0 <= x < 256

  /** The raw contents of a file: what `fs::read` returns and `from_slice` consumes. */
  type Bytes = seq<byte>

  /** A JSON document. Object entries keep their order and may repeat a key,
      as they may in the text a parser reads. */
  datatype Json =
    | Null
    | Bool(b: bool)
    | Number(n: int)
    | Str(s: string)
    | Array(items: seq<Json>)
    | Object(entries: seq<(string, Json)>)

  /** `serde_json::Error`, by the kind of failure it reports. */
  datatype JsonError =
    | Syntax(message: string)          // the bytes are not a JSON document
    | InvalidType(expected: string)    // a value of the wrong JSON kind
    | InvalidLength(expected: string)  // an array with too few or too many elements
    | MissingField(field: string)      // a struct field absent from the object
    | DuplicateField(field: string)    // a struct field given twice
    | Custom(message: string)          // raised by a hand-written Serialize impl
  {
    /** The `Display` rendering, without the line and column serde_json appends. */
    function Display(): (text: string) {
      match this
      case Syntax(m) => m
      case InvalidType(e) => "invalid type, expected " + e
      case InvalidLength(e) => "invalid length, expected " + e
      case MissingField(f) => "missing field `" + f + "`"
      case DuplicateField(f) => "duplicate field `" + f + "`"
      case Custom(m) => m
    }
  }

  /** `serde_json::from_slice::<A>`. serde_json reads the text and builds the
      `A` in one pass and then checks that only whitespace follows the value.
      Here `parse` stands for every error that pass and that final check
      report apart from the typed reading: syntax errors found before a
      complete value has been read (so it may report a type error ahead of a
      syntax error later in the text) and trailing characters after it.
      `deserialize` stands for the typed reading of the value. */
  function FromSlice<A>(parse: Bytes -> Result<Json, JsonError>,
                        deserialize: Json -> Result<A, JsonError>,
                        bytes: Bytes): (r: Result<A, JsonError>)
    ensures parse(bytes).Err? ==> r == Err(parse(bytes).error)
    ensures parse(bytes).Ok? ==> r == deserialize(parse(bytes).value)
  {
    match parse(bytes)
    case Err(e) => Err(e)
    case Ok(j) => deserialize(j)
  }

  /** No field name occurs twice, as in any Rust struct. */
  predicate Distinct(names: seq<string>) {
    forall i, j :: 0 <= i < j < |names| ==> names[i] != names[j]
  }

  /** The keys of an object's entries, in order. */
  function Keys(entries: seq<(string, Json)>): (ks: seq<string>)
    ensures |ks| == |entries|
    ensures forall i :: 0 <= i < |entries| ==> ks[i] == entries[i].0
  {
    seq(|entries|, i requires 0 <= i < |entries| => entries[i].0)
  }

  /** Derived `Serialize` of a struct whose fields are all strings: an object
      with one entry per field, keyed by the (renamed) field name, in
      declaration order. It cannot fail. */
  function SerializeStruct(names: seq<string>, values: seq<string>): (j: Json)
    requires |names| == |values|
    ensures j.Object? && Keys(j.entries) == names
    ensures forall i :: 0 <= i < |names| ==> j.entries[i].1 == Str(values[i])
  {
    Object(seq(|names|, i requires 0 <= i < |names| => (names[i], Str(values[i]))))
  }

  /** Derived `Deserialize` of a struct whose fields, named `names`, are all
      strings. serde accepts the struct written as an object (visit_map) or as
      an array of its fields in order (visit_seq); any other value is rejected. */
  function DeserializeStruct(j: Json, names: seq<string>): (r: Result<seq<string>, JsonError>)
    ensures r.Ok? ==> |r.value| == |names|
    ensures j.Object? ==> r == VisitMap(j.entries, names, seq(|names|, _ => None))
    ensures j.Array? ==> r == VisitSeq(j.items, |names|)
    ensures !j.Object? && !j.Array? ==> r == Err(InvalidType("a struct"))
    ensures j.Array? ==> (r.Ok? <==> |j.items| == |names| && forall k :: 0 <= k < |j.items| ==> j.items[k].Str?)
  {
    match j
    case Object(entries) => VisitMap(entries, names, seq(|names|, _ => None))
    case Array(items) => VisitSeq(items, |names|)
    case _ => Err(InvalidType("a struct"))
  }

  /** The position of `key` among `names`, or `|names|` when it is not a field. */
  function IndexOf(names: seq<string>, key: string): (i: nat)
    ensures i <= |names|
    ensures i < |names| ==> names[i] == key
    ensures forall k :: 0 <= k < i ==> names[k] != key
  {
    if names == [] then 0
    else if names[0] == key then 0
    else 1 + IndexOf(names[1..], key)
  }

  /** The derived visitor over an object's entries, in order. `seen[i]` holds
      the value already read for field `i`. An unknown key is skipped; a field
      must hold a string and may appear only once. On success, every entry
      whose key is a field held a string, no field was given twice (neither
      among the entries nor after being seen), a field already seen keeps its
      value, and a field given by an entry takes that entry's string. */
  function VisitMap(entries: seq<(string, Json)>, names: seq<string>,
                    seen: seq<Option<string>>): (r: Result<seq<string>, JsonError>)
    requires |seen| == |names|
    ensures r.Ok? ==> |r.value| == |names|
    ensures r.Ok? ==> forall k :: 0 <= k < |entries| && entries[k].0 in names ==> entries[k].1.Str?
    ensures r.Ok? ==> forall k1, k2 :: 0 <= k1 < k2 < |entries| && entries[k1].0 in names ==>
                        entries[k1].0 != entries[k2].0
    ensures r.Ok? ==> forall k :: 0 <= k < |entries| && entries[k].0 in names ==>
                        seen[IndexOf(names, entries[k].0)].None?
    ensures r.Ok? ==> forall i :: 0 <= i < |names| && seen[i].Some? ==> r.value[i] == seen[i].value
    ensures r.Ok? ==> forall k :: 0 <= k < |entries| && entries[k].0 in names ==>
                        r.value[IndexOf(names, entries[k].0)] == entries[k].1.s
    ensures r.Ok? ==> forall i :: 0 <= i < |names| ==>
                        seen[i].Some? || exists k :: 0 <= k < |entries| && entries[k].0 == names[i]
    decreases |entries|
  {
    if entries == [] then Collect(names, seen)
    else
      var i := IndexOf(names, entries[0].0);
      if i == |names| then VisitMap(entries[1..], names, seen)
      else if seen[i].Some? then Err(DuplicateField(names[i]))
      else
        match entries[0].1
        case Str(s) => VisitMap(entries[1..], names, seen[i := Some(s)])
        case _ => Err(InvalidType("a string"))
  }

  /** The converse of `VisitMap`'s contract: the visit succeeds when every
      entry naming a field holds a string for a field not yet seen, no field
      is named twice, and every field is either seen or named, whatever the
      order of the entries and wherever unknown keys stand. */
  lemma {:induction false} VisitMapAccepts(entries: seq<(string, Json)>, names: seq<string>,
                                           seen: seq<Option<string>>)
    requires |seen| == |names| && Distinct(names)
    requires forall k :: 0 <= k < |entries| && entries[k].0 in names ==>
               entries[k].1.Str? && seen[IndexOf(names, entries[k].0)].None?
    requires forall k1, k2 :: 0 <= k1 < k2 < |entries| && entries[k1].0 in names ==>
               entries[k1].0 != entries[k2].0
    requires forall i :: 0 <= i < |names| ==>
               seen[i].Some? || exists k :: 0 <= k < |entries| && entries[k].0 == names[i]
    ensures VisitMap(entries, names, seen).Ok?
    decreases |entries|
  {
    if entries == [] {
      assert forall i :: 0 <= i < |seen| ==> seen[i].Some?;
    } else {
      var rest := entries[1..];
      var key := entries[0].0;
      var i := IndexOf(names, key);
      var seen' := if i == |names| then seen else seen[i := Some(entries[0].1.s)];
      forall f | 0 <= f < |names| && seen'[f].None?
        ensures exists k :: 0 <= k < |rest| && rest[k].0 == names[f]
      {
        var k :| 0 <= k < |entries| && entries[k].0 == names[f];
        assert rest[k - 1].0 == names[f];
      }
      forall k | 0 <= k < |rest| && rest[k].0 in names
        ensures rest[k].1.Str? && seen'[IndexOf(names, rest[k].0)].None?
      {
        assert rest[k] == entries[k + 1];
        if i < |names| {
          assert key in names;
          assert entries[0].0 != entries[k + 1].0;
        }
      }
      forall k1, k2 | 0 <= k1 < k2 < |rest| && rest[k1].0 in names
        ensures rest[k1].0 != rest[k2].0
      {
        assert rest[k1] == entries[k1 + 1] && rest[k2] == entries[k2 + 1];
      }
      VisitMapAccepts(rest, names, seen');
    }
  }

  /** An entry whose key is not a field is skipped whatever it holds: it
      neither fails the visit nor changes what is read. */
  lemma VisitMapSkipsUnknownKey(entries: seq<(string, Json)>, names: seq<string>,
                                seen: seq<Option<string>>, key: string, v: Json)
    requires |seen| == |names| && key !in names
    ensures VisitMap([(key, v)] + entries, names, seen) == VisitMap(entries, names, seen)
  {
  }

  /** End of the object: every field must have been seen; the first missing
      one, in declaration order, is reported. */
  function Collect(names: seq<string>, seen: seq<Option<string>>): (r: Result<seq<string>, JsonError>)
    requires |seen| == |names|
    ensures r.Ok? <==> forall i :: 0 <= i < |seen| ==> seen[i].Some?
    ensures r.Ok? ==> |r.value| == |names|
    ensures r.Ok? ==> forall i :: 0 <= i < |seen| ==> seen[i] == Some(r.value[i])
    ensures r.Err? ==> exists i :: 0 <= i < |names| && seen[i].None? && r.error == MissingField(names[i])
                                && forall k :: 0 <= k < i ==> seen[k].Some?
  {
    if names == [] then Ok([])
    else if seen[0].None? then Err(MissingField(names[0]))
    else
      match Collect(names[1..], seen[1..])
      case Ok(rest) => Ok([seen[0].value] + rest)
      case Err(e) => Err(e)
  }

  /** The derived visitor over an array: element `k` is field `k` and must be a
      string; too few elements, or elements left over, is an invalid length. */
  function VisitSeq(items: seq<Json>, fields: nat): (r: Result<seq<string>, JsonError>)
    ensures r.Ok? <==> |items| == fields && forall k :: 0 <= k < |items| ==> items[k].Str?
    ensures r.Ok? ==> |r.value| == fields && forall k :: 0 <= k < fields ==> items[k] == Str(r.value[k])
    decreases fields
  {
    if fields == 0 then
      if items == [] then Ok([]) else Err(InvalidLength("fewer elements in array"))
    else if items == [] then Err(InvalidLength("a struct with more elements"))
    else
      match items[0]
      case Str(s) =>
        (match VisitSeq(items[1..], fields - 1)
         case Ok(rest) => Ok([s] + rest)
         case Err(e) => Err(e))
      case _ => Err(InvalidType("a string"))
  }

  /** The fields `0 .. k-1` already read with their values, the rest not yet. */
  function SeenUpTo(values: seq<string>, k: nat): (seen: seq<Option<string>>)
    ensures |seen| == |values|
  {
    seq(|values|, i requires 0 <= i < |values| => if i < k then Some(values[i]) else None)
  }

  /** Visiting the remaining entries of a serialized struct reads every
      remaining field into its own slot. */
  lemma {:induction false} VisitSerializedEntries(names: seq<string>, values: seq<string>, k: nat)
    requires |names| == |values| && Distinct(names) && k <= |names|
    ensures VisitMap(SerializeStruct(names, values).entries[k..], names, SeenUpTo(values, k)) == Ok(values)
    decreases |names| - k
  {
    var entries := SerializeStruct(names, values).entries;
    if k == |names| {
      assert entries[k..] == [];
      var r := Collect(names, SeenUpTo(values, k));
      assert r.Ok? && r.value == values by {
        assert forall i :: 0 <= i < |values| ==> SeenUpTo(values, k)[i] == Some(values[i]);
      }
    } else {
      assert entries[k..][0] == (names[k], Str(values[k]));
      assert entries[k..][1..] == entries[k + 1..];
      assert IndexOf(names, names[k]) == k;
      assert SeenUpTo(values, k)[k := Some(values[k])] == SeenUpTo(values, k + 1);
      VisitSerializedEntries(names, values, k + 1);
    }
  }

  /** Serializing a struct of strings and deserializing the result gives the
      same field values back: derived `Serialize` and `Deserialize` agree. */
  lemma StructRoundTrip(names: seq<string>, values: seq<string>)
    requires |names| == |values| && Distinct(names)
    ensures DeserializeStruct(SerializeStruct(names, values), names) == Ok(values)
  {
    var entries := SerializeStruct(names, values).entries;
    assert entries[0..] == entries;
    assert SeenUpTo(values, 0) == seq(|names|, _ => None);
    VisitSerializedEntries(names, values, 0);
  }
}
