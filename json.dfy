/** A parsed JSON body and the per-field rules Effect's `Schema` applies when it decodes
    one (`schemaBodyJson`). Every record shape of the client is built from these rules:

    - required (`Schema.String`, `Schema.Number`, `Schema.Boolean`): a missing key or a
      value of another type fails;
    - nullable (`Schema.NullOr(Schema.String)`): `null` is a value, the key is still required;
    - with a default (`optionalWith(..., { default })`): a missing key gives the default;
    - as an Option (`optionalWith(..., { as: "Option" })`): a missing key gives `None`, a
      present value `v` gives `Some(v)`, whatever `v` is;
    - arrays (`Schema.Array`): every element must decode.

    Each rule is given twice: as a predicate relating the JSON object to the decoded field
    (what the schema declares) and as a decoder function proved to agree with it. */
module Json {
  import opened Wrappers

  /** A JSON value. Numbers are integral: every numeric field of the client is a count,
      an id or a timestamp. */
  datatype Json =
    | JNull
    | JBool(b: bool)
    | JNum(n: int)
    | JStr(s: string)
    | JArr(items: seq<Json>)
    | JObj(fields: map<string, Json>)

  type Object = map<string, Json>

  /** One step of the path from the root of the body to the offending value. */
  datatype Segment = Key(name: string) | Index(i: nat)

  datatype Expected = ExpectString | ExpectNumber | ExpectBoolean | ExpectStringOrNull | ExpectArray | ExpectObject

  datatype Issue = MissingKey | TypeMismatch(expected: Expected, actual: Json)

  /** A schema validation failure (Effect's `ParseError`): where, and what was wrong. */
  datatype DecodeError = DecodeError(path: seq<Segment>, issue: Issue) {
    function Under(seg: Segment): DecodeError {
      DecodeError([seg] + path, issue)
    }
  }

  type Decoded<T> = Result<T, DecodeError>

  function Mismatch<T>(expected: Expected, actual: Json): Decoded<T> {
    Err(DecodeError([], TypeMismatch(expected, actual)))
  }

  // ---------------------------------------------------------------------------
  // The rules, as relations between a JSON object and a decoded field
  // ---------------------------------------------------------------------------

  predicate HasString(o: Object, k: string, v: string) {
    k in o && o[k] == JStr(v)
  }

  predicate HasNumber(o: Object, k: string, v: int) {
    k in o && o[k] == JNum(v)
  }

  predicate HasBoolean(o: Object, k: string, v: bool) {
    k in o && o[k] == JBool(v)
  }

  /** `Schema.NullOr(Schema.String)`: `None` stands for JSON `null`. */
  predicate HasStringOrNull(o: Object, k: string, v: Option<string>) {
    k in o && o[k] == (if v.Some? then JStr(v.value) else JNull)
  }

  predicate StringOrDefault(o: Object, k: string, v: string) {
    if k in o then o[k] == JStr(v) else v == ""
  }

  predicate StringOption(o: Object, k: string, v: Option<string>) {
    if k in o then v.Some? && o[k] == JStr(v.value) else v == None
  }

  predicate NumberOption(o: Object, k: string, v: Option<int>) {
    if k in o then v.Some? && o[k] == JNum(v.value) else v == None
  }

  /** `js` and `vs` correspond element by element under `rel`. */
  ghost predicate Each<T>(js: seq<Json>, vs: seq<T>, rel: (Json, T) -> bool) {
    |js| == |vs| && forall i | 0 <= i < |js| :: rel(js[i], vs[i])
  }

  ghost predicate HasArray<T>(o: Object, k: string, vs: seq<T>, rel: (Json, T) -> bool) {
    k in o && o[k].JArr? && Each(o[k].items, vs, rel)
  }

  ghost predicate ArrayOrEmpty<T>(o: Object, k: string, vs: seq<T>, rel: (Json, T) -> bool) {
    if k in o then o[k].JArr? && Each(o[k].items, vs, rel) else vs == []
  }

  /** `dec` is a decoder for `rel`: it never returns a value `rel` does not allow, and it
      fails only when `rel` allows no value at all. */
  ghost predicate Decodes<T(!new)>(dec: Json -> Decoded<T>, rel: (Json, T) -> bool) {
    forall j :: (dec(j).Ok? ==> rel(j, dec(j).value)) && (dec(j).Err? ==> forall v :: !rel(j, v))
  }

  // ---------------------------------------------------------------------------
  // The rules, as decoders
  // ---------------------------------------------------------------------------

  function AsString(j: Json): (r: Decoded<string>)
    ensures r.Ok? <==> j.JStr?
    ensures r.Ok? ==> j == JStr(r.value)
  {
    if j.JStr? then Ok(j.s) else Mismatch(ExpectString, j)
  }

  function AsNumber(j: Json): (r: Decoded<int>)
    ensures r.Ok? <==> j.JNum?
    ensures r.Ok? ==> j == JNum(r.value)
  {
    if j.JNum? then Ok(j.n) else Mismatch(ExpectNumber, j)
  }

  function AsBoolean(j: Json): (r: Decoded<bool>)
    ensures r.Ok? <==> j.JBool?
    ensures r.Ok? ==> j == JBool(r.value)
  {
    if j.JBool? then Ok(j.b) else Mismatch(ExpectBoolean, j)
  }

  function AsStringOrNull(j: Json): (r: Decoded<Option<string>>)
    ensures r.Ok? <==> j.JNull? || j.JStr?
    ensures r.Ok? ==> j == (if r.value.Some? then JStr(r.value.value) else JNull)
  {
    match j
    case JNull => Ok(None)
    case JStr(s) => Ok(Some(s))
    case _ => Mismatch(ExpectStringOrNull, j)
  }

  /** The value under a required key, decoded by `dec`; failures point at the key. */
  function Field<T>(o: Object, k: string, dec: Json -> Decoded<T>): (r: Decoded<T>)
    ensures r.Ok? <==> k in o && dec(o[k]).Ok?
    ensures r.Ok? ==> r.value == dec(o[k]).value
    ensures r.Err? ==> |r.error.path| >= 1 && r.error.path[0] == Key(k)
  {
    if k in o then dec(o[k]).MapError((e: DecodeError) => e.Under(Key(k)))
    else Err(DecodeError([Key(k)], MissingKey))
  }

  function RequiredString(o: Object, k: string): (r: Decoded<string>)
    ensures r.Ok? ==> HasString(o, k, r.value)
    ensures r.Err? ==> forall v :: !HasString(o, k, v)
  {
    Field(o, k, AsString)
  }

  function RequiredNumber(o: Object, k: string): (r: Decoded<int>)
    ensures r.Ok? ==> HasNumber(o, k, r.value)
    ensures r.Err? ==> forall v :: !HasNumber(o, k, v)
  {
    Field(o, k, AsNumber)
  }

  function RequiredBoolean(o: Object, k: string): (r: Decoded<bool>)
    ensures r.Ok? ==> HasBoolean(o, k, r.value)
    ensures r.Err? ==> forall v :: !HasBoolean(o, k, v)
  {
    Field(o, k, AsBoolean)
  }

  function RequiredStringOrNull(o: Object, k: string): (r: Decoded<Option<string>>)
    ensures r.Ok? ==> HasStringOrNull(o, k, r.value)
    ensures r.Err? ==> forall v :: !HasStringOrNull(o, k, v)
  {
    Field(o, k, AsStringOrNull)
  }

  function DefaultString(o: Object, k: string): (r: Decoded<string>)
    ensures r.Ok? ==> StringOrDefault(o, k, r.value)
    ensures r.Err? ==> forall v :: !StringOrDefault(o, k, v)
  {
    if k in o then Field(o, k, AsString) else Ok("")
  }

  function OptionString(o: Object, k: string): (r: Decoded<Option<string>>)
    ensures r.Ok? ==> StringOption(o, k, r.value)
    ensures r.Err? ==> forall v :: !StringOption(o, k, v)
  {
    if k in o then
      var s :- Field(o, k, AsString);
      Ok(Some(s))
    else Ok(None)
  }

  function OptionNumber(o: Object, k: string): (r: Decoded<Option<int>>)
    ensures r.Ok? ==> NumberOption(o, k, r.value)
    ensures r.Err? ==> forall v :: !NumberOption(o, k, v)
  {
    if k in o then
      var n :- Field(o, k, AsNumber);
      Ok(Some(n))
    else Ok(None)
  }

  /** Every element decoded by `elem`, in order; the first element that fails fails the
      whole array, and its index is recorded in the error. */
  function DecodeItems<T>(items: seq<Json>, elem: Json -> Decoded<T>): (r: Decoded<seq<T>>)
    ensures r.Ok? <==> forall i | 0 <= i < |items| :: elem(items[i]).Ok?
    ensures r.Ok? ==> |r.value| == |items| && forall i | 0 <= i < |items| :: r.value[i] == elem(items[i]).value
    ensures r.Err? ==> exists i | 0 <= i < |items| :: elem(items[i]).Err? && r.error == elem(items[i]).error.Under(Index(i))
  {
    if items == [] then Ok([])
    else
      var n := |items| - 1;
      var front :- DecodeItems(items[..n], elem);
      var last :- elem(items[n]).MapError((e: DecodeError) => e.Under(Index(n)));
      Ok(front + [last])
  }

  /** `Schema.Array(elem)`. */
  function AsArray<T>(j: Json, elem: Json -> Decoded<T>): (r: Decoded<seq<T>>)
    ensures r.Ok? <==> j.JArr? && forall i | 0 <= i < |j.items| :: elem(j.items[i]).Ok?
    ensures r.Ok? ==> |r.value| == |j.items| && forall i | 0 <= i < |j.items| :: r.value[i] == elem(j.items[i]).value
  {
    if j.JArr? then DecodeItems(j.items, elem) else Mismatch(ExpectArray, j)
  }

  /** A decoder for `rel` lifts to a decoder for arrays of `rel`. */
  lemma ArrayDecodes<T(!new)>(j: Json, elem: Json -> Decoded<T>, rel: (Json, T) -> bool)
    requires Decodes(elem, rel)
    ensures AsArray(j, elem).Ok? ==> j.JArr? && Each(j.items, AsArray(j, elem).value, rel)
    ensures AsArray(j, elem).Err? ==> forall vs :: !(j.JArr? && Each(j.items, vs, rel))
  {
    var r := AsArray(j, elem);
    if r.Err? && j.JArr? {
      var i :| 0 <= i < |j.items| && elem(j.items[i]).Err?;
      assert forall v :: !rel(j.items[i], v);
    }
  }

  function RequiredArray<T(!new)>(o: Object, k: string, elem: Json -> Decoded<T>, ghost rel: (Json, T) -> bool): (r: Decoded<seq<T>>)
    requires Decodes(elem, rel)
    ensures r.Ok? ==> HasArray(o, k, r.value, rel)
    ensures r.Err? ==> forall vs :: !HasArray(o, k, vs, rel)
  {
    if k in o then ArrayDecodes(o[k], elem, rel); Field(o, k, (j: Json) => AsArray(j, elem))
    else Field(o, k, (j: Json) => AsArray(j, elem))
  }

  function DefaultArray<T(!new)>(o: Object, k: string, elem: Json -> Decoded<T>, ghost rel: (Json, T) -> bool): (r: Decoded<seq<T>>)
    requires Decodes(elem, rel)
    ensures r.Ok? ==> ArrayOrEmpty(o, k, r.value, rel)
    ensures r.Err? ==> forall vs :: !ArrayOrEmpty(o, k, vs, rel)
  {
    if k in o then ArrayDecodes(o[k], elem, rel); Field(o, k, (j: Json) => AsArray(j, elem))
    else Ok([])
  }

  /** A nested record under a required key (the `MediaContainer` envelope, say). */
  function RequiredRecord<T(!new)>(o: Object, k: string, dec: Json -> Decoded<T>, ghost rel: (Json, T) -> bool): (r: Decoded<T>)
    requires Decodes(dec, rel)
    ensures r.Ok? ==> k in o && rel(o[k], r.value)
    ensures r.Err? ==> forall v :: !(k in o && rel(o[k], v))
  {
    Field(o, k, dec)
  }

  /** The fields of a record: the payload must be a JSON object. */
  function AsObject(j: Json): (r: Decoded<Object>)
    ensures r.Ok? <==> j.JObj?
    ensures r.Ok? ==> j == JObj(r.value)
  {
    if j.JObj? then Ok(j.fields) else Mismatch(ExpectObject, j)
  }

  /** A relation that gives at most one value per payload. */
  ghost predicate Functional<T(!new)>(rel: (Json, T) -> bool) {
    forall j, a, b :: rel(j, a) && rel(j, b) ==> a == b
  }

  /** Arrays of a functional relation are functional. */
  lemma EachFunctional<T(!new)>(js: seq<Json>, a: seq<T>, b: seq<T>, rel: (Json, T) -> bool)
    requires Functional(rel)
    requires Each(js, a, rel) && Each(js, b, rel)
    ensures a == b
  {
    forall i | 0 <= i < |a| ensures a[i] == b[i] {
      assert rel(js[i], a[i]) && rel(js[i], b[i]);
    }
  }

  lemma ArrayOrEmptyFunctional<T(!new)>(o: Object, k: string, a: seq<T>, b: seq<T>, rel: (Json, T) -> bool)
    requires Functional(rel)
    requires ArrayOrEmpty(o, k, a, rel) && ArrayOrEmpty(o, k, b, rel)
    ensures a == b
  {
    if k in o {
      EachFunctional(o[k].items, a, b, rel);
    }
  }

  // ---------------------------------------------------------------------------
  // Properties of the rules
  // ---------------------------------------------------------------------------

  /** Each rule determines the decoded field: the schema is a function of the payload. */
  lemma RulesAreFunctional(o: Object, k: string)
    ensures forall a, b :: HasString(o, k, a) && HasString(o, k, b) ==> a == b
    ensures forall a, b :: StringOrDefault(o, k, a) && StringOrDefault(o, k, b) ==> a == b
    ensures forall a, b :: StringOption(o, k, a) && StringOption(o, k, b) ==> a == b
    ensures forall a, b :: NumberOption(o, k, a) && NumberOption(o, k, b) ==> a == b
    ensures forall a, b :: HasStringOrNull(o, k, a) && HasStringOrNull(o, k, b) ==> a == b
  {
  }

  /** An Option field keeps falsy values: a present `0` or `""` is `Some`, never `None`. */
  lemma OptionKeepsFalsyValues(o: Object, k: string)
    requires k in o
    ensures o[k] == JNum(0) ==> OptionNumber(o, k) == Ok(Some(0))
    ensures o[k] == JStr("") ==> OptionString(o, k) == Ok(Some(""))
  {
  }

  /** A missing key: `""` for a defaulted string, `[]` for a defaulted array, `None` for
      an Option field, and a failure naming the key for a required one. */
  lemma MissingKeyRules<T(!new)>(o: Object, k: string, elem: Json -> Decoded<T>, rel: (Json, T) -> bool)
    requires k !in o
    requires Decodes(elem, rel)
    ensures DefaultString(o, k) == Ok("")
    ensures DefaultArray(o, k, elem, rel) == Ok([])
    ensures OptionString(o, k) == Ok(None) && OptionNumber(o, k) == Ok(None)
    ensures RequiredString(o, k) == Err(DecodeError([Key(k)], MissingKey))
    ensures RequiredNumber(o, k) == Err(DecodeError([Key(k)], MissingKey))
    ensures RequiredBoolean(o, k) == Err(DecodeError([Key(k)], MissingKey))
    ensures RequiredStringOrNull(o, k) == Err(DecodeError([Key(k)], MissingKey))
  {
  }

  /** `null` is a value only for a nullable field; an Option or defaulted field rejects it. */
  lemma NullOnlyWhereNullable(o: Object, k: string)
    requires k in o && o[k] == JNull
    ensures RequiredStringOrNull(o, k) == Ok(None)
    ensures RequiredString(o, k).Err? && DefaultString(o, k).Err?
    ensures OptionString(o, k).Err? && OptionNumber(o, k).Err?
  {
  }
}
