/** An abstract view of the JSON documents and HTTP replies the REST clients
    exchange with the Kafka REST proxy and the schema registry.  Parsing and
    serialisation are not modelled: a reply carries its already parsed body,
    or None when the body is not valid JSON.  The accessors follow Qt's
    QJsonValue conversions: a missing key or a value of the wrong kind reads
    as the empty string, zero, the empty array or the empty object.
    Numbers are integers only: a number with a fraction, which toInt would
    read as 0, is not represented. */
module Json {

  datatype Option<+T> = None | Some(value: T)

  type int32 = x: int | -0x8000_0000 <= x < 0x8000_0000

  datatype Json =
    | Null
    | Bool(b: bool)
    | Num(n: int)
    | Str(s: string)
    | Arr(items: seq<Json>)
    | Obj(fields: map<string, Json>)

  /** A finished REST call: HTTP status, the body read as JSON (None when it
      does not parse), the body read as text, and whether the network layer
      reported an error. */
  datatype Reply = Reply(status: int, json: Option<Json>, text: string, networkError: bool)

  /** A message reported to the user: plain text, or a prefix followed by a
      document rendered as JSON text (QJsonDocument::toJson). */
  datatype Report = Plain(text: string) | WithJson(prefix: string, doc: Json)

  /** A request as the clients build it (QNetworkRequest): the URL, the
      Content-Type header, and the Accept header when one is set. */
  datatype Request = Request(url: string, contentType: string, accept: Option<string>)

  /** QRestReply::isHttpStatusSuccess: a 2xx status. */
  predicate IsHttpSuccess(status: int)
  {
    200 <= status < 300
  }

  /** obj[key] */
  function Field(o: map<string, Json>, key: string): (v: Json)
    ensures key !in o ==> v == Null
    ensures key in o ==> v == o[key]
  {
    if key in o then o[key] else Null
  }

  /** QJsonValue::toString */
  function AsString(v: Json): string
  {
    if v.Str? then v.s else ""
  }

  /** QJsonValue::toInt: a number that fits in 32 bits, otherwise 0. */
  function AsInt(v: Json): int32
  {
    if v.Num? && -0x8000_0000 <= v.n < 0x8000_0000 then v.n else 0
  }

  /** QJsonValue::toBool */
  function AsBool(v: Json): bool
  {
    v.Bool? && v.b
  }

  /** QJsonValue::toArray */
  function AsArray(v: Json): seq<Json>
  {
    if v.Arr? then v.items else []
  }

  /** QJsonValue::toObject and QJsonDocument::object */
  function AsObject(v: Json): map<string, Json>
  {
    if v.Obj? then v.fields else map[]
  }

  /** QJsonDocument::operator[](key): a key of the top-level object, or an
      undefined value when the document is not an object. */
  function DocField(doc: Json, key: string): Json
  {
    Field(AsObject(doc), key)
  }

  function StrField(o: map<string, Json>, key: string): string
  {
    AsString(Field(o, key))
  }

  function IntField(o: map<string, Json>, key: string): int32
  {
    AsInt(Field(o, key))
  }

  /** The loop every list handler runs: one converted element per item of
      the reply's array, in order. */
  method MapItems<T>(items: seq<Json>, convert: Json -> T) returns (out: seq<T>)
    ensures |out| == |items|
    ensures forall i :: 0 <= i < |items| ==> out[i] == convert(items[i])
  {
    out := [];
    var i := 0;
    while i < |items|
      invariant 0 <= i <= |items|
      invariant |out| == i
      invariant forall j :: 0 <= j < i ==> out[j] == convert(items[j])
    {
      out := out + [convert(items[i])];
      i := i + 1;
    }
  }
}
