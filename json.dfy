/**
  The JSON values the handler reads from the cache, receives from the npm
  registry and serialises into response bodies. Values are abstract: the text
  form that JSON.parse reads and JSON.stringify writes is not modelled, and an
  object is a map from property name to value, so property order is not kept.
 */
module Json {
  import opened Wrappers

  datatype Json =
    | JNull
    | JBool(b: bool)
    | JNumber(n: real)
    | JString(s: string)
    | JArray(items: seq<Json>)
    | JObject(fields: map<string, Json>)

  /** The property of a package document that holds inline tarball data. */
  const Attachments: string := "_attachments"

  const EmptyObject: Json := JObject(map[])

  /** The body `{"error": message}` of every failure response. */
  function ErrorBody(message: string): Json {
    JObject(map["error" := JString(message)])
  }

  /** `body` is the document `m` with its attachments replaced by `{}` and every other property as it was. */
  ghost predicate Stripped(m: map<string, Json>, body: Json) {
    && body.JObject?
    && body.fields.Keys == m.Keys + {Attachments}
    && body.fields[Attachments] == EmptyObject
    && forall k :: k in m && k != Attachments ==> body.fields[k] == m[k]
  }

  /**
    The value JSON.stringify sees after the strict-mode assignment
    `v._attachments = {}`, or None when that assignment throws a TypeError.
    An object gets the property (added or overwritten). An array accepts it,
    but JSON.stringify writes only an array's elements, so the serialised
    value is the array unchanged. On null, a boolean, a number or a string the
    assignment throws.
   */
  function ClearAttachments(v: Json): (r: Option<Json>)
    ensures r.Some? <==> v.JObject? || v.JArray?
    ensures v.JObject? ==> Stripped(v.fields, r.value)
    ensures v.JArray? ==> r == Some(v)
  {
    match v
    case JObject(fields) => Some(JObject(fields[Attachments := EmptyObject]))
    case JArray(_) => Some(v)
    case _ => None
  }

  /** A parsed object whose attachments are already `{}` comes back unchanged. */
  lemma ClearAttachmentsKeepsCleared(v: Json)
    requires v.JObject? && Attachments in v.fields && v.fields[Attachments] == EmptyObject
    ensures ClearAttachments(v) == Some(v)
  {
    assert v.fields[Attachments := EmptyObject] == v.fields;
  }
}
