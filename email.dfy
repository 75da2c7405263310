/**
 * Reading one archived email file: parse its JSON, look up the id, sender,
 * internal date and body, and decode the body from URL-safe base64 and
 * UTF-8. Any failure here is not caught by the batch: it ends the run.
 * JSON parsing and the base64/UTF-8 decoding are library calls, modelled as
 * the two partial functions of `Decoders`.
 */
module Email {
  import opened Wrappers

  /** A parsed JSON value (numbers are integers in this model). */
  datatype JsonValue =
    | JNull
    | JBool(b: bool)
    | JNumber(n: int)
    | JString(s: string)
    | JArray(items: seq<JsonValue>)
    | JObject(members: map<string, JsonValue>)

  /** `json.loads`, and `base64.urlsafe_b64decode` followed by UTF-8 decoding; `None` is the library's exception. */
  datatype Decoders = Decoders(
    jsonLoads: string -> Option<JsonValue>,
    decodeBody: string -> Option<string>)

  /** The fields of one email the batch uses. */
  datatype Envelope = Envelope(id: JsonValue, sender: JsonValue, internalDate: JsonValue, body: string)

  /** The exceptions of reading an email file. */
  datatype EnvelopeError =
    | MalformedJson            // json.loads raised
    | NotSubscriptable         // the document is not an object, so `content[key]` raises TypeError
    | MissingKey(key: string)  // KeyError
    | BodyNotText              // the body is not a string, so `.encode` raises AttributeError
    | BodyNotAscii             // `.encode('ascii')` raised
    | MalformedBody            // base64 or UTF-8 decoding raised

  /** The keys looked up, in the order the script looks them up. */
  const EnvelopeKeys: seq<string> := ["id", "from", "internal_date", "body"]

  /** `content[key]` on a parsed document. */
  function Lookup(content: JsonValue, key: string): (r: Result<JsonValue, EnvelopeError>)
    ensures r.Success? <==> content.JObject? && key in content.members
    ensures r.Success? ==> r.value == content.members[key]
    ensures r.Failure? ==> r.error == if content.JObject? then MissingKey(key) else NotSubscriptable
  {
    if !content.JObject? then Failure(NotSubscriptable)
    else if key in content.members then Success(content.members[key])
    else Failure(MissingKey(key))
  }

  predicate IsAscii(s: string)
  {
    forall i :: 0 <= i < |s| ==> s[i] < 128 as char
  }

  /** The conditions under which an email file can be read, stated all at once. */
  predicate Readable(d: Decoders, text: string)
  {
    && d.jsonLoads(text).Some?
    && d.jsonLoads(text).value.JObject?
    && (forall k :: k in EnvelopeKeys ==> k in d.jsonLoads(text).value.members)
    && d.jsonLoads(text).value.members["body"].JString?
    && IsAscii(d.jsonLoads(text).value.members["body"].s)
    && d.decodeBody(d.jsonLoads(text).value.members["body"].s).Some?
  }

  /** Lines 49-53: parse the file, look up the four keys in order and decode the body. */
  function DecodeEnvelope(d: Decoders, text: string): (r: Result<Envelope, EnvelopeError>)
    ensures r.Success? <==> Readable(d, text)
    ensures r.Success? ==>
              var m := d.jsonLoads(text).value.members;
              r.value == Envelope(m["id"], m["from"], m["internal_date"], d.decodeBody(m["body"].s).value)
    ensures r.Failure? && r.error.MissingKey? ==>
              d.jsonLoads(text).Some? && d.jsonLoads(text).value.JObject?
    ensures r.Failure? && r.error.MissingKey? ==>
              exists i :: 0 <= i < |EnvelopeKeys| && EnvelopeKeys[i] == r.error.key &&
                          EnvelopeKeys[i] !in d.jsonLoads(text).value.members &&
                          forall j :: 0 <= j < i ==> EnvelopeKeys[j] in d.jsonLoads(text).value.members
  {
    match d.jsonLoads(text)
    case None => Failure(MalformedJson)
    case Some(content) =>
      assert EnvelopeKeys[0] == "id" && EnvelopeKeys[1] == "from";
      assert EnvelopeKeys[2] == "internal_date" && EnvelopeKeys[3] == "body";
      var id :- Lookup(content, "id");
      var sender :- Lookup(content, "from");
      var internalDate :- Lookup(content, "internal_date");
      var body :- Lookup(content, "body");
      if !body.JString? then Failure(BodyNotText)
      else if !IsAscii(body.s) then Failure(BodyNotAscii)
      else match d.decodeBody(body.s)
        case None => Failure(MalformedBody)
        case Some(decoded) => Success(Envelope(id, sender, internalDate, decoded))
  }
}
