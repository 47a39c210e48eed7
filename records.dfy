/** The data the fake request service fabricates: raw request records, the
    messages they carry, and the failures the service can raise. */
module Records {

  /** Record identifiers are the property names of the raw request cache. */
  type Id = string

  datatype Option<T> = None | Some(value: T)

  /** A value produced by JSON.parse. */
  datatype Json =
    | JNull
    | JBool(b: bool)
    | JNumber(n: int)
    | JString(s: string)
    | JArray(items: seq<Json>)
    | JObject(members: seq<(string, Json)>)

  /** JSON.parse, taken as a parameter: None stands for the SyntaxError it throws. */
  type Parser = string -> Option<Json>

  /** A message payload: absent, still the JSON text the generator produced,
      or the value that text was parsed into. */
  datatype Payload = NoPayload | Text(text: string) | Parsed(value: Json)

  /** The `indices` and `abstract` fields of a message: absent, or a collection
      with the given entries. */
  datatype Annotation = Absent | Present(entries: seq<string>)

  /** lodash's isEmpty on such a field: absent or without entries. */
  predicate IsEmpty(a: Annotation) {
    a.Absent? || |a.entries| == 0
  }

  /** A message: its payload, its `indices`, its `abstract` and the other
      fields the generator fills in. */
  datatype Message = Message(
    payload: Payload,
    indices: Annotation,
    abstractInfo: Annotation,
    fields: map<string, string>)

  /** The `request` part of a raw record: its messages and its other fields. */
  datatype Request = Request(messages: seq<Message>, fields: map<string, string>)

  /** A raw generated record: its id, the time offset (in seconds from now) it
      was generated for, its `request`, and its own `messages` list. */
  datatype RawRequest = RawRequest(
    id: Id,
    offset: int,
    request: Request,
    messages: seq<Message>)

  /** The two fatal conditions of the service: a payload JSON.parse rejects,
      and a detail requested for an id that no summary produced. */
  datatype Error = MalformedPayload | UnknownDetail(id: Id)

  datatype Result<T> = Ok(value: T) | Err(error: Error)
}
