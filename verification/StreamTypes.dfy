/** Canonical stream events and the frames they are printed as (proxy/codec/stream.go). */
module StreamTypes {
  import opened Wrappers
  import opened Json
  import opened Canonical

  datatype StreamEvent =
    | Start(id: string, model: string, usage: Option<Usage>)
    | ContentStart(index: int, content: Content)
    | ContentDelta(index: int, content: Content, argumentsDelta: string)
    | ContentStop(index: int)
    | Done(stopReason: string, usage: Option<Usage>)

  // The data of a frame: the literal [DONE], a JSON text, or something that is not JSON.
  datatype Data = DoneMark | Tree(json: Json) | Garbage

  datatype Event = Event(name: string, data: Data)

  // A named frame whose object repeats its name under "type".
  function Frame(name: string, fields: map<string, Json>): Event {
    Event(name, Tree(Obj(fields["type" := Str(name)])))
  }

  // Unmarshalling into a Go map accepts an object and null only.
  function Unmarshal(data: Data): Option<Json> {
    if data.Tree? && (data.json.Obj? || data.json.Null?) then Some(data.json) else None
  }

  function TypeName(event: Event, value: Json): string {
    if event.name == "" then StringOr(Get(value, "type")) else event.name
  }

  datatype Failure = BadJson | UnsupportedBlock | UpstreamFailed

  // What one decoding step leaves: the new state and the events it emitted.
  datatype Decoded<+S> = Decoded(state: S, events: seq<StreamEvent>) | Failed(failure: Failure)

  // A frame with the order in which the map walk made while handling it visits the keys.
  datatype Delivery = Delivery(event: Event, walk: seq<int>)

  function Events(ds: seq<Delivery>): seq<Event> {
    seq(|ds|, i requires 0 <= i < |ds| => ds[i].event)
  }

  // An identifier with the wanted prefix is kept, any other is replaced by a generated one.
  function EnsureID(value: string, prefix: string, generated: string): string {
    if value != "" && prefix + "_" <= value then value else generated
  }

  // The events WriteResponseStream feeds its encoder for the first n items.
  function ContentEvents(contents: seq<Content>, n: nat, text: JsonText): seq<StreamEvent>
    requires n <= |contents|
  {
    if n == 0 then []
    else ContentEvents(contents, n - 1, text) + ItemEvents(contents[n - 1], n - 1, text)
  }

  function ItemEvents(c: Content, index: int, text: JsonText): seq<StreamEvent> {
    if c.kind == ToolCallType then
      [ContentStart(index, c.(text := "", arguments := EMPTY_OBJECT)),
       ContentDelta(index, c.(arguments := Null), text.marshal(c.arguments)),
       ContentStop(index)]
    else
      [ContentStart(index, c.(text := "")), ContentDelta(index, c, ""), ContentStop(index)]
  }

  function ResponseEvents(r: Response, text: JsonText): seq<StreamEvent> {
    [Start(r.id, r.model, r.usage)] + ContentEvents(r.content, |r.content|, text) + [Done(r.stopReason, r.usage)]
  }
}
