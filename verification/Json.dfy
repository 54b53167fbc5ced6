/** JSON trees as `encoding/json` hands them to the codec, with the codec's untyped accessors. */
module Json {
  import opened Wrappers

  // A number is either integral or not; objects are finite maps from keys to values.
  datatype Json =
    | Null
    | Bool(b: bool)
    | Num(n: int)
    | Frac(r: real)
    | Str(s: string)
    | Arr(items: seq<Json>)
    | Obj(fields: map<string, Json>)

  // Go's map[string]any used for tool arguments: a map, or nil.
  type Arguments = j: Json | j.Obj? || j.Null? witness Null

  const EMPTY_OBJECT: Arguments := Obj(map[])

  /** The text side of JSON, kept abstract: printing, reading the first value of a text, and `%v`. */
  datatype JsonText = JsonText(marshal: Json -> string, parse: string -> Option<Json>, format: Json -> string)

  // Indexing a Go map that may be nil: a missing key and a non-object both read as nil.
  function Get(j: Json, key: string): Json {
    if j.Obj? && key in j.fields then j.fields[key] else Null
  }

  function StringValue(j: Json): Option<string> {
    if j.Str? then Some(j.s) else None
  }

  // The string, or "" where the source drops the ok flag.
  function StringOr(j: Json): string {
    if j.Str? then j.s else ""
  }

  // The integer where the source drops the ok flag: a fraction is truncated toward zero.
  function IntOr(j: Json): int {
    match j
    case Num(n) => n
    case Frac(r) => if r < 0.0 then -((-r).Floor) else r.Floor
    case _ => 0
  }

  /** A fraction counts what is left of it toward zero, and what is no number counts nothing. */
  lemma {:induction false} FractionsAreCut(j: Json)
    ensures match j
            case Num(n) => IntOr(j) == n
            case Frac(r) =>
              if r < 0.0 then IntOr(j) <= 0 && IntOr(j) as real - 1.0 < r <= IntOr(j) as real
              else IntOr(j) >= 0 && IntOr(j) as real <= r < IntOr(j) as real + 1.0
            case _ => IntOr(j) == 0
  {
  }

  function BoolOr(j: Json): bool {
    j.Bool? && j.b
  }

  function ParseArguments(value: Json, text: JsonText): Option<Arguments> {
    match value
    case Obj(_) => Some(value)
    case Str(s) =>
      var parsed := text.parse(s);
      if parsed.Some? && (parsed.value.Obj? || parsed.value.Null?) then Some(parsed.value) else None
    case _ => None
  }

  // A value spells some arguments: it is the object, or a text that parses to them.
  predicate Spells(value: Json, arguments: Arguments, text: JsonText) {
    (value.Obj? && value == arguments) || (value.Str? && text.parse(value.s) == Some(arguments))
  }

  /** Arguments are what a value spells, and there are none exactly when it spells nothing. */
  lemma {:induction false} ArgumentsAreSpelled(value: Json, arguments: Arguments, text: JsonText)
    ensures ParseArguments(value, text) == Some(arguments) <==> Spells(value, arguments, text)
  {
  }

  // Parsing the marshalled arguments gives them back.
  ghost predicate Survives(arguments: Arguments, text: JsonText) {
    Spells(Str(text.marshal(arguments)), arguments, text)
  }
}
