/**
 The JSON values that travel in envelopes, at the level of detail the server
 relies on. Parsing and serialisation are not modelled: a frame is represented
 by what its parse yields, a JSON object or something else. Objects produced by
 handlers are opaque tokens, because the handlers that build them are not part
 of this model.
 */
module Json {

  datatype Value =
    | Undefined                 // what a lookup of a missing member or index yields
    | Null
    | Bool(b: bool)
    | Number(n: int)
    | Str(s: string)
    | Array(items: seq<Value>)
    | Object(token: nat)        // a handler-built object, compared by identity only

  /** The outcome of parsing one inbound frame. */
  datatype Document = NotObject | JsonObject(members: map<string, Value>)

  /** Member lookup on an object: a missing member reads as Undefined. */
  function Member(members: map<string, Value>, key: string): Value
  {
    if key in members then members[key] else Undefined
  }

  /** Conversion of a value to a string: anything but a string reads as "". */
  function AsString(v: Value): string
  {
    if v.Str? then v.s else ""
  }

  /** Conversion of a value to an array: anything but an array reads as []. */
  function AsArray(v: Value): seq<Value>
  {
    if v.Array? then v.items else []
  }

  /** Conversion of a value to an object: anything but an object reads as the empty object. */
  function AsObject(v: Value): Value
  {
    if v.Object? then v else EmptyObject
  }

  /** Conversion of a value to a boolean: anything but a boolean reads as false. */
  function AsBool(v: Value): bool
  {
    if v.Bool? then v.b else false
  }

  /** Whether `n` fits the 32-bit signed `int` that integer arguments are converted to. */
  predicate IsInt32(n: int)
  {
    -0x8000_0000 <= n < 0x8000_0000
  }

  /** Conversion of a value to an integer: anything but a number that fits a 32-bit `int`
      reads as 0. */
  function AsInt(v: Value): int
  {
    if v.Number? && IsInt32(v.n) then v.n else 0
  }

  /** Token 0 is reserved for the empty object. */
  const EmptyObject: Value := Object(0)

  /** The conversion the server applies to one positional argument before the handler call. */
  datatype ArgType = StringArg | ObjectArg | BoolArg | IntArg

  predicate HasType(t: ArgType, v: Value)
  {
    match t
    case StringArg => v.Str?
    case ObjectArg => v.Object?
    case BoolArg => v.Bool?
    case IntArg => v.Number? && IsInt32(v.n)
  }

  /** What a value of the wrong type, or a missing one, converts to. */
  function Default(t: ArgType): Value
  {
    match t
    case StringArg => Str("")
    case ObjectArg => EmptyObject
    case BoolArg => Bool(false)
    case IntArg => Number(0)
  }

  /** One argument after conversion: a value of the expected type passes unchanged, anything
      else becomes that type's default. */
  function Convert(t: ArgType, v: Value): (r: Value)
    ensures HasType(t, v) ==> r == v
    ensures !HasType(t, v) ==> r == Default(t)
  {
    match t
    case StringArg => Str(AsString(v))
    case ObjectArg => AsObject(v)
    case BoolArg => Bool(AsBool(v))
    case IntArg => Number(AsInt(v))
  }

  /** Positional access to an argument list; past the end it reads as Undefined. */
  function At(data: seq<Value>, i: nat): Value
  {
    if i < |data| then data[i] else Undefined
  }

  /** The arguments a handler receives: position `i` of `data`, read without a bounds check and
      converted to the i-th parameter type. */
  function Args(params: seq<ArgType>, data: seq<Value>): (args: seq<Value>)
    ensures |args| == |params|
    ensures forall i :: 0 <= i < |params| && i < |data| && HasType(params[i], data[i]) ==> args[i] == data[i]
    ensures forall i :: 0 <= i < |params| && i < |data| && !HasType(params[i], data[i]) ==> args[i] == Default(params[i])
    ensures forall i :: |data| <= i < |params| ==> args[i] == Default(params[i])
  {
    seq(|params|, i requires 0 <= i < |params| => Convert(params[i], At(data, i)))
  }

  /** A call whose arguments all have the wrong type reaches the handler exactly like a call
      with no arguments at all. */
  lemma IllTypedArgumentsReadAsMissing(params: seq<ArgType>, data: seq<Value>)
    requires forall i :: 0 <= i < |params| && i < |data| ==> !HasType(params[i], data[i])
    ensures Args(params, data) == Args(params, [])
  {
    var a, b := Args(params, data), Args(params, []);
    assert forall i :: 0 <= i < |params| ==> a[i] == b[i];
  }
}
