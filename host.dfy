/**
 * Functions of the host the relay calls but whose details are not part of its logic,
 * passed in as values so that the model states what it assumes about them: nothing.
 */
module Host {
  import opened Js

  /**
   * One `data: ` record of a DeepSeek stream after `JSON.parse` and the read of
   * `choices[0].delta.content || ''` (as text): `Malformed` when the parse or the read
   * throws.
   */
  datatype Record = Malformed | Parsed(delta: string)

  /**
   * systemPrompt: `buildSystemPrompt(stage, context)`, the fixed coaching template with
   *   `${stage}` filled in (the template ignores `context`);
   * text: `String(v)`, used where a value that is not a string is concatenated to one;
   * parseRecord: the reading of one stream record described at Record;
   * positive: `ToNumber(s) > 0` for a string `s` (white space, signs, exponents, hex
   *   and `Infinity` are the host's to read).
   */
  datatype Runtime = Runtime(
    systemPrompt: Value -> string,
    text: Value -> string,
    parseRecord: string -> Record,
    positive: string -> bool)

  /** `'' + v` with the host's conversion for values that are not strings. */
  function TextOf(v: Value, rt: Runtime): (s: string)
    ensures v.Str? ==> s == v.s
  {
    if v.Str? then v.s else rt.text(v)
  }

  /**
   * `x > 0` for the value of a `length` property: a number as it is, a boolean as 1 or
   * 0, null as 0, a string by its numeric reading, an array by the numeric reading of
   * its text; undefined and plain objects read as NaN.
   */
  predicate PositiveLength(x: Value, rt: Runtime) {
    match x
    case Num(n) => n > 0.0
    case Bool(b) => b
    case Str(s) => rt.positive(s)
    case Arr(_) => rt.positive(rt.text(x))
    case _ => false
  }

  /** `v.length > 0` for a value that is neither null nor undefined. */
  predicate HasElements(v: Value, rt: Runtime) {
    match v
    case Arr(items) => |items| > 0
    case Str(s) => |s| > 0
    case Obj(f) => "length" in f && PositiveLength(f["length"], rt)
    case _ => false
  }
}
