/** Values shared by both dispatchers: optional values, the values the command-line
    parser produces (with JavaScript truthiness), and the outcome of a call that may throw. */
module Common {

  datatype Option<T> = None | Some(value: T)

  /** A value the command-line parser can put in the parsed-argument object.
      `Names` is the positional list it stores under the key "_". */
  datatype Value = Str(s: string) | Bool(b: bool) | Num(n: int) | Names(names: seq<string>)

  /** JavaScript truthiness of a parsed value (an array is an object, hence truthy). */
  predicate Truthy(v: Value)
  {
    match v
    case Str(s) => s != ""
    case Bool(b) => b
    case Num(n) => n != 0
    case Names(_) => true
  }

  /** An optional string is truthy when it is present and not empty. */
  predicate Present(o: Option<string>)
  {
    o.Some? && o.value != ""
  }

  /** `o || d` for an optional string. */
  function OrElse(o: Option<string>, d: string): string
  {
    if Present(o) then o.value else d
  }

  /** What a thrown value can be: a message string (the dispatchers throw template strings)
      or the error `Deno.chdir` raises for a directory that does not exist. */
  datatype Error = Message(text: string) | NoSuchDir(path: string)

  /** How a call ends: normally, or by throwing. */
  datatype Outcome = Done | Threw(error: Error)
}
