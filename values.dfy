/** The values the renderer works with: Ruby exceptions as a result type, the
    options hash given to `setup!`, render properties, and the two foreign
    collaborators (the JSON engine and the ExecJS script engine), whose
    behaviour is left uninterpreted by holding it as function values. */
module Values {

  /** The Ruby exceptions that can leave the renderer. */
  datatype Exception =
    | ProgramError(message: string)     // ExecJS::ProgramError: a script raised
    | EngineError(message: string)      // any other ExecJS error (runtime unavailable, ...)
    | PrerenderError(message: string)   // React::Renderer::PrerenderError
    | NameError(variable: string)       // a class variable read before `setup!` assigned it
    | NoMethodError(selector: string)   // a message sent to an object that lacks it
    | ArgumentError(unknownKey: Key)    // `assert_valid_keys` met a key it does not allow

  /** A value that may be absent (a Ruby `nil`). */
  datatype Option<+T> = None | Some(value: T)

  /** Either the value a Ruby expression returns or the exception it raises. */
  datatype Result<+T> = Ok(value: T) | Raise(exc: Exception)

  /** A Ruby class variable: reading it before its first assignment raises NameError. */
  datatype ClassVar<+T> = Uninitialized | Assigned(value: T)

  /** The keys of the options hash given to `setup!`. */
  datatype Key = Size | Timeout | JsonEngineKey | Other(name: string)

  /** A JSON engine: `dump` is only used when the engine responds to it. */
  datatype JsonEngine = JsonEngine(respondsToDump: bool, dump: Value -> string, encode: Value -> string)

  /** A value stored in the options hash. */
  datatype ArgValue = Number(n: int) | Engine(engine: JsonEngine)

  /** A Ruby object other than a String, handed to the JSON engine as props. */
  datatype Value =
    | Nil
    | Bool(b: bool)
    | Num(n: int)
    | Str(s: string)
    | List(items: seq<Value>)
    | Hash(entries: seq<(string, Value)>)

  /** The props argument of `render`: a String, or anything else. */
  datatype Props = Text(text: string) | Structured(value: Value)

  /** A compiled ExecJS context, known only by a handle. */
  datatype Context = Context(handle: nat)

  /** The ExecJS runtime: compiling a source and evaluating an expression in a
      compiled context each either return a value or raise. */
  datatype ExecJs = ExecJs(compile: string -> Result<Context>, eval: (Context, string) -> Result<string>)

  /** The state of the outside world a source provider reads when it is
      called (the files it concatenates, say); it may differ between calls. */
  type World = nat

  /** A source provider (`react_js`, `components_js`): `call` yields the
      source text the world holds at the moment of the call. */
  type Provider = World -> string
}
