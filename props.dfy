/** How `render` turns its props argument into the text it embeds in the
    evaluated expression (`react_props` and `format_json`). Both read the
    class variable `@@json_engine`, passed here as a value. */
module PropsFormat {
  import opened Values

  /** The JSON engine held in `@@json_engine`, if the stored object is one. */
  function EngineOf(stored: Option<ArgValue>): (e: Option<JsonEngine>)
    ensures e.Some? <==> stored.Some? && stored.value.Engine?
    ensures e.Some? ==> stored == Some(Engine(e.value))
  {
    match stored
    case Some(Engine(engine)) => Some(engine)
    case _ => None
  }

  /** `format_json`: the engine's `dump` when the engine responds to it,
      otherwise its `encode`. Reading `@@json_engine` before `setup!` raises
      NameError; when `setup!` stored nil or an object that is no engine,
      sending it `encode` raises NoMethodError. */
  function FormatJson(jsonEngine: ClassVar<Option<ArgValue>>, args: Value): (r: Result<string>)
    ensures jsonEngine.Uninitialized? ==> r == Raise(NameError("@@json_engine"))
    ensures jsonEngine.Assigned? && EngineOf(jsonEngine.value).None? ==> r == Raise(NoMethodError("encode"))
    ensures jsonEngine.Assigned? && EngineOf(jsonEngine.value).Some? ==>
              var engine := EngineOf(jsonEngine.value).value;
              r == Ok(if engine.respondsToDump then engine.dump(args) else engine.encode(args))
  {
    match jsonEngine
    case Uninitialized => Raise(NameError("@@json_engine"))
    case Assigned(stored) =>
      match EngineOf(stored)
      case None => Raise(NoMethodError("encode"))
      case Some(engine) =>
        if engine.respondsToDump then Ok(engine.dump(args)) else Ok(engine.encode(args))
  }

  /** An engine that responds to `dump` is never asked to `encode`: two such
      engines with the same `dump` serialise alike, whatever their `encode`;
      an engine without `dump` serialises by its `encode` alone. */
  lemma FormatJsonChoosesDump(e1: JsonEngine, e2: JsonEngine, args: Value)
    requires e1.respondsToDump == e2.respondsToDump
    requires e1.respondsToDump ==> e1.dump == e2.dump
    requires !e1.respondsToDump ==> e1.encode == e2.encode
    ensures FormatJson(Assigned(Some(Engine(e1))), args) == FormatJson(Assigned(Some(Engine(e2))), args)
  {
  }

  /** `react_props`: a String is already serialised and passes through
      unchanged, without consulting the JSON engine; anything else is
      serialised by `format_json`. A Ruby String always takes the first
      branch, so `Structured(Str(_))` stands only for a string nested in a
      larger value, never for a top-level String argument. */
  function ReactProps(args: Props, jsonEngine: ClassVar<Option<ArgValue>>): (r: Result<string>)
    ensures args.Text? ==> r == Ok(args.text)
    ensures args.Structured? ==> r == FormatJson(jsonEngine, args.value)
  {
    match args
    case Text(s) => Ok(s)
    case Structured(v) => FormatJson(jsonEngine, v)
  }

  /** Serialising is idempotent: handing back the text `react_props`
      produced yields that text again, with no second encoding, under any
      engine or none. */
  lemma ReactPropsIdempotent(args: Props, jsonEngine: ClassVar<Option<ArgValue>>, other: ClassVar<Option<ArgValue>>)
    requires ReactProps(args, jsonEngine).Ok?
    ensures ReactProps(Text(ReactProps(args, jsonEngine).value), other) == ReactProps(args, jsonEngine)
  {
  }
}
