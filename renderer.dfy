/** React::Renderer: the class-level configuration installed by `setup!`
    (the source providers, the JSON engine, the combined bundle and the
    connection pool), and the renderer instances the pool hands out, each of
    which compiles the bundle into its own ExecJS context on first use. */
module React {
  import opened Values
  import opened JsText
  import opened PropsFormat

  // ----- options of setup! -----

  const DefaultSize: int := 10
  const DefaultTimeout: int := 20

  /** The keys `setup!` accepts. */
  predicate IsValidKey(k: Key)
  {
    k.Size? || k.Timeout? || k.JsonEngineKey?
  }

  /** The keys of `args` that `setup!` does not accept. */
  function UnknownKeys(args: map<Key, ArgValue>): (u: set<Key>)
    ensures u <= args.Keys
    ensures u == {} <==> forall k :: k in args ==> IsValidKey(k)
  {
    var u := set k | k in args && !IsValidKey(k);
    assert forall k :: k in args && !IsValidKey(k) ==> k in u;
    u
  }

  /** The options the new pool is built with: `{size: 10, timeout: 20}`
      merged with what is left of the caller's options, the caller's value
      winning for a key both hold. */
  function PoolOptions(args: map<Key, ArgValue>): (o: map<Key, ArgValue>)
    ensures o.Keys == args.Keys + {Size, Timeout}
    ensures forall k :: k in args ==> o[k] == args[k]
    ensures Size !in args ==> o[Size] == Number(DefaultSize)
    ensures Timeout !in args ==> o[Timeout] == Number(DefaultTimeout)
  {
    map[Size := Number(DefaultSize), Timeout := Number(DefaultTimeout)] + args
  }

  /** Once the options passed validation and lost `:json_engine`, the pool
      options are exactly `size` and `timeout`, each the caller's value if
      given and the default otherwise; the JSON engine is never one of them. */
  lemma PoolOptionsOfValidArgs(args: map<Key, ArgValue>)
    requires UnknownKeys(args) == {}
    ensures var o := PoolOptions(args - {JsonEngineKey});
            && o.Keys == {Size, Timeout}
            && JsonEngineKey !in o
            && o[Size] == (if Size in args then args[Size] else Number(DefaultSize))
            && o[Timeout] == (if Timeout in args then args[Timeout] else Number(DefaultTimeout))
  {
  }

  /** The caller's options hash, which `setup!` changes in place. */
  class ArgsHash {
    var entries: map<Key, ArgValue>

    constructor (entries: map<Key, ArgValue>)
      ensures this.entries == entries
    {
      this.entries := entries;
    }

    /** `assert_valid_keys`: None when every key is valid, otherwise one of
        the offending keys (any of them: hash order is not modelled). */
    method AssertValidKeys() returns (bad: Option<Key>)
      ensures bad.None? <==> UnknownKeys(entries) == {}
      ensures bad.Some? ==> bad.value in entries && !IsValidKey(bad.value)
    {
      var unknown := UnknownKeys(entries);
      if unknown == {} {
        bad := None;
      } else {
        var k :| k in unknown;
        bad := Some(k);
      }
    }

    /** `Hash#delete`: removes `key` and returns the value it had, or nil. */
    method Delete(key: Key) returns (v: Option<ArgValue>)
      modifies this
      ensures v == if key in old(entries) then Some(old(entries)[key]) else None
      ensures entries == old(entries) - {key}
    {
      v := if key in entries then Some(entries[key]) else None;
      entries := entries - {key};
    }
  }

  // ----- the connection pool, as an opaque handle -----

  /** A connection pool: the options it was built with and whether it has
      been shut down. Check-out, check-in and time-outs are not modelled. */
  class Pool {
    const options: map<Key, ArgValue>
    var isShutdown: bool

    constructor (options: map<Key, ArgValue>)
      ensures this.options == options && !isShutdown
    {
      this.options := options;
      isShutdown := false;
    }

    /** `shutdown {}`: the block, run on every idle renderer, does nothing. */
    method Shutdown()
      modifies this
      ensures isShutdown
    {
      isShutdown := true;
    }
  }

  /** What happened to pools, in order: each `setup!` shuts the current pool
      down (if there is one) and then installs a new one. An install records
      whether the pool it replaced was already shut down at that moment. */
  datatype PoolEvent = Installed(pool: Pool, predecessorDown: bool) | ShutDown(pool: Pool)

  /** The pool history alternates: a pool is installed, it is shut down, the
      next one is installed (with its predecessor already down), and so on. */
  ghost predicate Alternating(log: seq<PoolEvent>)
    decreases |log|
  {
    if |log| == 0 then true
    else if |log| == 1 then log[0].Installed?
    else
      && log[0].Installed? && log[1] == ShutDown(log[0].pool) && Alternating(log[2..])
      && (|log| > 2 ==> log[2].Installed? && log[2].predecessorDown)
  }

  /** Shutting the last installed pool down and installing another keeps
      the history alternating. */
  lemma {:induction false} AlternatingExtend(log: seq<PoolEvent>, current: Pool, next: Pool)
    requires Alternating(log) && |log| > 0 && log[|log| - 1] == Installed(current, true)
    ensures Alternating(log + [ShutDown(current), Installed(next, true)])
    decreases |log|
  {
    var ext := log + [ShutDown(current), Installed(next, true)];
    if |log| == 1 {
      assert ext[2..] == [Installed(next, true)];
    } else {
      assert ext[2..] == log[2..] + [ShutDown(current), Installed(next, true)];
      AlternatingExtend(log[2..], current, next);
    }
  }

  /** In an alternating history, whenever a later pool is installed, the
      pool installed before it was shut down immediately after its own
      install, and the later install found its predecessor already down. */
  lemma {:induction false} ShutdownPrecedesNextInstall(log: seq<PoolEvent>, i: nat, j: nat)
    requires Alternating(log)
    requires i < j < |log| && log[i].Installed? && log[j].Installed?
    ensures i + 1 < j && log[i + 1] == ShutDown(log[i].pool)
    ensures log[j].predecessorDown
    decreases |log|
  {
    if i >= 2 {
      ShutdownPrecedesNextInstall(log[2..], i - 2, j - 2);
    } else if i == 1 {
      assert false;
    } else if j == 1 {
      assert false;
    } else if j > 2 {
      ShutdownPrecedesNextInstall(log[2..], 0, j - 2);
    }
  }

  /** The pool history after a `setup!` that replaced `previous` by `next`:
      the previous pool, if any, is shut down, and then the next installed. */
  ghost function SetupLog(log: seq<PoolEvent>, previous: Pool?, next: Pool): seq<PoolEvent>
  {
    log + (if previous != null then [ShutDown(previous)] else []) + [Installed(next, true)]
  }

  /** A `setup!` keeps the history alternating and ends it with the new pool. */
  lemma SetupLogAlternates(log: seq<PoolEvent>, previous: Pool?, next: Pool)
    requires Alternating(log)
    requires previous == null ==> log == []
    requires previous != null ==> |log| > 0 && log[|log| - 1] == Installed(previous, true)
    ensures Alternating(SetupLog(log, previous, next))
    ensures SetupLog(log, previous, next)[|SetupLog(log, previous, next)| - 1] == Installed(next, true)
  {
    if previous != null {
      assert SetupLog(log, previous, next) == log + [ShutDown(previous), Installed(next, true)];
      AlternatingExtend(log, previous, next);
    } else {
      assert SetupLog(log, previous, next) == [Installed(next, true)];
    }
  }

  // ----- the class-level state: @@react_js, @@components_js, @@json_engine,
  //       @@combined_js and @@pool -----

  class RendererClass {
    var reactJs: ClassVar<Provider>
    var componentsJs: ClassVar<Provider>
    var jsonEngine: ClassVar<Option<ArgValue>>
    var combinedJs: ClassVar<string>
    var pool: Pool?
    ghost var poolLog: seq<PoolEvent>
    /** When the providers were last called to build `@@combined_js`. */
    ghost var bundleWorld: World

    /** Either nothing is configured yet, or every class variable is set,
        the bundle is a snapshot of what the providers yielded when it was
        last built (by `setup!` or `reset_combined_js!`), the current
        pool is live with exactly `size` and `timeout` among its options, and
        every earlier pool was shut down before its successor came. */
    ghost predicate Valid()
      reads this, pool
    {
      && Alternating(poolLog)
      && (pool == null ==>
            && reactJs.Uninitialized? && componentsJs.Uninitialized?
            && jsonEngine.Uninitialized? && combinedJs.Uninitialized?
            && poolLog == [])
      && (pool != null ==>
            && reactJs.Assigned? && componentsJs.Assigned? && jsonEngine.Assigned?
            && combinedJs == Assigned(CombinedJs(reactJs.value(bundleWorld), componentsJs.value(bundleWorld)))
            && !pool.isShutdown
            && pool.options.Keys == {Size, Timeout}
            && |poolLog| > 0 && poolLog[|poolLog| - 1] == Installed(pool, true))
    }

    /** Before the first `setup!`: only `@@pool` exists, and it is nil. */
    constructor ()
      ensures Valid() && pool == null
    {
      reactJs, componentsJs, jsonEngine, combinedJs := Uninitialized, Uninitialized, Uninitialized, Uninitialized;
      pool := null;
      poolLog := [];
      bundleWorld := 0;
    }

    /** `setup_combined_js`: the bundle built from what the two providers
        yield when called in world `now`; NameError before any `setup!`. */
    function SetupCombinedJs(now: World): (r: Result<string>)
      reads this
      ensures r.Ok? <==> reactJs.Assigned? && componentsJs.Assigned?
      ensures r.Ok? ==> r.value == CombinedJs(reactJs.value(now), componentsJs.value(now))
    {
      match reactJs
      case Uninitialized => Raise(NameError("@@react_js"))
      case Assigned(react) =>
        match componentsJs
        case Uninitialized => Raise(NameError("@@components_js"))
        case Assigned(components) => Ok(CombinedJs(react(now), components(now)))
    }

    /** `combined_js`: the stored snapshot, which is what the providers
        yielded when `setup!` or `reset_combined_js!` last built it, not what
        they would yield now; NameError before any `setup!`. */
    function CombinedJsValue(): (r: Result<string>)
      reads this, pool
      requires Valid()
      ensures r.Ok? <==> pool != null
      ensures r.Ok? ==> r == SetupCombinedJs(bundleWorld)
      ensures r.Raise? ==> r.exc.NameError?
    {
      match combinedJs
      case Uninitialized => Raise(NameError("@@combined_js"))
      case Assigned(js) => Ok(js)
    }

    /** `reset_combined_js!`: calls the providers again, in world `now`, and
        stores the bundle they yield as the new snapshot. */
    method ResetCombinedJs(now: World) returns (r: Result<string>)
      modifies this`combinedJs, this`bundleWorld
      ensures r == old(SetupCombinedJs(now))
      ensures combinedJs == if r.Ok? then Assigned(r.value) else old(combinedJs)
      ensures bundleWorld == if r.Ok? then now else old(bundleWorld)
      ensures old(Valid()) ==> Valid()
    {
      match reactJs
      case Uninitialized =>
        r := Raise(NameError("@@react_js"));
      case Assigned(react) =>
        match componentsJs
        case Uninitialized =>
          r := Raise(NameError("@@components_js"));
        case Assigned(components) =>
          r := Ok(CombinedJs(react(now), components(now)));
          combinedJs, bundleWorld := Assigned(r.value), now;
    }

    /** `@@combined_js` is a snapshot: once a provider yields different
        text (with the react source keeping its length), `combined_js` no
        longer equals what `setup_combined_js` would build, until
        `reset_combined_js!` runs. */
    lemma CombinedJsIsSnapshot(now: World)
      requires Valid() && pool != null
      requires |reactJs.value(now)| == |reactJs.value(bundleWorld)|
      requires reactJs.value(now) != reactJs.value(bundleWorld)
               || componentsJs.value(now) != componentsJs.value(bundleWorld)
      ensures CombinedJsValue().Ok? && SetupCombinedJs(now).Ok?
      ensures CombinedJsValue() != SetupCombinedJs(now)
    {
      if CombinedJsValue() == SetupCombinedJs(now) {
        BundleInjective(reactJs.value(now), componentsJs.value(now),
                        reactJs.value(bundleWorld), componentsJs.value(bundleWorld));
      }
    }

    /** `setup!`: with an option key other than `:size`, `:timeout` and
        `:json_engine` it raises ArgumentError and changes nothing: no class
        variable, not the caller's options, not the old pool. */
    method Setup(react: Provider, components: Provider, args: ArgsHash, now: World) returns (r: Result<Pool>)
      requires Valid()
      modifies this, args, pool
      ensures Valid()
      ensures UnknownKeys(old(args.entries)) != {} ==>
                && r.Raise? && r.exc.ArgumentError?
                && r.exc.unknownKey in UnknownKeys(old(args.entries))
                && unchanged(this) && unchanged(args)
                && (old(pool) != null ==> unchanged(old(pool)))
      ensures UnknownKeys(old(args.entries)) == {} ==> r.Ok? && r.value == pool && fresh(pool)
      ensures UnknownKeys(old(args.entries)) == {} ==> Configured(old(pool), old(poolLog), old(args.entries), react, components, args, now)
    {
      var bad := args.AssertValidKeys();
      if bad.Some? {
        return Raise(ArgumentError(bad.value));
      }
      ghost var given := args.entries;
      RecordSources(react, components, args);
      PoolOptionsOfValidArgs(given);
      var newPool := ReplacePool(args.entries, now);
      r := Ok(newPool);
    }

    /** The state a successful `setup!` leaves: both providers recorded,
        `:json_engine` moved out of the caller's options into `@@json_engine`
        (nil when absent), the previous pool shut down, the bundle rebuilt
        from the new providers, and a fresh pool installed whose options are
        the defaults overridden by the remaining options. */
    ghost predicate Configured(previous: Pool?, previousLog: seq<PoolEvent>, given: map<Key, ArgValue>,
                               react: Provider, components: Provider, args: ArgsHash, now: World)
      reads this, args, previous, pool
    {
      && pool != null && pool != previous
      && reactJs == Assigned(react) && componentsJs == Assigned(components)
      && jsonEngine == Assigned(if JsonEngineKey in given then Some(given[JsonEngineKey]) else None)
      && args.entries == given - {JsonEngineKey}
      && combinedJs == Assigned(CombinedJs(react(now), components(now))) && bundleWorld == now
      && pool.options == PoolOptions(given - {JsonEngineKey})
      && (previous != null ==> previous.isShutdown)
      && poolLog == SetupLog(previousLog, previous, pool)
    }

    /** The first half of `setup!` once the options passed validation:
        record both providers and move `:json_engine` out of the caller's
        options into `@@json_engine` (nil when absent). */
    method RecordSources(react: Provider, components: Provider, args: ArgsHash)
      modifies this`reactJs, this`componentsJs, this`jsonEngine, args
      ensures reactJs == Assigned(react) && componentsJs == Assigned(components)
      ensures jsonEngine == Assigned(if JsonEngineKey in old(args.entries)
                                     then Some(old(args.entries)[JsonEngineKey]) else None)
      ensures args.entries == old(args.entries) - {JsonEngineKey}
    {
      reactJs := Assigned(react);
      componentsJs := Assigned(components);
      var engine := args.Delete(JsonEngineKey);
      jsonEngine := Assigned(engine);
    }

    /** The second half: shut the previous pool down, rebuild the bundle from
        the recorded providers and install a fresh pool built with the
        defaults overridden by `options`. */
    method ReplacePool(options: map<Key, ArgValue>, now: World) returns (newPool: Pool)
      requires reactJs.Assigned? && componentsJs.Assigned? && jsonEngine.Assigned?
      requires options.Keys <= {Size, Timeout}
      requires Alternating(poolLog)
      requires pool == null ==> poolLog == []
      requires pool != null ==> |poolLog| > 0 && poolLog[|poolLog| - 1] == Installed(pool, true)
      modifies this`combinedJs, this`bundleWorld, this`pool, this`poolLog, pool
      ensures Valid() && pool == newPool && fresh(newPool)
      ensures newPool.options == PoolOptions(options)
      ensures old(pool) != null ==> old(pool).isShutdown
      ensures combinedJs == Assigned(CombinedJs(reactJs.value(now), componentsJs.value(now))) && bundleWorld == now
      ensures poolLog == SetupLog(old(poolLog), old(pool), newPool)
    {
      ghost var log0 := poolLog;
      var previous := pool;
      if previous != null {
        previous.Shutdown();
        poolLog := poolLog + [ShutDown(previous)];
      }
      var bundle := ResetCombinedJs(now);
      newPool := new Pool(PoolOptions(options));
      // the install is recorded by the same statement that stores the pool
      pool, poolLog := newPool, poolLog + [Installed(newPool, previous == null || previous.isShutdown)];
      SetupLogAlternates(log0, previous, newPool);
    }

    /** `Renderer.render`: borrows a renderer from the pool (here the one the
        caller passes) and renders with it; NoMethodError while `@@pool` is
        still nil. */
    method Render(borrowed: Renderer, js: ExecJs, component: string, args: Props) returns (r: Result<string>)
      requires Valid() && borrowed.Valid()
      modifies borrowed
      ensures borrowed.Valid()
      ensures pool == null ==> r == Raise(NoMethodError("with")) && unchanged(borrowed)
      ensures pool != null ==>
                r == RenderOutcome(old(borrowed.context), combinedJs, jsonEngine, js, component, args)
      ensures pool != null ==>
                borrowed.context == RenderedContext(old(borrowed.context), combinedJs, jsonEngine, js, args)
      ensures pool != null ==>
                borrowed.compileLog == RenderedCompileLog(old(borrowed.compileLog), old(borrowed.context),
                                                          combinedJs, jsonEngine, js, args)
    {
      if pool == null {
        return Raise(NoMethodError("with"));
      }
      r := borrowed.Render(this, js, component, args);
    }
  }

  /** Two `setup!` calls sharing one options hash: the first moves
      `:json_engine` out of the hash, so the second finds none, leaves
      `@@json_engine` nil, and structured props can no longer be serialised. */
  method SetupTwiceWithOneHash(cls: RendererClass, react: Provider, components: Provider,
                               args: ArgsHash, value: Value, now: World)
    returns (before: Result<string>, after: Result<string>)
    requires cls.Valid() && UnknownKeys(args.entries) == {}
    requires JsonEngineKey in args.entries && args.entries[JsonEngineKey].Engine?
    modifies cls, args, cls.pool
    ensures cls.Valid() && cls.jsonEngine == Assigned(None)
    ensures before.Ok? && after == Raise(NoMethodError("encode"))
  {
    var first := cls.Setup(react, components, args, now);
    before := ReactProps(Structured(value), cls.jsonEngine);
    var second := cls.Setup(react, components, args, now);
    after := ReactProps(Structured(value), cls.jsonEngine);
  }

  // ----- one renderer instance: #context and #render -----

  /** `context`: the cached context if there is one; otherwise the result of
      compiling `@@combined_js` (NameError before any `setup!`). */
  function ContextFor(cached: Option<Context>, combinedJs: ClassVar<string>, js: ExecJs): (r: Result<Context>)
    ensures cached.Some? ==> r == Ok(cached.value)
    ensures cached.None? && combinedJs.Assigned? ==> r == js.compile(combinedJs.value)
    ensures cached.None? && combinedJs.Uninitialized? ==> r == Raise(NameError("@@combined_js"))
  {
    match cached
    case Some(ctx) => Ok(ctx)
    case None =>
      match combinedJs
      case Uninitialized => Raise(NameError("@@combined_js"))
      case Assigned(source) => js.compile(source)
  }

  /** The `rescue` of `#render`: an ExecJS::ProgramError becomes a
      PrerenderError naming the component and the serialised props; every
      other outcome passes through. */
  function Rescue(component: string, props: string, outcome: Result<string>): (r: Result<string>)
    ensures r.Raise? ==> !r.exc.ProgramError?
    ensures outcome.Ok? ==> r == outcome
    ensures outcome.Raise? && !outcome.exc.ProgramError? ==> r == outcome
    ensures outcome.Raise? && outcome.exc.ProgramError? ==>
              r == Raise(PrerenderError(PrerenderMessage(component, props, outcome.exc.message)))
  {
    match outcome
    case Raise(ProgramError(message)) => Raise(PrerenderError(PrerenderMessage(component, props, message)))
    case _ => outcome
  }

  /** What `#render` returns or raises, given the renderer's cached context
      and the class variables it reads. */
  function RenderOutcome(cached: Option<Context>, combinedJs: ClassVar<string>,
                         jsonEngine: ClassVar<Option<ArgValue>>, js: ExecJs,
                         component: string, args: Props): (r: Result<string>)
    ensures ReactProps(args, jsonEngine).Raise? ==> r == Raise(ReactProps(args, jsonEngine).exc)
    ensures var ctx := ContextFor(cached, combinedJs, js);
            ReactProps(args, jsonEngine).Ok? && ctx.Raise? && !ctx.exc.ProgramError? ==> r == Raise(ctx.exc)
  {
    match ReactProps(args, jsonEngine)
    case Raise(e) => Raise(e)
    case Ok(props) =>
      var code := RenderExpression(component, props);
      Rescue(component, props,
        match ContextFor(cached, combinedJs, js)
        case Raise(e) => Raise(e)
        case Ok(ctx) => js.eval(ctx, code))
  }

  /** The renderer's `@context` after `#render`: once the props serialise,
      `#context` runs, and whatever it compiled successfully stays cached,
      whether or not evaluating then succeeds; when serialising raises,
      `#context` is never reached and `@context` is as before. */
  function RenderedContext(cached: Option<Context>, combinedJs: ClassVar<string>,
                           jsonEngine: ClassVar<Option<ArgValue>>, js: ExecJs, args: Props): (c: Option<Context>)
    ensures cached.Some? ==> c == cached
    ensures ReactProps(args, jsonEngine).Raise? ==> c == cached
    ensures ReactProps(args, jsonEngine).Ok? ==>
              (c.Some? <==> ContextFor(cached, combinedJs, js).Ok?)
    ensures c.Some? && cached.None? ==> c == Some(js.compile(combinedJs.value).value)
  {
    if ReactProps(args, jsonEngine).Raise? then cached
    else
      var ctx := ContextFor(cached, combinedJs, js);
      if ctx.Ok? then Some(ctx.value) else None
  }

  /** The compilation history after `#render`: one more entry exactly when
      the props serialised, no context was cached and `@@combined_js` was
      set, and that entry is what compiling it produced. */
  ghost function RenderedCompileLog(log: seq<Result<Context>>, cached: Option<Context>, combinedJs: ClassVar<string>,
                                    jsonEngine: ClassVar<Option<ArgValue>>, js: ExecJs, args: Props): seq<Result<Context>>
  {
    if ReactProps(args, jsonEngine).Ok? && cached.None? && combinedJs.Assigned?
    then log + [js.compile(combinedJs.value)]
    else log
  }

  /** A log of ExecJS compilations in which none but the last succeeded. */
  ghost predicate CompiledAtMostOnce(log: seq<Result<Context>>)
  {
    forall i :: 0 <= i < |log| - 1 ==> log[i].Raise?
  }

  class Renderer {
    var context: Option<Context>
    ghost var compileLog: seq<Result<Context>>

    /** `@context` is set exactly when the last compilation succeeded, holds
        what it produced, and no compilation followed a successful one. */
    ghost predicate Valid()
      reads this
    {
      && CompiledAtMostOnce(compileLog)
      && (context.Some? <==> |compileLog| > 0 && compileLog[|compileLog| - 1].Ok?)
      && (context.Some? ==> context.value == compileLog[|compileLog| - 1].value)
    }

    /** `Renderer.new`, as the pool calls it: no context yet. */
    constructor ()
      ensures Valid() && context.None? && compileLog == []
    {
      context := None;
      compileLog := [];
    }

    /** `#context`: compiles `@@combined_js` only while no context is cached
        (`||=`), caches the result when compiling succeeds, and afterwards
        returns that same context without compiling again. */
    method GetContext(cls: RendererClass, js: ExecJs) returns (r: Result<Context>)
      requires Valid()
      modifies this
      ensures Valid()
      ensures r == ContextFor(old(context), cls.combinedJs, js)
      ensures context == if r.Ok? then Some(r.value) else None
      ensures compileLog == if old(context).None? && cls.combinedJs.Assigned?
                            then old(compileLog) + [r] else old(compileLog)
    {
      if context.Some? {
        return Ok(context.value);
      }
      match cls.combinedJs
      case Uninitialized =>
        r := Raise(NameError("@@combined_js"));
      case Assigned(source) =>
        r := js.compile(source);
        compileLog := compileLog + [r];
        if r.Ok? {
          context := Some(r.value);
        }
    }

    /** `#render`: serialises the props, builds the expression, evaluates it
        in this renderer's context and returns the markup; a ProgramError from
        compiling or evaluating becomes a PrerenderError. A context, once
        compiled, stays cached whether or not evaluating succeeds. */
    method Render(cls: RendererClass, js: ExecJs, component: string, args: Props) returns (r: Result<string>)
      requires Valid()
      modifies this
      ensures Valid()
      ensures r == RenderOutcome(old(context), cls.combinedJs, cls.jsonEngine, js, component, args)
      ensures context == RenderedContext(old(context), cls.combinedJs, cls.jsonEngine, js, args)
      ensures compileLog == RenderedCompileLog(old(compileLog), old(context), cls.combinedJs, cls.jsonEngine, js, args)
    {
      var props := ReactProps(args, cls.jsonEngine);
      if props.Raise? {
        return Raise(props.exc);
      }
      var code := RenderExpression(component, props.value);
      var ctx := GetContext(cls, js);
      var outcome := if ctx.Raise? then Raise(ctx.exc) else js.eval(ctx.value, code);
      r := Rescue(component, props.value, outcome);
    }
  }

  // ----- what rendering promises -----

  /** A script failure never escapes as an ExecJS::ProgramError. */
  lemma RenderNeverLeaksProgramError(cached: Option<Context>, combinedJs: ClassVar<string>,
                                     jsonEngine: ClassVar<Option<ArgValue>>, js: ExecJs,
                                     component: string, args: Props)
    ensures var r := RenderOutcome(cached, combinedJs, jsonEngine, js, component, args);
            r.Raise? ==> !r.exc.ProgramError?
  {
  }

  /** When the context is available and evaluating succeeds, `#render`
      returns exactly the evaluated markup, for the expression that embeds
      the component and the serialised props. */
  lemma RenderReturnsMarkup(cached: Option<Context>, combinedJs: ClassVar<string>,
                            jsonEngine: ClassVar<Option<ArgValue>>, js: ExecJs,
                            component: string, args: Props, ctx: Context)
    requires ReactProps(args, jsonEngine).Ok?
    requires ContextFor(cached, combinedJs, js) == Ok(ctx)
    requires js.eval(ctx, RenderExpression(component, ReactProps(args, jsonEngine).value)).Ok?
    ensures RenderOutcome(cached, combinedJs, jsonEngine, js, component, args)
            == js.eval(ctx, RenderExpression(component, ReactProps(args, jsonEngine).value))
  {
  }

  /** A ProgramError from evaluating becomes a PrerenderError whose message
      is built from the script's message, the component and the serialised
      props. */
  lemma RenderReportsScriptError(cached: Option<Context>, combinedJs: ClassVar<string>,
                                 jsonEngine: ClassVar<Option<ArgValue>>, js: ExecJs,
                                 component: string, args: Props, ctx: Context, jsMessage: string)
    requires ReactProps(args, jsonEngine).Ok?
    requires ContextFor(cached, combinedJs, js) == Ok(ctx)
    requires js.eval(ctx, RenderExpression(component, ReactProps(args, jsonEngine).value)) == Raise(ProgramError(jsMessage))
    ensures RenderOutcome(cached, combinedJs, jsonEngine, js, component, args)
            == Raise(PrerenderError(PrerenderMessage(component, ReactProps(args, jsonEngine).value, jsMessage)))
  {
  }

  /** That PrerenderError's message parses back into the script's message,
      the component and the serialised props, for a script message without
      double quotes and a component name without spaces. */
  lemma RenderScriptErrorParsesBack(cached: Option<Context>, combinedJs: ClassVar<string>,
                                    jsonEngine: ClassVar<Option<ArgValue>>, js: ExecJs,
                                    component: string, args: Props, ctx: Context, jsMessage: string)
    requires ReactProps(args, jsonEngine).Ok?
    requires ContextFor(cached, combinedJs, js) == Ok(ctx)
    requires js.eval(ctx, RenderExpression(component, ReactProps(args, jsonEngine).value)) == Raise(ProgramError(jsMessage))
    requires '"' !in jsMessage && ' ' !in component
    ensures var r := RenderOutcome(cached, combinedJs, jsonEngine, js, component, args);
            && r.Raise? && r.exc.PrerenderError?
            && ParsePrerenderMessage(r.exc.message) == Some((jsMessage, component, ReactProps(args, jsonEngine).value))
  {
    RenderReportsScriptError(cached, combinedJs, jsonEngine, js, component, args, ctx, jsMessage);
    PrerenderMessageRoundTrip(component, ReactProps(args, jsonEngine).value, jsMessage);
  }

  /** A bundle that fails to compile with a ProgramError is reported like a
      failing render: as a PrerenderError for the component being rendered,
      and no context is cached. */
  lemma RenderReportsCompileError(combinedJs: ClassVar<string>, jsonEngine: ClassVar<Option<ArgValue>>,
                                  js: ExecJs, component: string, args: Props, jsMessage: string)
    requires ReactProps(args, jsonEngine).Ok?
    requires combinedJs.Assigned? && js.compile(combinedJs.value) == Raise(ProgramError(jsMessage))
    ensures RenderOutcome(None, combinedJs, jsonEngine, js, component, args)
            == Raise(PrerenderError(PrerenderMessage(component, ReactProps(args, jsonEngine).value, jsMessage)))
  {
  }

  /** With props given as a String, the JSON engine plays no part: the
      outcome is the same under any engine, configured or not. */
  lemma RenderIgnoresEngineForTextProps(cached: Option<Context>, combinedJs: ClassVar<string>,
                                        jsonEngine: ClassVar<Option<ArgValue>>, js: ExecJs,
                                        component: string, text: string)
    ensures RenderOutcome(cached, combinedJs, jsonEngine, js, component, Text(text))
            == RenderOutcome(cached, combinedJs, Uninitialized, js, component, Text(text))
  {
  }

  /** Props given as a String are evaluated verbatim in the expression, and
      come back out of it when the component name holds no comma. */
  lemma RenderPassesTextPropsVerbatim(cached: Option<Context>, combinedJs: ClassVar<string>,
                                      jsonEngine: ClassVar<Option<ArgValue>>, js: ExecJs,
                                      component: string, text: string, ctx: Context)
    requires ContextFor(cached, combinedJs, js) == Ok(ctx)
    ensures RenderOutcome(cached, combinedJs, jsonEngine, js, component, Text(text))
            == Rescue(component, text, js.eval(ctx, RenderExpression(component, text)))
    ensures ',' !in component ==> ParseRenderExpression(RenderExpression(component, text)) == Some((component, text))
  {
    if ',' !in component {
      RenderExpressionRoundTrip(component, text);
    }
  }
}
