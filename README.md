# React::Renderer, modelled in Dafny

This project models the server-side renderer of react-rails (`lib/react/renderer.rb`).

`React::Renderer.setup!` takes two source providers and an options hash. It validates the option keys. It then records the providers and the JSON engine. It shuts the previous connection pool down, rebuilds the combined JavaScript bundle and installs a new pool of renderers. Each renderer compiles the bundle into its own ExecJS context the first time it is used. `#render` serialises the props and builds the expression `React.renderToString(React.createElement(component, props))`. It evaluates that expression in the renderer's context and returns the markup. When the script fails, it raises a `PrerenderError` that names the component and the props.

Files:

- `values.dfy` (module `Values`) holds the datatypes:
  - Ruby exceptions, with a `Result` type used in their place;
  - class variables that may still be uninitialised;
  - option keys and values, and props;
  - the ExecJS runtime and the JSON engine, each held as function values and left uninterpreted.
- `js_text.dfy` (module `JsText`) holds the three texts the renderer composes: the `PrerenderError` message, the combined bundle and the render expression. For each it gives a layout lemma, and for the message and the expression also a parser with a round-trip lemma.
- `props.dfy` (module `PropsFormat`) holds `react_props` and `format_json`.
- `renderer.dfy` (module `React`) holds the rest:
  - class `RendererClass` for the class variables `@@react_js`, `@@components_js`, `@@json_engine`, `@@combined_js` and `@@pool`, with `setup!`, `reset_combined_js!`, `combined_js` and the class-level `render`;
  - class `Renderer` for one renderer instance: the `@context` field, `#context` and `#render`;
  - class `Pool`, an opaque pool handle holding its options and a shutdown flag;
  - class `ArgsHash`, the caller's options hash, which `setup!` changes in place;
  - the lemmas about rendering.

Ruby semantics kept:

- Reading a class variable before `setup!` has assigned it raises NameError.
- `@@pool` starts out nil, as `cattr_accessor` makes it. The class-level `render` on a nil pool raises NoMethodError.
- `args.delete(:json_engine)` removes the key from the caller's own hash. `@@json_engine` becomes nil when the key is absent.
- Only `ExecJS::ProgramError` is rescued in `#render`. This covers a ProgramError raised while `#context` compiles the bundle, as well as one raised by evaluation. Every other error propagates unchanged.
- `@context ||= ...` caches a context only when compiling succeeds.

Two ghost logs state the lifecycle properties:

- `RendererClass.poolLog` records pool installs and shutdowns. Each install event records whether the pool it replaces was already shut down. `ReplacePool` takes that reading from the heap in the same statement that stores the new pool. `RendererClass.Valid` requires that the log alternates, that every install after the first found its predecessor shut down, and that the current pool is live.
- `Renderer.compileLog` records compilations. `Renderer.Valid` requires that nothing is compiled after a compilation succeeds, and that `@context` holds what that compilation produced. `#render` states its new `@context` and log exactly, so a context compiled during a render that then fails stays cached for the next render.

Where the code behaves differently from what a caller of `setup!` and `render` might expect, the model follows the code:

- Calling `setup!` twice with the same options hash is not idempotent. The first call removes `:json_engine` from the hash, so the second leaves `@@json_engine` nil, and structured props then fail with NoMethodError (`React.SetupTwiceWithOneHash`).
- No dedicated "not configured" error exists. Rendering before `setup!` raises NoMethodError (nil pool) or NameError (uninitialised class variable).
- A bundle that fails to compile with a ProgramError is not a separate fault kind. It reaches the caller as a `PrerenderError` for the component being rendered (`React.RenderReportsCompileError`).
- Contexts are not tied to a bundle generation. A renderer compiles whatever `@@combined_js` holds when it is first used (`React.ContextFor`).
- Option values are not validated. Any `size` or `timeout` value goes into the pool options unchanged.

## Model

| member | source | states |
|---|---|---|
| `JsText.PrerenderMessage` | lib/react/renderer.rb:7-9 | the message `Encountered error "<js>" when prerendering <component> with <props>`: it opens with `Encountered error "` and ends with the props |
| `JsText.PrerenderMessageAmbiguous` | lib/react/renderer.rb:7-9 | a component name containing ` with ` gives the same message as a shorter name whose props begin with the rest, so no parser can recover every component name |
| `JsText.ParsePrerenderMessage` | lib/react/renderer.rb:7-9 | any message it accepts is exactly `Encountered error "<js>" when prerendering <component> with <props>` rebuilt from the parts it returns |
| `JsText.PrerenderMessageRoundTrip` | lib/react/renderer.rb:7-9 | the PrerenderError message gives back the engine message, the component name and the props, when the engine message has no double quote and the component name no space |
| `JsText.PrerenderMessageMentions` | lib/react/renderer.rb:7-9 | the message opens with `Encountered error "`; the engine message, the component name and the props appear in it verbatim, in that order, with the props at the end |
| `JsText.CombinedJs` | lib/react/renderer.rb:67-84 | the bundle text: it opens with the global/self/window/console shims and ends by closing the components statement |
| `JsText.BundleLayout` | lib/react/renderer.rb:67-84 | the combined bundle opens with the global/self/window/console shims; then comes the react source verbatim, then `React = global.React;`, then the components source verbatim, strictly after the react source |
| `JsText.BundleInjective` | lib/react/renderer.rb:80-82 | for a given react source length, the bundle determines both sources |
| `JsText.RenderExpression` | lib/react/renderer.rb:46-50 | the expression text: it opens with the immediately invoked function calling `React.renderToString(React.createElement(` and ends by closing and invoking it |
| `JsText.ParseRenderExpression` | lib/react/renderer.rb:46-50 | any expression it accepts is the render expression rebuilt from the component and props it returns |
| `JsText.RenderExpressionRoundTrip` | lib/react/renderer.rb:46-50 | the render expression embeds the component and the props verbatim; both come back out when the component has no comma |
| `JsText.RenderExpressionInjective` | lib/react/renderer.rb:48 | for one component, different props texts give different expressions |
| `PropsFormat.EngineOf` | lib/react/renderer.rb:60 | yields an engine exactly when `@@json_engine` holds one, and that engine is the stored one; nil and non-engine values yield none |
| `PropsFormat.FormatJson` | lib/react/renderer.rb:59-65 | an engine that responds to `dump` serialises with `dump`, otherwise with `encode`; nil or a non-engine raises NoMethodError; before `setup!`, NameError |
| `PropsFormat.FormatJsonChoosesDump` | lib/react/renderer.rb:59-65 | an engine that responds to `dump` never has its `encode` consulted, and one that does not never has its `dump` consulted |
| `PropsFormat.ReactProps` | lib/react/renderer.rb:32-38 | a String passes through unchanged, even with no JSON engine configured; anything else yields exactly what `format_json` yields |
| `PropsFormat.ReactPropsIdempotent` | lib/react/renderer.rb:32-38 | feeding back the text `react_props` produced yields that same text, under any engine: there is no double encoding |
| `React.UnknownKeys` | lib/react/renderer.rb:16 | only keys of the options are reported, and none is reported exactly when every key is `:size`, `:timeout` or `:json_engine` |
| `React.PoolOptions` | lib/react/renderer.rb:22-23 | `{size: 10, timeout: 20}.merge(args)`: the keys are the caller's plus `size` and `timeout`; every caller's value wins; a default survives only where the caller gave none |
| `React.ArgsHash.AssertValidKeys` | lib/react/renderer.rb:16 | reports no key exactly when every key is valid; otherwise reports one of the unknown keys |
| `React.ArgsHash.Delete` | lib/react/renderer.rb:19 | `Hash#delete`: returns the value under the key, or nil, and the hash loses that key and nothing else |
| `React.PoolOptionsOfValidArgs` | lib/react/renderer.rb:19-23 | for validated options without `:json_engine`, the pool options are exactly `size` and `timeout`; each is the caller's value if given, else 10 and 20; `:json_engine` is never among them |
| `React.Pool.constructor` | lib/react/renderer.rb:23 | a new pool holds the options it was built with and is not shut down |
| `React.Pool.Shutdown` | lib/react/renderer.rb:20 | afterwards the pool is shut down |
| `React.AlternatingExtend` | lib/react/renderer.rb:20-23 | shutting the current pool down and then installing another keeps the pool history alternating |
| `React.SetupLogAlternates` | lib/react/renderer.rb:20-23 | the history after a `setup!` alternates and ends with the newly installed pool |
| `React.ShutdownPrecedesNextInstall` | lib/react/renderer.rb:20-23 | in the pool history, whenever a later pool is installed, the earlier pool was shut down immediately after its own install, and the later pool found its predecessor already shut down when it was installed |
| `React.RendererClass.constructor` | lib/react/renderer.rb:13 | before any `setup!` the pool is nil, every other class variable is uninitialised, and the invariant holds |
| `React.RendererClass.SetupCombinedJs` | lib/react/renderer.rb:67-84 | succeeds exactly when both providers are recorded, with the bundle built from what they yield when called at the given moment; NameError otherwise |
| `React.RendererClass.ResetCombinedJs` | lib/react/renderer.rb:86-88 | calls the providers again: `@@combined_js` becomes the bundle from what they yield now, and that moment becomes the snapshot's; when they are unset it raises NameError and changes nothing; the invariant is kept |
| `React.RendererClass.CombinedJsValue` | lib/react/renderer.rb:90-92 | returns a bundle exactly when `setup!` has run; it is the snapshot built from what the providers yielded at the last `setup!` or `reset_combined_js!`; otherwise NameError |
| `React.RendererClass.CombinedJsIsSnapshot` | lib/react/renderer.rb:86-92 | requires that the react source keeps its length; then, once a provider yields different text, `combined_js` differs from what `setup_combined_js` would build now, until `reset_combined_js!` runs |
| `React.RendererClass.Setup` | lib/react/renderer.rb:15-24 | an unknown key raises ArgumentError naming one such key, and nothing changes: not the class variables, not the caller's hash, not the old pool. Otherwise the class variables, the caller's hash, the bundle, the old pool's shutdown and the fresh pool's options are as `Configured` states, the bundle is built from what the providers yield at the moment of the call, the pool history gains the old pool's shutdown and then the new pool's install, and the invariant holds |
| `React.RendererClass.RecordSources` | lib/react/renderer.rb:17-19 | both providers are recorded; `:json_engine` moves out of the caller's hash into `@@json_engine` (nil when absent) |
| `React.RendererClass.ReplacePool` | lib/react/renderer.rb:20-23 | the previous pool, if any, is shut down; the bundle is rebuilt from the recorded providers; a fresh live pool with the defaults-overridden options is installed; the install event reads the old pool's shutdown flag in the statement that stores the new pool, so shutting the old pool down only after the install fails the contract |
| `React.SetupTwiceWithOneHash` | lib/react/renderer.rb:15-19 | two `setup!` calls sharing one options hash leave `@@json_engine` nil, so structured props serialise before the second call but raise NoMethodError after it |
| `React.RendererClass.Render` | lib/react/renderer.rb:26-30 | with a nil pool, raises NoMethodError and touches no renderer; otherwise returns what the borrowed renderer's `#render` returns, and leaves that renderer's context and compile history as `RenderedContext` and `RenderedCompileLog` say |
| `React.ContextFor` | lib/react/renderer.rb:40-42 | a cached context is returned as is; otherwise the result of compiling the current `@@combined_js`, or NameError before `setup!` |
| `React.Renderer.constructor` | lib/react/renderer.rb:23 | a renderer built by the pool has no context and has compiled nothing |
| `React.Renderer.GetContext` | lib/react/renderer.rb:40-42 | compiles only while no context is cached and caches a successful result; once cached, returns the same context and compiles nothing more; the at-most-one-successful-compilation invariant is kept |
| `React.Rescue` | lib/react/renderer.rb:52-53 | a ProgramError becomes a PrerenderError whose message is built from the component, the props and the script's message; any other outcome passes unchanged; the result is never a ProgramError |
| `React.RenderOutcome` | lib/react/renderer.rb:44-54 | what `#render` returns or raises; an error from serialising the props, or a non-ProgramError from getting the context (NameError before `setup!`), propagates unchanged |
| `React.RenderedContext` | lib/react/renderer.rb:41 | `@context` after `#render`: a cached context stays; when serialising raises nothing changes; otherwise a context is held exactly when `#context` succeeded, and a newly held one is what compiling `@@combined_js` produced |
| `React.Renderer.Render` | lib/react/renderer.rb:44-54 | the result is the render outcome for the props, the expression and this renderer's context; the new `@context` is `RenderedContext` (a context compiled here stays cached even when evaluation fails) and the compile history gains one entry exactly when a compilation ran |
| `React.RenderNeverLeaksProgramError` | lib/react/renderer.rb:52-53 | for all inputs, `#render` never raises a raw ProgramError |
| `React.RenderReturnsMarkup` | lib/react/renderer.rb:44-51 | when the context is available and evaluation succeeds, `#render` returns exactly the evaluated markup of the expression for that component and those props |
| `React.RenderReportsScriptError` | lib/react/renderer.rb:52-53 | for all inputs, a ProgramError from evaluation becomes exactly the PrerenderError whose message is built from the component, the serialised props and the script's message |
| `React.RenderScriptErrorParsesBack` | lib/react/renderer.rb:52-53 | requires a script message without double quotes and a component name without spaces (see `JsText.PrerenderMessageAmbiguous`); then that PrerenderError's message parses back into the script's message, the component and the serialised props |
| `React.RenderReportsCompileError` | lib/react/renderer.rb:40-53 | a ProgramError from compiling the bundle inside `#render` becomes a PrerenderError for the component and the props |
| `React.RenderIgnoresEngineForTextProps` | lib/react/renderer.rb:32-34 | for all inputs, with String props the outcome is the same under any JSON engine, configured or not |
| `React.RenderPassesTextPropsVerbatim` | lib/react/renderer.rb:32-48 | requires that the context is available; then the outcome is that of evaluating the expression with the String props embedded verbatim, and when the component name has no comma both come back out of that expression |

## Left out

- ConnectionPool checkout, return, timeouts, sizing, blocking and the effect of shutdown on in-flight renders. That is the `connection_pool` library, which is not part of this model. A pool is an opaque handle holding its options and a shutdown flag, and `with` is modelled as using a renderer the caller supplies.
- Compilation and evaluation inside ExecJS, and what the JavaScript shims and `React.renderToString` do. These belong to a foreign script engine. They are uninterpreted functions from strings to results.
- The JSON encoding itself, which belongs to the injected engine. Only the choice of `dump` over `encode` is kept.
- `html_safe` on the returned markup. It is a Rails string wrapper with no logic of its own here.
- The generated `Renderer.pool` reader and writer from `cattr_accessor`. Assigning the pool from outside `setup!` is not modelled.
- Concurrency, including `setup!` racing with `render`. The model is sequential.
- Source providers whose `call` raises. A provider is a total function of the world's state at the moment of the call, so a `setup!` that fails halfway through is not modelled. How the world changes between calls is not modelled either: each `setup!` and `reset_combined_js!` is given the moment at which it calls the providers.
- Option values other than integers and JSON engines, such as a float timeout.
- The text of the ArgumentError that `assert_valid_keys` raises.
- React.RendererClass.Setup: names some unknown key, not necessarily the first one in hash order, because hash order is not modelled.
- React.ArgsHash.AssertValidKeys: returns some unknown key, not necessarily the first one in hash order, for the same reason.
- The `PrerenderError` class hierarchy and backtrace. Only the message is kept, and the ExecJS error enters it through its message text.
