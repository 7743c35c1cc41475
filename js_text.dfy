/** The three pieces of text the renderer composes: the PrerenderError
    message, the combined JavaScript bundle every context compiles, and the
    expression `render` evaluates. Each comes with a layout lemma that says
    where its parts sit, and the message and the expression with a parser
    that recovers the parts. */
module JsText {
  import opened Values

  /** The position of the first `c` in `s`, or `|s|` when there is none. */
  function IndexOf(s: string, c: char): (i: nat)
    ensures i <= |s|
    ensures i < |s| ==> s[i] == c
    ensures forall k :: 0 <= k < i ==> s[k] != c
  {
    if |s| == 0 then 0
    else if s[0] == c then 0
    else 1 + IndexOf(s[1..], c)
  }

  /** `c` placed right after a stretch free of `c` is the first `c`. */
  lemma IndexOfAfter(a: string, c: char, b: string)
    requires c !in a
    ensures IndexOf(a + [c] + b, c) == |a|
  {
    assert (a + [c] + b)[|a|] == c;
  }

  /** Splits `s` at its first `c`: what comes before, and the rest from `c` on. */
  function Cut(s: string, c: char): (r: (string, string))
    ensures r.0 + r.1 == s
    ensures c !in r.0
    ensures r.1 == [] || r.1[0] == c
  {
    var i := IndexOf(s, c);
    assert s == s[..i] + s[i..];
    (s[..i], s[i..])
  }

  lemma CutAfter(a: string, c: char, b: string)
    requires c !in a
    ensures Cut(a + [c] + b, c) == (a, [c] + b)
  {
    IndexOfAfter(a, c, b);
    var s := a + [c] + b;
    assert s[..|a|] == a;
    assert s[|a|..] == [c] + b;
  }

  /** True when `s` begins with `p`. */
  predicate StartsWith(s: string, p: string)
  {
    |p| <= |s| && s[..|p|] == p
  }

  /** `s` without its prefix `p`, or None when `s` does not begin with `p`. */
  function DropPrefix(s: string, p: string): (r: Option<string>)
    ensures r.Some? <==> StartsWith(s, p)
    ensures r.Some? ==> p + r.value == s
  {
    if StartsWith(s, p) then
      assert s == s[..|p|] + s[|p|..];
      Some(s[|p|..])
    else None
  }

  /** `s` without its suffix `p`, or None when `s` does not end with `p`. */
  function DropSuffix(s: string, p: string): (r: Option<string>)
    ensures r.Some? <==> |p| <= |s| && s[|s| - |p|..] == p
    ensures r.Some? ==> r.value + p == s
  {
    if |p| <= |s| && s[|s| - |p|..] == p then
      assert s == s[..|s| - |p|] + s[|s| - |p|..];
      Some(s[..|s| - |p|])
    else None
  }

  lemma DropSuffixOf(x: string, p: string)
    ensures DropSuffix(x + p, p) == Some(x)
  {
  }

  lemma DropPrefixOf(p: string, x: string)
    ensures DropPrefix(p + x, p) == Some(x)
  {
  }

  lemma Regroup(a: string, b: string, c: string, d: string, e: string, f: string)
    ensures a + b + c + d + e + f == a + (b + (c + (d + (e + f))))
  {
  }

  lemma RegroupFive(a: string, b: string, c: string, d: string, e: string)
    ensures a + b + c + d + e == a + (b + (c + (d + e)))
  {
  }

  /** Where each of five concatenated parts sits. */
  lemma FiveLayout(a: string, b: string, c: string, d: string, e: string)
    ensures var s := a + b + c + d + e;
            var i := |a| + |b|;
            var j := i + |c|;
            && StartsWith(s, a)
            && s[|a|..i] == b
            && s[i..j] == c
            && s[j..j + |d|] == d
            && |s| == j + |d| + |e|
            && s[j + |d|..] == e
  {
  }

  // ----- PrerenderError#initialize -----

  const MessageLead: string := "Encountered error \""
  const MessageMid: string := "\" when prerendering "
  const MessageWith: string := " with "

  /** The message of a PrerenderError raised for `component` with the
      serialised `props`, after the script engine reported `jsMessage`. */
  function PrerenderMessage(component: string, props: string, jsMessage: string): (m: string)
    ensures StartsWith(m, MessageLead)
    ensures |props| <= |m| && m[|m| - |props|..] == props
  {
    MessageLead + jsMessage + MessageMid + component + MessageWith + props
  }

  /** Reads `lead + x + mid + y + sep + z` back into `(x, y, z)`, where `x`
      ends at the first occurrence of the first character of `mid` and `y`
      at the first occurrence of the first character of `sep`. */
  function ParseDelimited(m: string, lead: string, mid: string, sep: string): (r: Option<(string, string, string)>)
    requires |mid| > 0 && |sep| > 0
    ensures r.Some? ==> lead + r.value.0 + mid + r.value.1 + sep + r.value.2 == m
  {
    match DropPrefix(m, lead)
    case None => None
    case Some(rest) =>
      var (x, afterX) := Cut(rest, mid[0]);
      match DropPrefix(afterX, mid)
      case None => None
      case Some(tail) =>
        var (y, afterY) := Cut(tail, sep[0]);
        match DropPrefix(afterY, sep)
        case None => None
        case Some(z) =>
          Regroup(lead, x, mid, y, sep, z);
          Some((x, y, z))
  }

  lemma {:induction false} ParseDelimitedRoundTrip(lead: string, x: string, mid: string, y: string, sep: string, z: string)
    requires |mid| > 0 && |sep| > 0
    requires mid[0] !in x && sep[0] !in y
    ensures ParseDelimited(lead + x + mid + y + sep + z, lead, mid, sep) == Some((x, y, z))
  {
    var tail := y + (sep + z);
    var afterX := mid + tail;
    Regroup(lead, x, mid, y, sep, z);
    DropPrefixOf(lead, x + afterX);
    assert x + afterX == x + [mid[0]] + (mid[1..] + tail);
    CutAfter(x, mid[0], mid[1..] + tail);
    DropPrefixOf(mid, tail);
    assert tail == y + [sep[0]] + (sep[1..] + z);
    CutAfter(y, sep[0], sep[1..] + z);
    DropPrefixOf(sep, z);
  }

  /** Reads a PrerenderError message back into the engine message, the
      component name and the props; None when `m` is not shaped like one. */
  function ParsePrerenderMessage(m: string): (r: Option<(string, string, string)>)
    ensures r.Some? ==> PrerenderMessage(r.value.1, r.value.2, r.value.0) == m
  {
    ParseDelimited(m, MessageLead, MessageMid, MessageWith)
  }

  /** The message gives back the engine message, the component and the props
      whenever the engine message holds no double quote and the component
      name no space. */
  lemma PrerenderMessageRoundTrip(component: string, props: string, jsMessage: string)
    requires '"' !in jsMessage && ' ' !in component
    ensures ParsePrerenderMessage(PrerenderMessage(component, props, jsMessage)) == Some((jsMessage, component, props))
  {
    assert MessageMid[0] == '"' && MessageWith[0] == ' ';
    ParseDelimitedRoundTrip(MessageLead, jsMessage, MessageMid, component, MessageWith, props);
  }

  /** Why the round trip needs a component name without spaces: a name
      that itself contains ` with ` yields the same message as a shorter
      name whose props begin with the rest of it. */
  lemma PrerenderMessageAmbiguous(component: string, rest: string, props: string, jsMessage: string)
    ensures PrerenderMessage(component + MessageWith + rest, props, jsMessage)
            == PrerenderMessage(component, rest + MessageWith + props, jsMessage)
  {
  }

  /** The component name and the props appear verbatim in the message, in
      that order, after the engine message. */
  lemma PrerenderMessageMentions(component: string, props: string, jsMessage: string)
    ensures var m := PrerenderMessage(component, props, jsMessage);
            var c := |MessageLead| + |jsMessage| + |MessageMid|;
            var p := c + |component| + |MessageWith|;
            && StartsWith(m, MessageLead)
            && m[|MessageLead|..|MessageLead| + |jsMessage|] == jsMessage
            && m[c..c + |component|] == component
            && |m| == p + |props| && m[p..] == props
  {
  }

  // ----- setup_combined_js -----

  /** The shims before the react source: `global`, `self` and `window` fall
      back to `this`, and `console` gains no-op `error`, `log`, `info` and
      `warn` methods where it lacks them. */
  const BundleHead: string :=
    "        var global = global || this;\n" +
    "        var self = self || this;\n" +
    "        var window = window || this;\n" +
    "\n" +
    "        var console = global.console || {};\n" +
    "        ['error', 'log', 'info', 'warn'].forEach(function (fn) {\n" +
    "          if (!(fn in console)) {\n" +
    "            console[fn] = function () {};\n" +
    "          }\n" +
    "        });\n" +
    "\n" +
    "        "

  /** Between the react source and the components source: React is
      exported as a global. */
  const BundleJoin: string := ";\n        React = global.React;\n        "

  const BundleTail: string := ";\n"

  /** The bundle built from what the react provider and the components
      provider yield. */
  function CombinedJs(reactJs: string, componentsJs: string): (b: string)
    ensures StartsWith(b, BundleHead)
    ensures |BundleTail| <= |b| && b[|b| - |BundleTail|..] == BundleTail
  {
    BundleHead + reactJs + BundleJoin + componentsJs + BundleTail
  }

  /** Where the components source starts in the bundle. */
  function ComponentsOffset(reactJs: string): nat
  {
    |BundleHead| + |reactJs| + |BundleJoin|
  }

  /** The bundle opens with the shims; the react source follows verbatim;
      the line exporting React comes next; the components source follows,
      verbatim, strictly after the react source; the bundle closes the last
      statement. */
  lemma BundleLayout(reactJs: string, componentsJs: string)
    ensures var b := CombinedJs(reactJs, componentsJs);
            var r := |BundleHead|;
            var c := ComponentsOffset(reactJs);
            && StartsWith(b, BundleHead)
            && b[r..r + |reactJs|] == reactJs
            && b[r + |reactJs|..c] == BundleJoin
            && r + |reactJs| < c
            && b[c..c + |componentsJs|] == componentsJs
            && |b| == c + |componentsJs| + |BundleTail|
            && b[c + |componentsJs|..] == BundleTail
  {
    FiveLayout(BundleHead, reactJs, BundleJoin, componentsJs, BundleTail);
  }

  /** The bundle determines both sources once the length of the react
      source is known. */
  lemma BundleInjective(r1: string, c1: string, r2: string, c2: string)
    requires |r1| == |r2|
    requires CombinedJs(r1, c1) == CombinedJs(r2, c2)
    ensures r1 == r2 && c1 == c2
  {
    BundleLayout(r1, c1);
    BundleLayout(r2, c2);
  }

  // ----- the expression built in #render -----

  const ExpressionHead: string :=
    "        function() {\n" +
    "          return React.renderToString(React.createElement("
  const ExpressionSeparator: string := ", "
  const ExpressionTail: string := "));\n        }()\n"

  /** The expression that renders `component` with the serialised `props`
      to a markup string. */
  function RenderExpression(component: string, props: string): (e: string)
    ensures StartsWith(e, ExpressionHead)
    ensures |ExpressionTail| <= |e| && e[|e| - |ExpressionTail|..] == ExpressionTail
  {
    ExpressionHead + component + ExpressionSeparator + props + ExpressionTail
  }

  /** Reads an expression back into the component and the props; None when
      `e` is not shaped like one. */
  function ParseRenderExpression(e: string): (r: Option<(string, string)>)
    ensures r.Some? ==> RenderExpression(r.value.0, r.value.1) == e
  {
    match DropPrefix(e, ExpressionHead)
    case None => None
    case Some(rest) =>
      var (component, afterComponent) := Cut(rest, ',');
      match DropPrefix(afterComponent, ExpressionSeparator)
      case None => None
      case Some(tail) =>
        match DropSuffix(tail, ExpressionTail)
        case None => None
        case Some(props) =>
          RegroupFive(ExpressionHead, component, ExpressionSeparator, props, ExpressionTail);
          Some((component, props))
  }

  /** The component and the props come back out of the expression verbatim
      when the component holds no comma. */
  lemma {:induction false} RenderExpressionRoundTrip(component: string, props: string)
    requires ',' !in component
    ensures ParseRenderExpression(RenderExpression(component, props)) == Some((component, props))
  {
    var tail := props + ExpressionTail;
    var rest := component + (ExpressionSeparator + tail);
    RegroupFive(ExpressionHead, component, ExpressionSeparator, props, ExpressionTail);
    DropPrefixOf(ExpressionHead, rest);
    assert ExpressionSeparator == [','] + ExpressionSeparator[1..];
    assert rest == component + [','] + (ExpressionSeparator[1..] + tail);
    CutAfter(component, ',', ExpressionSeparator[1..] + tail);
    DropPrefixOf(ExpressionSeparator, tail);
    DropSuffixOf(props, ExpressionTail);
  }

  /** For one component, different props give different expressions: the
      props text is embedded, not transformed. */
  lemma RenderExpressionInjective(component: string, p1: string, p2: string)
    requires RenderExpression(component, p1) == RenderExpression(component, p2)
    ensures p1 == p2
  {
    var e := RenderExpression(component, p1);
    var at := |ExpressionHead| + |component| + |ExpressionSeparator|;
    assert e == (ExpressionHead + component + ExpressionSeparator) + p1 + ExpressionTail;
    assert e == (ExpressionHead + component + ExpressionSeparator) + p2 + ExpressionTail;
    assert |p1| == |p2|;
    assert e[at..at + |p1|] == p1;
    assert e[at..at + |p2|] == p2;
  }
}
