/** The WebSocket route table of lib/router.js: layers binding a compiled path
    pattern to handlers, an append-only stack of them, matching in
    registration order, and the flat handler chain the router middleware
    builds for a request. */
module Router {
  import opened Js
  import opened Koa

  // ---------------------------------------------------------------------
  // Layers
  // ---------------------------------------------------------------------

  /** Handlers are opaque functions, named by number. */
  type HandlerId = nat

  /** A value handed to the Layer constructor as middleware: a function, or
      anything else, with what `typeof` says of it. */
  datatype Value = Function(id: HandlerId) | NonFunction(typeName: string)

  /** `middleware` as passed to the constructor: an array, or one value. */
  datatype MiddlewareArg = One(value: Value) | Many(values: seq<Value>)

  /** A parameter key produced by path-to-regexp. */
  datatype Key = Key(name: string, optional: bool, repeat: bool)

  /** The options passed to path-to-regexp. */
  datatype LayerOpts = LayerOpts(end: bool, sensitive: bool, strict: bool)

  /** path-to-regexp, abstracted: the keys a pattern declares, or None when
      compiling the pattern throws, and the capture groups (each a string or
      `undefined`) of the compiled expression on a path, or None when it does
      not match. */
  datatype PathToRegexp = PathToRegexp(
    keys: (string, LayerOpts) -> Option<seq<Key>>,
    exec: (string, LayerOpts, string) -> Option<seq<Option<string>>>)

  /** A constructed Layer; it is never changed after construction. */
  datatype Layer = Layer(path: string, opts: LayerOpts, paramNames: seq<Key>, stack: seq<HandlerId>)

  /** What the Layer constructor throws: the error naming a non-function
      middleware, or the error of path-to-regexp on a malformed pattern. */
  datatype LayerError = NotAFunction(path: string, typeName: string) | BadPattern(path: string)

  /** `Array.isArray(middleware) ? middleware : [middleware]` */
  function StackOf(middleware: MiddlewareArg): seq<Value>
  {
    match middleware
    case One(v) => [v]
    case Many(vs) => vs
  }

  predicate AllFunctions(vs: seq<Value>)
  {
    forall i :: 0 <= i < |vs| ==> vs[i].Function?
  }

  function Ids(vs: seq<Value>): (r: seq<HandlerId>)
    requires AllFunctions(vs)
    ensures |r| == |vs|
  {
    seq(|vs|, i requires 0 <= i < |vs| => vs[i].id)
  }

  /** `new Layer(path, middleware, opts)` (lib/router.js:14-32): the stack is
      checked element by element and the first non-function throws; otherwise
      the pattern is compiled, which throws on a malformed pattern, and its
      keys recorded. */
  method NewLayer(p2r: PathToRegexp, path: string, middleware: MiddlewareArg, opts: LayerOpts)
    returns (r: Result<Layer, LayerError>)
    ensures r.Ok? <==> AllFunctions(StackOf(middleware)) && p2r.keys(path, opts).Some?
    ensures r.Ok? ==> r.value == Layer(path, opts, p2r.keys(path, opts).value, Ids(StackOf(middleware)))
    ensures !AllFunctions(StackOf(middleware)) ==>
      (&& r.Err?
       && exists i :: (&& 0 <= i < |StackOf(middleware)| && !StackOf(middleware)[i].Function?
                       && AllFunctions(StackOf(middleware)[..i])
                       && r.error == NotAFunction(path, StackOf(middleware)[i].typeName)))
    ensures AllFunctions(StackOf(middleware)) && p2r.keys(path, opts).None? ==> r == Err(BadPattern(path))
  {
    var stack := StackOf(middleware);
    var i := 0;
    while i < |stack|
      invariant 0 <= i <= |stack|
      invariant AllFunctions(stack[..i])
    {
      if !stack[i].Function? {
        return Err(NotAFunction(path, stack[i].typeName));
      }
      i := i + 1;
    }
    assert stack[..i] == stack;
    var keys := p2r.keys(path, opts);
    if keys.None? {
      return Err(BadPattern(path));
    }
    r := Ok(Layer(path, opts, keys.value, Ids(stack)));
  }

  /** `layer.match(path)` */
  predicate Matches(p2r: PathToRegexp, layer: Layer, path: string)
  {
    p2r.exec(layer.path, layer.opts, path).Some?
  }

  datatype TypeError = NullHasNoSlice

  /** `layer.captures(path)`: the capture groups; `null.slice` throws when the
      path does not match. */
  function Captures(p2r: PathToRegexp, layer: Layer, path: string): (r: Result<seq<Option<string>>, TypeError>)
    ensures r.Ok? <==> Matches(p2r, layer, path)
  {
    match p2r.exec(layer.path, layer.opts, path)
    case Some(groups) => Ok(groups)
    case None => Err(NullHasNoSlice)
  }

  /** `decodeURIComponent`, abstracted: None when it throws a URIError. */
  type Decoder = string -> Option<string>

  /** `safeDecodeURIComponent(text)` (lib/router.js:5-11): the decoded text, or
      the text unchanged when decoding throws. */
  function SafeDecode(decode: Decoder, text: string): (r: string)
    ensures decode(text).None? ==> r == text
    ensures decode(text).Some? ==> r == decode(text).value
  {
    match decode(text)
    case Some(decoded) => decoded
    case None => text
  }

  /** `c ? safeDecodeURIComponent(c) : c`: falsy captures are stored as they are. */
  function ParamValue(decode: Decoder, c: Option<string>): Option<string>
  {
    if Truthy(c) then Some(SafeDecode(decode, c.value)) else c
  }

  type Params = map<string, Option<string>>

  /** `existingParams || {}` */
  function BaseParams(existing: Option<Params>): Params
  {
    match existing
    case Some(p) => p
    case None => map[]
  }

  function Min(a: nat, b: nat): nat { if a <= b then a else b }

  /** How many captures `params` binds: those that have a key. */
  function Bound(names: seq<Key>, captures: seq<Option<string>>): nat
  {
    Min(|names|, |captures|)
  }

  /** The first `n` writes of the `params` loop applied to `base`. */
  function Merge(decode: Decoder, names: seq<Key>, captures: seq<Option<string>>, base: Params, n: nat): Params
    requires n <= Bound(names, captures)
  {
    if n == 0 then base
    else Merge(decode, names, captures, base, n - 1)[names[n - 1].name := ParamValue(decode, captures[n - 1])]
  }

  function NamesBefore(names: seq<Key>, n: nat): set<string>
    requires n <= |names|
  {
    set i | 0 <= i < n :: names[i].name
  }

  /** No later key among the first `n` has the same name as key `i`. */
  predicate LastWithName(names: seq<Key>, n: nat, i: nat)
    requires i < n <= |names|
  {
    forall j :: i < j < n ==> names[j].name != names[i].name
  }

  /** Merging adds exactly the names of the bound keys to the base's keys. */
  lemma {:induction false} MergeKeys(decode: Decoder, names: seq<Key>, captures: seq<Option<string>>, base: Params, n: nat)
    requires n <= Bound(names, captures)
    ensures Merge(decode, names, captures, base, n).Keys == base.Keys + NamesBefore(names, n)
  {
    if n > 0 {
      MergeKeys(decode, names, captures, base, n - 1);
      assert NamesBefore(names, n) == NamesBefore(names, n - 1) + {names[n - 1].name};
    }
  }

  /** Merging keeps every base entry whose name no bound key has. */
  lemma {:induction false} MergeKeeps(decode: Decoder, names: seq<Key>, captures: seq<Option<string>>, base: Params, n: nat, k: string)
    requires n <= Bound(names, captures)
    requires k in base && k !in NamesBefore(names, n)
    ensures k in Merge(decode, names, captures, base, n) && Merge(decode, names, captures, base, n)[k] == base[k]
  {
    if n > 0 {
      assert names[n - 1].name in NamesBefore(names, n);
      assert NamesBefore(names, n - 1) <= NamesBefore(names, n);
      MergeKeeps(decode, names, captures, base, n - 1, k);
    }
  }

  /** Merging gives a name the value of the capture of its last key. */
  lemma {:induction false} MergeLastWins(decode: Decoder, names: seq<Key>, captures: seq<Option<string>>, base: Params, n: nat, i: nat)
    requires n <= Bound(names, captures)
    requires i < n && LastWithName(names, n, i)
    ensures names[i].name in Merge(decode, names, captures, base, n)
    ensures Merge(decode, names, captures, base, n)[names[i].name] == ParamValue(decode, captures[i])
  {
    if i < n - 1 {
      assert names[n - 1].name != names[i].name;
      assert LastWithName(names, n - 1, i);
      MergeLastWins(decode, names, captures, base, n - 1, i);
    }
  }

  /** Merging writes exactly the names of the bound keys: each gets the value
      of its last capture, and every other entry of the base is kept. */
  lemma MergeWrites(decode: Decoder, names: seq<Key>, captures: seq<Option<string>>, base: Params, n: nat)
    requires n <= Bound(names, captures)
    ensures Merge(decode, names, captures, base, n).Keys == base.Keys + NamesBefore(names, n)
    ensures forall k :: k in base && k !in NamesBefore(names, n) ==>
      Merge(decode, names, captures, base, n)[k] == base[k]
    ensures forall i :: 0 <= i < n && LastWithName(names, n, i) ==>
      Merge(decode, names, captures, base, n)[names[i].name] == ParamValue(decode, captures[i])
  {
    MergeKeys(decode, names, captures, base, n);
    forall k | k in base && k !in NamesBefore(names, n) ensures Merge(decode, names, captures, base, n)[k] == base[k] {
      MergeKeeps(decode, names, captures, base, n, k);
    }
    forall i | 0 <= i < n && LastWithName(names, n, i)
      ensures Merge(decode, names, captures, base, n)[names[i].name] == ParamValue(decode, captures[i])
    {
      MergeLastWins(decode, names, captures, base, n, i);
    }
  }

  /** `layer.params(path, captures, existingParams)` (lib/router.js:42-53):
      binds `paramNames[i].name` for every capture index that has a key,
      decoding truthy captures, on top of the existing parameters. (The same
      object is returned in the source; here the value is.) */
  method LayerParams(decode: Decoder, layer: Layer, path: string, captures: seq<Option<string>>,
                     existing: Option<Params>) returns (params: Params)
    ensures params == Merge(decode, layer.paramNames, captures, BaseParams(existing), Bound(layer.paramNames, captures))
  {
    params := BaseParams(existing);
    var len := |captures|;
    var i := 0;
    while i < len
      invariant 0 <= i <= len
      invariant params == Merge(decode, layer.paramNames, captures, BaseParams(existing), Min(i, |layer.paramNames|))
    {
      if i < |layer.paramNames| {
        var c := captures[i];
        params := params[layer.paramNames[i].name := if Truthy(c) then Some(SafeDecode(decode, c.value)) else c];
      }
      i := i + 1;
    }
  }

  // ---------------------------------------------------------------------
  // Matching
  // ---------------------------------------------------------------------

  /** The layers of `layers` that match `path`, in order. */
  function MatchingLayers(p2r: PathToRegexp, layers: seq<Layer>, path: string): seq<Layer>
  {
    if |layers| == 0 then []
    else
      MatchingLayers(p2r, layers[..|layers| - 1], path)
        + (if Matches(p2r, layers[|layers| - 1], path) then [layers[|layers| - 1]] else [])
  }

  /** The positions of the layers that match `path`, in order. */
  function MatchingIndices(p2r: PathToRegexp, layers: seq<Layer>, path: string): seq<nat>
  {
    if |layers| == 0 then []
    else
      MatchingIndices(p2r, layers[..|layers| - 1], path)
        + (if Matches(p2r, layers[|layers| - 1], path) then [|layers| - 1] else [])
  }

  /** The positions picked are below the stack's length and strictly
      increasing, and the layers picked are the ones at those positions. */
  lemma {:induction false} MatchPositions(p2r: PathToRegexp, layers: seq<Layer>, path: string)
    ensures var r, idx := MatchingLayers(p2r, layers, path), MatchingIndices(p2r, layers, path);
      && |r| == |idx|
      && (forall k :: 0 <= k < |idx| ==> idx[k] < |layers| && r[k] == layers[idx[k]])
      && (forall k, l :: 0 <= k < l < |idx| ==> idx[k] < idx[l])
  {
    if |layers| > 0 {
      var init := layers[..|layers| - 1];
      MatchPositions(p2r, init, path);
      var r0, idx0 := MatchingLayers(p2r, init, path), MatchingIndices(p2r, init, path);
      forall k | 0 <= k < |idx0| ensures idx0[k] < |init| && r0[k] == layers[idx0[k]] {
        assert init[idx0[k]] == layers[idx0[k]];
      }
    }
  }

  /** A position is picked exactly when its layer matches. */
  lemma {:induction false} MatchMembership(p2r: PathToRegexp, layers: seq<Layer>, path: string, i: nat)
    requires i < |layers|
    ensures i in MatchingIndices(p2r, layers, path) <==> Matches(p2r, layers[i], path)
  {
    var init := layers[..|layers| - 1];
    MatchPositions(p2r, init, path);
    var idx0 := MatchingIndices(p2r, init, path);
    if i < |init| {
      MatchMembership(p2r, init, path, i);
      assert layers[i] == init[i];
      assert |layers| - 1 !in idx0;
    } else {
      assert i !in idx0;
    }
  }

  /** The matched layers are the stack entries at strictly increasing
      positions (so in stack order, none twice), and a position is among them
      exactly when its layer matches. */
  lemma MatchIsOrderedSelection(p2r: PathToRegexp, layers: seq<Layer>, path: string)
    ensures var r, idx := MatchingLayers(p2r, layers, path), MatchingIndices(p2r, layers, path);
      && |r| == |idx|
      && (forall k :: 0 <= k < |idx| ==> idx[k] < |layers| && r[k] == layers[idx[k]])
      && (forall k, l :: 0 <= k < l < |idx| ==> idx[k] < idx[l])
      && (forall i :: 0 <= i < |layers| ==> (i in idx <==> Matches(p2r, layers[i], path)))
  {
    MatchPositions(p2r, layers, path);
    forall i | 0 <= i < |layers|
      ensures i in MatchingIndices(p2r, layers, path) <==> Matches(p2r, layers[i], path)
    {
      MatchMembership(p2r, layers, path, i);
    }
  }

  // ---------------------------------------------------------------------
  // The chain built by the router middleware
  // ---------------------------------------------------------------------

  /** One link of the chain: the param-binding step of a layer (for the path
      the request had when the chain was built), or a handler. */
  datatype Step = Bind(layer: Layer, path: string) | Handle(handler: HandlerId)

  function Handles(stack: seq<HandlerId>): (r: seq<Step>)
    ensures |r| == |stack|
  {
    seq(|stack|, i requires 0 <= i < |stack| => Handle(stack[i]))
  }

  /** `matchedLayers.reduce(...)`: a bind step, then the layer's stack, per layer. */
  function LayerChain(layers: seq<Layer>, path: string): seq<Step>
  {
    if |layers| == 0 then []
    else LayerChain(layers[..|layers| - 1], path) + [Bind(layers[|layers| - 1], path)] + Handles(layers[|layers| - 1].stack)
  }

  function SumStacks(layers: seq<Layer>): nat
  {
    if |layers| == 0 then 0 else SumStacks(layers[..|layers| - 1]) + |layers[|layers| - 1].stack|
  }

  /** The layers whose bind steps occur in a chain, in order. */
  function BoundLayers(chain: seq<Step>): seq<Layer>
  {
    if |chain| == 0 then []
    else BoundLayers(chain[..|chain| - 1]) + (if chain[|chain| - 1].Bind? then [chain[|chain| - 1].layer] else [])
  }

  /** The handlers of a chain, in order. */
  function ChainHandlers(chain: seq<Step>): seq<HandlerId>
  {
    if |chain| == 0 then []
    else ChainHandlers(chain[..|chain| - 1]) + (if chain[|chain| - 1].Handle? then [chain[|chain| - 1].handler] else [])
  }

  function ConcatStacks(layers: seq<Layer>): seq<HandlerId>
  {
    if |layers| == 0 then [] else ConcatStacks(layers[..|layers| - 1]) + layers[|layers| - 1].stack
  }

  /** A bind step adds its layer to the bound layers and no handler. */
  lemma AfterBind(c: seq<Step>, l: Layer, p: string)
    ensures BoundLayers(c + [Bind(l, p)]) == BoundLayers(c) + [l]
    ensures ChainHandlers(c + [Bind(l, p)]) == ChainHandlers(c)
  {
    assert (c + [Bind(l, p)])[..|c|] == c;
  }

  /** Handler steps add no bound layer. */
  lemma {:induction false} BindsAfterHandles(c: seq<Step>, stack: seq<HandlerId>)
    ensures BoundLayers(c + Handles(stack)) == BoundLayers(c)
  {
    if |stack| == 0 {
      assert c + Handles(stack) == c;
    } else {
      var s' := stack[..|stack| - 1];
      BindsAfterHandles(c, s');
      var all := c + Handles(stack);
      assert all[..|all| - 1] == c + Handles(s');
      assert all[|all| - 1].Handle?;
    }
  }

  /** Handler steps add their handlers, in order. */
  lemma {:induction false} HandlersAfterHandles(c: seq<Step>, stack: seq<HandlerId>)
    ensures ChainHandlers(c + Handles(stack)) == ChainHandlers(c) + stack
  {
    if |stack| == 0 {
      assert c + Handles(stack) == c;
    } else {
      var s', h := stack[..|stack| - 1], stack[|stack| - 1];
      HandlersAfterHandles(c, s');
      var all := c + Handles(stack);
      assert all[..|all| - 1] == c + Handles(s');
      assert all[|all| - 1] == Handle(h);
      assert s' + [h] == stack;
    }
  }

  /** The chain for `layers` is the chain for all but the last, then the last
      layer's bind step, then its handlers. */
  lemma LayerChainSnoc(layers: seq<Layer>, path: string)
    requires |layers| > 0
    ensures LayerChain(layers, path) ==
      LayerChain(layers[..|layers| - 1], path) + [Bind(layers[|layers| - 1], path)] + Handles(layers[|layers| - 1].stack)
  {
  }

  lemma {:induction false} LayerChainBinds(layers: seq<Layer>, path: string)
    ensures BoundLayers(LayerChain(layers, path)) == layers
  {
    if |layers| > 0 {
      var init, last := layers[..|layers| - 1], layers[|layers| - 1];
      var c0 := LayerChain(init, path);
      LayerChainBinds(init, path);
      LayerChainSnoc(layers, path);
      AfterBind(c0, last, path);
      BindsAfterHandles(c0 + [Bind(last, path)], last.stack);
      assert init + [last] == layers;
    }
  }

  lemma {:induction false} LayerChainHandlers(layers: seq<Layer>, path: string)
    ensures ChainHandlers(LayerChain(layers, path)) == ConcatStacks(layers)
  {
    if |layers| > 0 {
      var init, last := layers[..|layers| - 1], layers[|layers| - 1];
      var c0 := LayerChain(init, path);
      LayerChainHandlers(init, path);
      LayerChainSnoc(layers, path);
      AfterBind(c0, last, path);
      HandlersAfterHandles(c0 + [Bind(last, path)], last.stack);
    }
  }

  lemma {:induction false} LayerChainLength(layers: seq<Layer>, path: string)
    ensures |LayerChain(layers, path)| == |layers| + SumStacks(layers)
  {
    if |layers| > 0 {
      LayerChainLength(layers[..|layers| - 1], path);
      LayerChainSnoc(layers, path);
    }
  }

  lemma {:induction false} LayerChainPaths(layers: seq<Layer>, path: string)
    ensures forall s :: s in LayerChain(layers, path) && s.Bind? ==> s.path == path
  {
    if |layers| > 0 {
      var init, last := layers[..|layers| - 1], layers[|layers| - 1];
      LayerChainPaths(init, path);
      LayerChainSnoc(layers, path);
      assert forall s :: s in Handles(last.stack) ==> s.Handle?;
    }
  }

  /** The chain has one bind step per matched layer, in order, and between
      them exactly the layers' handlers, in order: its length is the number of
      layers plus the sum of their stack lengths. */
  lemma LayerChainShape(layers: seq<Layer>, path: string)
    ensures BoundLayers(LayerChain(layers, path)) == layers
    ensures ChainHandlers(LayerChain(layers, path)) == ConcatStacks(layers)
    ensures |LayerChain(layers, path)| == |layers| + SumStacks(layers)
    ensures forall s :: s in LayerChain(layers, path) && s.Bind? ==> s.path == path
  {
    LayerChainBinds(layers, path);
    LayerChainHandlers(layers, path);
    LayerChainLength(layers, path);
    LayerChainPaths(layers, path);
  }

  /** Builds the chain with the `reduce` loop, layer by layer. */
  method BuildChain(layers: seq<Layer>, path: string) returns (chain: seq<Step>)
    ensures chain == LayerChain(layers, path)
  {
    chain := [];
    for k := 0 to |layers|
      invariant chain == LayerChain(layers[..k], path)
    {
      assert layers[..k + 1][..k] == layers[..k];
      chain := chain + [Bind(layers[k], path)];
      chain := chain + Handles(layers[k].stack);
    }
    assert layers[..|layers|] == layers;
  }

  /** What the router middleware does with a request: hand it straight to
      `next`, or record the matched route and run a chain. */
  datatype Dispatch = PassThrough | Chain(matchedRoute: string, steps: seq<Step>)

  function DispatchOf(p2r: PathToRegexp, stack: seq<Layer>, httpMethod: string, path: string): Dispatch
  {
    if httpMethod != "GET" then PassThrough
    else
      var matched := MatchingLayers(p2r, stack, path);
      if |matched| == 0 then PassThrough
      else Chain(matched[|matched| - 1].path, LayerChain(matched, path))
  }

  /** The router passes a request through exactly when it is not a GET or no
      layer matches; otherwise the recorded route is the path of the last
      layer in the stack that matches, and the chain binds every matching
      layer in stack order. */
  lemma DispatchRule(p2r: PathToRegexp, stack: seq<Layer>, httpMethod: string, path: string)
    ensures DispatchOf(p2r, stack, httpMethod, path).PassThrough? <==>
      httpMethod != "GET" || forall i :: 0 <= i < |stack| ==> !Matches(p2r, stack[i], path)
    ensures DispatchOf(p2r, stack, httpMethod, path).Chain? ==>
      var d := DispatchOf(p2r, stack, httpMethod, path);
      && BoundLayers(d.steps) == MatchingLayers(p2r, stack, path)
      && exists i :: 0 <= i < |stack| && Matches(p2r, stack[i], path) && d.matchedRoute == stack[i].path
           && forall j :: i < j < |stack| ==> !Matches(p2r, stack[j], path)
  {
    var matched := MatchingLayers(p2r, stack, path);
    var idx := MatchingIndices(p2r, stack, path);
    MatchPositions(p2r, stack, path);
    if httpMethod == "GET" {
      if |matched| == 0 {
        forall i | 0 <= i < |stack| ensures !Matches(p2r, stack[i], path) {
          MatchMembership(p2r, stack, path, i);
        }
      } else {
        LayerChainBinds(matched, path);
        var last := idx[|idx| - 1];
        MatchMembership(p2r, stack, path, last);
        assert matched[|matched| - 1] == stack[last];
        LastIsLargest(idx);
        forall j | last < j < |stack| ensures !Matches(p2r, stack[j], path) {
          MatchMembership(p2r, stack, path, j);
        }
      }
    }
  }

  /** In a strictly increasing sequence the last entry is the largest. */
  lemma LastIsLargest(idx: seq<nat>)
    requires |idx| > 0 && forall k, l :: 0 <= k < l < |idx| ==> idx[k] < idx[l]
    ensures forall x :: x in idx ==> x <= idx[|idx| - 1]
  {
    forall x | x in idx ensures x <= idx[|idx| - 1] {
      var k :| 0 <= k < |idx| && idx[k] == x;
      if k < |idx| - 1 {
        assert idx[k] < idx[|idx| - 1];
      }
    }
  }

  // ---------------------------------------------------------------------
  // Parameters across a chain
  // ---------------------------------------------------------------------

  /** The parameters after the bind steps of `layers` ran in order on `path`,
      starting from `base`; every layer matches, so its captures exist. */
  function ParamsAfter(p2r: PathToRegexp, decode: Decoder, layers: seq<Layer>, path: string, base: Params): Params
    requires forall k :: 0 <= k < |layers| ==> Matches(p2r, layers[k], path)
  {
    if |layers| == 0 then base
    else
      var last := layers[|layers| - 1];
      assert Matches(p2r, last, path);
      var caps := p2r.exec(last.path, last.opts, path).value;
      Merge(decode, last.paramNames, caps, ParamsAfter(p2r, decode, layers[..|layers| - 1], path, base),
            Bound(last.paramNames, caps))
  }

  /** The names a layer binds on `path`. */
  function LayerNames(p2r: PathToRegexp, layer: Layer, path: string): set<string>
    requires Matches(p2r, layer, path)
  {
    var caps := p2r.exec(layer.path, layer.opts, path).value;
    NamesBefore(layer.paramNames, Bound(layer.paramNames, caps))
  }

  /** Parameters accumulate across the matched layers: a name no layer binds
      keeps its value from before the chain, and the last layer overwrites its
      own names only, leaving every other name as the earlier layers left it;
      each of those names takes the decoded capture of its last key. */
  lemma {:induction false} ParamsAccumulate(p2r: PathToRegexp, decode: Decoder, layers: seq<Layer>, path: string, base: Params)
    requires forall k :: 0 <= k < |layers| ==> Matches(p2r, layers[k], path)
    ensures forall name :: name in base && (forall k :: 0 <= k < |layers| ==> name !in LayerNames(p2r, layers[k], path)) ==>
      name in ParamsAfter(p2r, decode, layers, path, base) && ParamsAfter(p2r, decode, layers, path, base)[name] == base[name]
    ensures |layers| > 0 ==>
      var init, last := layers[..|layers| - 1], layers[|layers| - 1];
      var before := ParamsAfter(p2r, decode, init, path, base);
      forall name :: name in before && name !in LayerNames(p2r, last, path) ==>
        name in ParamsAfter(p2r, decode, layers, path, base) && ParamsAfter(p2r, decode, layers, path, base)[name] == before[name]
    ensures |layers| > 0 && Matches(p2r, layers[|layers| - 1], path) ==>
      var last := layers[|layers| - 1];
      var caps := p2r.exec(last.path, last.opts, path).value;
      var n := Bound(last.paramNames, caps);
      forall i :: 0 <= i < n && LastWithName(last.paramNames, n, i) ==>
        && last.paramNames[i].name in ParamsAfter(p2r, decode, layers, path, base)
        && ParamsAfter(p2r, decode, layers, path, base)[last.paramNames[i].name] == ParamValue(decode, caps[i])
  {
    if |layers| > 0 {
      var init, last := layers[..|layers| - 1], layers[|layers| - 1];
      ParamsAccumulate(p2r, decode, init, path, base);
      var caps := p2r.exec(last.path, last.opts, path).value;
      MergeWrites(decode, last.paramNames, caps, ParamsAfter(p2r, decode, init, path, base), Bound(last.paramNames, caps));
      forall name | name in base && (forall k :: 0 <= k < |layers| ==> name !in LayerNames(p2r, layers[k], path))
        ensures forall k :: 0 <= k < |init| ==> name !in LayerNames(p2r, init[k], path)
      {
        forall k | 0 <= k < |init| ensures name !in LayerNames(p2r, init[k], path) {
          assert init[k] == layers[k];
        }
      }
    }
  }

  // ---------------------------------------------------------------------
  // The router
  // ---------------------------------------------------------------------

  /** The first argument of `route`: a path, or an array of paths. */
  datatype PathArg = OnePath(path: string) | PathList(paths: seq<string>)

  datatype RouteError = LayerFailed(error: LayerError) | GetIsNotAFunction

  /** What `route` returns: the new layer, the router itself, or what it throws. */
  datatype RouteResult = Registered(layer: Layer) | ReturnedRouter | Threw(error: RouteError)

  /** The options every route is compiled with. */
  const RouteOpts := LayerOpts(true, false, false)

  class WebSocketRouter {
    var stack: seq<Layer>

    constructor ()
      ensures stack == []
    {
      stack := [];
    }

    /** `route(path, ...middleware)` (lib/router.js:74-97). A single path
        appends one layer, compiled with `{end: true, sensitive: false,
        strict: false}`, and returns it; earlier entries are kept. A handler
        that is not a function or a pattern that does not compile throws, and
        the stack is unchanged. An array of
        paths calls `router.get`, which this class does not define: a
        non-empty array throws a TypeError (the stack unchanged), an empty one
        returns the router. */
    method Route(p2r: PathToRegexp, path: PathArg, middleware: seq<Value>) returns (r: RouteResult)
      modifies this
      ensures path.PathList? ==>
        (stack == old(stack) && r == if |path.paths| == 0 then ReturnedRouter else Threw(GetIsNotAFunction))
      ensures path.OnePath? ==> (r.Registered? <==> AllFunctions(middleware) && p2r.keys(path.path, RouteOpts).Some?)
      ensures path.OnePath? && r.Registered? ==>
        && r.layer == Layer(path.path, RouteOpts, p2r.keys(path.path, RouteOpts).value, Ids(middleware))
        && stack == old(stack) + [r.layer]
      ensures path.OnePath? && !r.Registered? ==> r.Threw? && r.error.LayerFailed? && stack == old(stack)
      ensures path.OnePath? && AllFunctions(middleware) && p2r.keys(path.path, RouteOpts).None? ==>
        r == Threw(LayerFailed(BadPattern(path.path)))
    {
      if path.PathList? {
        if |path.paths| > 0 {
          return Threw(GetIsNotAFunction);
        }
        return ReturnedRouter;
      }
      var layer := NewLayer(p2r, path.path, Many(middleware), RouteOpts);
      if layer.Err? {
        return Threw(LayerFailed(layer.error));
      }
      stack := stack + [layer.value];
      r := Registered(layer.value);
    }

    /** `match(path)` (lib/router.js:126-139): every layer that matches, in
        stack order. */
    method Match(p2r: PathToRegexp, path: string) returns (matched: seq<Layer>)
      ensures matched == MatchingLayers(p2r, stack, path)
    {
      matched := [];
      var i := 0;
      while i < |stack|
        invariant 0 <= i <= |stack|
        invariant matched == MatchingLayers(p2r, stack[..i], path)
      {
        assert stack[..i + 1][..i] == stack[..i];
        if Matches(p2r, stack[i], path) {
          matched := matched + [stack[i]];
        }
        i := i + 1;
      }
      assert stack[..i] == stack;
    }

    /** The function returned by `middleware()` (lib/router.js:99-124), up to
        running the chain: a non-GET request or one no layer matches is handed
        to `next` with the context untouched; otherwise `ctx._matchedRoute`
        becomes the path of the last matched layer and the chain is returned. */
    method Middleware(p2r: PathToRegexp, ctx: Context) returns (d: Dispatch)
      modifies ctx`matchedRoute
      ensures d == DispatchOf(p2r, stack, ctx.httpMethod, ctx.path)
      ensures ctx.matchedRoute == if d.Chain? then Some(d.matchedRoute) else old(ctx.matchedRoute)
    {
      if ctx.httpMethod != "GET" {
        return PassThrough;
      }
      var path := ctx.path;
      var matchedLayers := Match(p2r, path);
      if |matchedLayers| == 0 {
        return PassThrough;
      }
      var mostSpecificLayer := matchedLayers[|matchedLayers| - 1];
      ctx.matchedRoute := Some(mostSpecificLayer.path);
      var layerChain := BuildChain(matchedLayers, path);
      d := Chain(mostSpecificLayer.path, layerChain);
    }
  }

  /** A bind step of the chain run on a context: captures are recomputed on the
      path the chain was built for, then merged into `ctx.params`. Returns
      false when `captures` throws. */
  method RunBind(p2r: PathToRegexp, decode: Decoder, ctx: Context, layer: Layer, path: string) returns (ok: bool)
    modifies ctx`captures, ctx`params
    ensures ok <==> Matches(p2r, layer, path)
    ensures !ok ==> ctx.captures == old(ctx.captures) && ctx.params == old(ctx.params)
    ensures ok ==>
      var caps := p2r.exec(layer.path, layer.opts, path).value;
      && ctx.captures == Some(caps)
      && ctx.params == Some(Merge(decode, layer.paramNames, caps, BaseParams(old(ctx.params)), Bound(layer.paramNames, caps)))
  {
    var caps := Captures(p2r, layer, path);
    if caps.Err? {
      return false;
    }
    ctx.captures := Some(caps.value);
    var params := LayerParams(decode, layer, path, caps.value, ctx.params);
    ctx.params := Some(params);
    ok := true;
  }
}
