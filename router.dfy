/** The source router (`buildOpenWormhole`): an inline string goes to the sandbox
    compiler only on explicit opt-in, an object with a string `uri` goes to the
    coalescer, anything else is refused. */
module Router {
  import opened JsValues

  datatype Route =
    | CompileInline(code: string)  // compile directly; no cache, no queue
    | OpenRemote(uri: string)      // hand a fresh waiter to the coalescer
    | Refuse(error: Value)         // the returned promise rejects

  const InlineDisallowedMessage :=
    "[DynamicComponent]: Attempted to instantiate a Wormhole using a string, but dangerouslySetInnerJSX was not true."

  function InvalidSourceMessage(kind: string): string
  {
    "[DynamicComponent]: Expected valid source, encountered " + kind + "."
  }

  /** Whether `source && typeof source === 'object' && typeof source.uri === 'string'`. */
  predicate NamesUri(source: Value)
  {
    source.Object? && Get(source.props, "uri").Str?
  }

  /** `allowInline` is the value of the `dangerouslySetInnerJSX` option. */
  function RouteSource(source: Value, allowInline: Value): (r: Route)
    ensures r.CompileInline? <==> source.Str? && allowInline == Bool(true)
    ensures r.CompileInline? ==> r.code == source.s
    ensures r.OpenRemote? <==> NamesUri(source)
    ensures r.OpenRemote? ==> Get(source.props, "uri") == Str(r.uri)
    ensures source.Str? && allowInline != Bool(true) ==> r == Refuse(MakeError(InlineDisallowedMessage))
    ensures !source.Str? && !NamesUri(source) ==> r == Refuse(MakeError(InvalidSourceMessage(TypeOf(source))))
  {
    if source.Str? then
      if allowInline == Bool(true) then CompileInline(source.s)
      else Refuse(MakeError(InlineDisallowedMessage))
    else if source.Object? && Get(source.props, "uri").Str? then
      OpenRemote(Get(source.props, "uri").s)
    else
      Refuse(MakeError(InvalidSourceMessage(TypeOf(source))))
  }

  /** The source `{ uri }` that `preload(uri)` builds. */
  function UriSource(uri: string): (source: Value)
    ensures NamesUri(source) && Get(source.props, "uri") == Str(uri)
  {
    Object([("uri", Str(uri))])
  }

  /** `preload(uri)` always reaches the coalescer with that uri, whatever the
      inline flag: it passes `false`, and the flag only matters for strings. */
  lemma PreloadRoutesToUri(uri: string, allowInline: Value)
    ensures RouteSource(UriSource(uri), allowInline) == OpenRemote(uri)
  {
  }

  /** A truthy but non-boolean flag does not open the inline path: the check is `=== true`. */
  lemma InlineNeedsLiteralTrue(code: string)
    ensures forall f: Value :: f != Bool(true) ==> RouteSource(Str(code), f) == Refuse(MakeError(InlineDisallowedMessage))
    ensures RouteSource(Str(code), Number(1)).Refuse? && RouteSource(Str(code), Str("true")).Refuse?
  {
  }
}
