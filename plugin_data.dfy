/** The plain data the plugin aggregator works on: what a plugin module exports,
    the protocol and web-API descriptors inside those exports, the package
    metadata kept per plugin, and the calls the aggregator makes into its host.

    JavaScript's duck-typed descriptors become a tagged variant (Item); a
    missing optional field becomes None. Opaque things the aggregator only
    passes along (a manifest function, a protocol's register routine, a web
    API's method metadata) are represented by numeric handles. */
module PluginData {

  datatype Option<+T> = None | Some(value: T)

  datatype Result<+T, +E> = Ok(value: T) | Err(error: E)

  /** A function listed in a web API's manifest. */
  type FnId = nat
  /** A protocol descriptor's `register` routine. */
  type HandlerId = nat
  /** A web API's `methods` metadata, handed unchanged to the export primitive. */
  type MethodsId = nat

  /** The JavaScript error raised while aggregating: the web-API back-fill
      calls `.map` on a module's `protocols` that is not an array. */
  datatype TypeError = ProtocolsNotAnArray

  datatype Protocol = Protocol(
    scheme: string,
    isStandardURL: bool,
    isInternal: Option<bool>,
    register: HandlerId)

  datatype WebAPI = WebAPI(
    name: string,
    manifest: map<string, FnId>,
    methods: MethodsId,
    scheme: Option<string>,
    // the back-filled `schemes` copies `.scheme` of every protocol entry,
    // which is undefined (None) for an entry that is not a descriptor
    schemes: Option<seq<Option<string>>>,
    isInternal: Option<bool>)

  /** One value found in a plugin's export: a protocol descriptor, a web-API
      descriptor, or a value that is not an object (a string, number or boolean). */
  datatype Item = Proto(proto: Protocol) | Api(api: WebAPI) | Scalar(text: string)

  /** What a plugin module holds under one key: nothing (absent or a falsy
      value), a single truthy value, or an array. A falsy export such as `""`,
      `0` or `false` is written `Falsy`, never `One(..)`: `One` holds a truthy
      value only, so `One(Scalar(""))` does not describe any plugin module. */
  datatype Export = Falsy | One(item: Item) | Many(items: seq<Item>)

  datatype PluginModule = PluginModule(exports: map<string, Export>)

  const ProtocolsKey := "protocols"
  const WebAPIsKey := "webAPIs"

  /** `module[key]`: an absent key reads as a falsy value. */
  function ExportOf(m: PluginModule, key: string): Export
  {
    if key in m.exports then m.exports[key] else Falsy
  }

  /** `x.scheme` on any item. */
  function SchemeOf(x: Item): Option<string>
  {
    match x
    case Proto(p) => Some(p.scheme)
    case Api(a) => a.scheme
    case Scalar(_) => None
  }

  /** `x.isInternal` on any item. */
  function IsInternalOf(x: Item): Option<bool>
  {
    match x
    case Proto(p) => p.isInternal
    case Api(a) => a.isInternal
    case Scalar(_) => None
  }

  function StartsWith(s: string, prefix: string): bool
  {
    |prefix| <= |s| && s[..|prefix|] == prefix
  }

  /** A call the aggregator makes into its host: the host's scheme
      registration primitive, one protocol's `register` routine (handed the
      shell-window channel), or the remote-call export primitive. */
  datatype HostCall =
    | RegisterStandardSchemes(schemes: seq<string>)
    | RegisterHandler(handler: HandlerId)
    | ExportAPI(channel: string, fns: map<string, FnId>, methods: MethodsId)

  /** The recorded-call log standing in for Electron, the RPC library and the
      plugins' own register routines. */
  class Host {
    var calls: seq<HostCall>

    constructor ()
      ensures calls == []
    {
      calls := [];
    }
  }
}
