/**
 * The landscaper loader for JSON-Schema references
 * (pkg/landscaper/jsonschema/loader.go). A `$ref` is dispatched on the
 * scheme of its URI (section 3 of RFC 3986): `local` names a type of the
 * blueprint, `blueprint` names a file of the blueprint's filesystem, and
 * every other scheme goes to a fallback loader.
 *
 * The library calls the loader makes are not part of this model; each is a
 * function-valued field of `Library` or of the configuration, and nothing is
 * assumed of it.
 */
module JsonSchema {
  import opened Wrappers

  newtype byte = x: int | 0 <= x < 256

  type Bytes = seq<byte>

  /** A decoded document, as the YAML decoder yields it. */
  datatype Json =
    | JsonNull
    | JsonBool(b: bool)
    | JsonNumber(n: real)
    | JsonString(s: string)
    | JsonArray(items: seq<Json>)
    | JsonObject(fields: map<string, Json>)

  /** The components of a parsed reference; `text` is the URL written back out. */
  datatype RefUrl = RefUrl(scheme: string, host: string, path: string, text: string)

  /** A virtual filesystem: reading a file yields its bytes or an error text. */
  datatype FileSystem = FileSystem(readFile: string -> Result<Bytes, string>)

  /**
   * Any other JSON loader, seen through what the landscaper loader uses of
   * it: the document its factory's loader for a source string loads.
   */
  datatype JsonLoader = JsonLoader(loadSource: string -> Result<Json, string>)

  /** The library functions the loader calls. */
  datatype Library = Library(
    parseReference: string -> Result<RefUrl, string>,
    join: (string, string) -> string,
    validateSchema: Bytes -> Option<string>,
    unmarshal: Bytes -> Result<Json, string>)

  /** LoaderConfig: the blueprint's local types, its filesystem, the fallback loader. */
  datatype LoaderConfig = LoaderConfig(
    localTypes: map<string, Bytes>,
    blueprintFs: Option<FileSystem>,
    defaultLoader: Option<JsonLoader>)

  /** The wrapper around a loader, which may be nil (`None`). */
  datatype LoaderWrapper = LoaderWrapper(config: LoaderConfig, loader: Option<JsonLoader>)

  datatype LoaderFactory = LoaderFactory(config: LoaderConfig)

  datatype Loader = Loader(config: LoaderConfig, source: string)

  /** The errors LoadJSON can return, one per place that returns one. */
  datatype LoadError =
    | ReferenceError(cause: string)
    | PathNotSupported
    | UndefinedLocalType(typeName: string)
    | NoFilesystem
    | ReadFailed(filePath: string, cause: string)
    | UnsupportedRef(ref: string)
    | DefaultLoaderFailed(cause: string)
    | InvalidSchema(cause: string)
    | DecodeFailed(cause: string)

  /** The text of each error; errors of the collaborators are passed on unchanged. */
  function Message(e: LoadError): (m: string)
    ensures e.UndefinedLocalType? ==> |m| == |e.typeName| + 35 && m[5..5 + |e.typeName|] == e.typeName
    ensures e.ReadFailed? ==>
      |m| == |e.filePath| + |e.cause| + 35 && m[33..33 + |e.filePath|] == e.filePath && m[35 + |e.filePath|..] == e.cause
    ensures e.UnsupportedRef? ==> |m| == |e.ref| + 16 && m[16..] == e.ref
    ensures e.ReferenceError? || e.DefaultLoaderFailed? || e.InvalidSchema? || e.DecodeFailed? ==> m == e.cause
  {
    match e
    case ReferenceError(cause) => cause
    case PathNotSupported => "a path is not supported for local resources"
    case UndefinedLocalType(name) => "type " + name + " is not defined in local types"
    case NoFilesystem => "no filesystem defined to read a local schema"
    case ReadFailed(path, cause) => "unable to read local schema from " + path + ": " + cause
    case UnsupportedRef(ref) => "unsupported ref " + ref
    case DefaultLoaderFailed(cause) => cause
    case InvalidSchema(cause) => cause
    case DecodeFailed(cause) => cause
  }

  /**
   * Wraps `loader`, which also becomes the fallback unless one is configured;
   * a nil loader on a configuration without a fallback leaves none.
   */
  function NewWrappedLoader(config: LoaderConfig, loader: Option<JsonLoader>): (w: LoaderWrapper)
    ensures w.loader == loader
    ensures w.config.defaultLoader.Some? <==> config.defaultLoader.Some? || loader.Some?
    ensures config.defaultLoader.Some? ==> w.config == config
    ensures config.defaultLoader.None? ==> w.config.defaultLoader == loader
    ensures w.config.localTypes == config.localTypes && w.config.blueprintFs == config.blueprintFs
  {
    var config' := if config.defaultLoader.None? then config.(defaultLoader := loader) else config;
    LoaderWrapper(config', loader)
  }

  /** The factory of a wrapper builds landscaper loaders with the wrapper's configuration. */
  function WrapperLoaderFactory(w: LoaderWrapper): (f: LoaderFactory)
    ensures f.config == w.config
  {
    LoaderFactory(w.config)
  }

  /** LoaderFactory.New: a loader for one source string. */
  function New(f: LoaderFactory, source: string): (l: Loader)
    ensures l.config == f.config && l.source == source
  {
    Loader(f.config, source)
  }

  function JsonSource(l: Loader): (s: string)
    ensures s == l.source
  {
    l.source
  }

  /** The factory of a loader carries the loader's configuration. */
  function FactoryOfLoader(l: Loader): (f: LoaderFactory)
    ensures f.config == l.config
  {
    LoaderFactory(l.config)
  }

  /** A loader and its factory determine each other: source and configuration come back out. */
  lemma FactoryRoundTrip(f: LoaderFactory, source: string)
    ensures JsonSource(New(f, source)) == source
    ensures FactoryOfLoader(New(f, source)) == f
    ensures New(FactoryOfLoader(New(f, source)), source) == New(f, source)
  {
  }

  /** Wrapping a second time keeps the fallback the first wrapping chose. */
  lemma WrappedLoaderKeepsDefault(config: LoaderConfig, first: Option<JsonLoader>, second: Option<JsonLoader>)
    ensures NewWrappedLoader(config, first).config.defaultLoader.Some? ==>
      NewWrappedLoader(NewWrappedLoader(config, first).config, second).config == NewWrappedLoader(config, first).config
  {
  }

  /** The parsed form of the loader's source. */
  function JsonReference(lib: Library, l: Loader): (r: Result<RefUrl, string>)
    ensures r == lib.parseReference(l.source)
  {
    lib.parseReference(JsonSource(l))
  }

  /** A `local` reference: the schema of the local type its host names; no path allowed. */
  function LoadLocalReference(l: Loader, u: RefUrl): (r: Result<Bytes, LoadError>)
    ensures |u.path| != 0 ==> r == Failure(PathNotSupported)
    ensures |u.path| == 0 ==> (r.Success? <==> u.host in l.config.localTypes)
    ensures |u.path| == 0 && u.host in l.config.localTypes ==> r.value == l.config.localTypes[u.host]
    ensures |u.path| == 0 && u.host !in l.config.localTypes ==> r == Failure(UndefinedLocalType(u.host))
  {
    if |u.path| != 0 then Failure(PathNotSupported)
    else if u.host !in l.config.localTypes then Failure(UndefinedLocalType(u.host))
    else Success(l.config.localTypes[u.host])
  }

  /** A `blueprint` reference: the file at host joined with path, read from the blueprint filesystem. */
  function LoadBlueprintReference(lib: Library, l: Loader, u: RefUrl): (r: Result<Bytes, LoadError>)
    ensures l.config.blueprintFs.None? ==> r == Failure(NoFilesystem)
    ensures l.config.blueprintFs.Some? ==>
      var read := l.config.blueprintFs.value.readFile(lib.join(u.host, u.path));
      && (r.Success? <==> read.Success?)
      && (read.Success? ==> r.value == read.value)
      && (read.Failure? ==> r == Failure(ReadFailed(lib.join(u.host, u.path), read.error)))
  {
    match l.config.blueprintFs
    case None => Failure(NoFilesystem)
    case Some(fs) =>
      var filePath := lib.join(u.host, u.path);
      match fs.readFile(filePath)
      case Failure(e) => Failure(ReadFailed(filePath, e))
      case Success(b) => Success(b)
  }

  /** The raw schema a `local` or `blueprint` reference names. */
  function SchemaBytes(lib: Library, l: Loader, u: RefUrl): (r: Result<Bytes, LoadError>)
    requires u.scheme == "local" || u.scheme == "blueprint"
    ensures u.scheme == "local" ==> r == LoadLocalReference(l, u)
    ensures u.scheme == "blueprint" ==> r == LoadBlueprintReference(lib, l, u)
  {
    if u.scheme == "local" then LoadLocalReference(l, u) else LoadBlueprintReference(lib, l, u)
  }

  /** Schema bytes are decoded only once they are accepted as a JSON Schema. */
  function ValidateAndDecode(lib: Library, b: Bytes): (r: Result<Json, LoadError>)
    ensures r.Success? <==> lib.validateSchema(b).None? && lib.unmarshal(b).Success?
    ensures lib.validateSchema(b).Some? ==> r == Failure(InvalidSchema(lib.validateSchema(b).value))
    ensures r.Success? ==> r.value == lib.unmarshal(b).value
    ensures lib.validateSchema(b).None? && lib.unmarshal(b).Failure? ==> r == Failure(DecodeFailed(lib.unmarshal(b).error))
  {
    match lib.validateSchema(b)
    case Some(e) => Failure(InvalidSchema(e))
    case None =>
      match lib.unmarshal(b)
      case Failure(e) => Failure(DecodeFailed(e))
      case Success(j) => Success(j)
  }

  /** The fallback loader's result for the same source, its error passed on. */
  function Delegate(d: JsonLoader, source: string): (r: Result<Json, LoadError>)
    ensures d.loadSource(source).Success? ==> r == Success(d.loadSource(source).value)
    ensures d.loadSource(source).Failure? ==> r == Failure(DefaultLoaderFailed(d.loadSource(source).error))
  {
    match d.loadSource(source)
    case Success(j) => Success(j)
    case Failure(e) => Failure(DefaultLoaderFailed(e))
  }

  /** Loads the schema the loader's source refers to. */
  function LoadJSON(lib: Library, l: Loader): (r: Result<Json, LoadError>)
    ensures lib.parseReference(l.source).Failure? ==>
      r == Failure(ReferenceError(lib.parseReference(l.source).error))
    // `local` and `blueprint`: a document only from bytes that loaded and passed validation
    ensures lib.parseReference(l.source).Success? ==>
      var u := lib.parseReference(l.source).value;
      (u.scheme == "local" || u.scheme == "blueprint") ==>
        && (SchemaBytes(lib, l, u).Failure? ==> r == Failure(SchemaBytes(lib, l, u).error))
        && (r.Success? ==> SchemaBytes(lib, l, u).Success? && lib.validateSchema(SchemaBytes(lib, l, u).value).None?)
        && (SchemaBytes(lib, l, u).Success? ==> r == ValidateAndDecode(lib, SchemaBytes(lib, l, u).value))
        && (SchemaBytes(lib, l, u).Success? && lib.validateSchema(SchemaBytes(lib, l, u).value).Some? ==>
              r == Failure(InvalidSchema(lib.validateSchema(SchemaBytes(lib, l, u).value).value)))
    // every other scheme: the fallback loader, or an error naming the reference
    ensures lib.parseReference(l.source).Success? ==>
      var u := lib.parseReference(l.source).value;
      (u.scheme != "local" && u.scheme != "blueprint") ==>
        && (l.config.defaultLoader.None? ==> r == Failure(UnsupportedRef(u.text)))
        && (l.config.defaultLoader.Some? ==> r == Delegate(l.config.defaultLoader.value, l.source))
  {
    match JsonReference(lib, l)
    case Failure(e) => Failure(ReferenceError(e))
    case Success(u) =>
      if u.scheme == "local" || u.scheme == "blueprint" then
        match SchemaBytes(lib, l, u)
        case Failure(e) => Failure(e)
        case Success(b) => ValidateAndDecode(lib, b)
      else if l.config.defaultLoader.None? then
        Failure(UnsupportedRef(u.text))
      else
        Delegate(l.config.defaultLoader.value, l.source)
  }

  /** A `local` reference with a path fails whatever local types are configured. */
  lemma LocalPathRejected(lib: Library, l: Loader, localTypes: map<string, Bytes>)
    requires lib.parseReference(l.source).Success?
    requires lib.parseReference(l.source).value.scheme == "local"
    requires |lib.parseReference(l.source).value.path| != 0
    ensures LoadJSON(lib, l.(config := l.config.(localTypes := localTypes))) == Failure(PathNotSupported)
  {
  }

  /** A `local` reference reads neither the filesystem nor the fallback loader. */
  lemma LocalIgnoresFilesystemAndDefault(lib: Library, l: Loader, fs: Option<FileSystem>, d: Option<JsonLoader>)
    requires lib.parseReference(l.source).Success?
    requires lib.parseReference(l.source).value.scheme == "local"
    ensures LoadJSON(lib, l.(config := l.config.(blueprintFs := fs, defaultLoader := d))) == LoadJSON(lib, l)
  {
  }

  /** The fallback path does not apply schema validation or decoding. */
  lemma DefaultSkipsValidation(lib: Library, l: Loader, validate: Bytes -> Option<string>, unmarshal: Bytes -> Result<Json, string>)
    requires lib.parseReference(l.source).Success?
    requires lib.parseReference(l.source).value.scheme != "local"
    requires lib.parseReference(l.source).value.scheme != "blueprint"
    ensures LoadJSON(lib.(validateSchema := validate, unmarshal := unmarshal), l) == LoadJSON(lib, l)
  {
  }

  /**
   * Loaders made by the factory of a wrapper around `loader`, on a
   * configuration without a fallback, hand every other scheme to `loader`.
   */
  lemma WrappedLoaderFallsBack(lib: Library, config: LoaderConfig, loader: JsonLoader, source: string)
    requires config.defaultLoader.None?
    requires lib.parseReference(source).Success?
    requires lib.parseReference(source).value.scheme != "local"
    requires lib.parseReference(source).value.scheme != "blueprint"
    ensures LoadJSON(lib, New(WrapperLoaderFactory(NewWrappedLoader(config, Some(loader))), source)) == Delegate(loader, source)
  {
  }

  /**
   * A nil loader wrapped on a configuration without a fallback leaves the
   * wrapper's loaders without one: every other scheme is an unsupported ref.
   */
  lemma WrappedNilLoaderUnsupported(lib: Library, config: LoaderConfig, source: string)
    requires config.defaultLoader.None?
    requires lib.parseReference(source).Success?
    requires lib.parseReference(source).value.scheme != "local"
    requires lib.parseReference(source).value.scheme != "blueprint"
    ensures LoadJSON(lib, New(WrapperLoaderFactory(NewWrappedLoader(config, None)), source))
         == Failure(UnsupportedRef(lib.parseReference(source).value.text))
  {
  }
}
