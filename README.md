# Landscaper import ledger, schema reference loader and spiff template error, in Dafny

This project models three small parts of the landscaper, which installs
hierarchies of deployable components into a cluster:

- **The import status ledger of an installation** (`Installations`,
  `importstatus.dfy`). It records, for every import, how the import was last
  resolved. Data imports and target imports are kept in two maps keyed by
  import name. The Go struct becomes the class `ImportStatus`, with the two
  maps as fields. `Set`/`Update` write in place. `GetStatus` lists every entry
  with two loops. `GetData`/`GetTarget` look one entry up. The class's
  abstract value is a `Ledger`. Its change under an update is the pure
  function `WithStatus`, and the properties of updates are stated about that
  function. The entries of a map, in no particular order, are the multiset
  `Values(m)`.
- **The JSON-Schema reference loader** (`JsonSchema`, `loader.dfy`). It
  resolves a schema `$ref` by the scheme of its URI (section 3 of RFC 3986):
  - `local` looks the URI host up among the blueprint's local types. A
    path is rejected.
  - `blueprint` reads host joined with path from the blueprint's
    filesystem.
  - Every other scheme goes to a fallback loader, or fails when none is
    configured.

  Bytes from `local` and `blueprint` must pass schema validation before
  they are decoded and returned. The Go code is pure record plumbing, so
  every part is a function over datatypes.
- **The spiff template error** (`Spiff`, `spiff_error.dfy`). It wraps a
  templating error and caches its message. `FormatError` builds the message
  and stores it. `Error()` formats the message once, with fixed arguments,
  and then always returns the cached text. The Go struct becomes the class
  `TemplateError`. Its abstract value is `ErrorState`, and the pure functions
  `Built`, `WithFormatter`, `Formatted` and `ErrorText` give the state after
  each operation. The lemmas about caching are stated about those
  functions.

Library calls made by the modelled code are fields of function type:
- In `JsonSchema.Library`: reference parsing, `filepath.Join`, the schema
  validator and the YAML decoder.
- In `JsonSchema.FileSystem`: reading a file.
- In `JsonSchema.JsonLoader`: the fallback loader.
- In `Spiff.InputFormatter`: the input formatter.

Each is taken as a total, deterministic function without side effects. A
panic, a hang, or a different answer on a second call is not modelled.
Nothing else is assumed of them, so every property holds for every such
function. The wrapped Go error of a `TemplateError` is represented
by the text its `Error()` returns.

The fallback error reads `unsupported ref <url>` (loader.go:106). After
validation the bytes are decoded as YAML, and a decode failure is
`DecodeFailed`.

## Model

| member | source | states |
|---|---|---|
| `Installations.WithStatus` | pkg/landscaper/installations/importstatus.go:29-36 | A data status is stored under its name in the data map, and the target map is unchanged. A target status is stored under its name in the target map, and the data map is unchanged. A status of any other type changes nothing. Entries under other names are unchanged, and no other key is added. |
| `Installations.WithStatusIdempotent` | pkg/landscaper/installations/importstatus.go:38-41 | Applying the same status twice gives the same ledger as applying it once. |
| `Installations.WithStatusLatestWins` | pkg/landscaper/installations/importstatus.go:29-36 | For two statuses with the same type and name, the second overwrites the first: the result is as if only the second was applied. |
| `Installations.WithStatusKeepsKeyed` | pkg/landscaper/installations/importstatus.go:29-36 | Suppose every entry sits in the map of its own type, under its own name, so each (type, name) pair has at most one entry. Then an update keeps it that way. |
| `Installations.ImportStatus.constructor` | pkg/landscaper/installations/importstatus.go:23-27 | The ledger holds the two given maps. |
| `Installations.ImportStatus.Set` | pkg/landscaper/installations/importstatus.go:29-36 | The new maps are exactly `WithStatus` of the old maps and the status. |
| `Installations.ImportStatus.Update` | pkg/landscaper/installations/importstatus.go:38-41 | Same as `Set`: the new maps are `WithStatus` of the old maps and the status. |
| `Installations.AppendValues` | pkg/landscaper/installations/importstatus.go:46-51 | The loop over one map keeps the existing prefix. It appends exactly the map's entries, one per key, in some order. |
| `Installations.ImportStatus.GetStatus` | pkg/landscaper/installations/importstatus.go:43-53 | The result has `|Data| + |Target|` entries. The first `|Data|` of them are a permutation of the data entries, and the rest a permutation of the target entries. |
| `Installations.ValuesRemove` | pkg/landscaper/installations/importstatus.go:44-53 | Taking any one key out of a map takes exactly its entry out of the multiset of entries, so the order of iteration does not matter. |
| `Installations.ValuesSize` | pkg/landscaper/installations/importstatus.go:44-53 | A map has as many entries as keys. |
| `Installations.ValuesHas` | pkg/landscaper/installations/importstatus.go:44-53 | Every stored entry is among the listed entries. |
| `Installations.ValuesFrom` | pkg/landscaper/installations/importstatus.go:44-53 | Every listed entry is the entry stored under some key. |
| `Installations.NotFoundMessage` | pkg/landscaper/installations/importstatus.go:59 | The lookup error "import state <name> not found" carries the name at a fixed position, so the name can be read back from it. |
| `Installations.ImportStatus.GetData` | pkg/landscaper/installations/importstatus.go:55-62 | The lookup succeeds exactly when the name is in the data map, and then returns the stored entry. Otherwise it returns the zero status and the error "import state <name> not found". |
| `Installations.ImportStatus.GetTarget` | pkg/landscaper/installations/importstatus.go:64-71 | The same as `GetData`, on the target map. |
| `JsonSchema.NewWrappedLoader` | pkg/landscaper/jsonschema/loader.go:36-44 | The wrapper embeds the given loader, which may be nil. If no fallback loader was configured, the given loader (possibly nil) becomes the fallback. Otherwise the configuration is kept unchanged. A fallback exists afterwards exactly when one was configured or the loader is not nil. Local types and filesystem are always kept. |
| `JsonSchema.WrappedLoaderKeepsDefault` | pkg/landscaper/jsonschema/loader.go:36-44 | Once wrapping has left a fallback, wrapping that configuration again keeps it. |
| `JsonSchema.WrappedNilLoaderUnsupported` | pkg/landscaper/jsonschema/loader.go:36-50 | A nil loader wrapped on a configuration without a fallback leaves the wrapper's loaders with none. Every scheme other than `local` and `blueprint` then fails with "unsupported ref <url>" (loader.go:105-106). |
| `JsonSchema.WrappedLoaderFallsBack` | pkg/landscaper/jsonschema/loader.go:36-50 | Take a configuration without a fallback loader. The wrapper's factory makes loaders that hand every scheme other than `local` and `blueprint` to the wrapped loader. |
| `JsonSchema.WrapperLoaderFactory` | pkg/landscaper/jsonschema/loader.go:46-50 | The wrapper's factory carries the wrapper's configuration, including the fallback loader chosen at wrapping. |
| `JsonSchema.JsonSource` | pkg/landscaper/jsonschema/loader.go:85-87 | The source of a loader is the string it was made for. |
| `JsonSchema.FactoryOfLoader` | pkg/landscaper/jsonschema/loader.go:129-133 | A loader's factory carries the loader's configuration. |
| `JsonSchema.JsonReference` | pkg/landscaper/jsonschema/loader.go:125-127 | The reference is the parse of the loader's source string. |
| `JsonSchema.Message` | pkg/landscaper/jsonschema/loader.go:106-153 | The texts of the errors. An undefined local type's text names the type. A read failure's text names the path and ends with the cause. The unsupported-ref text ends with the reference. Errors of the parser, validator, decoder and fallback loader are passed on unchanged. |
| `JsonSchema.SchemaBytes` | pkg/landscaper/jsonschema/loader.go:99-103 | The `local` scheme goes to `LoadLocalReference`, and the `blueprint` scheme goes to `LoadBlueprintReference`. |
| `JsonSchema.New` | pkg/landscaper/jsonschema/loader.go:76-81 | The loader has the factory's configuration and the given source. |
| `JsonSchema.FactoryRoundTrip` | pkg/landscaper/jsonschema/loader.go:76-87 | `JsonSource` of a new loader is its source string. The loader's factory is the factory that made it, and that factory makes the same loader again. |
| `JsonSchema.LoadLocalReference` | pkg/landscaper/jsonschema/loader.go:135-144 | A non-empty path fails with "a path is not supported for local resources". Otherwise the result is the local type that the host names, or an error naming the host when there is none. |
| `JsonSchema.LoadBlueprintReference` | pkg/landscaper/jsonschema/loader.go:146-156 | Without a filesystem, the reference fails. Otherwise it reads the file at host joined with path: it returns its bytes, or the read error together with that same path. |
| `JsonSchema.ValidateAndDecode` | pkg/landscaper/jsonschema/loader.go:114-122 | The result succeeds exactly when the validator accepts the bytes and the decoder decodes them, and then it is the decoded document. A validator error is returned as the error. |
| `JsonSchema.Delegate` | pkg/landscaper/jsonschema/loader.go:104-108 | The result is the fallback loader's result for the same source string, with its error passed on. |
| `JsonSchema.LoadJSON` | pkg/landscaper/jsonschema/loader.go:89-123 | A reference that fails to parse returns the parse error. For `local`/`blueprint`, a load failure is returned unchanged. Loaded bytes give exactly `ValidateAndDecode` of those bytes: the decoded document when they validate and decode, the validator's error when they do not validate, and `DecodeFailed` when they do not decode. So a document is returned only from bytes that loaded and passed validation. For any other scheme without a fallback, the result is "unsupported ref <url>". With a fallback, it is exactly the fallback's result. |
| `JsonSchema.LocalPathRejected` | pkg/landscaper/jsonschema/loader.go:136-138 | A `local` reference with a path fails, whatever local types are configured. |
| `JsonSchema.LocalIgnoresFilesystemAndDefault` | pkg/landscaper/jsonschema/loader.go:99-101 | The result of a `local` reference depends neither on the blueprint filesystem nor on the fallback loader. |
| `JsonSchema.DefaultSkipsValidation` | pkg/landscaper/jsonschema/loader.go:104-108 | For other schemes, the schema validator and the decoder play no part in the result. |
| `Spiff.ComposeMessage` | pkg/landscaper/installations/executions/template/spiff/error.go:36-47 | The message always starts with the wrapped error's text. It equals that text exactly when no formatter is attached. With a formatter, the rest is the header "\ntemplate input:\n" and then the input formatted with a tab prefix and the given flag and keys. |
| `Spiff.Built` | pkg/landscaper/installations/executions/template/spiff/error.go:21-27 | A new error holds the wrapped error, no formatter and no cached message. |
| `Spiff.WithFormatter` | pkg/landscaper/installations/executions/template/spiff/error.go:29-33 | Only the formatter changes; the wrapped error and the cached message stay. |
| `Spiff.Formatted` | pkg/landscaper/installations/executions/template/spiff/error.go:35-47 | The cache holds the composed message, which starts with the wrapped error's text. Whatever it held before is replaced. |
| `Spiff.ErrorText` | pkg/landscaper/installations/executions/template/spiff/error.go:49-56 | The text returned is the one cached afterwards. A cached message is returned with nothing changed. Otherwise the message is formatted with pretty printing off and the keys imports, values, state. |
| `Spiff.ErrorTextStable` | pkg/landscaper/installations/executions/template/spiff/error.go:50-56 | A second `Error()` returns the same text and changes nothing. |
| `Spiff.CachedIgnoresLateFormatter` | pkg/landscaper/installations/executions/template/spiff/error.go:51-55 | A formatter attached after the first `Error()` does not change the text. |
| `Spiff.FormattedOverwrites` | pkg/landscaper/installations/executions/template/spiff/error.go:45-46 | Of two `FormatError` calls, the last decides the cached message. |
| `Spiff.TemplateError.TemplateErrorBuilder` | pkg/landscaper/installations/executions/template/spiff/error.go:21-27 | The new object's state is `Built(err)`, and its invariant holds (a cached message starts with the error's text). |
| `Spiff.TemplateError.WithInputFormatter` | pkg/landscaper/installations/executions/template/spiff/error.go:29-33 | Returns the same object. Its state is `WithFormatter` of the old state. |
| `Spiff.TemplateError.FormatError` | pkg/landscaper/installations/executions/template/spiff/error.go:35-47 | The message is built step by step. The new state is `Formatted` of the old state with the given flag and keys. |
| `Spiff.TemplateError.Error` | pkg/landscaper/installations/executions/template/spiff/error.go:49-56 | The returned text and the new state are `ErrorText` of the old state. The text starts with the wrapped error's text. |
| `Spiff.RepeatedError` | pkg/landscaper/installations/executions/template/spiff/error.go:50-56 | Two `Error()` calls on one object return the same text, even with a formatter attached between them. A message cached beforehand is what they return. |

## Left out

- `pkg/landscaper/installations/executions/template/starlark/starlark.go` is not part of this model. Its substance is running the Starlark interpreter under a wall-clock timeout on a goroutine, which is concurrency in a foreign runtime.
- `pkg/landscaper/installations/executions/template/starlark/builtins.go` is not part of this model. It consists of argument-checking wrappers around the Go library's base64 (section 4 of RFC 4648), gzip (RFC 1952), YAML and JSON codecs.
- The test files (`constructor_test.go`, `context_test.go`, `starlark_test.go`) are not part of this model. The context resolver and the import constructor they exercise live in other packages and are not modelled.
- Reference parsing (`gojsonreference`, `net/url`), `filepath.Join`'s path cleaning, `vfs.ReadFile`, `ValidateSchema`, `yaml.Unmarshal`, the fallback loader, `TemplateInputFormatter.Format` and the wrapped `err.Error()` are parameters of the model and are not specified. They are library code or code outside the modelled files.
- The wrapper's own `LoadJSON`, inherited from the embedded loader, is not modelled separately. The embedded loader is seen only through the documents it loads for a source string. With a nil embedded loader, that inherited `LoadJSON` would panic in Go. The model keeps the nil loader as `None` and does not model that call.
- The API package that defines the two import status type constants is not modelled. The type is one of the two known kinds or `OtherStatusType(raw)`. An `OtherStatusType` whose `raw` equals the string of either constant stands for no Go value: Go's `set` would store such a status, while `WithStatus` drops it.
- `ImportStatusEntry` keeps the API record's `Name` and `Type`, which importstatus.go reads, and the `From`, `To`, `SourceRef` and `ConfigGeneration` fields that constructor_test.go:87-94 names. The record's other fields are not modelled, and `SourceRef` is flattened to a string.
- `Spiff.TemplateError.TemplateErrorBuilder` and `Spiff.Built` take the wrapped error as the text of its `Error()`, so a nil error cannot be expressed. Go accepts a nil error there, and the first `FormatError` or `Error()` then panics (error.go:38). That panic is not modelled.
- `JsonSchema.Json` stands for the `interface{}` value the YAML decoder builds. Numbers are `real`, which holds every finite float64 but none of float64's rounding, infinities or NaN.
- Go's nil-map panic in `set` is not modelled: both maps of the ledger are always present.
- A nil entry in either map is not modelled: Go's `GetStatus`/`GetData`/`GetTarget` would panic dereferencing it (importstatus.go:47, 50, 61, 70); `set` never stores one.
- The map entries are pointers in Go. Entries written by `set` point to fresh copies of the status. Entries and maps supplied when the struct is built may be shared with whoever built it, and `set` then writes into those shared maps. The copies that `GetStatus`/`GetData`/`GetTarget` return are shallow, so pointer fields such as `SourceRef` stay shared with the stored entry. The model stores values and does not capture this aliasing.
- `GetStatus`: Go's map iteration order is unspecified, so the model states the result only up to order within each map, as multisets.
- `Spiff.TemplateError.Error` and `WithInputFormatter` require the class invariant (a cached message starts with the wrapped error's text). Every object made by `TemplateErrorBuilder` satisfies it, and every method keeps it.
