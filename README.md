# Flowsheet visualisation server: registry, reconciliation and save paths

This project models the server core of the IDAES flowsheet visualiser in Dafny.

- **`FlowsheetServer`** keeps three maps:
  - the live flowsheet objects;
  - one datastore per flowsheet identifier;
  - a block of UI settings.
- **Reconciliation.** Every read of a flowsheet reconciles the document saved in
  the flowsheet's datastore with a fresh serialisation of the live object. The
  merged document is written back when the two differ.
- **The request handler** does the following:
  - parses the query string tolerantly;
  - routes `GET /app`, `/fs`, `/setting`, `/diagnostics` and `PUT /fs`, `/run_diagnostic`;
  - turns the exceptions of the server into status codes.
- **`visualize`** chooses where a flowsheet is saved:
  - a memory store;
  - an existing file to load;
  - a new file, possibly a numbered version `name-<k>.json` of an existing one.
- **`export_flowsheet_diagram`** reads a basename and an image type out of the
  name it is given.

The files:

- `common.dfy`: `Option` and `Result`.
- `strings.dfy`: Python's `str.split`, `rfind`, `find` and the decimal rendering of a natural number.
- `canonical_name.dfy`: `canonical_flowsheet_name`.
- `model_server.dfy`:
  - the pure specifications `Save` and `Reconcile` of the datastore-manager operations;
  - the class `FlowsheetServer`, whose methods are proved equal to those specifications.
- `request_handler.dfy`: the query parser (a loop proved against a reference definition), routing, status codes, `do_GET` and `do_PUT`.
- `fsvis.dfy`: POSIX paths, the default save location, the version search (a loop proved against a recursive specification), the datastore choice of `visualize` and the export name check.

Collaborators whose code is not part of this model are parameters of the model
(the `Collaborators` datatype in `model_server.dfy`):

- the flowsheet serializer;
- the JSON parsing done by a datastore when it is handed text;
- the emptiness and the merge of `FlowsheetDiff`;
- whether a datastore's `save` succeeds: the `writable` flag of a `DataStore` value (`ModelServer.WriteStore` is the save itself).

The filesystem is the set of paths that exist.

Three places where the code differs from its own documentation; the model follows the code:

- The docstring of `canonical_flowsheet_name` says `~` is kept. The regular expression
  `[^a-zA-Z0-9-._]` does not keep it, so `flow~sheet` becomes `flow-sheet`
  (`CanonicalName.CanonicalExampleTilde`).
- The docstring of `add_flowsheet` promises a `ProcessingError` when the flowsheet cannot be serialized.
  - That holds on the update path, where `_serialize_flowsheet` wraps the serializer's errors.
  - A store with no saved document makes `add_flowsheet` call the serializer directly, so its `AttributeError` or `KeyError` escapes unwrapped.
  - The model reports that case as `SerializerError` (`ModelServer.FlowsheetServer.AddFlowsheet`).
- `MAX_SAVED_VERSIONS` bounds the search differently from the error message.
  - The error says "Found `max_versions` numbered files".
  - The loop stops at `counter == max_versions` whatever the state of `name-<max_versions>.json`: it checks that file's existence and then ignores the answer.
  - So the error is raised when the save file and `name-1.json` … `name-<max_versions - 1>.json` exist (`Fsvis.ResolveSavePathSpec`, `Fsvis.CeilingExample`).
  - Counting the save file itself, that is `max_versions` files, which matches "maximum number of saved versions". The model therefore keeps this behaviour and does not report it as a defect.

## Model

| member | source | states |
|---|---|---|
| CanonicalName.DashReserved | idaes_ui/fv/model_server.py:161 | the first rewrite keeps the length, keeps a letter, digit, `-`, `.` or `_` in its place and puts `-` in the place of every other character |
| CanonicalName.CollapseDashes | idaes_ui/fv/model_server.py:161 | the second rewrite leaves no two neighbouring dashes, keeps the first and the last character, adds no character and changes nothing when there is no run of dashes |
| CanonicalName.CollapseDashesAppend | idaes_ui/fv/model_server.py:161 | read from the end, the second rewrite appends each character except a `-` after a `-`, which fixes its result for every string: each run of dashes leaves exactly one dash |
| CanonicalName.Canonical | idaes_ui/fv/model_server.py:147-161 | the canonical name holds only kept characters with no repeated dash, is no longer than the name and is empty only for the empty name |
| CanonicalName.CanonicalOfCanonical | idaes_ui/fv/model_server.py:147-161 | a name that is already canonical is returned unchanged |
| CanonicalName.CanonicalUnchangedIff | idaes_ui/fv/model_server.py:147-161 | the name is returned unchanged exactly when it is canonical |
| CanonicalName.CanonicalIdempotent | idaes_ui/fv/model_server.py:147-161 | canonicalising twice equals canonicalising once |
| CanonicalName.SignificantOfDashReserved | idaes_ui/fv/model_server.py:161 | the first rewrite keeps every letter, digit, `.` and `_` in order |
| CanonicalName.SignificantOfCollapse | idaes_ui/fv/model_server.py:161 | collapsing dash runs keeps every other character in order |
| CanonicalName.CanonicalKeepsSignificant | idaes_ui/fv/model_server.py:147-161 | the canonical name keeps every letter, digit, `.` and `_` of the name, in order |
| CanonicalName.CanonicalExampleSeparators | idaes_ui/fv/model_server.py:151-153 | whitespace, slashes and punctuation become single dashes (`a b/c*d` gives `a-b-c-d`) |
| CanonicalName.CanonicalExampleTilde | idaes_ui/fv/model_server.py:161 | `~` is replaced, as the regular expression says |
| CanonicalName.CanonicalExampleRun | idaes_ui/fv/model_server.py:161 | a run of dashes becomes one dash |
| ModelServer.Save | idaes_ui/fv/model_server.py:165-177 | an unknown identifier or unparsable text is a `ProcessingError` with the stores unchanged; every failure is a `ProcessingError`; success happens exactly for a known, writable store and valid text, writes the document into that store only and keeps the set of identifiers |
| ModelServer.Reconcile | idaes_ui/fv/model_server.py:179-240 | the errors come in the source's order: `FlowsheetUnknown`, `FlowsheetNotFoundInDatastore`, `FlowsheetNotFoundInMemory`, `ProcessingError` for a serialisation failure; no other error escapes; a failure changes no store; only the flowsheet's own store may change; on success the merge is returned and written back exactly when the diff is non-empty, and a failed write is a `ProcessingError` |
| ModelServer.RepeatedReconcileKeepsStores | idaes_ui/fv/model_server.py:206-223 | a second update right after a successful one, with the live flowsheet unchanged, returns the same merge and leaves the stores as they are, given that merging the live document into a merge changes nothing |
| ModelServer.FlowsheetServer.constructor | idaes_ui/fv/model_server.py:63-74 | a new server has no flowsheets, no datastores and no settings |
| ModelServer.FlowsheetServer.AddSetting | idaes_ui/fv/model_server.py:85-98 | the setting is stored under its key, every other setting is kept, and the identifiers stay canonical |
| ModelServer.FlowsheetServer.GetSetting | idaes_ui/fv/model_server.py:100-112 | the value last stored under the key, and `None` exactly when the key was never set |
| ModelServer.FlowsheetServer.SaveFlowsheet | idaes_ui/fv/model_server.py:165-177 | the result and the new datastores are those of `Save`, and every identifier stays canonical |
| ModelServer.FlowsheetServer.UpdateFlowsheet | idaes_ui/fv/model_server.py:179-240 | the result and the new datastores are those of `Reconcile` |
| ModelServer.FlowsheetServer.AddFlowsheet | idaes_ui/fv/model_server.py:114-145 | the flowsheet is registered under the canonical name, whose store is registered; a store with a document is reconciled; a store without one receives the serialised flowsheet, with a serializer failure or a store failure raised unwrapped; the identifier returned is the canonical name |
| RequestHandler.LastValueSpec | idaes_ui/fv/model_server.py:489-498 | a parameter is present exactly when some `&`-token splits on `=` into exactly its name and a value, and its value comes from the last such token |
| RequestHandler.ParseQuery | idaes_ui/fv/model_server.py:489-498 | an empty query gives no map; otherwise the keys are exactly the names of the `name=value` tokens, and every lookup agrees with the last-token reference definition |
| RequestHandler.RouteGet | idaes_ui/fv/model_server.py:272-312 | `/app` and `/fs` without `id` and `/setting` without `setting_key` are 400, each route fires exactly on its path with its parameter present, and every other path is a static file |
| RequestHandler.RoutePut | idaes_ui/fv/model_server.py:375-389 | `/fs` without `id` is 400, `/fs` with it saves that flowsheet, and a path other than `/fs` and `/run_diagnostic` gets no reply |
| RequestHandler.FlowsheetGetResponse | idaes_ui/fv/model_server.py:322-342 | 200 with the merged flowsheet exactly on success, 404 exactly for an unknown flowsheet, 500 exactly for a flowsheet not found or a processing error |
| RequestHandler.FlowsheetPutResponse | idaes_ui/fv/model_server.py:391-406 | 200 exactly on success, 400 exactly for a `ProcessingError`, 500 for anything else |
| RequestHandler.FlowsheetGetAlwaysAnswered | idaes_ui/fv/model_server.py:179-200 | every outcome of an update is answered with 200, 404 or 500, never an escaped exception |
| RequestHandler.FlowsheetPutNeverServerError | idaes_ui/fv/model_server.py:165-177 | saving a request body never gives 500, because every failure of the save is a `ProcessingError` |
| RequestHandler.DoGet | idaes_ui/fv/model_server.py:272-312 | for each route the response written, and only `/fs` changes the datastores, as `Reconcile` does; since every registered identifier is canonical, a `GET /fs` whose `id` is not canonical is answered 404 |
| RequestHandler.DoPut | idaes_ui/fv/model_server.py:375-406 | for each route the response written, and only `PUT /fs` changes the datastores, as `Save` does with the body text |
| Strings.JoinSplit | idaes_ui/fv/model_server.py:494-495 | joining the pieces of a split gives the string back |
| Strings.SplitJoin | idaes_ui/fv/model_server.py:494-495 | splitting pieces joined by a separator none of them holds gives the pieces back |
| Fsvis.PathOf | idaes_ui/fv/fsvis.py:316 | a string path is absolute exactly when it starts with `/`, and its components are non-empty, not `.` and hold no `/` |
| Fsvis.PathOfJoin | idaes_ui/fv/fsvis.py:316 | components written out with `/`, with or without a leading `/`, read back as exactly those components, relative or absolute |
| Fsvis.JoinPath | idaes_ui/fv/fsvis.py:139-140 | joining an absolute path gives that path; joining a relative path appends its components |
| Fsvis.DefaultSaveLocation | idaes_ui/fv/fsvis.py:226-231 | for a name without `/`, the default save file is `name.json` in the save directory, or in the current directory when none is given |
| Fsvis.VersionPathInSameDirectory | idaes_ui/fv/fsvis.py:253-254 | for a name without `/`, version `k` is `name-<k>.json` in the save file's directory |
| Fsvis.ResolveSavePath | idaes_ui/fv/fsvis.py:234-243 | when overwriting, or when the save file does not exist, the save file itself is used; the error carries the ceiling and the name |
| Fsvis.ProbeFromFails | idaes_ui/fv/fsvis.py:250-263 | the search from version `k` fails exactly when every version from `k` below the ceiling exists |
| Fsvis.ProbeFromFindsFirstFree | idaes_ui/fv/fsvis.py:250-253 | a successful search returns a free version, and every version before it exists |
| Fsvis.ResolveSavePathSpec | idaes_ui/fv/fsvis.py:244-264 | with the save file present: the error is raised exactly when versions 1 to ceiling - 1 all exist, and otherwise the result is the first free version, which does not exist |
| Fsvis.HandleExistingSavePath | idaes_ui/fv/fsvis.py:234-264 | the loop returns what `ResolveSavePath` specifies, with `max_versions == 0` meaning `sys.maxsize` |
| Fsvis.SaveLocation | idaes_ui/fv/fsvis.py:125-140 | `None` and `True` pick the default location, `False` turns saving off, a relative path goes under `save_dir`, an absolute path is kept, and a value that is not a path is a `VisualizerSaveError` |
| Fsvis.ChooseDatastore | idaes_ui/fv/fsvis.py:141-162 | memory store exactly when saving is off; the saved file is loaded exactly when it exists and loading is asked for; otherwise the new file, or the `RuntimeError`, is what `ResolveSavePath` gives with `MAX_SAVED_VERSIONS`, so without overwriting a new file never names an existing path |
| Fsvis.VersioningExample | idaes_ui/fv/fsvis.py:40 | with `load_from_saved` off, saving `x` three times gives `x.json`, `x-1.json`, `x-2.json`, and overwriting gives `x.json` again |
| Fsvis.CeilingExample | idaes_ui/fv/fsvis.py:247-263 | with a ceiling of 2, `x.json` and `x-1.json` are enough to raise although `x-2.json` is free |
| Fsvis.Suffix | idaes_ui/fv/fsvis.py:308 | the suffix is non-empty exactly when the last dot is neither the first nor the last character; it is then the end of the component from that dot, holding no other dot |
| Fsvis.Stem | idaes_ui/fv/fsvis.py:312 | stem and suffix together give the last component back |
| Fsvis.ComponentTarget | idaes_ui/fv/fsvis.py:315-320 | basename and image type of a path: the stem, and the suffix without its dot |
| Fsvis.SplitAtFirstDot | idaes_ui/fv/fsvis.py:323 | the basename and the image type joined by a dot give the name back, and the basename holds no dot |
| Fsvis.ReadDiagramName | idaes_ui/fv/fsvis.py:306-323 | "extension required" is raised exactly for a path with no suffix or a string whose last dot is missing or first; a plain name is split at its first dot, and a path or a name starting with `.`, `/` or `~` into the stem and the suffix of its last component |
| Fsvis.ParseDiagramName | idaes_ui/fv/fsvis.py:306-329 | "extension required" exactly when `ReadDiagramName` raises it; otherwise the name read is accepted exactly when its image type is `svg` or `png`, and is rejected with that image type in the error |
| Fsvis.ExportPlainExample | idaes_ui/fv/fsvis.py:321-323 | `foo.svg` exports an SVG named `foo` |
| Fsvis.ExportFirstDotExample | idaes_ui/fv/fsvis.py:323-329 | the string `a.b.svg` asks for image type `b.svg` and is rejected |
| Fsvis.ExportPathExample | idaes_ui/fv/fsvis.py:306-312 | the path `a.b.svg` exports an SVG named `a.b` |
| Fsvis.ExportHiddenFileExample | idaes_ui/fv/fsvis.py:313-314 | `.svg` has no extension |

## Left out

- The HTTP server itself is not modelled:
  - binding, the serving thread, `find_free_port` and `DOCKER_CONTAINER`;
  - `do_OPTIONS`, the response writers, headers and logging.
- `_get_app` reads an HTML template from disk; the model returns the page for the identifier.
- Static files and `_get_diagnostics` / `_put_diagnostic` depend on code outside this model (`SimpleHTTPRequestHandler`, `DiagnosticsData`); the model answers `NotModelled` for them.
- `urlparse` is not modelled: the handlers take the path and query components of the request target.
- The body of a PUT is taken as text. `Content-Length` and the UTF-8 decoding are left out.
- `persist.DataStore` and `DataStoreManager` are modelled as a value, namely the saved document and whether writing succeeds.
  - One store object shared under two identifiers is not modelled.
  - `DataStoreManager.save` is assumed to look the identifier up before parsing the JSON text.
- `FlowsheetSerializer` and `FlowsheetDiff` are parameters; their internals are not modelled.
  - `do_copy` on the merged result is not modelled, because values are immutable here.
  - `ModelServer.RepeatedReconcileKeepsStores` holds only under the stated law that merging is idempotent.
- The live flowsheet object changes outside the server when the user edits the model. Here `Obj` is a value and `serialize` is pure, and `FlowsheetServer` has no operation for that change: the model covers a sequence of server operations between two such edits.
- Serializer exceptions other than `AttributeError` and `KeyError` would escape unchanged. They are not modelled: a serializer either returns a document or fails.
- `ModelServer.FlowsheetServer.AddFlowsheet`: an exception raised by the JSON parsing inside a datastore is not modelled, because a document handed over is already parsed.
- `visualize` beyond choosing the datastore is not modelled:
  - starting the server and adding `save_time_interval`;
  - loading the saved file;
  - opening the browser, the screenshot helper and the `web_server` global.
- The conversion of a string `save` argument to a path is not modelled: `SaveTo` carries a path.
- `Fsvis.HandleExistingSavePath`: truncating the file when overwriting, and the log messages, are not modelled.
- `Fsvis.ParseDiagramName`:
  - `expanduser`, `resolve` and the creation of the target directory, with its `IOError`, are not modelled;
  - nor is the call to `save_diagram` that writes the image.
- Paths are POSIX only. Windows drive letters and pathlib's special case of a leading `//` are not modelled.
- `Fsvis.Ceiling`: `sys.maxsize` is the 64-bit value `0x7fff_ffff_ffff_ffff`.
