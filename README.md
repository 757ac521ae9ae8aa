# visago core in Dafny

visago sends the same images (URLs and local files) to several visual-AI
providers and gathers what they report: tags with confidence scores, dominant
colours and detected faces. This project models the sequential core of its
`visagoapi` package and the older registry in `plugins`:

- the plugin registry with its whitelist and blacklist, the sorted list of
  eligible plugin names and its textual listing, and the feature switch of a
  request (`StringOrder`, `Plugins`);
- the per-item asset records and the cross-provider merge that groups them by
  item name and stamps every copied tag, colour and face with its provider
  (`Assets`);
- the per-provider pipeline (set-up, perform, tags, colours, faces; the first
  error ends it), the report builder with its per-provider entries and the
  cross-provider `all` entry, and the fan-out over the eligible plugins
  (`Runner`);
- the two providers' response caches and extractors: Google Vision (one batch
  per request, tags and faces read back by response index) and Clarifai
  (separate URL and file requests gated by the wanted features, tags keyed by
  URL or file) (`GoogleVision`, `Clarifai`, with the shared tag-map vocabulary
  in `TagMaps`).

Go's map iteration order becomes a nondeterministic choice (`:|`) in the
loops, and every result built by walking a map is specified up to order,
through multiset counts. What a provider's service answers, the credentials
read from the environment and the fresh request ids are parameters. In the
model of the fan-out, the runners run one after another and the collector
receives them in an order left open.

Two behaviours of the code shape the extractors and the report. First, a tag
is kept only when its score is strictly greater than the threshold
(`annotation.Score > score` in the Google Vision extractor and
`confidence > score` in the Clarifai one). Second, a runner emits an asset for
an item only when the item has at least one tag, colour or face; an item with
none is absent from that provider's entry and from the merge.

## Model

| member | source | states |
|---|---|---|
| Plugins.EnabledFeature | visagoapi/plugins.go:101-115 | the linear search answers true exactly when the feature is in the request's list, or in the defaults when the request names none |
| Plugins.DefaultFeaturesExact | visagoapi/plugins.go:101-106 | with no feature named, exactly "colors", "faces" and "tags" are enabled |
| Plugins.ExplicitFeaturesExact | visagoapi/plugins.go:108-114 | with features named, a feature is enabled exactly when it is listed; the defaults play no part |
| Plugins.Registry.constructor | visagoapi/plugins.go:20-24 | the registry starts with no plugin, empty lists and both filters off |
| Plugins.Registry.AddPlugin | visagoapi/plugins.go:126-128 | the name now maps to the new plugin, replacing any earlier one; every other registration is unchanged (the older copy in plugins/plugins.go is the same code) |
| Plugins.Registry.SetBlacklist | visagoapi/plugins.go:131-139 | the blacklist becomes the old one plus the given names; nothing is removed; the flag is on exactly when the list is non-empty, and once on stays on (the older copy in plugins/plugins.go is the same code) |
| Plugins.Registry.SetWhitelist | visagoapi/plugins.go:142-150 | the whitelist becomes the old one plus the given names; nothing is removed; the flag is on exactly when the list is non-empty, and once on stays on (the older copy in plugins/plugins.go is the same code) |
| Plugins.Registry.PluginNames | visagoapi/plugins.go:161-184 | the result is sorted; every registered name passing the whitelist (when on) and the blacklist (when on) occurs exactly once, and no other name occurs; with both filters off it is every registered name (the older copy in plugins/plugins.go is the same code) |
| Plugins.PluginNamesDetermined | visagoapi/plugins.go:164-183 | although the map is walked in an arbitrary order, any two results meeting that contract are the same list |
| Plugins.Registry.DisplayPlugins | visagoapi/plugins.go:153-157 | the listing is the eligible names, sorted and each once, joined by newlines, with one trailing newline (the older copy in plugins/plugins.go is the same code) |
| Plugins.DisplayListsNames | plugins/plugins.go:81 | splitting the listing (without its trailing newline) at newlines gives back the names, when no name contains a newline |
| StringOrder.SortStrings | visagoapi/plugins.go:182 | the sort returns a sorted permutation of its input under the byte-wise string order |
| StringOrder.SortedUnique | visagoapi/plugins.go:182 | two sorted lists holding the same elements are equal, so the sorted order is unique |
| StringOrder.SplitJoin | visagoapi/plugins.go:156 | splitting a newline-joined list gives back the list when no piece contains the separator |
| Plugins.KeptIff | visagoapi/googlevision/googlevision.go:86-94 | a name is kept exactly when one of its entries scores strictly above the threshold |
| Plugins.KeptEntries | visagoapi/clarifai/clarifai.go:122-133 | every kept tag carries its key as name, a score strictly above the threshold and no source |
| Plugins.KeptLastWins | visagoapi/clarifai/clarifai.go:125-131 | a name holds the score of its last entry above the threshold; later entries overwrite earlier ones |
| TagMaps.KeepScored | visagoapi/googlevision/googlevision.go:86-95 | the inner label loop keeps exactly the threshold-filtered labels, keyed by name |
| TagMaps.WrittenKeys | visagoapi/googlevision/googlevision.go:83-84 | every entry creates its item key, even when it keeps nothing; no other key appears |
| TagMaps.WrittenLastWins | visagoapi/clarifai/clarifai.go:120 | an item holds what its last entry kept; an earlier entry for the same item is replaced |
| Assets.StampTag | visagoapi/result.go:42-46 | the fresh tag equals the input tag with its source set to the input asset's provider |
| Assets.StampColor | visagoapi/result.go:54-63 | the fresh colour equals the input colour, all seven attributes kept, with its source set to the provider |
| Assets.StampFace | visagoapi/result.go:70-81 | the fresh face equals the input face, every field kept, with its source set to the provider |
| Assets.GroupByName | visagoapi/result.go:21-28 | the grouping map has exactly the input names as keys, and each name's list is its inputs in input order |
| Assets.GroupMembers | visagoapi/result.go:21-28 | every member of a name's group is an input carrying that name |
| Assets.AppendList | visagoapi/result.go:41-49 | the list under the key gains the stamped entries at its end, in order; every other key is unchanged |
| Assets.AppendStamped | visagoapi/result.go:40-50 | every key's list gains the added asset's stamped entries for that key at its end; a key is present exactly when it was already or has entries to add |
| Assets.AppendFaces | visagoapi/result.go:69-84 | the face list gains the stamped faces at its end, in order |
| Assets.MergeGroup | visagoapi/result.go:31-85 | the merged asset has the group's name and no source; under each tag key and colour hex it lists every input's entries for that key, in input order, each stamped; its faces are all inputs' faces in order, stamped; no key holds an empty list |
| Assets.MergeAssets | visagoapi/result.go:18-91 | exactly one merged asset per distinct input name and no other name; each is the merge of the inputs with its name; the order of the result is left open |
| Assets.ColumnCount | visagoapi/result.go:39-67 | a merged tag or colour list holds as many entries as the inputs list under that key |
| Assets.FaceColumnCount | visagoapi/result.go:69-84 | the merged face list holds as many faces as the inputs together |
| Assets.ColumnProvenance | visagoapi/result.go:39-67 | every merged entry is a stamped copy of an entry some input listed under the same key, stamped with that input's provider |
| Assets.MergedTagProvenance | visagoapi/result.go:42-48 | a merged tag's name and score come from an input tag under the same key, and its source is that input's provider |
| Runner.RunStopsAtFirstError | visagoapi/runner.go:213-253 | the calls of a run are a non-empty prefix of set-up, perform and the wanted extractors in order; all but the last succeeded; the run's error is the last call's; without an error every planned call was made (so at most one error) |
| Runner.SetupFailureStopsRun | visagoapi/runner.go:213-217 | a failed set-up gives exactly one error, no perform and no data |
| Runner.TagDataOnlyOnSuccess | visagoapi/runner.go:225-233 | tag data is set exactly when the tag extractor was called and succeeded, and is what it returned |
| Runner.ColorDataOnlyOnSuccess | visagoapi/runner.go:235-243 | colour data is set exactly when the colour extractor was called and succeeded, and is what it returned |
| Runner.FaceDataOnlyOnSuccess | visagoapi/runner.go:245-253 | face data is set exactly when the face extractor was called and succeeded, and is what it returned |
| Runner.OnlyWantedFeaturesExtracted | visagoapi/runner.go:225-253 | an extractor is called only for a feature the request enables |
| Runner.Runner.constructor | visagoapi/runner.go:49-52 | a fresh runner holds its name and item list, no data and no error |
| Runner.Runner.Run | visagoapi/runner.go:208-256 | the runner's calls, errors and data fields are those of the pipeline's outcome, each data field kept when its stage produced nothing; name and items unchanged |
| Runner.Runner.RunTags | visagoapi/runner.go:225-233 | the tag stage as the pipeline defines it: on error the run ends with that error; otherwise the data is stored and the colour stage follows |
| Runner.Runner.RunColors | visagoapi/runner.go:235-243 | the colour stage as the pipeline defines it |
| Runner.Runner.RunFaces | visagoapi/runner.go:245-253 | the face stage as the pipeline defines it |
| Runner.GroupBy | visagoapi/runner.go:112-118 | the regrouped map's keys are the entries' names (hexes), and each list holds every entry with that key exactly as often as the item's map holds it, in an order left open |
| Runner.GroupedByEmpty | visagoapi/runner.go:121 | a regrouped map is empty exactly when the item's map is |
| Runner.ItemAsset | visagoapi/runner.go:108-133 | an asset is produced exactly when the item has a tag, a colour or a face; it is named after the item, carries the runner as source, the regrouped tags and colours and the item's faces |
| Runner.ItemAssets | visagoapi/runner.go:108-134 | one asset per item with data, in item order, and no other |
| Runner.AddErrors | visagoapi/runner.go:96-106 | the runner's entry is created when missing; when the runner has errors they replace the entry's errors and are appended to the `all` errors (written twice into the one shared entry when the runner is named `all`); all other entries are unchanged |
| Runner.AddRunner | visagoapi/runner.go:95-134 | the above, plus the runner's emitted assets appended to its entry and to the merge input |
| Runner.FlattenMembers | visagoapi/runner.go:132 | the merge input holds every asset some runner emitted and nothing else |
| Runner.BuildOutput | visagoapi/runner.go:89-141 | the report has the `all` key and one key per runner and no other; the `all` assets are a merge of every runner's emitted assets; with distinct runner names other than `all`, each runner's entry is exactly its errors and its emitted assets, and the `all` errors are every runner's errors in runner order |
| Runner.LaunchRunners | visagoapi/runner.go:47-54 | one runner per listed plugin, each over the given item list (its caller passes the URLs then the files), each run to completion |
| Runner.Collect | visagoapi/runner.go:72-83 | the collector receives every finished runner exactly once, in an order left open |
| Runner.RunAndCollect | visagoapi/runner.go:43-83 | the collected records are, in arrival order, the finished runs of exactly the listed plugins, each once |
| Runner.RunNamed | visagoapi/runner.go:43-61 | the report has a key per listed plugin plus `all`; when `all` is not listed, each plugin's entry holds its own run's error and emitted assets, the `all` errors follow arrival order and the `all` assets merge everything emitted |
| Runner.RunPlugins | visagoapi/runner.go:27-67 | one runner per eligible plugin name, each arriving exactly once; the report has a key per eligible plugin plus `all`; with no plugin eligible under the name `all`, each entry holds its own run's error and assets, and `all` holds every error in arrival order and the merge of all assets |
| GoogleVision.Plugin.constructor | visagoapi/googlevision/googlevision.go:17 | a registered plugin starts unconfigured with empty caches |
| GoogleVision.Plugin.Setup | visagoapi/googlevision/googlevision.go:191-206 | an empty credential gives the "credentials not found" error, leaves the plugin unconfigured and the caches as they were; otherwise it configures the plugin with the credential and empties both caches |
| GoogleVision.Plugin.Perform | visagoapi/googlevision/googlevision.go:30-73 | unconfigured, or with neither URLs nor files: the matching error and no change; a client or batch failure: its error and no change; otherwise the item list (URLs then files) is cached under the request id, and so is the answer, a failed call leaving an empty entry and returning its error |
| GoogleVision.Plugin.Tags | visagoapi/googlevision/googlevision.go:76-99 | without a cached batch: the "request has not been made" error and an empty map; otherwise the map written by one entry per response, under item i, holding the labels scoring strictly above the threshold |
| GoogleVision.KeptLabelsIff | visagoapi/googlevision/googlevision.go:86-94 | a label is kept exactly when an annotation with that description scores strictly above the threshold |
| GoogleVision.LabelTagsKeys | visagoapi/googlevision/googlevision.go:83-84 | the tag map has a key exactly for the items with a response, even when no label survives |
| GoogleVision.LabelTagsOfItem | visagoapi/googlevision/googlevision.go:83-96 | an item holds the kept labels of the last response describing it |
| GoogleVision.Plugin.CopyVertices | visagoapi/googlevision/googlevision.go:111-118 | the vertices are copied one for one, in order |
| GoogleVision.Plugin.Faces | visagoapi/googlevision/googlevision.go:102-137 | without a cached batch: the error and an empty map; otherwise every face of every response, converted, appended in response order under its item |
| GoogleVision.FacesKeys | visagoapi/googlevision/googlevision.go:109-134 | an item has a face entry exactly when one of its responses found a face |
| GoogleVision.FacesOfItem | visagoapi/googlevision/googlevision.go:109-134 | an item described by one response holds exactly that response's faces, converted, in order |
| GoogleVision.FacesCounted | visagoapi/googlevision/googlevision.go:109-134 | an item's face count is the number of faces its responses found |
| GoogleVision.Plugin.Reset | visagoapi/googlevision/googlevision.go:169-172 | both caches are empty, so no earlier request can be read back |
| GoogleVision.Plugin.RequestIDs | visagoapi/googlevision/googlevision.go:176-187 | unconfigured: the "not configured" error; otherwise every cached request id exactly once |
| Clarifai.Plugin.constructor | visagoapi/clarifai/clarifai.go:14 | a registered plugin starts unconfigured with empty caches |
| Clarifai.Plugin.Setup | visagoapi/clarifai/clarifai.go:214-232 | a missing client id or secret gives the "credentials not found" error and leaves the plugin unconfigured and its caches unchanged; otherwise it stores both, empties the three caches and configures the plugin |
| Clarifai.Plugin.Perform | visagoapi/clarifai/clarifai.go:29-100 | unconfigured, no input, or a failed account check: the matching error and no change; otherwise the planned calls run in order, each answer appended to its cache, the file list stored when the file calls begin, and the first failure ends the request with its error, the earlier answers staying cached |
| Clarifai.Plugin.UrlCalls | visagoapi/clarifai/clarifai.go:48-71 | the URL tag call then the URL colour call, each when wanted; answers are recorded up to the first failure, whose error is returned |
| Clarifai.Plugin.FileCalls | visagoapi/clarifai/clarifai.go:76-97 | the file tag call then the file colour call, each when wanted, after the file list is stored; answers recorded up to the first failure |
| Clarifai.Plugin.Answer | visagoapi/clarifai/clarifai.go:50-57 | one call: on success its response is appended to the request's list in the matching cache; on failure its error and no change |
| Clarifai.CachingFollowsFeatures | visagoapi/clarifai/clarifai.go:48-97 | wherever a request stops, tag responses are cached only when tags are wanted, colour responses only when colours are wanted, and the file list exactly when the request has files and the URL calls are behind |
| Clarifai.PlanAnswers | visagoapi/clarifai/clarifai.go:48-97 | a completed request caches the URL tag response then the file tag response (each only when there are URLs or files) when tags are wanted, and nothing otherwise; the same for colours |
| Clarifai.RecordAllAppends | visagoapi/clarifai/clarifai.go:57-95 | the answered calls append their tag responses and colour responses to the request's lists and leave the file lists alone |
| Clarifai.PlanCallsWanted | visagoapi/clarifai/clarifai.go:48-97 | every call made is for a wanted feature and an input kind the request has |
| Clarifai.Plugin.Tags | visagoapi/clarifai/clarifai.go:103-138 | without cached tag responses: the "tag request has not been made" error and an empty map; otherwise the map written by one entry per result of every response, in order |
| Clarifai.Plugin.TagResponse | visagoapi/clarifai/clarifai.go:111-134 | one response's results written in order, each under its URL or else the request's i-th file, holding the classes with probability strictly above the threshold |
| Clarifai.ClassEntriesFromResults | visagoapi/clarifai/clarifai.go:110-134 | the entries written are exactly one per result of every cached response |
| Clarifai.Plugin.Faces | visagoapi/clarifai/clarifai.go:184-188 | always an empty map and no error |
| Clarifai.Plugin.Reset | visagoapi/clarifai/clarifai.go:191-195 | all three caches are empty |
| Clarifai.Plugin.RequestIDs | visagoapi/clarifai/clarifai.go:199-210 | unconfigured: the "not configured" error; otherwise exactly the ids with cached tag responses, each once |

## Left out

- Colour extraction of both providers (`Colors` in googlevision.go and clarifai.go) is not modelled. It converts through go-colorful and float arithmetic. Clarifai's colour responses are an abstract type that is only cached.
- Goroutines, channels and wait groups are not modelled. The fan-out runs the runners one after another, and the arrival order at the collector is a ghost sequence left open. Interleavings beyond that order are not modelled.
- Network and SDK calls are not modelled. The pigeon client, the Annotate call, clarifai-go's Info, Tag and Color calls, and the runner's calls into a plugin all become parameters describing their answers (`VisionCall`, `ServiceCalls`, `Provider`).
- Request ids from `nuid.Next` and credentials from `os.Getenv` are parameters of `Perform` and `Setup`.
- `displayOutput`, the text and JSON rendering of the report, is not modelled. The model's `RunPlugins` returns the report map rather than its rendering.
- Runner.RunPlugins: states per-plugin entries only when no eligible plugin is named `all`. With such a plugin, `AddErrors` follows the code, writing that runner's errors twice into the shared entry, but no report-level lemma covers that case.
- Runner.RunNamed: the same restriction; per-plugin entries are stated only when no listed plugin is named `all`.
- Runner.BuildOutput: states per-runner entries and the ordered `all` errors only for distinct runner names other than `all`. Otherwise only the key set and the merged assets are stated.
- Go's nil maps and slices are not told apart from empty ones. That merged tags, colours and faces are always initialised is therefore not a separate property. A plugin registered as `&Plugin{}` with nil caches before `Setup` is modelled with empty caches.
- Pointers and sharing are not modelled. Records are values, so the same asset appearing in a provider's entry and in the merge input is two equal values.
- Scores are `real`; float64 rounding and Clarifai's float32 probabilities are not modelled.
- GoogleVision.Plugin.Perform: requires that a successful answer hold no more responses than items. With more, Go's `Tags` and `Faces` would index past the item list and panic; panics are not modelled.
- Clarifai.Plugin.Tags: requires every cached result to be keyable (a URL, or an index within the stored file list) and to carry a probability for every class. Otherwise Go would index out of range and panic.
- A Google face annotation without a bounding polygon (a nil dereference in Go) is not modelled. Every annotation carries its vertex list.
- The `Verbose` flag of a request is carried but never read, as in the code.
- `visagoapi/imagga/imagga.go`, the CLI in `cmd/`, `util/util.go`, `example/main.go`, `visago.go` and the older provider clients under `plugins/` are not part of this model.
- In `plugins/plugins.go`, only the registry is modelled. Its `PluginConfig` with open files and its older `PluginResult` interface serve the older clients. The registry logic is identical in both files and is modelled once, as the class `Plugins.Registry`.
