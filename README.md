# t9s core, modelled in Dafny

t9s is a terminal user interface for a Temporal workflow service. This project models the parts of it that decide behaviour, independently of the terminal and the network:

- **Deep links.** The `temporal://tui/namespaces/{ns}/{workflows|schedules}[/{id}[/{child}[/{id}]]][?q=&run_id=&tab=]` codec: its hand-written percent-encoding and percent-decoding, its query-string parser and its typed errors (modules `Percent`, `Uri`, `Location`).
- **The kind registry** (`Kinds`). Workflows and schedules, their operations with keys and confirmation flags, the effect table, and the effect mappers.
- **The command table and prefix matching** of the `:` command line (`Commands`).
- **The application state machine** (`Reducer`, `AppMachine`). `App::update` applies an action to the application's state and returns the effects to run. It covers:
  - navigation and paging;
  - deep links;
  - operations behind a confirmation dialog;
  - the command line and the search box;
  - loaded data;
  - polling with exponential backoff;
  - the "load more" guard.
- **The key map** (`Event`). `key_to_action` turns a key press into an action, given the overlay, the input mode and the screen.
- **The footer hints** (`Footer`). The key hints the footer shows for the current mode and screen, built from the registry.

`Reducer` states what each arm of `App::update` does as pure functions over an `AppState` record. `AppMachine.App` is the application itself, a class whose 31 fields the methods update in place. Each method is proved to leave exactly the state and effects the `Reducer` function prescribes. The properties are proved about the `Reducer` functions in `ReducerFacts`, `NavigationFacts` and `OperationFacts`. `KeyFlow` follows a key press through `key_to_action` and `App::update`.

`Reducer.Update` and `AppMachine.App` follow the code as written, including the two defects listed under "## Findings". `Reducer.UpdateCorrected` is `Update` with those two defects corrected; the lemmas that state the intended behaviour are about it.

Abstractions:
- `Instant::now()` becomes a clock reading `now: nat` (in seconds), passed to `Update`.
- A `Duration` is a whole number of seconds.
- A ratatui `TableState` is an `Option<nat>` selection.
- A `serde_json::Value` in a history event is a small `Json` datatype.

The sources are part-way through a refactor:
- `src/app.rs` uses `View::Collection(KindId)` and `View::Detail(KindId)`, and actions such as `RunOperation(OperationId)` and `MoreWorkflowsLoaded`.
- `src/event.rs` still uses the older `View::WorkflowList`, `WorkflowDetail`, `ScheduleList` and `ScheduleDetail`. Its per-operation actions are `CancelWorkflow`, `TerminateWorkflow`, `PauseSchedule`, `TriggerSchedule` and `DeleteSchedule`.

The model has one `View = Collection(KindId) | Detail(KindId)` and one `Action` type holding every variant `App::update` matches on. The old views map onto the four values of `View`, and the old operation actions map onto `RunOperation(op)`.

Behaviour of the code worth knowing:
- **Backoff.** After `n` errors the polling interval is `min(base * 2^min(n, 5), 60)` seconds. With a base of 3 seconds, the first error already gives 6 seconds (`ReducerFacts.BackoffFromThreeSeconds`). Only a workflow list load resets it; a schedule list load does not.
- **Ticks.** A tick polls whenever polling is on and the interval has passed. It does not look at the connection status.
- **Late data.** Loaded data is never checked against the screen it was asked for.
- **The `:namespace <ns>` command** keeps the stored search queries. The `SwitchNamespace` action and a deep link into another namespace clear them.
- **The footer advertises two keys `key_to_action` does not bind.** `w workflows` appears on the schedule screens and `a activities` in the workflow detail (`Footer.UnboundHints`, `Event.AdvertisedKeysUnbound`). The matching actions exist in `App::update` but no key produces them.

## Model

| member | source | states |
|---|---|---|
| Location.Leaf | src/nav/location.rs:15-17 | the leaf is absent exactly when there are no segments, and is otherwise the last segment |
| Location.LeafOfAppended | src/nav/location.rs:15-17 | an appended segment becomes the leaf whatever came before it |
| Percent.Utf8Char | src/nav/uri.rs:245-246 | the UTF-8 bytes of a character: an ASCII character is the one byte of its code, any other gives only bytes of 128 and above |
| Percent.Latin1 | src/nav/uri.rs:272-275 | each decoded byte becomes the character with that code (`byte as u8 as char`) |
| Percent.Latin1Utf8Ascii | src/nav/uri.rs:243-254 | for ASCII text, taking its bytes and reading them back as characters gives the text back |
| Percent.UpperHex | src/nav/uri.rs:253 | the `02X` hex digit of a value is an upper-case hex digit that reads back as that value |
| Percent.EncodeUnreserved | src/nav/uri.rs:247-249 | text made of `A-Za-z0-9-._~` is its own encoding |
| Percent.WellEncodedAppend | src/nav/uri.rs:243-254 | joining two well-formed encodings gives a well-formed encoding |
| Percent.EncodeBytesWellEncoded | src/nav/uri.rs:243-254 | the encoder writes only unreserved characters and `%XX` with upper-case hex, for any input |
| Percent.EncodeWellEncoded | src/nav/uri.rs:243-254 | the same for the encoding of any text |
| Percent.WellEncodedHasNoDelimiters | src/nav/uri.rs:243-254 | an encoding holds none of `/ ? & = + :`, so it never splits a path or a query |
| Percent.EncodeNonEmpty | src/nav/uri.rs:243-254 | non-empty text has a non-empty encoding |
| Percent.Decode | src/nav/uri.rs:264-291 | the decoding is never longer than its input and is empty only for empty input |
| Percent.DecodeEncodeBytes | src/nav/uri.rs:243-291 | decoding an encoding gives every byte back as the character with that code, in path and query mode |
| Percent.DecodeEncodeAscii | src/nav/uri.rs:243-291 | for ASCII text `percent_decode(percent_encode(s)) == s`, in both modes |
| Percent.DecodeLiteral | src/nav/uri.rs:264-291 | text with no `%` (and no `+` in query mode) decodes to itself |
| Percent.MalformedEscapeKept | src/nav/uri.rs:277-284 | `%` followed by a non-hex character is copied literally together with the two characters after it |
| Percent.TrailingPercentKept | src/nav/uri.rs:277-284 | a `%` at the end is copied as it is |
| Percent.PlusDecoding | src/nav/uri.rs:285-289 | `+` decodes to a space in query parts and stays `+` in path parts |
| Percent.PercentEncode | src/nav/uri.rs:243-254 | the loop over the UTF-8 bytes writes exactly the encoding the lemmas above are about |
| Percent.PercentDecodeInner | src/nav/uri.rs:264-291 | the character loop with its two-character look-ahead writes exactly `Decode(input, plusAsSpace)` |
| Percent.DecodeNext | src/nav/uri.rs:266-290 | one round of the loop moves forward by one or three characters and pushes what the decoding holds for them |
| Uri.PairParts | src/nav/uri.rs:233-236 | a pair with no `=` is a key with an empty value; otherwise it splits at the first `=` |
| Uri.PairsToParamsStep | src/nav/uri.rs:229-238 | one more pair: an empty pair is skipped, any other inserts its decoded key and value, replacing an earlier value |
| Uri.KeyPresent | src/nav/uri.rs:229-238 | a key is in the parameters exactly when some non-empty pair carries it |
| Uri.LastPairWins | src/nav/uri.rs:229-238 | when a key occurs in several pairs, the last of them gives its value |
| Uri.ParseQuery | src/nav/uri.rs:223-241 | the insertion loop builds the map the pair lemmas describe, empty for no query |
| Uri.NonEmpty | src/nav/uri.rs:34-36 | no empty path segment survives |
| Uri.DecodeSegments | src/nav/uri.rs:37 | each segment is decoded in path mode, in order |
| Uri.PathSegments | src/nav/uri.rs:34-38 | the pieces of a path are non-empty |
| Uri.ParseWorkflowsRoute | src/nav/uri.rs:86-114 | a workflows route yields exactly one workflows segment, or `UnsupportedRoute` |
| Uri.ParseSchedulesRoute | src/nav/uri.rs:116-141 | a schedules route yields exactly one schedules segment, or `UnsupportedRoute` |
| Uri.ParseRoute | src/nav/uri.rs:71-84 | `InvalidPath` exactly when nothing follows the namespace; otherwise one segment or `UnsupportedRoute` |
| Uri.LocationFrom | src/nav/uri.rs:40-49 | `MissingNamespace` exactly when there are fewer than two pieces or the first is not `namespaces`; a success takes the second piece as namespace and has one segment |
| Uri.ParseDeepLink | src/nav/uri.rs:14-50 | every parsed link has exactly one route segment and a non-empty namespace |
| Uri.FormatWorkflowsRoute | src/nav/uri.rs:143-165 | appends the workflows segment's path (ids encoded) to the path so far |
| Uri.FormatSchedulesRoute | src/nav/uri.rs:167-182 | appends the schedules segment's path to the path so far |
| Uri.FormatSegment | src/nav/uri.rs:56-61 | one round of the segment loop appends that segment's path |
| Uri.FormatDeepLink | src/nav/uri.rs:52-69 | the formatter writes the link that the round-trip lemmas parse back |
| Uri.QueryFromLeafOnly | src/nav/uri.rs:184-188 | segments before the leaf add nothing to the query |
| Uri.QueryPresent | src/nav/uri.rs:63-68 | the link has a `?` exactly when the leaf has a parameter to write |
| Uri.QueryByRoute | src/nav/uri.rs:184-214 | `q` for the two collections and a schedule's workflows, `run_id` before `tab` for a workflow, nothing for a schedule or an activities page |
| Uri.PiecesParse | src/nav/uri.rs:34-38 | a path written from well-encoded pieces is cut and decoded back into the raw pieces |
| Uri.ParseViaPath | src/nav/uri.rs:14-50 | a `temporal://tui` link whose path has no `?` is parsed from its path pieces and its query parameters |
| Uri.EncodedPairRead | src/nav/uri.rs:216-237 | one ASCII pair written as `k=v` is read back as the same key and value |
| Uri.EncodedPairsRead | src/nav/uri.rs:216-241 | the pairs `build_query` writes parse back into the map of those pairs |
| Uri.QueryRead | src/nav/uri.rs:184-241 | the query of a formatted link parses back into the parameters `build_query` collected |
| Uri.RouteRead | src/nav/uri.rs:71-141 | the pieces and parameters written for a segment parse back to that segment |
| Uri.PathRead | src/nav/uri.rs:52-61 | the path a formatted link carries is read back as the namespace and the segment's raw pieces |
| Uri.LocationRead | src/nav/uri.rs:40-49 | the raw pieces and parameters of a link rebuild its location |
| Uri.RoundTrip | src/nav/uri.rs:14-69 | `parse_deep_link(format_deep_link(loc)) == Ok(loc)` for one-segment locations with non-empty ASCII namespace and ids and ASCII query values |
| Uri.CollectionQueryRoundTrip | src/nav/uri.rs:299-311 | the round trip of a workflow list with a `q` filter |
| Uri.DetailRunIdRoundTrip | src/nav/uri.rs:314-328 | the round trip of a workflow detail with `run_id` and `tab` |
| Uri.ScheduleWorkflowsRoundTrip | src/nav/uri.rs:331-344 | the round trip of a schedule's workflows with a `q` filter |
| Uri.ForeignScheme | src/nav/uri.rs:15-18 | a scheme other than `temporal` gives `InvalidScheme` |
| Uri.ForeignAuthority | src/nav/uri.rs:20-27 | an authority other than `tui` gives `InvalidAuthority` |
| Uri.PlainLink | src/nav/uri.rs:14-50 | a link written without escapes is parsed from exactly its pieces |
| Uri.RouteRequired | src/nav/uri.rs:75-77 | `/namespaces/<ns>` with nothing after it gives `InvalidPath` |
| Uri.UnknownKindRoute | src/nav/uri.rs:79-83 | a first route piece other than `workflows` or `schedules` is unsupported |
| Uri.UnknownKind | src/nav/uri.rs:79-83 | the same for a whole link |
| Uri.ActivityExtraRoute | src/nav/uri.rs:105-111 | pieces after `/activities/<id>` are ignored |
| Uri.ActivityExtraPiecesIgnored | src/nav/uri.rs:105-111 | the same for a whole link |
| Uri.ScheduleExtraRoute | src/nav/uri.rs:133-140 | a schedule may only be followed by exactly `/workflows`; anything else is unsupported |
| Uri.ScheduleExtraPiecesRefused | src/nav/uri.rs:133-140 | the same for a whole link, e.g. `schedules/x/y/z` |
| Uri.NamespaceRequired | src/nav/uri.rs:40-42 | a path not starting with `/namespaces/<ns>` gives `MissingNamespace` |
| Uri.TrailingSlashSegments | src/nav/uri.rs:34-38 | a trailing `/` adds no path piece |
| Uri.RepeatedSlashSegments | src/nav/uri.rs:34-38 | a doubled `/` adds no path piece |
| Uri.TrailingSlashIgnored | src/nav/uri.rs:34-38 | a trailing `/` does not change what a link parses to |
| Uri.RepeatedSlashIgnored | src/nav/uri.rs:34-38 | a doubled `/` parses like a single one |
| Text.ToLower | src/input/commands.rs:41 | ASCII lower-casing, character by character, leaving no upper-case letter |
| Text.ToLowerIdempotent | src/input/commands.rs:41 | lower-casing twice is lower-casing once |
| Text.Trim | src/app.rs:642 | the trimmed text is the slice right after exactly the leading whitespace, only whitespace follows it, and it neither starts nor ends with whitespace |
| Text.SplitOnce | src/nav/uri.rs:20 | `split_once(c)` fails exactly when `c` is absent, and otherwise splits at the first `c` |
| Text.Split | src/nav/uri.rs:34-35 | `split(c)` gives at least one piece and no piece holds `c` |
| Text.SplitJoin | src/nav/uri.rs:216-220 | splitting a join gives the parts back when no part holds the separator |
| Text.FirstWord | src/event.rs:149 | the first word is the longest run without whitespace that starts right after the leading whitespace |
| Text.SplitN2 | src/app.rs:642 | `splitn(2, c)` gives no rest exactly when `c` is absent, and then the whole text; otherwise the part before the first `c`, which holds no `c`, and everything after it |
| Kinds.FindKind | src/kinds/mod.rs:85-90 | the lookup finds the first entry of that kind, or reports that there is none |
| Kinds.FindOpByKey | src/kinds/mod.rs:109-115 | finds the first operation bound to the key, or reports that none is |
| Kinds.FindOpById | src/kinds/mod.rs:117-119 | finds the first operation with the id, or reports that none has it |
| Kinds.FindEffect | src/kinds/mod.rs:100-107 | finds an effect entry for the operation and kind, or reports that none is there |
| Kinds.KindSpecPresent | src/kinds/mod.rs:64-90 | every kind has a registry entry, so `kind_spec` never fails |
| Kinds.KindSpecOf | src/kinds/mod.rs:85-90 | `kind_spec` returns a registry entry of the asked kind |
| Kinds.OperationForKey | src/kinds/mod.rs:109-115 | no operation is bound exactly when no operation of the kind has the key |
| Kinds.OperationSpecOf | src/kinds/mod.rs:117-119 | the spec found is listed for the kind and has the id; none exactly when no listed operation has it |
| Kinds.OperationEffectSpecOf | src/kinds/mod.rs:100-107 | the entry found matches operation and kind; none exactly when the table has no such entry |
| Kinds.ToEffects | src/kinds/mod.rs:365-439 | a mapper gives at most one effect |
| Kinds.MapperEffects | src/kinds/mod.rs:365-419 | a mapper gives one effect of its operation carrying the target's ids, and for all but pausing exactly when the target is of its kind |
| Kinds.PauseEffects | src/kinds/mod.rs:421-439 | pausing acts exactly when the selected schedule is the target; it pauses an active schedule and resumes a paused one |
| Kinds.KindSpecsUnique | src/kinds/mod.rs:64-90 | each kind has exactly one registry entry |
| Kinds.OperationsUnique | src/kinds/mod.rs:134-168 | within a kind, operation ids and keys are distinct |
| Kinds.FoundKeyFoundById | src/kinds/mod.rs:117-119 | with distinct ids, the lookup by id of a listed operation finds its own index |
| Kinds.KeyFindsIndex | src/kinds/mod.rs:109-115 | with distinct keys, the lookup by key of a listed operation finds its own index |
| Kinds.OperationForKeyConsistent | src/kinds/mod.rs:109-119 | the operation bound to a key has that key in its own spec |
| Kinds.KeyReachesOperation | src/kinds/mod.rs:109-168 | every listed operation is bound to its own key |
| Kinds.OperationListedForItsKind | src/kinds/mod.rs:134-168 | an operation is listed for a kind exactly when it is an operation of that kind |
| Kinds.EffectsCoverOperations | src/kinds/mod.rs:178-204 | an effect entry exists exactly for the listed operations, and its mapper is the one for that operation |
| Kinds.EffectSpecFound | src/kinds/mod.rs:178-204 | each operation has its mapper under its own kind |
| Kinds.EffectSpecAbsent | src/kinds/mod.rs:178-204 | no mapper is registered for an operation under the other kind |
| Kinds.ConfirmationPolicy | src/kinds/mod.rs:134-168 | cancel, terminate, trigger and delete ask for confirmation; only pausing does not |
| Kinds.DetailTabCounts | src/kinds/mod.rs:121-132 | a workflow has five detail tabs, a schedule none |
| Commands.AnyStartsWith | src/input/commands.rs:46 | some alias starts with the input exactly when one of them does |
| Commands.FilterSpec | src/input/commands.rs:42-48 | the filter keeps exactly the offered commands, in table order, each once |
| Commands.FilterHead | src/input/commands.rs:42-48 | the first command kept is the first offered one in the table |
| Commands.MatchingCommands | src/input/commands.rs:40-49 | exactly the commands whose name or an alias starts with the lower-cased input, in table order, without duplicates |
| Commands.FilterKeepsAll | src/input/commands.rs:42-48 | when every command is offered, all are kept |
| Commands.EmptyInputMatchesAll | src/input/commands.rs:7-49 | empty input matches all six commands |
| Commands.MatchingIgnoresCase | src/input/commands.rs:41 | `matching_commands(s) == matching_commands(lowercase(s))` |
| Commands.MatchW | src/input/commands.rs:57-58 | `w` matches only `workflows` |
| Commands.MatchWf | src/input/commands.rs:60-61 | `wf` matches only `workflows` |
| Commands.MatchS | src/input/commands.rs:63 | `s` matches `schedules` and `signal` |
| Commands.MatchSch | src/input/commands.rs:64-65 | `sch` matches only `schedules` |
| Commands.MatchSig | src/input/commands.rs:67-68 | `sig` matches only `signal` |
| Commands.MatchQ | src/input/commands.rs:70-71 | `q` matches only `quit` |
| Commands.MatchXyz | src/input/commands.rs:73 | `xyz` matches nothing |
| Reducer.Pow2 | src/app.rs:1077-1081 | a power of two is at least one |
| Reducer.Fit | src/app.rs:781-842 | a selection is shown only on a non-empty table, and then on one of its rows |
| Reducer.WorkflowTabFromParam | src/app.rs:1106-1115 | a tab name maps to one of the five tabs |
| ReducerFacts.TabNamesRead | src/app.rs:1106-1115 | the lower-cased name picks its tab from the alias table (`summary`; `io`, `input`, `output`, `input-output`, `input_output`; `history`; `pending`, `pending-activities`, `pending_activities`, `activities`; `task-queue`, `task_queue`, `taskqueue`), and any other name gives the summary |
| ReducerFacts.ErrorBacksOff | src/app.rs:562-570 | an error counts one more failure, stretches the interval to `min(base * 2^min(errors, 5), 60)`, never above 60 s, and shows the message |
| ReducerFacts.ErrorStatus | src/app.rs:566-568 | the connection status turns into the error only from `Connected` |
| ReducerFacts.ErrorAction | src/app.rs:562-570 | `Error` only records the error and asks for nothing |
| ReducerFacts.BackoffAfterErrors | src/app.rs:1077-1081 | `n` consecutive errors from a reset state give `min(base * 2^min(n, 5), 60)` |
| ReducerFacts.LoadedResetsBackoff | src/app.rs:428-439 | a workflow list load resets the backoff, marks the connection up and ends any page load |
| ReducerFacts.MoreLoadedResetsBackoff | src/app.rs:440-449 | so does a further page, which is appended to a loaded list |
| ReducerFacts.SchedulesLoadedKeepsBackoff | src/app.rs:523-530 | a schedule list load leaves the backoff and the connection status alone |
| ReducerFacts.BackoffFromThreeSeconds | src/app.rs:1072-1081 | from 3 s: 6, 12, 24, then 60 s after five errors; one workflow load brings back 3 s |
| ReducerFacts.StaleToastCleared | src/app.rs:209-214 | a toast older than five seconds is gone before the action runs; a younger one stays |
| ReducerFacts.TickPolls | src/app.rs:550-561 | a tick changes nothing but the stale toast, and asks for exactly what a refresh of the screen shown asks for when polling is on and the interval has passed since the last load (or there was none), and for nothing otherwise |
| ReducerFacts.EscapeCons | src/app.rs:1134-1136 | each quote becomes `\'`, every other character stays |
| ReducerFacts.EscapeNoLeadingQuote | src/app.rs:1134-1136 | an escaped id never starts with a quote |
| ReducerFacts.UnescapeEscape | src/app.rs:1134-1136 | reading `\'` back as `'` gives the id back |
| ReducerFacts.EscapedQuotesFollowBackslash | src/app.rs:1134-1136 | every quote in an escaped id follows a backslash |
| ReducerFacts.TrimKeeps | src/app.rs:1117-1132 | trimming text whose ends are not whitespace changes nothing |
| ReducerFacts.CombineCases | src/app.rs:1117-1132 | the schedule filter alone when the extra filter is absent or blank, else `(base) AND (trimmed extra)`, with the id's quotes escaped |
| ReducerFacts.ScheduleWorkflowsApplied | src/app.rs:987-993 | a schedule's runs open the workflow list filtered by the combined query, loading the list and its count |
| ReducerFacts.CombineNightly | src/app.rs:1152-1192 | the combined query of the module's test |
| ReducerFacts.ScheduleWorkflowsLocation | src/app.rs:1152-1192 | the module's test of `apply_location` for `schedules/nightly/workflows` |
| ReducerFacts.TabParamRoundTrip | src/app.rs:1106-1115 | each tab's name reads back as that tab |
| ReducerFacts.TabParamIgnoresCase | src/app.rs:1106-1115 | tab names are read in any case |
| ReducerFacts.TabDataKeeps | src/app.rs:848-868 | loading a tab's data keeps the tab, the scroll and the view |
| ReducerFacts.TabStep | src/app.rs:378-399 | a tab step moves the tab, resets the scroll and keeps the view |
| ReducerFacts.TabsCycle | src/app.rs:378-399 | the tab keys cycle through the five tabs and undo each other |
| ReducerFacts.TabIndexInverse | src/app.rs:378-399 | next and previous tab index stay in range and are inverses |
| ReducerFacts.TabsOnlyInWorkflowDetail | src/app.rs:378-399 | outside a workflow detail the tab actions do nothing |
| ReducerFacts.TabLoads | src/app.rs:848-868 | the history tab reloads the history, the task-queue tab loads the task queue, other tabs load nothing |
| ReducerFacts.LoadMoreGuard | src/app.rs:1083-1099 | a further page is asked for exactly in the workflow list, not loading, with a page token, within five rows of the end; then marked loading, so a second call asks for nothing |
| ReducerFacts.NavigationGuarded | src/app.rs:218-271 | the moving arms ask for a page only through the guard |
| ReducerFacts.ScreenChangeNeverLoadsMore | src/app.rs:272-427 | switching screens never asks for a further page |
| ReducerFacts.InputNeverLoadsMore | src/app.rs:301-356 | input actions never ask for a further page |
| ReducerFacts.RunOperationAction | src/app.rs:301 | `RunOperation` does exactly what `run_operation` as written does on the state with the stale toast cleared |
| ReducerFacts.RunOperationActionCorrected | src/kinds/mod.rs:421-439 | with the pause correction, `RunOperation` does what `run_operation` does with the mapper reading the selected row |
| ReducerFacts.AtMostOnePageInFlight | src/app.rs:208-580 | no action asks for a page while one is loading, and one that asks marks it loading |
| ReducerFacts.SelectDownKeeps | src/app.rs:793-817 | one move down changes only the selection |
| ReducerFacts.SelectUpKeeps | src/app.rs:781-791 | one move up changes only the selection |
| ReducerFacts.SelectDownTimesKeeps | src/app.rs:261-271 | the page-down loop changes only the selection |
| ReducerFacts.SelectUpTimesKeeps | src/app.rs:250-260 | the page-up loop changes only the selection |
| ReducerFacts.OperateNeverLoadsMore | src/app.rs:1020-1070 | an operation never asks for a further page, whatever schedule the pause mapper reads |
| ReducerFacts.MapperNeverLoadsMore | src/kinds/mod.rs:365-439 | a mapper only asks for its own operation |
| ReducerFacts.ApplyLocationNeverLoadsMore | src/app.rs:911-996 | a deep link never asks for a further page |
| ReducerFacts.RefreshNeverLoadsMore | src/app.rs:729-753 | a refresh never asks for a further page |
| ReducerFacts.CommandNeverLoadsMore | src/app.rs:641-727 | a command never asks for a further page |
| ReducerFacts.RunCommandNeverLoadsMore | src/app.rs:646-726 | nor does any command word |
| NavigationFacts.ValidInitial | src/app.rs:163-206 | the start state keeps the invariant and shows the workflow list of its namespace |
| NavigationFacts.SelectDownTimesValid | src/app.rs:261-271 | the page-down loop keeps every selection on a row |
| NavigationFacts.SelectUpTimesValid | src/app.rs:250-260 | the page-up loop keeps every selection on a row |
| NavigationFacts.SelectDownTimesKeepsLists | src/app.rs:261-271 | paging keeps the view and the lists |
| NavigationFacts.SelectUpTimesKeepsLists | src/app.rs:250-260 | paging keeps the view and the lists |
| NavigationFacts.ShowRouteFrame | src/app.rs:936-995 | a route's screen changes only the fields its arm names |
| NavigationFacts.ApplyLocationValid | src/app.rs:911-996 | opening a link keeps the invariant |
| NavigationFacts.RunCommandValid | src/app.rs:641-727 | every command keeps the invariant |
| NavigationFacts.SelectUpValid | src/app.rs:781-791 | one move up keeps the invariant and the view |
| NavigationFacts.SelectDownValid | src/app.rs:793-817 | one move down keeps the invariant and the view |
| NavigationFacts.UpdateValid | src/app.rs:208-580 | every action keeps the invariant: each selection on a row of its list, the detail tab one of the five, the scroll within a `u16` |
| NavigationFacts.NavigateValid | src/app.rs:218-271 | the moving arms keep the invariant |
| NavigationFacts.ChangeScreenValid | src/app.rs:272-427 | the arms that open, leave or switch a screen keep the invariant |
| NavigationFacts.HandleInputValid | src/app.rs:301-356 | the operation, command-line, search and help arms keep the invariant |
| NavigationFacts.AbsorbLoadValid | src/app.rs:428-544 | loaded data keeps the invariant: a fresh list refits its selection, a further page only lengthens the list |
| NavigationFacts.HousekeepValid | src/app.rs:545-578 | refreshing, polling, errors and quitting keep the invariant |
| NavigationFacts.OperateKeepsLists | src/app.rs:1020-1070 | `run_operation` changes no list, selection, tab or scroll |
| NavigationFacts.SelectThenBack | src/app.rs:582-639 | on a list row `Select` opens that row's detail and asks for it (and its history, for a workflow); `Back` then returns to the list with the same rows and selections |
| NavigationFacts.SelectWithoutRowIgnored | src/app.rs:582-622 | without a selected row, or in a detail view, `Select` does nothing |
| NavigationFacts.DownTimesLands | src/app.rs:266-268 | `n` steps down land `n` rows further, stopping on the last row |
| NavigationFacts.UpTimesLands | src/app.rs:255-257 | `n` steps up land `n` rows higher, stopping on the first row |
| NavigationFacts.PageDownLands | src/app.rs:266-268 | twenty steps down from row `i` land on row `i + 20`, or the last row; from no selection on row 19 |
| NavigationFacts.PageUpLands | src/app.rs:255-257 | twenty steps up from row `i` land on row `i - 20`, or the first row |
| NavigationFacts.PageDownMoves | src/app.rs:261-271 | page down in the workflow list moves twenty rows down, stopping on the last row |
| NavigationFacts.PageUpMoves | src/app.rs:250-260 | page up in the workflow list moves twenty rows up, stopping on the first row |
| NavigationFacts.PageUpScrolls | src/app.rs:250-254 | in a detail view page up scrolls twenty lines up, stopping at the top |
| NavigationFacts.PageDownScrolls | src/app.rs:261-265 | in a detail view page down scrolls twenty lines down, saturating at the `u16` maximum, and asks for nothing |
| NavigationFacts.SwitchNamespaceShowsList | src/app.rs:357-377 | a namespace switch shows the list of the same kind with nothing selected and loads what a refresh loads |
| NavigationFacts.NewNamespaceForgets | src/app.rs:913-929 | a link into another namespace clears both lists, both selections, the page token and every search but the link's own |
| NavigationFacts.SameNamespaceKeepsLists | src/app.rs:911-929 | a link into the shown namespace keeps the lists and selections |
| NavigationFacts.MissingRouteReported | src/app.rs:931-934 | a link without a route shows nothing new, reports it and asks for nothing |
| NavigationFacts.WorkflowListLinkRoundTrip | src/app.rs:870-996 | opening a workflow list link shows that link's screen and loads what a refresh loads |
| NavigationFacts.ScheduleListLinkRoundTrip | src/app.rs:870-996 | the same for the schedule list |
| NavigationFacts.OwnLinkKeepsList | src/app.rs:870-996 | reopening a list's own link keeps the view, the namespace, the searches and the selections |
| NavigationFacts.OwnLinkReloadsDetail | src/app.rs:870-996 | reopening a workflow detail's own link shows the same run on its first tab and reloads detail and history |
| NavigationFacts.KindQueryStored | src/app.rs:998-1018 | a stored search is found for its kind, leaves the other kind's alone, and storing none removes it |
| NavigationFacts.SearchStored | src/app.rs:333-348 | a submitted search is stored for the kind shown (empty clears it), the other kind's is kept, and the list reloads |
| NavigationFacts.SearchOffered | src/app.rs:309-313 | opening the search box offers the stored search of the kind shown |
| NavigationFacts.SearchRemembered | src/app.rs:309-348 | a submitted search is offered again when the box reopens |
| NavigationFacts.HelpToggles | src/app.rs:349-356 | help flips between `Help` and no overlay |
| NavigationFacts.HelpTwice | src/app.rs:349-356 | pressing help twice returns to where it started |
| NavigationFacts.EscapeOrder | src/app.rs:314-322 | Esc closes an open overlay first; only with none does it return to normal mode and clear the line |
| NavigationFacts.EscapeTwice | src/app.rs:314-322 | two presses always reach normal mode with no overlay |
| NavigationFacts.BackKeepsChordAsWritten | src/app.rs:624-639 | as written, `Back` is `handle_back` on the state with the stale toast cleared, asks for nothing, and leaves a pending `g` chord pending |
| NavigationFacts.TopKeepsChordAsWritten | src/app.rs:234-241 | as written, `NavigateTop` during the chord scrolls a detail view to the top and leaves the chord pending; in a list it ends the chord |
| NavigationFacts.BackIgnoresMode | src/app.rs:624-639 | `handle_back` neither reads nor writes the input mode |
| NavigationFacts.BackEndsChord | src/event.rs:190-195 | with the correction, `Back` during the chord (the cancel of the chord) ends it, and otherwise does what `Back` as written does |
| NavigationFacts.TopEndsChord | src/app.rs:819-830 | with the correction, `NavigateTop` during the chord ends it in every view, as `navigate_top` does in the lists, and otherwise does what it does as written |
| NavigationFacts.TopEndsChordInList | src/app.rs:819-830 | `navigate_top` in a list ends the chord |
| NavigationFacts.KnownWords | src/app.rs:646-726 | the command words known are the table's names and aliases plus `open` and `goto` |
| NavigationFacts.UnknownCommandReported | src/app.rs:722-725 | an unknown command word changes only the toast, which names it |
| NavigationFacts.OpenCommand | src/app.rs:681-700 | a link that does not parse leaves the screen and reports the error; one that parses is opened |
| NavigationFacts.NamespaceCommand | src/app.rs:701-713 | `:ns <name>` switches namespace keeping the searches and reloads; bare `:ns` opens the selector and loads namespaces |
| NavigationFacts.SignalCommand | src/app.rs:657-680 | `:signal` sends the named signal with the rest of the line as input to the selected workflow |
| OperationFacts.OperationOfOtherKindIgnored | src/app.rs:1020-1027 | an operation of the other kind does nothing, whatever schedule the pause mapper reads |
| OperationFacts.OperationNeedsSelection | src/app.rs:1030-1034 | with nothing selected an operation only reports it, whatever schedule the pause mapper reads |
| OperationFacts.OperationAwaitsConfirmation | src/app.rs:1039-1045 | every operation but pausing opens the confirmation dialog with kind, operation and target, and sends nothing |
| OperationFacts.PauseInDetailRunsAtOnce | src/app.rs:1059-1067 | as written, pausing in the schedule detail sends the pause or resume of the shown schedule at once and changes nothing in the application |
| OperationFacts.PauseRunsAtOnce | src/kinds/mod.rs:421-439 | with the correction, pausing sends at once wherever a schedule is selected, list or detail, and changes nothing in the application |
| OperationFacts.ConfirmTargetsSelection | src/app.rs:1028-1067 | the dialog's target is the item the operation was asked on |
| OperationFacts.PauseInListIgnoredAsWritten | src/kinds/mod.rs:421-439 | as written, `p` on a schedule list row changes nothing but the stale toast and sends nothing |
| OperationFacts.PauseInListActs | src/kinds/mod.rs:421-439 | with the correction, `p` on a list row pauses or resumes that row's schedule |
| OperationFacts.MergeKeepsHistoryFacts | src/app.rs:450-468 | a loaded detail keeps the input, output, failure and history length the shown one has and it lacks |
| OperationFacts.MergeIdempotent | src/app.rs:450-468 | merging the same detail again changes nothing |
| OperationFacts.HistoryInputOutput | src/app.rs:469-515 | the history gives the last own start event's input and last own completion's result, or keeps the earlier ones |
| OperationFacts.ChildEventsIgnored | src/app.rs:473-488 | child workflow events never change the detail |
| OperationFacts.HistoryLoadedCounts | src/app.rs:469-515 | the history is stored and the shown workflow's history length becomes the number of events |
| AppMachine.App.constructor | src/app.rs:163-206 | `App::new` builds the start state |
| AppMachine.App.SelectUp | src/app.rs:781-791 | `navigate_up` on the fields |
| AppMachine.App.SelectDown | src/app.rs:793-817 | `navigate_down` on the fields |
| AppMachine.App.SelectTop | src/app.rs:819-830 | `navigate_top` on the fields, ending the chord |
| AppMachine.App.SelectBottom | src/app.rs:832-842 | `navigate_bottom` on the fields |
| AppMachine.App.PageSelectUp | src/app.rs:255-257 | the loop of twenty `navigate_up` calls |
| AppMachine.App.PageSelectDown | src/app.rs:266-268 | the loop of twenty `navigate_down` calls |
| AppMachine.App.MaybeLoadMore | src/app.rs:1083-1099 | the guarded page request on the fields |
| AppMachine.App.ClearStaleToast | src/app.rs:209-214 | the stale toast is cleared on the fields |
| AppMachine.App.Navigate | src/app.rs:218-271 | the moving arms on the fields |
| AppMachine.App.NavigateUp | src/app.rs:218-225 | its arm |
| AppMachine.App.NavigateDown | src/app.rs:226-233 | its arm |
| AppMachine.App.NavigateTop | src/app.rs:234-241 | its arm: a detail view scrolls to the top, a list goes to its first row and ends the chord |
| AppMachine.App.NavigateBottom | src/app.rs:242-249 | its arm |
| AppMachine.App.PageUp | src/app.rs:250-260 | its arm |
| AppMachine.App.PageDown | src/app.rs:261-271 | its arm |
| AppMachine.App.ChangeScreen | src/app.rs:272-427 | the arms that open, leave or switch a screen |
| AppMachine.App.ChangeTab | src/app.rs:378-427 | the tab arms and the arms opening a schedule's runs or a workflow's activities |
| AppMachine.App.Select | src/app.rs:582-622 | `handle_select` on the fields |
| AppMachine.App.OpenSelectedWorkflow | src/app.rs:584-607 | the workflow list branch of `handle_select` |
| AppMachine.App.OpenSelectedSchedule | src/app.rs:608-620 | the schedule list branch of `handle_select` |
| AppMachine.App.Back | src/app.rs:624-639 | `handle_back` on the fields: a detail view returns to its list and forgets the shown item; the input mode is left as it is |
| AppMachine.App.SwitchView | src/app.rs:276-293 | its arm |
| AppMachine.App.ChangeNamespace | src/app.rs:357-377 | the `SwitchNamespace` arm |
| AppMachine.App.NextTab | src/app.rs:378-386 | its arm |
| AppMachine.App.PrevTab | src/app.rs:387-399 | its arm |
| AppMachine.App.LoadWorkflowTabData | src/app.rs:848-868 | `load_workflow_tab_data` on the fields |
| AppMachine.App.OpenScheduleWorkflows | src/app.rs:400-412 | its arm |
| AppMachine.App.OpenWorkflowActivities | src/app.rs:413-427 | its arm |
| AppMachine.App.ApplyLocation | src/app.rs:911-996 | `apply_location` on the fields |
| AppMachine.App.EnterNamespace | src/app.rs:913-929 | the namespace reset of `apply_location` |
| AppMachine.App.ShowRoute | src/app.rs:936-995 | the screen and loads of one route segment |
| AppMachine.App.ShowWorkflowList | src/app.rs:938-947 | the workflow list route: its search stored, the list and its count loaded |
| AppMachine.App.ShowWorkflow | src/app.rs:948-960 | the workflow detail route on the tab the link names, detail and history loaded |
| AppMachine.App.ShowActivities | src/app.rs:961-973 | the activities route: the workflow detail on its activities tab |
| AppMachine.App.ShowScheduleList | src/app.rs:975-980 | the schedule list route: its search stored, the list loaded |
| AppMachine.App.ShowSchedule | src/app.rs:981-986 | the schedule detail route |
| AppMachine.App.ShowScheduleRuns | src/app.rs:987-993 | a schedule's runs: the workflow list under the combined query |
| AppMachine.App.SetKindQuery | src/app.rs:1012-1018 | `set_kind_query` on the search map |
| AppMachine.App.HandleInput | src/app.rs:301-356 | the operation, command line, search and help arms |
| AppMachine.App.EditInput | src/app.rs:304-356 | the arms that open the command line or the search box, edit the line or toggle help |
| AppMachine.App.RunOperation | src/app.rs:1020-1070 | `run_operation` as written on the fields, the pause mapper handed `selected_schedule` |
| AppMachine.App.CloseOverlay | src/app.rs:314-322 | its arm |
| AppMachine.App.SubmitCommandInput | src/app.rs:323-328 | its arm |
| AppMachine.App.SubmitSearch | src/app.rs:333-348 | its arm |
| AppMachine.App.ExecuteCommand | src/app.rs:641-727 | `execute_command` on the fields |
| AppMachine.App.RunCommand | src/app.rs:646-726 | the command word's branch |
| AppMachine.App.SignalCommand | src/app.rs:657-680 | the `signal` branch |
| AppMachine.App.OpenCommand | src/app.rs:681-700 | the `open` branch |
| AppMachine.App.NamespaceCommand | src/app.rs:701-713 | the `namespace` branch |
| AppMachine.App.AbsorbLoad | src/app.rs:428-544 | the arms that take in loaded data |
| AppMachine.App.WorkflowsLoaded | src/app.rs:428-439 | its arm |
| AppMachine.App.MoreWorkflowsLoaded | src/app.rs:440-449 | its arm |
| AppMachine.App.ListLoaded | src/app.rs:428-530 | the arms that take in a list |
| AppMachine.App.NamespacesLoaded | src/app.rs:516-522 | its arm |
| AppMachine.App.SchedulesLoaded | src/app.rs:523-530 | its arm |
| AppMachine.App.ResetBackoff | src/app.rs:1072-1075 | `reset_backoff` on the fields |
| AppMachine.App.WorkflowDetailLoaded | src/app.rs:450-468 | its arm |
| AppMachine.App.HistoryLoaded | src/app.rs:469-515 | its arm: the event loop's invariant is the events applied so far |
| AppMachine.App.Housekeep | src/app.rs:545-578 | refresh, quit, tick, error and polling arms |
| AppMachine.App.Poll | src/app.rs:545-561 | `Refresh` reloads the screen; `Tick` does so only when polling is on and the interval has passed |
| AppMachine.App.Maintain | src/app.rs:546-578 | the quit, clear-error and polling-switch arms |
| AppMachine.App.RecordError | src/app.rs:562-570 | the `Error` arm |
| AppMachine.App.ApplyBackoff | src/app.rs:1077-1081 | `apply_backoff` on the fields |
| AppMachine.App.Update | src/app.rs:208-580 | `App::update` |
| AppMachine.App.Step | src/app.rs:216-579 | the match on the action |
| Event.DropLast | src/event.rs:158-162 | `pop` on a copy: the last character goes, an empty buffer stays empty |
| Event.OverlayDecides | src/event.rs:111-139 | an open overlay decides alone; the mode, view and buffer do not matter |
| Event.HelpKeys | src/event.rs:113-120 | under help only Esc, `?` and `q` act, and they toggle help |
| Event.NamespaceSelectorKeys | src/event.rs:131-137 | under the namespace selector only Esc acts |
| Event.ConfirmKeys | src/event.rs:121-130 | under the dialog `y`, Enter, `n` and Esc close it; nothing else acts |
| Event.TypingAppends | src/event.rs:163-186 | in the command line or search box a character goes to the end of the buffer |
| Event.BackspaceDrops | src/event.rs:158-181 | Backspace drops the last character; an empty buffer stays empty |
| Event.BackspaceUndoesTyping | src/event.rs:158-186 | Backspace takes back the character just typed |
| Event.EnterSubmits | src/event.rs:146-176 | Enter submits the buffer as a command or as a search |
| Event.TabCompletes | src/event.rs:147-157 | Tab writes the first command offered for the first word plus a space, and nothing exactly when none is offered |
| Event.CompleteWord | src/event.rs:149-156 | completing one word reads the commands offered for it |
| Event.TabCompletesSignal | src/event.rs:147-157 | Tab on `sig` writes `signal ` |
| Event.TabIgnoresUnknown | src/event.rs:147-157 | Tab on `xyz` does nothing |
| Event.ChordKeys | src/event.rs:190-195 | during the chord `g` goes to the top and any other key is `Back` |
| Event.CtrlKeys | src/event.rs:199-208 | with Ctrl only `c`, `r`, `d`, `u` act, and no Ctrl chord reaches the plain keys |
| Event.SearchOnlyInLists | src/event.rs:215-217 | `/` opens search in the lists and nowhere else |
| Event.TabKeysOnlyInWorkflowDetail | src/event.rs:235-236 | `l` and `h` step tabs only in the workflow detail |
| Event.RegisteredKeyRuns | src/event.rs:228-247 | every operation listed for the kind shown runs on its key |
| Event.ForeignOperationKey | src/event.rs:228-247 | an operation key of the other kind does nothing |
| Event.OperationKeysFollowRegistry | src/event.rs:228-247 | the keys `c t p T d` run what the registry binds for the kind shown, and nothing where it binds none |
| Event.AdvertisedKeysUnbound | src/event.rs:210-250 | `w` and `a` have no binding |
| KeyFlow.ChordEndsAfterOneKey | src/event.rs:190-195 | with the correction, the key after `g` always ends the chord |
| KeyFlow.ChordStuckAsWritten | src/app.rs:624-639 | as written, after `g` a key other than `g` is `Back`, which leaves the chord pending, so the next such key is `Back` again |
| KeyFlow.TypedCharReachesBuffer | src/event.rs:163-186 | a typed character lands at the end of the application's buffer |
| KeyFlow.EscLeavesInput | src/event.rs:145-174 | Esc in the command line or the search box returns to normal mode with an empty line |
| Footer.OpHints | src/widgets/footer.rs:79-85 | one hint per operation, its key and title, in order |
| Footer.OperationHints | src/widgets/footer.rs:79-85 | as many hints as the kind has operations, the i-th naming the i-th operation's key and title |
| Footer.Insert | src/widgets/footer.rs:68-69 | `Vec::insert` puts the hint at the index and shifts the rest |
| Footer.BuildCollectionHints | src/widgets/footer.rs:49-63 | the pushes and the extend build the list hints |
| Footer.BuildDetailHints | src/widgets/footer.rs:65-77 | the two inserts, the extend and the pushes build the detail hints |
| Footer.FooterHints | src/widgets/footer.rs:12-23 | the hints picked by input mode, then by screen |
| Footer.OperationHintsDistinct | src/widgets/footer.rs:79-85 | no operation hint reads like `w workflows`, `? help` or `q quit` |
| Footer.CollectionHintsOrder | src/widgets/footer.rs:49-63 | the list hints are nav, select, search, cmd, the operations in registry order, `w workflows` for schedules, then help and quit |
| Footer.WorkflowsHintOnlyForSchedules | src/widgets/footer.rs:57-59 | `w workflows` is in the list hints exactly for schedules |
| Footer.DetailHintsEndWithHelp | src/widgets/footer.rs:65-77 | the detail hints end with help and never offer quit |
| Footer.WorkflowDetailStarts | src/widgets/footer.rs:65-70 | the workflow detail hints start with tabs, activities, scroll and back |
| Footer.ModeHints | src/widgets/footer.rs:12-23 | the command line shows Esc cancel and Enter execute, search Esc cancel and Enter apply, the chord g top |
| Footer.HintedOperationKeysWork | src/widgets/footer.rs:79-85 | every operation hint's key runs that very operation on the kind's screens |
| Footer.UnboundHints | src/widgets/footer.rs:57-70 | the `w` and `a` hints shown are keys nothing reads |

## Left out

- The terminal, the gRPC client, the async worker and the event loop are not part of this model. This covers rendering, `main.rs`, `tui.rs`, `worker.rs` and `client/*`. An effect is a value; nothing runs it.
- Running a confirmed operation after the dialog closes happens in `main.rs`, which still uses pre-refactor types. It is not part of this model, so the dialog is modelled only up to recording the pending operation.
- `Instant` and `Duration` are whole seconds. The clock reading is a parameter, `now`, of `Update`. Sub-second timing is not modelled.
- AppMachine.App.SelectUp: ratatui clamps a `TableState` selection when it draws. The model clamps on every move, so between a move and the next frame it shows the clamped row.
- AppMachine.App.SelectDown: the same clamping as `SelectUp`.
- Text.ToLower: only ASCII letters are lower-cased. Unicode case mapping is not modelled.
- Percent.Utf8Char: characters are Unicode scalar values; surrogates cannot occur, as in Rust's `char`.
- `App::page_height` is the constant 20, as in the source.
- `namespace_selector_state` is a plain `Option<nat>`. `select_first` on the namespace list gives row 0 of a non-empty list.
- Floating-point and date fields of the domain records are dropped. So are the row, width and colour functions of the kind registry: rendering only.
- Uri.RoundTrip: proved for one-segment locations with non-empty ASCII namespace and ids. Non-ASCII text is encoded as UTF-8 but decoded byte by byte as Latin-1 characters, so it does not come back. The formatter writes every segment but the parser keeps one.
- AppMachine.App.CloseOverlay: its contract passes the clock reading 0 to the reducer because the arm never reads the clock.
- AppMachine.App.SubmitSearch: the same, the arm never reads the clock.
- Reducer.WorkflowTabFromParam: its own contract states only that the tab is one of the five. The full name table is stated by `ReducerFacts.TabNamesRead`, outside the function, so that the callers of the function do not carry the table.

## Findings

| source | as written | input that shows it | evidently intended | confidence | as-written member | corrected member |
|---|---|---|---|---|---|---|
| src/app.rs:624-639 | `handle_back` never resets `input_mode`, and in a detail view `NavigateTop` only resets the scroll. Every key pressed during a pending `g` chord except `g` is read as `Back` (src/event.rs:193 calls it a cancel), so the chord stays pending | in a workflow detail, press `g`, `g` (scroll to top, chord still pending), then `j`: the detail closes instead of scrolling | the key after `g` ends the chord | not executed | NavigationFacts.BackKeepsChordAsWritten, NavigationFacts.TopKeepsChordAsWritten, KeyFlow.ChordStuckAsWritten | Reducer.UpdateCorrected, NavigationFacts.BackEndsChord, NavigationFacts.TopEndsChord, KeyFlow.ChordEndsAfterOneKey |
| src/kinds/mod.rs:421-439 | the pause mapper reads `selected_schedule`, which only the schedule detail fills. `p` on a row of the schedule list (offered by the footer) passes `run_operation`'s selection check but sends nothing | schedule list with row 0 selected and no schedule detail opened: `p` sends no `PauseSchedule` | pause or resume the schedule on the selected row | not executed | Reducer.OperateAsWritten, OperationFacts.PauseInListIgnoredAsWritten | Reducer.Operate, Reducer.UpdateCorrected, OperationFacts.PauseInListActs |
