# Telemetry extension: identity registry, event gating and exporter dispatch

A Dafny model of the two pieces of logic at the heart of a VS Code telemetry
extension.

- **Events** (`events.dfy`, from `src/events.ts`). The per-process registry
  gives every document URI a stable integer id: the first URI seen gets 1,
  the next new one 2, and so on. Four lifecycle handlers (open, change,
  close, save) share one gate. The gate passes only when telemetry is on,
  the category flag under `telemetry.activeEvents` is on, and the URI scheme
  is `file`. Past the gate, a handler resolves the document id, builds the
  event record it hands to `sendEvent`, and writes the status-bar text.
  - The registry is the class `IdRegistry`, with the fields `uri2Id` and
    `nextId` and a ghost history of looked-up URIs.
  - `Replay` folds the pure step `Lookup` over that history. The lemmas
    prove the invariant (ids in `[1, nextId)`, pairwise distinct,
    `nextId - 1 == |uri2Id|`), first-seen numbering, and stable identity.
  - The handlers are module-level methods that take the registry and a
    `StatusBarItem` (the `megaphone`) as parameters. Each is proved against
    the pure function `Handle`, whose contract states the gating and the
    record shape.
- **Extension** (`extension.dfy`, from `src/extension.ts`). At activation
  the configured exporters are resolved against the global active-event
  list. Their `args.id` values are collected. Then a listener is started
  for each (exporter, producer) pair the exporter asks for.
  - The producer collection is an abstract list of producer ids.
  - A started listener is the value `Listener(exporter, producer)`.
  - `Activate` runs the nested loops and is proved against the function
    `Dispatch`.

`wrappers.dfy` holds the `Option` type used for JavaScript's `undefined`.

`Listens` tolerates an exporter without a list, as the optional chaining in
`exporter.activeEvents?.map(...)` at src/extension.ts:45 does.

## Model

| member | source | states |
|---|---|---|
| `Events.Lookup` | src/events.ts:8-11 | the returned id is the one stored for the URI afterwards; only that URI can become known; no known id changes; a known URI leaves the state as it was; an unseen URI takes the counter, which moves by exactly one |
| `Events.LookupPreservesInv` | src/events.ts:9 | one lookup keeps the invariant: ids in `[1, nextId)`, pairwise distinct, `nextId - 1` equal to the number of known URIs |
| `Events.ReplayInv` | src/events.ts:5-10 | after any sequence of lookups from the initial state (empty map, counter 1), the registry invariant holds |
| `Events.LookupNumbers` | src/events.ts:9 | if the known URIs are numbered 1, 2, … in a list, a lookup of an unseen URI appends it with the next number, and a lookup of a known URI changes nothing |
| `Events.Replay` | src/events.ts:5-10 | the registry after `updateAndGetId` has run on each URI of a history, from the initial state: its counter is at least 1 and the URI looked up last is known (`ReplayFirstSeen` states the full key set and numbering) |
| `Events.ReplayFirstSeen` | src/events.ts:5-10 | after any sequence of lookups, the k-th distinct URI in first-seen order has id k + 1, the known URIs are exactly those looked up, and the counter is their number plus one |
| `Events.IdStable` | src/events.ts:9-10 | once a URI has an id, any further lookups of any URIs keep it known with the same id |
| `Events.IdRegistry.constructor` | src/events.ts:5-6 | the registry starts with an empty map and `nextId == 1`, and satisfies its invariant |
| `Events.IdRegistry.UpdateAndGetId` | src/events.ts:8-11 | a known URI returns its stored id and changes neither field; an unseen URI returns the old `nextId`, adds only that key, and increments `nextId` by one; the invariant is kept and the id lies in `[1, nextId)` |
| `Events.CategoryEnabled` | src/events.ts:19-21 | predicate, no contract: the flag under the category name is present and true; a missing key reads as off |
| `Events.Passes` | src/events.ts:17-25 | predicate, no contract: the gate shared by the four handlers (telemetry on, category flag on, scheme `file`); the same test stands at lines 51-59, 94-102 and 120-128, and `Handle` states its consequences |
| `Events.Envelope` | src/events.ts:35-43 | the record carries the category name, the URI and the id it is given, and the host's clock reading, session id and machine id; it carries a text exactly for an open signal, and that text is the signal's content; it carries a change list exactly for a change signal, and that list is the signal's changes (the same shape at lines 77-85, 105-112 and 131-138) |
| `Events.Handle` | src/events.ts:17-43 | a closed gate (telemetry off, category flag off or missing, or a non-`file` scheme) sends nothing and leaves the registry as it was; an open gate registers the URI; a record is sent exactly when the gate is open and, for a change, the change list is non-empty; the record's `documentId` is the registry's id for `documentUri`; its `eventName` is the handler's category; open records carry the text, change records the change list, close and save records neither |
| `Events.SameDocumentSameId` | src/events.ts:26-41 | for two consecutive handler calls that both send records, whatever their categories, the two records share a `documentId` exactly when they concern the same URI |
| `Events.Classify` | src/events.ts:63-74 | a change with an empty range (start equals end) shows Add; otherwise empty text shows Delete; otherwise Replace; Add and Replace carry the change's text, and all three carry the document id |
| `Events.LastWithText` | src/events.ts:63-74 | finds the last change that carries text, with no text-carrying change after it; when it finds none, no change carries text |
| `Events.ChangeStatus` | src/events.ts:63-74 | the status after showing the changes in turn: unchanged when no change carries text; decided by the last change alone when it carries text; left as the earlier changes set it when the last change carries none |
| `Events.HandleDocumentOpen` | src/events.ts:13-45 | behaves as `Handle` on an open signal; records the URI in the registry history only when the gate passes; shows the open status with the document's id when a status-bar item is given |
| `Events.ShowChanges` | src/events.ts:63-74 | the `forEach` over the changes leaves the status-bar text `ChangeStatus` gives for them: set by the last change that carries text, or unchanged if there is none |
| `Events.HandleDocumentChange` | src/events.ts:47-88 | behaves as `Handle` on a change signal: the id is registered even when the change list is empty; the loop leaves the status text set by the last change that carries text, or unchanged if there is none |
| `Events.HandleDocumentClose` | src/events.ts:90-114 | behaves as `Handle` on a close signal and shows the close status with the document's id |
| `Events.HandleDocumentSave` | src/events.ts:116-140 | behaves as `Handle` on a save signal and shows the save status with the document's id |
| `Extension.ApplyGlobal` | src/extension.ts:15-22 | the result has the input's length and order; an exporter without a list gets exactly the global list and keeps its args; one with a list, even an empty one, is unchanged |
| `Extension.KeepConfigured` | src/extension.ts:23 | the result is an order-preserving subsequence of the input; it holds every exporter with a present, non-empty list, as many times as the input does, and no other |
| `Extension.ResolveExporters` | src/extension.ts:13-23 | the result is undefined exactly when `exporters` is; every resolved exporter has its list populated; with a non-empty global list the length is kept; otherwise the result is an order-preserving subsequence holding every exporter with a non-empty list, as many times as the input does, and no other |
| `Extension.GlobalBranch` | src/extension.ts:14-22 | with a non-empty global list, the resolved exporter at position i is the global-list version of the input's i-th exporter when it had no list, and is that exporter unchanged when it had one |
| `Extension.WithDefault` | src/extension.ts:16-21 | the `map` callback keeps the args and always leaves a list; an absent list becomes the global list; an exporter with its own list, even an empty one, is returned unchanged |
| `Extension.IdsOf` | src/extension.ts:28-29 | the defined ids, in order; its own contract only bounds their number by the number of exporters, and `IdsOfComplete`, `IdsOfSound` and `IdsOfAppend` state what it collects |
| `Extension.IdsOfComplete` | src/extension.ts:28-29 | the defined `args.id` of every resolved exporter appears among the collected ids |
| `Extension.IdsOfSound` | src/extension.ts:28-29 | every collected id is the defined `args.id` of some resolved exporter, whose position it returns |
| `Extension.ExporterIds` | src/extension.ts:27-29 | `exporterIds` is undefined exactly when the resolved exporters are |
| `Extension.IdsOfAppend` | src/extension.ts:27-29 | ids are collected in exporter order: the ids of a concatenation are the ids of the first part followed by those of the second |
| `Extension.ListenersOf` | src/extension.ts:44-48 | function, no contract: the inner `forEach` for one exporter, one listener per producer it listens to, in producer order; `ListenersOfMembers` and `ListenersOfAppend` state its properties |
| `Extension.ListenersOfMembers` | src/extension.ts:44-48 | for one exporter, a listener for a producer is started exactly when the producer is in the collection and its id is among the exporter's active-event names |
| `Extension.Dispatch` | src/extension.ts:43-49 | function, no contract: both `forEach` loops, exporter-major; `DispatchMembers`, `DispatchAppend` and `EmptyListNoListeners` state its properties, and `Activate` is proved equal to it |
| `Extension.DispatchMembers` | src/extension.ts:43-49 | a listener (exporter, producer) is started exactly when the exporter is resolved, the producer is in the collection, and its id is among that exporter's active-event names |
| `Extension.DispatchAppend` | src/extension.ts:43-49 | exporter-major order: the listeners for a concatenation of exporters are those of the first part followed by those of the second |
| `Extension.ListenersOfAppend` | src/extension.ts:44-48 | producer-minor order: one exporter's listeners follow the order of the producer collection |
| `Extension.EmptyListNoListeners` | src/extension.ts:45 | an exporter whose list is empty or absent starts no listeners |
| `Extension.EmptyOverrideIsSilent` | src/extension.ts:16-21 | with a non-empty global list, an exporter that brought an explicit empty list is kept unchanged and gets no listener |
| `Extension.Activate` | src/extension.ts:13-49 | returns the ids of the resolved exporters and starts exactly the listeners `Dispatch` describes, in loop order; with `exporters` undefined, the ids are undefined and no listener is started |

## Left out

- Events.Lookup: ids are unbounded integers. In the source, `nextId` is a JavaScript number (a double), so once it reached 2^53, `nextId++` would stop increasing it and later unseen URIs would share an id, breaking the distinctness in `Events.Inv`. That would take 2^53 distinct documents in one process, so the model does not capture it.
- The socket connection and its message handler (src/extension.ts:50-64): network I/O and `JSON.parse`, with no effect on the modelled state.
- The consent and status information messages and the telemetry-change subscription (src/extension.ts:30-41): UI only. `exporterIds` is modelled; the text built from it is not.
- `sendEvent`, the exporters module, `producerCollection` and `producer.listen`: their code is not part of this model. A sent record is the handler's return value, the producer collection is a list of producer ids, and a started listener is a `Listener` value.
- Host facts (`Date.now()`, `sessionId`, `machineId`, `isTelemetryEnabled`) come in as the `Host` parameter. The document's text comes in as a parameter too.
- `Events.HandleDocumentOpen`: the open status text also shows the first line of the document (`split("\n")[0]`), which the model leaves out. `Status` records only the id and the file name for an open.
- `Events.Envelope`: `documentChanges` holds the change list itself instead of its `JSON.stringify` text. The serialization format is not modelled.
- `Events.CategoryEnabled`: the configuration value under a category name is read as a boolean. The truthiness of other JSON values stored there is not modelled.
- `Extension.ResolveExporters`: in the source, the `map` callback writes the global list into the configuration's exporter objects in place. The model returns new values, so aliasing with the configuration objects is not captured. Nothing in the code shown reads those objects again.
- `Extension.ArgsId`: an `args.id` explicitly set to `null` passes the source's `!== undefined` filter. The model has only present or absent ids.
- `null` entries in the exporter list, which make the source throw, are not modelled.
