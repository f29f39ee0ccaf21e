# Tengen: a verified model of its deterministic core

Tengen moves security alerts from ingestion consumers through a router, a triage step and forwarders.
Most of it calls services. This project models the deterministic pieces underneath and proves what they
promise, over every input and every run:

- **Triage** (`TriageScore`, `Triage`, `TriageRuns`, `TriageSessions`). Events are grouped into incidents by
  actor identity and source type within a rolling 15-minute window, scored, and suppressed or let through.
  Folding the triage pass over any well-timed arrival sequence gives exactly the unique cut of every key's
  arrivals at gaps of more than 15 minutes; a gap of exactly 15 minutes stays together. In every reachable
  state at most one incident per key is live, even with an environment that closes, suppresses and rescores
  incidents. An incident that passes suppression keeps passing.
- **Delivery** (`RouteRegistry`, `Delivery`, `Router`, `RouterRuns`). A step machine over a broker in which any
  publish may fail and a consumer may crash between any two steps, with an exact ledger per message. What the
  imperative router and message handler do to the broker, in any sequence of arrivals, deliveries and handled
  messages, is proved to be a run of that machine.
- **Field discovery** (`Json`, `Flatten`, `DottedPath`, `Unflatten`, `FieldRegistry`, `Parser`, `Identifier`,
  `IdentifierWords`, `ModelUpdater`). Flattening of JSON, when it can be undone, the registry table as a reading of its call
  history, the split of leaves into consumed and unmapped, proposals, the scaffold, and promotion.
- **Metrics** (`Metrics`, `MetricsRecovery`). Counters, the `bucket:name` codec, and recovery after restarts.
- **Splunk client and forwarder** (`Splunk`). The buffer and retry machine.
- **n8n dispatch** (`DottedPath`, `RouteResolver`, `RouteFreshness`, `N8nClient`). The branching resolver
  against a first-live-candidate rule, its file cache, and the retry loop.

`Common` holds shared datatypes. `dafny verify dfyconfig.toml` checks everything.

Objects that update their fields (the registries, the metrics store, the Splunk client, the resolver, the
broker channel) are classes whose methods are proved against functions of the old state; the laws are lemmas
about those functions. Inputs the program gets from outside (clock readings, uuids, matcher answers, whether a
publish, a post, a save or a stat succeeds, JSON text, a parsed YAML document) are parameters.

## Where the code and what is written about it differ

The model follows the code.

- The score cap `max_severity × source_weight × 3.0 × 1.5` (`README.md:560`) can be exceeded, by half a hundredth
  through rounding. However ties break, only privileged, all-INFO incidents of at least 11 events from
  CrowdStrike, K8s, OpenShift, Firewall or Unknown can do so (`TriageScore.CapLaw`), and for each of them some
  rounding does (`TriageScore.CapExceedableExactly`): their caps lie halfway between two hundredths. Which of
  them do in the program depends on its doubles; under exact half-even rounding it is CrowdStrike alone, 3.38
  above 3.375 (`TriageScore.HalfEvenCapLaw`, `TriageScore.CapExceeded`). The bound 67.5 always holds.
- The dead-letter publish swallows its failure, so an unroutable alert can be acknowledged and gone
  (`Delivery.LossHappens`); this is the only way an alert is lost (`Delivery.OnlyUnroutableIsLost`).
- Flattening drops empty lists and empty objects without a trace, so no function rebuilds every payload from its
  flattened form (`Unflatten.NothingIsDetermined`). Among the payloads without lists, empty nested objects, dots
  in keys and empty top-level keys the flattened form determines the payload (`Unflatten.PlainIsDetermined`), and
  those are exactly the ones that `Unflatten` rebuilds (`Unflatten.RoundTrip`). Brackets in keys do no harm there.
- The registry's upsert takes an id from SQLite's sequence for every sighting, so a repeated sighting leaves a gap
  (`FieldRegistry.RepeatedSightingSkipsId`). Nothing proved about the registry relies on the ids being dense.
- A metric's label may be null, a number or a truth value. It is counted as such, saved under its printed form,
  and comes back as a text, so a restart is exact if and only if all saved labels are texts
  (`MetricsRecovery.RecoveryIsExact`). It is exact for texts if and only if the table has no row whose key is a bare
  bucket name without a colon (`MetricsRecovery.RecoveryNeedsNoBareRow`); the store itself never writes such a row.
- The Splunk client tries three times in batches of 50 by default, not five times in batches of 25
  (`README.md:737-738`). It empties its buffer before encoding, so a batch with one event that JSON cannot encode
  is dropped without a post (`Splunk.PoisonedBatchIsNeverPosted`). Every alert's `received_at` is a `datetime`
  (`tengen/models/alert.py:40`) and stays one in the dump the forwarder sends, so that is what happens to
  every batch made of consumed alerts (`Splunk.ForwardedAlertsAreNeverDelivered`).
- The resolver's docstring lists four levels; the code also answers with a webhook at `vendor.category` and at
  `vendor`. A load reads the file before its modification time, so an edit in between can leave old routes in
  use until the next edit (`RouteFreshness.RacingLoadGoesStale`).
- The n8n client sleeps `base^0, base^1, …` (1 s and 2 s by default), not 2, 4 and 8 s (`README.md:620`), and a 4xx
  answer always reports one attempt.
- Promotion leaves rows approved when the listing limit of 10,000 rows cuts them off
  (`ModelUpdater.StillApproved`).

## Model

| member | source | states |
|---|---|---|
| TriageScore.AppendLaw | tengen/tools/triage_tools.py:101-115 | appending an event never lowers an incident's score, and leaves it unchanged iff there are already 11 events, the event is no more severe than the worst and brings no first privileged actor |
| TriageScore.AppendShows | tengen/tools/triage_tools.py:101-115 | however both scores are rounded to hundredths, an event that changes a factor raises the score; one that does not leaves the raw score equal |
| TriageScore.PrivilegedBoost | tengen/tools/triage_tools.py:112-113 | of two incidents with equal length, source and worst severity, one with a privileged actor and one without, the raw scores are in the ratio 1.5 exactly, at any length |
| TriageScore.FactorGrowth | tengen/tools/triage_tools.py:109 | without a privileged actor the recurrence factor is 1 for one event, grows by exactly 0.2 with each further one up to 11, and is 3 from there on |
| TriageScore.UnprivilegedScore | tengen/tools/triage_tools.py:101-115 | the raw score of an unprivileged incident in closed form: worst severity times source weight times (n + 4) / 5, or times 3 from 11 events on |
| TriageScore.DocumentedTables | README.md:464-466 | the severity scores and source weights, read off the scores of single events |
| TriageScore.WorkedExample | tengen/tools/triage_tools.py:101-115 | one HIGH event from AWS scores 8.4, and 12.6 with a privileged actor |
| TriageScore.OrderIrrelevant | tengen/tools/triage_tools.py:101-115 | any reordering of a one-source incident has the same score |
| TriageScore.CapLaw | README.md:559-560 | for any rounding to a nearest hundredth, scores lie in (0, 67.5]; one above the documented cap is half a hundredth above it and belongs to a privileged all-INFO incident of at least 11 events from CrowdStrike, K8s, OpenShift, Firewall or Unknown; at the full factor the score is within half a hundredth of the cap |
| TriageScore.CapExceedableExactly | README.md:559-560 | some rounding to a nearest hundredth exceeds the cap iff the incident is one of those |
| TriageScore.ScoreRounds | tengen/tools/triage_tools.py:115 | the half-even score is one of those roundings |
| TriageScore.HalfEvenCapLaw | tengen/tools/triage_tools.py:101-115 | a fact of exact half-even rounding: the cap is exceeded iff such an incident is from CrowdStrike |
| TriageScore.CapExceeded | tengen/tools/triage_tools.py:101-115 | a concrete CrowdStrike incident scores 3.38 above its cap of 3.375 |
| TriageScore.MaxSeverityIsMax | tengen/tools/triage_tools.py:104 | the severity factor is attained by an event and bounds all of them |
| TriageScore.RoundMonotone | tengen/tools/triage_tools.py:115 | two-decimal half-even rounding is monotone |
| TriageScore.RoundSeparates | tengen/tools/triage_tools.py:115 | raw scores 0.02 apart stay apart after rounding |
| Triage.FirstHit | tengen/tools/triage_tools.py:53-66 | the scan stops at the first incident that matches, or whose naive timestamp raises; no earlier one does |
| Triage.CorrelateEvent | tengen/tools/triage_tools.py:50-93 | field by field: if the first incident at which the scan stops is in order, the result has its id, findings, score, suppressed flag, reason, time of creation and labels, its events plus the new one, status TRIAGING and the new stamp; if its timestamp is naive the call raises; if the scan stops nowhere, the result is open, unsuppressed, of score 0, with only the event, no findings or labels and the given id and times. The scan stops at incidents neither suppressed nor closed whose first event has the same identity and source and that were updated at most 900 seconds before |
| Triage.CheckSuppression | tengen/tools/triage_tools.py:118-144 | below the minimum (1.0 unless given) the verdict is the threshold; otherwise the first event with a known-good identity; otherwise all-INFO with at most two events; otherwise it passes |
| Triage.PassEffect | tengen/agents/triage.py:60-72 | correlate, score and write back, field by field: the first incident at which the scan stops is extended as above in its place and all others are unchanged, or one fresh incident is appended; either way its score is that of its events |
| TriageRuns.ReachableInv | tengen/tools/triage_tools.py:53-93 | in every reachable state, with edits by the environment, ids are distinct, incidents are homogeneous, at most one per key is live, and the incidents hold every arrived event exactly once |
| TriageRuns.ArrivalKeepsInv | tengen/tools/triage_tools.py:50-93 | one triage pass keeps that invariant |
| TriageRuns.EditKeepsInv | tengen/agents/triage.py:42-50 | closing, suppressing and rescoring keep it |
| TriageRuns.ReopeningBreaksUniqueness | tengen/tools/triage_tools.py:54-55 | reviving a closed incident, which is outside the model's environment, can make two live ones |
| TriageSessions.SessionsSound | tengen/tools/triage_tools.py:34 | the recursive sessionizer cuts a sequence exactly at the gaps longer than the window |
| TriageSessions.SessionsUnique | tengen/tools/triage_tools.py:34 | there is only one such cut |
| TriageSessions.WindowBoundary | tengen/tools/triage_tools.py:34-93 | two arrivals of one key end in one incident with both events if at most 15 minutes lie between them, and in two incidents otherwise |
| TriageSessions.StoreIsSessionized | tengen/tools/triage_tools.py:50-93 | after any well-timed run the incidents of each key hold, in order, exactly the events of the cut of that key's arrivals |
| TriageSessions.PassedStaysPassed | tengen/tools/triage_tools.py:101-144 | an incident that passes suppression at some point of a run is still there and still passes at the end |
| TriageSessions.PassingGrows | tengen/tools/triage_tools.py:118-144 | a homogeneous incident that passes still passes with more events and its new score |
| RouteRegistry.FirstMatch | tengen/routing/registry.py:45-56 | the first route whose matcher answers yes, raising ones skipped; no earlier one answers yes |
| RouteRegistry.RouteRegistry.Register | tengen/routing/registry.py:39-43 | a repeated name is refused and changes nothing, any other route goes to the end |
| RouteRegistry.RouteRegistry.Match | tengen/routing/registry.py:45-56 | the scan returns the first matching route, or none iff no route matches |
| RouteRegistry.LaterRoutesDoNotPreempt | tengen/routing/registry.py:45-56 | a route registered later never takes a payload from an earlier one |
| Delivery.RegistryRouting | tengen/routing/router.py:75-95 | the queue of an alert is that of the first registered route that answers yes to its payload; there is none iff no route does |
| Delivery.Conservation | tengen/routing/router.py:75-111 | for every message and run: accepted copies plus those duplicated by crashes equal ready, in hand, routed, dead-lettered as unroutable, dropped and lost ones; no copy is in another route's queue |
| Delivery.OnlyUnroutableIsLost | tengen/routing/router.py:97-111 | an alert is lost only if no route matches and its dead-letter publish failed at some step of the run |
| Delivery.RoutableIsDelivered | tengen/routing/router.py:75-95 | acked deliveries of a routable alert never outnumber the copies in its own route's queue, and equal them without crashes once nothing is unacked; no copy elsewhere; publish_failed dead letters never exceed failed deliveries |
| Delivery.LossHappens | tengen/routing/router.py:106-111 | a crash-free run in which an accepted unroutable alert leaves no copy anywhere |
| Delivery.StepBalances | tengen/queue/rabbitmq_consumer.py:62-81 | every step keeps the ledger law of every message |
| Router.Channel.Nack | tengen/queue/rabbitmq_consumer.py:70-81 | a nack drops the delivery or puts it back |
| Router.Router.PublishToDlq | tengen/routing/router.py:97-111 | a copy with its reason reaches the dead-letter queue, or nothing happens and nothing is raised |
| Router.Router.RouteAlert | tengen/routing/router.py:75-95 | if the route at k answers yes to the payload and no earlier one does, a successful publish adds the alert to that route's queue and nothing else, and a failed one raises and adds a publish_failed dead letter unless that fails too; if no route answers yes, nothing is routed or raised and the alert is dead-lettered as unroutable unless that fails |
| Router.Router.OnMessage | tengen/queue/rabbitmq_consumer.py:56-81 | the same for one delivery: malformed bodies are dropped, a failed publish puts the message back into the queue, anything else is acknowledged, and no other message is touched |
| Router.HandledIs | tengen/queue/rabbitmq_consumer.py:56-81 | the broker function by which the protocol proofs describe the handler has that effect, stated over the routes alone |
| Router.HandlerRefinesProtocol | tengen/queue/rabbitmq_consumer.py:62-81 | what the handler does to the broker for one delivery is what one or two enabled protocol steps do |
| RouterRuns.ActsAreARun | tengen/queue/rabbitmq_consumer.py:56-87 | any possible sequence of arrivals, deliveries, handled messages and returned deliveries, with any publish outcomes, is a protocol run of exactly the steps it consists of, ending with the same broker |
| Json.UpdateCollect | tengen/udm/mappings.py:78 | `out.update(d)` with a collected dictionary is the same as assigning its entries one by one |
| Json.UpdateLookup | tengen/udm/mappings.py:78 | after an update a path has the new entry if the update has the path, and else the old one |
| Json.CollectLastWins | tengen/udm/mappings.py:73-89 | a key assigned several times keeps the last value |
| Flatten.FlattenData | tengen/udm/mappings.py:68-89 | the recursive filling of `out` yields the collected assignments of the document's leaves |
| Flatten.FlattenIsExact | tengen/udm/mappings.py:68-89 | on every document, the keys are exactly the non-empty index-collapsed paths of scalar leaves, and every value is that of a leaf at its path |
| Flatten.FirstScalarWins | tengen/udm/mappings.py:80-86 | of the scalars directly in one list the first is stored |
| Flatten.LaterFieldWins | tengen/udm/mappings.py:74-77 | appending a field to an object: at paths its value has, its entries are stored; at all others those of the object before |
| Flatten.LaterItemWins | tengen/udm/mappings.py:78-82 | appending an object or list to a list: at paths it has, its entries are stored; at all others those of the list before |
| Flatten.ScalarItemFills | tengen/udm/mappings.py:83-85 | appending a scalar to a list adds its entry iff the list had no scalar yet, and changes no other |
| DottedPath.SplitDotted | tengen/udm/mappings.py:77 | joining dot-free keys with dots is undone by splitting, hence injective |
| Unflatten.RoundTrip | tengen/udm/mappings.py:68-89 | `Unflatten` rebuilds a payload from its flattened form iff it has no list, empty nested object, dotted key or empty top-level key |
| Unflatten.PlainIsDetermined | tengen/udm/mappings.py:68-89 | two such payloads with the same flattened form are equal |
| Unflatten.NothingIsDetermined | tengen/udm/mappings.py:80-86 | every payload has a different one, with named keys if it has, with the same flattened form, so no function rebuilds all payloads |
| FieldRegistry.FieldRegistry.Observe | tengen/udm/field_registry.py:102-139 | the upsert inserts a row for a new key under the id allocated for the sighting, or updates the one row of the key, whose id, type, status and first time stay |
| FieldRegistry.FieldRegistry.SetStatus | tengen/udm/field_registry.py:141-155 | changes the row with the id and reports whether there is one |
| FieldRegistry.FieldRegistry.SetSuggestedField | tengen/udm/field_registry.py:157-164 | changes the suggestion of the row with the id and reports whether there is one |
| FieldRegistry.FieldRegistry.Summary | tengen/udm/field_registry.py:202-227 | the total, the number of rows per status and per source, and the four named totals |
| FieldRegistry.TableReadsHistory | tengen/udm/field_registry.py:102-164 | under any interleaving of calls and any growing ids there is one row per sighted key, and every field of it is read off the history: id, type and time of the first sighting, number of sightings, last sample, status and notes set last on that id, suggestion set last or first non-empty |
| FieldRegistry.RowsInOrderOfDiscovery | tengen/udm/field_registry.py:102-139 | the rows stand in the order in which their keys were first sighted |
| FieldRegistry.SequentialIsAllocated | tengen/udm/field_registry.py:78-98 | a sequence that every sighting advances, inserting or not, allocates ids as that result needs |
| FieldRegistry.RepeatedSightingSkipsId | tengen/udm/field_registry.py:117-124 | after sightings of x, x and y, y has id 3 and a status set on id 2 reaches no row |
| FieldRegistry.HistoryHasDistinctIds | tengen/udm/field_registry.py:102-164 | after any history an id names one row |
| FieldRegistry.NamedStatusesCover | tengen/udm/field_registry.py:202-227 | the four named totals add up to the number of rows iff every stored status text is one of the four |
| FieldRegistry.FullListing | tengen/udm/field_registry.py:175-197 | a listing that is not cut short has every row, whatever the order of ties |
| FieldRegistry.CutOffRanksLower | tengen/udm/field_registry.py:175-197 | a row cut off by the limit was seen less often than every listed one, or as often and not later |
| FieldRegistry.SampleIsPrefix | tengen/udm/field_registry.py:60-65 | the sample is the text of the value or of its JSON form, whole up to 512 characters and else its first 512 |
| FieldRegistry.TypeNameTells | tengen/udm/field_registry.py:46-57 | each of the six type names is given to exactly its kind of value |
| FieldRegistry.TallyCounts | tengen/udm/field_registry.py:202-227 | the number tallied for a status is the cardinality of the set of positions whose rows have it |
| FieldRegistry.TallySourceCounts | tengen/udm/field_registry.py:202-227 | the same for a source |
| Parser.UDMParser.DiscoverUnmapped | tengen/udm/parser.py:64-81 | the loop lists the unconsumed flattened entries in order |
| Parser.UDMParser.Parse | tengen/udm/parser.py:83-120 | sets `additional` iff something is unmapped, and records every observation iff asked to |
| Parser.LeavesAreSplit | tengen/udm/parser.py:64-81 | flattened paths are the disjoint union of consumed and unmapped ones, each unmapped one once and with its flattened value |
| Parser.RecordingCountsOnce | tengen/udm/parser.py:108-118 | recording raises the count of each observed row by one and leaves all others as they are |
| Parser.ParseCountsUnmapped | tengen/udm/parser.py:83-120 | after a recorded parse exactly the rows of this source's unmapped paths were counted, once each |
| Parser.ParseWritesUnmapped | tengen/udm/parser.py:83-118 | after a recorded parse the row of every unmapped path is what sighting that path with its own value, sample and suggestion makes of the row before, or of none |
| Parser.UnmappedSnoc | tengen/udm/parser.py:64-81 | one more flattened entry adds its own observation at the end, with its value and suggestion, iff its path is not consumed |
| Identifier.IdentifierIsWellFormed | tengen/udm/model_updater.py:73-83 | every text becomes an identifier of the form `[a-z][a-z0-9]*(_[a-z0-9]+)*` |
| Identifier.IdentifierKeepsCore | tengen/udm/model_updater.py:73-83 | its letters and digits are those of the text in order, lower-cased, but for the fallback and the prefix |
| Identifier.IdentifierIsIdempotent | tengen/udm/model_updater.py:73-83 | a second application changes nothing |
| Identifier.CleanedShape | tengen/udm/model_updater.py:73-83 | the last, underscore-collapsing pass never changes anything |
| Identifier.NameSpellsText | tengen/udm/model_updater.py:73-83 | without its underscores the identifier is the text's letters and digits |
| IdentifierWords.SplitsAreHumps | tengen/udm/model_updater.py:73-83 | the two substitution passes put an underscore exactly where one single-pass rule sees a word begin |
| IdentifierWords.IdentifierSpellsWords | tengen/udm/model_updater.py:73-83 | the six passes equal one rule: the words of the text, begun by a hump or after other characters, in lower case and joined by single underscores, with the fallback and the prefix |
| ModelUpdater.TargetModel | tengen/udm/model_updater.py:46-70 | the answer is always one of the known models |
| ModelUpdater.TargetModelIsFirstRule | tengen/udm/model_updater.py:46-70 | it is that of the first of eleven ordered prefix and infix rules that applies, and Noun if none does |
| ModelUpdater.PairFromSuggestion | tengen/udm/model_updater.py:86-91 | a row with a suggestion proposes the suggestion's last dotted segment, under its target model, whatever the path |
| ModelUpdater.PairFromPath | tengen/udm/model_updater.py:86-91 | without a suggestion it proposes the path's last segment without its list marks, on Noun |
| ModelUpdater.SelectedSnoc | tengen/udm/model_updater.py:124-134 | one more listed row is selected iff its status is among those asked for |
| ModelUpdater.ProposeFromRegistry | tengen/udm/model_updater.py:124-155 | one proposal per selected row, in order; new iff no model has the pair and no earlier proposal does |
| ModelUpdater.DedupIsExact | tengen/udm/model_updater.py:129-155 | for any row order, new proposals carry each pair once and together are the selected pairs no model has |
| ModelUpdater.RenderExtension | tengen/udm/model_updater.py:175-210 | one class per model with new proposals, in ascending order of their names, each declaring exactly that model's new proposals with the annotation of its type; the guard drops none |
| ModelUpdater.DeclarationTellsField | tengen/udm/model_updater.py:94-103 | equal declarations declare the same field, so a class text declares no field twice |
| ModelUpdater.AnnotationNamesType | tengen/udm/model_updater.py:94-103 | the annotation begins with the name of the value's type, and with str for unknown ones |
| ModelUpdater.EmitFields | tengen/udm/model_updater.py:197-208 | whatever the proposals, a class declares every new field of its model once |
| ModelUpdater.ScaffoldIsWellNamed | tengen/udm/model_updater.py:175-210 | every class extends a known model and every declared field is an identifier |
| ModelUpdater.CreateUpdateBranch | tengen/udm/model_updater.py:231-285 | created iff git succeeds and a new field exists; on every other path the registry is untouched |
| ModelUpdater.PromoteMarks | tengen/udm/model_updater.py:281-283 | exactly the rows of the proposals become promoted, with the branch noted |
| ModelUpdater.StillApproved | tengen/udm/model_updater.py:244-285 | after a promotion a row is approved iff it was and the listing cut it off; other rows are as before |
| ModelUpdater.PromotionIsOneShot | tengen/udm/model_updater.py:244-285 | with at most 10,000 rows no row stays approved and a second call selects nothing |
| Metrics.CodecRoundTrips | tengen/dashboard/metrics_store.py:97-121 | encoding and partitioning give back bucket and name for every name, with colons or empty |
| Metrics.DecodeEncodes | tengen/dashboard/metrics_store.py:97-107 | every key with a colon is the encoding of its parts; without one, the key is the bucket and the name is empty |
| Metrics.MetricsStore.constructor | tengen/dashboard/metrics_store.py:97-107 | a new process holds what loading the listed rows gives, unknown buckets skipped |
| Metrics.MetricsStore.Increment | tengen/dashboard/metrics_store.py:39-41 | one counter is its old value, or 0, plus the amount; every other counter is as before |
| Metrics.EventsHaveBuckets | tengen/dashboard/metrics_store.py:55-70 | an event is counted in a bucket iff the literal table of seven pairs has the pair |
| Metrics.MetricsStore.RecordEvent | tengen/dashboard/metrics_store.py:55-70 | by a literal table of events and buckets: the one counter of the event's bucket under its label, text or not, or under "unknown", grows by 1 and every other counter stays; a list or object as label raises and counts nothing; other events change nothing |
| Metrics.MetricsStore.SaveToDb | tengen/dashboard/metrics_store.py:109-121 | a successful save inserts or replaces exactly the rows of a snapshot of the counters, a failed one none |
| Metrics.MetricsStore.SnapshotRows | tengen/dashboard/metrics_store.py:109-112 | the loops over buckets and labels give a row for every counter and no other row; of labels that print alike one decides |
| MetricsRecovery.LoadIsStored | tengen/dashboard/metrics_store.py:97-107 | in whatever order rows are read, the counters are exactly the rows of known buckets, all under texts |
| MetricsRecovery.CountAllAdds | tengen/dashboard/metrics_store.py:39-41 | any sequence of counts adds to each counter the sum of the amounts of exactly the counts for its bucket and label |
| MetricsRecovery.MemoryIsExact | tengen/dashboard/metrics_store.py:39-121 | at any point of any run of counts, saves, failed saves and restarts, whatever the table holds, each counter is its value at the last save or load plus the sum of the amounts counted for it in the steps since |
| MetricsRecovery.RecoveryIsExact | tengen/dashboard/metrics_store.py:97-121 | in any run of counts, saves, failed saves and restarts, a restart brings back the counters of the last save or load iff all their labels are texts, and each value under its printed label unless two print alike; rows of unknown buckets never change |
| MetricsRecovery.RestartIsExact | tengen/dashboard/metrics_store.py:97-107 | the same for one restart from a table that stores the counters |
| MetricsRecovery.NeverDecreases | tengen/dashboard/metrics_store.py:39-41 | counting by non-negative amounts lowers no counter |
| MetricsRecovery.RecoveryNeedsNoBareRow | tengen/dashboard/metrics_store.py:97-139 | a count under a text, a save and a restart lose nothing, whatever the orders, iff the table has no bare bucket row |
| Splunk.PostingLaw | tengen/forwarder/splunk_client.py:74-92 | one to three posts, all but the deciding one transient; exhausted iff all three are; delivered iff the last is answered 200; sleeps add up to 2^k - 1 seconds for k failures, at most 7 |
| Splunk.DeliveredExactly | tengen/forwarder/splunk_client.py:65-92 | a batch is delivered iff all its events encode and one of three tries is answered 200 after only transient failures |
| Splunk.AnswersInWords | tengen/forwarder/splunk_client.py:74-92 | with literal codes and delays: 200 delivers; 429, any code from 500 and a failed request are retried after 1, 2 and 4 seconds; any other code rejects at once; any other exception ends it |
| Splunk.SplunkHECClient.constructor | tengen/forwarder/splunk_client.py:35-41 | a missing or zero batch size comes from the environment; the buffer starts empty |
| Splunk.SplunkHECClient.PostWithRetry | tengen/forwarder/splunk_client.py:74-92 | the loop with its doubling delay does what the posting function says |
| Splunk.SplunkHECClient.Send | tengen/forwarder/splunk_client.py:60-63 | appends, flushes at the batch size, and raises iff that flush raised |
| Splunk.SplunkHECClient.Flush | tengen/forwarder/splunk_client.py:65-72 | empties the buffer into one batch with its fate |
| Splunk.EnrichedAlertForwarder.Forward | tengen/forwarder/enriched_forwarder.py:32-49 | always acknowledged; the client saw the event iff one could be built |
| Splunk.EnvelopeHolds | tengen/forwarder/enriched_forwarder.py:32-44 | the event has exactly time, host, source, sourcetype, index and event, each once, with the message's data unchanged; it can be built iff the data is a mapping |
| Splunk.ValueAtFinds | tengen/forwarder/enriched_forwarder.py:41 | its source is the data's runbook, or "tengen" if the data has none |
| Splunk.DumpHolds | tengen/models/alert.py:30-53 | the dump has each of an alert's twelve fields once under its own name, the time of receipt as a datetime |
| Splunk.Conservation | tengen/forwarder/splunk_client.py:60-96 | after any calls, with any batch size and any answers, the events handed over are the batches' events in order followed by the buffer |
| Splunk.ThreeParts | tengen/forwarder/enriched_forwarder.py:32-49 | every event handed over, through the forwarder or not, is once in a delivered batch, a batch that raised, or the buffer |
| Splunk.BatchesAreBounded | tengen/forwarder/splunk_client.py:60-92 | between calls the buffer is below the batch size (or empty if that is below 1); each batch is non-empty, within the size, posted at most 3 times, sleeping at most 7 s, and not posted at all iff an event does not encode |
| Splunk.SendsFillBatches | tengen/forwarder/splunk_client.py:60-63 | without explicit flushes every batch is exactly full |
| Splunk.PoisonedBatchIsNeverPosted | tengen/forwarder/splunk_client.py:68-70 | one event that does not encode takes its whole batch with it, without a post |
| Splunk.EncodesExactly | tengen/forwarder/splunk_client.py:70 | the values that encode are exactly those that parsing some JSON document gives |
| Splunk.AlertEventNeverEncodes | tengen/forwarder/enriched_forwarder.py:34-44 | the event made from any alert's dump, which holds its time of receipt as a datetime, does not encode |
| Splunk.ForwardedAlertsAreNeverDelivered | tengen/forwarder/enriched_forwarder.py:32-49 | fed with alerts only, the forwarder delivers none of what it acknowledges |
| RouteResolver.Lookup | tengen/n8n/route_resolver.py:52-109 | the nested branching answers with the own webhook and description of the node that the first candidate path with one leads to through mappings without a webhook, or with no route iff no path leads to one |
| RouteResolver.RouteResolver.Load | tengen/n8n/route_resolver.py:111-116 | replaces the routes before reading the modification time, keeps the old time if it cannot be read, and raises exactly when the file, the time or the number of routes cannot be read |
| RouteResolver.RouteResolver.ReloadIfChanged | tengen/n8n/route_resolver.py:118-125 | keeps routes and time when the time cannot be read or is the same, and takes the file's routes when it differs |
| RouteResolver.RouteResolver.Resolve | tengen/n8n/route_resolver.py:39-109 | answers from the refreshed routes as Lookup does, or fails with the load; routes that are not a mapping raise |
| RouteResolver.RouteIsFirstLive | tengen/n8n/route_resolver.py:52-109 | stated over nodes and the six literal candidate paths: the answer has the webhook, the description or "", and the dotted path of the node that the first candidate with one leads to, and is no route iff none leads to one |
| RouteResolver.PathLeadsToWebhook | tengen/n8n/route_resolver.py:64-107 | for dot-free names, following the answer's own path from the root leads to the node whose webhook and description were returned |
| RouteResolver.TotalExactly | tengen/n8n/route_resolver.py:100-109 | every request is routed iff the root default is a webhook |
| RouteResolver.EditsElsewhereKeepRoute | tengen/n8n/route_resolver.py:52-109 | an edit that touches no candidate path of a request leaves its answer as it was |
| RouteFreshness.AtomicLoadsAreFresh | tengen/n8n/route_resolver.py:111-125 | with atomic loads and telling modification times, a request that can read the time uses the current file, after any run of edits and requests |
| RouteFreshness.FreshExactly | tengen/n8n/route_resolver.py:118-125 | all such requests use the current file iff versions with equal modification times have equal routes |
| RouteFreshness.RacingLoadGoesStale | tengen/n8n/route_resolver.py:111-116 | after an edit between the read and the time, any number of requests use the old routes, and are current iff the edit changed none |
| N8nClient.N8nClient.Execute | tengen/n8n/client.py:42-96 | the loop's outcome, its number of posts, and its sleeps base^0, base^1, … between posts only |
| N8nClient.FirstFinal | tengen/n8n/client.py:51-89 | every reply before the deciding one is transient and that one is not |
| N8nClient.ReturnedExactly | tengen/n8n/client.py:55-56 | a body is returned iff a decodable response below 400 comes within the allowed posts after transient failures only |
| N8nClient.ClientErrorStops | tengen/n8n/client.py:58-65 | the first 4xx answer after transient failures ends the loop without further posts, reporting its status and one attempt |
| N8nClient.ExhaustedExactly | tengen/n8n/client.py:91-96 | the posts run out iff every reply is transient, and then the last one is reported with all attempts |
| N8nClient.LastReplyIsReported | tengen/n8n/client.py:67-96 | with literal codes: if every allowed post meets a 5xx, a timeout or a failed connection, the last one is reported, its status with up to 500 characters of its text, or no status and its error; without posts, none |
| N8nClient.FirstOtherSettles | tengen/n8n/client.py:51-66 | the first reply of another kind ends the loop after its own post: below 400 its body or a decoding error, 4xx its status with one attempt, another exception is passed on |
| N8nClient.DelaysInOrder | tengen/n8n/client.py:86-89 | the first sleep is 1 second and each further one is base times the one before |
| N8nClient.MoreRetriesChangeNothing | tengen/n8n/client.py:51-96 | allowing more retries changes no outcome that was settled before |
| N8nClient.BackoffIsGeometric | tengen/n8n/client.py:86-89 | (base - 1) times the total sleep over n sleeps is base^n - 1, and the total is n for base 1 |

## Left out

- Triage.CorrelateEvent: takes parsed values; malformed JSON and validation errors are not modelled.
- TriageScore.HalfEvenCapLaw: is about exact rationals; the doubles of the program may break a rounding tie either way, which CapLaw and AppendShows allow for.
- TriageSessions.StoreIsSessionized: is about runs with clocks that never go backwards and fresh uuids, starting from an empty store.
- TriageRuns.ReachableInv: its environment never reopens a closed or suppressed incident and never edits timestamps or events.
- Delivery.Conservation: is about one alerts queue and one dead-letter queue that are different from all route queues; broker restarts, publisher confirms and message expiry are not modelled.
- Router.Router.OnMessage: metrics emission inside the handler, which never raises, is not modelled.
- FieldRegistry.FieldRegistry.Observe: the lock, SQLite's integer width and deletion of rows, which the code never does, are not modelled; the id is an input, larger than those of all rows.
- Parser.UDMParser.Parse: the normalizers, the consumed-path tables, source-type detection and the suggestion rules are parameters: long flat case lists.
- ModelUpdater.RenderExtension: gives the classes, their order and their field declarations; the header with its timestamp, the docstrings and the comment lines are not modelled.
- ModelUpdater.CreateUpdateBranch: the git commands and the file write are one outcome; which branch name is chosen by default is not modelled.
- Metrics.MetricsStore.RecordEvent: a label that is not a text is known by how it prints, so numbers and truth values that Python takes for equal (1, 1.0, true) are different labels here.
- Metrics.MetricsStore.SaveToDb: a save commits all rows or none and saves do not overlap; the flush thread and the lock are not modelled.
- MetricsRecovery.RecoveryIsExact: loads succeed, and the table has no bare bucket row to begin with (the exact condition is RecoveryNeedsNoBareRow).
- Splunk.Conservation: what the server does with a post it answered with an error is not modelled, so a retried batch may be indexed twice.
- RouteResolver.RouteResolver.Resolve: keys that are not strings and the YAML parser are not modelled.
- RouteFreshness.AtomicLoadsAreFresh: the file does not change during a load; RacingLoadGoesStale says what happens otherwise.
- N8nClient.N8nClient.Execute: the synchronous wrapper and closing the client are not modelled.
- The LLM agents, their prompts and tool wiring, enrichment, containment, runbooks, the dashboard and the command line.
- The Kafka, SQS, Pub/Sub and HTTP consumers, broker connection management, the metrics emitter and the dead-letter forwarder: thin wrappers around libraries.
- The per-source normalizers and the route matchers themselves: matchers are arbitrary functions that may raise.
