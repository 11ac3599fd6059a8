# Warehouse gateway model

This project models the logic of the warehouse gateway and of the agent that
runs it, and proves what the two are relied on for.  Everything is proved for
all inputs, all runs and all interleavings unless "Left out" says otherwise.

Four connected pieces are modelled.

* **The catalog.**  `MemBackend` is the in-memory engine as a class over its two
  maps, proved call by call against one flat catalog keyed by (dataset, table)
  (`FlatCatalog`).  `CatalogRuns` says what a read returns after any history of
  calls and counts tables in and out.  `Linearizability` cuts every body into a
  few steps, wherever it has done a part of its writes or is walking a map, and
  interleaves any number of callers under the RWMutex; `LinearizabilityProof` explains each interleaving by one sequential
  run, `Progress` shows that every schedule without new calls comes to rest with
  all of them returned, and `ConcurrentReads` draws the clients' conclusions.  `Ordering` is the
  byte-wise order of names that makes listings canonical.
* **The wire.**  `Columns` translates column trees and durations, `Errors`
  collapses error chains to statuses, `WireServer` is the handlers and
  `WireSimulation` proves them indistinguishable from a catalog stated in wire
  terms alone, one request after another; `ConcurrentServer` proves the same of
  requests in any interleaving.  `Streams` is the two streaming calls.
* **The agent.**  `AgentRuntime` owns the container and the token over the
  lifecycle, `AgentSettings` resolves settings and builds the container's
  environment, `GatewayConfig` is the gateway reading it, `Readiness` the polling
  loop between them, `Text` the trimming and parsing they share.
* **The gates.**  `Deployment` is what a deployment request must pass, `Manifest`
  prints the container's environment list and parses it back, `DeployedGateway`
  carries that on to what the deployed gateway resolves, `ReleaseGate` searches
  the release workflow's job graph.

Imperative code is modelled as classes and methods with loops, and proved equal
to specification functions; the theorems are about those functions.  Go maps are
walked in an arbitrary order throughout: a loop over one takes any remaining key.

## Where the code does something other than expected

The model follows the code.  Each of these is a lemma with the exact condition,
or with an input that shows it.

* `Init` called again while a container is held replaces the reference.  Every
  environment bears the same name (`runtime.go:170`), and which containers made
  before it are removed or taken over when a new one is made is the container
  library's doing, which is not part of this model: any set of them may be.  A
  container is out of reach of every `Destroy` exactly when an environment was
  made beside it and none made since did away with it (`LostWhenReplaced`,
  `OwnedUnlessReplaced`); `SecondInitLosesContainer` is such a history, and
  `OwnedWhenNamesClear` says that `Init` may be repeated freely where each
  environment does away with the one before.
* An `Init` that fails over a held container can leave the agent probing with a
  token that container does not know (`FailedInitStrands`).  `ProbeTokenOverRuns`
  says in which histories that never happens, `ProbeTokenAtEnd` when it is so at
  the end of one.
* Consumer configurations are never taken back, so a second `Init` that resolves
  another token leaves consumers with different ones (`ConsumersOverRuns`,
  `TwoInitsTwoTokens`).
* A gateway that comes up late but well before the deadline can be reported as not
  ready, because an attempt that just missed it holds up the next one.
  `LateGatewayIsFound` gives the exact bound: up after one second and taking three
  over an answer, it is sure to be found by waits of eight seconds and more, and
  by no shorter one (`SlowGatewayIsMissed`).
* A runtime value of nothing but white space hides a setting and is then trimmed
  to nothing, which leaves the choice to the gateway (`BlankIsLeftToGateway`).
* A stream error that a backend hands on without wrapping it reaches the client
  as an internal failure, although the stream made it an invalid argument
  (`BareStreamErrorIsInternal`).
* A reader's failure that merely wraps end-of-file ends a query as if all had
  been read (`NilForAnyEofInChain`).
* A query timeout beyond 9223372036854 milliseconds wraps around
  (`TimeoutIsExact`).
* List calls ignore the limit and the page token and return everything; the
  contract in `WireSimulation` says so.
* The environment list repeats a name exactly when a secret reference takes the
  name of a rendered literal, which `Deploy` rules out for SWH_ALLOW_ANONYMOUS
  only (`NoNameRepeats`, `LiteralCanBeNamedAgain`).

## Model

| member | source | states |
|---|---|---|
| `MemBackend.Backend.constructor` | internal/backend/mem/mem.go:44-50 | a new backend is coherent and shows the empty flat catalog |
| `MemBackend.Backend.ListDatasets` | internal/backend/mem/mem.go:79-88 | whatever order the map is walked in and however the unstable sort treats it, the answer is the one ascending enumeration of exactly the current datasets, and nothing changes |
| `MemBackend.Backend.ListTables` | internal/backend/mem/mem.go:90-103 | the same for the tables of one dataset, with NotFound for a missing one |
| `MemBackend.Backend.GetTable` | internal/backend/mem/mem.go:105-114 | answers as the flat catalog does, a missing dataset reading like a missing table |
| `MemBackend.Backend.CreateDataset` | internal/backend/mem/mem.go:116-130 | keeps the two maps in step; the flat catalog takes its one step and a refused call leaves it as it was |
| `MemBackend.Backend.DropDataset` | internal/backend/mem/mem.go:132-147 | both maps lose the dataset, so the flat catalog loses it with all its tables, or nothing is lost |
| `MemBackend.Backend.CreateTable` | internal/backend/mem/mem.go:149-179 | the insert never meets a nil inner map; the flat catalog gains that table with creation and modification times equal, or the call leaves it as it was |
| `MemBackend.Backend.DropTable` | internal/backend/mem/mem.go:181-192 | the flat catalog loses that table and no other |
| `MemBackend.AddDataset` | internal/backend/mem/mem.go:126-128 | storing a dataset under its own name with an empty inner map keeps the invariant and adds no table to the flat catalog |
| `MemBackend.RemoveDataset` | internal/backend/mem/mem.go:144-145 | deleting one key from each map keeps the invariant and removes exactly the tables filed under that dataset |
| `MemBackend.AddTable` | internal/backend/mem/mem.go:166-177 | a table filed under the reference in its own info keeps the invariant and is the one new flat entry |
| `MemBackend.RemoveTable` | internal/backend/mem/mem.go:190 | deleting from the inner map removes exactly one flat entry |
| `MemBackend.DatasetListing` | internal/backend/mem/mem.go:82-87 | any walk and any sort by name of it give the canonical listing: nothing lost, nothing twice |
| `MemBackend.TableListing` | internal/backend/mem/mem.go:96-102 | the same for one dataset's tables, resting on each being stored under its own name |
| `Ordering.AscendingIsUnique` | internal/backend/mem/mem.go:86 | two strictly ascending sequences of the same names are the same sequence |
| `Ordering.SortedListingIsCanonical` | internal/backend/mem/mem.go:79-103 | an unstable sort of items with distinct keys has one possible result, the enumeration of their keys |
| `Ordering.LessByFirstDifference` | internal/backend/mem/mem.go:86 | the order listings ascend in is the one of Go's strings: a proper prefix first, else the first difference decides |
| `FlatCatalog.StepKeepsSound` | internal/backend/mem/mem.go:116-192 | every call keeps each table inside an existing dataset and each entry under its own name |
| `CatalogRuns.StepOnTable` | internal/backend/mem/mem.go:132-192 | what one call does to one table: an effective create makes it anew where there was none, an effective removal takes it, every other call leaves it and its schema alone |
| `CatalogRuns.GetTableReadsLiveCreate` | internal/backend/mem/mem.go:105-192 | after any history GetTable succeeds if and only if there was an effective create of that table with no later effective drop of it or its dataset, and answers with that create's schema |
| `CatalogRuns.ListTablesReadsLiveCreates` | internal/backend/mem/mem.go:90-192 | after any history a listing answers with exactly the tables that have such a create, each as that create made it, and where it answers NotFound no table of that dataset has one |
| `CatalogRuns.DroppedStaysDropped` | internal/backend/mem/mem.go:132-192 | once dropped, alone or by cascade, a table is not found whatever follows, datasets made again under the same name included, until it is itself created again |
| `CatalogRuns.TablesAreConserved` | internal/backend/mem/mem.go:132-192 | over every history the tables stored number the effective creates less the effective drops less those cascaded away; a drop without cascade takes none |
| `LinearizabilityProof.BodyStep` | internal/backend/mem/mem.go:79-192 | a body on its way keeps to it, writes only if it may, never panics, and finishes with the flat catalog's own next state and answer |
| `LinearizabilityProof.LockingKeepsMem` | internal/backend/mem/mem.go:80-81 | taking or releasing the lock keeps writers alone, readers among readers, and every running body on its way |
| `LinearizabilityProof.Linearizable` | internal/backend/mem/mem.go:34-192 | for every interleaving of any number of callers there is one order of the calls, respecting real time, in which the flat catalog gives each the answer it got; the CTAS refusal outside the lock is included |
| `LinearizabilityProof.NoPanicNoRace` | internal/backend/mem/mem.go:34-41 | no interleaving writes to a nil map, and no body runs beside a writing one |
| `LinearizabilityProof.QuietMeansCoherent` | internal/backend/mem/mem.go:116-192 | whenever no writer holds the lock the two maps are in step |
| `LinearizabilityProof.SomeCallCanMove` | internal/backend/mem/mem.go:79-192 | while any call has not returned, some call can take a step: no deadlock |
| `Progress.StepDescends` | internal/backend/mem/mem.go:79-192 | every step of a caller already there leaves less to do, by a measure over callers waiting, bodies yet to begin and steps left, walks included |
| `Progress.EveryScheduleRests` | internal/backend/mem/mem.go:79-192 | no schedule, fair or not, goes on for ever without a new call |
| `Progress.RestMeansReturned` | internal/backend/mem/mem.go:79-192 | where nothing more can move every call has returned |
| `Progress.EveryCallCanReturn` | internal/backend/mem/mem.go:79-192 | from every reachable state some finite run returns every call, and begins none |
| `ConcurrentReads.ReadsSeeACreate` | internal/backend/mem/mem.go:105-192 | under any interleaving a schema that was read was made by a create of that very table, which did not begin only after the read had returned, and no drop of the table or its dataset ran its course between the two |
| `ConcurrentReads.ListingsSeeCreates` | internal/backend/mem/mem.go:90-192 | the same of every line of a listing |
| `ConcurrentReads.MissesSeeADrop` | internal/backend/mem/mem.go:90-192 | a read, of the table or of a listing, that misses a table a create had answered with before the read began is explained by a drop that did not return before that create began nor begin after the read had returned |
| `Errors.AsReadsFirstCoded` | internal/serr/serr.go:82-89 | the search through an error finds the first coded link of its unwrap chain, joins depth first, or nothing when there is none |
| `Errors.StatusDependsOnFirstCoded` | internal/server/errors.go:11-35 | the gRPC code is fixed by that first link alone, and is Internal without one |
| `Errors.OuterWrapWins` | internal/serr/serr.go:77-89 | an outermost Wrap decides the class whatever it wraps |
| `Errors.StatusRecoversCode` | internal/server/errors.go:15-34 | a client's reading of the status code, as the service contract names the classes, gives back the error's class, and only that code does |
| `Errors.NamesAgree` | internal/serr/serr.go:34-53 | a class and its status code bear the same name outside the three that gRPC names differently |
| `Errors.MessageTellsChain` | internal/serr/serr.go:63-68 | the message a client reads names every link of the error's chain, outermost first |
| `Errors.JoinTellsPartsInOrder` | internal/server/errors.go:34 | the text of a join is its parts' texts, line by line in their order |
| `Errors.EofSomewhereInChain` | internal/server/server.go:49 | an error counts as end of stream exactly when end-of-file is somewhere in its chain |
| `Columns.Invert` | internal/server/convert.go:42-48 | the loop over an unordered map builds a map that undoes it, defined on exactly its values |
| `Columns.InverseIsUnique` | internal/server/convert.go:42-48 | an injective table has one such inverse, so the order of the walk does not show |
| `Columns.ColumnTypesInvert` | internal/server/convert.go:23-48 | the inverse of the column types is the table the way in reads |
| `Columns.TranslateOut` | internal/server/convert.go:66-80 | the recursive loop keeps every field and the order of nested fields |
| `Columns.TranslateIn` | internal/server/convert.go:93-107 | the same on the way in |
| `Columns.TranslateAllOut` | internal/server/convert.go:82-91 | a list of columns is translated one by one, in order |
| `Columns.TranslateAllIn` | internal/server/convert.go:109-118 | the same on the way in |
| `Columns.OutKeepsColumn` | internal/server/convert.go:66-80 | the wire's tree agrees with the backend's in shape, order and every field, and each type has its own number |
| `Columns.InKeepsColumn` | internal/server/convert.go:93-107 | so does the backend's with the wire's, a type number it does not know reading as unknown |
| `Columns.OutThenInIsIdentity` | internal/server/convert.go:66-118 | out and in again gives the column back if and only if every type in the tree is declared |
| `Columns.InThenOutNormalizes` | internal/server/convert.go:66-118 | in and out again sends unspecified and unknown type numbers to UNKNOWN at every depth and changes nothing else |
| `Columns.Normalize` | internal/server/convert.go:50-62 | the result holds declared wire types only, and a tree that already does is left alone: normalizing twice is normalizing once |
| `Columns.TimeoutIsExact` | internal/server/convert.go:161-167 | the duration is the milliseconds asked for if and only if their magnitude is at most 9223372036854 |
| `Columns.Wrap64` | internal/server/convert.go:166 | otherwise it is the one 64-bit value congruent to it |
| `Columns.InstantsByMillisecond` | internal/server/convert.go:14-19 | an instant's number is its millisecond, before 1970 too, and an unset time reads as the first millisecond of 1970 |
| `Columns.ZeroTimeIsYearOne` | internal/server/convert.go:15-17 | the unset time lies as many days before 1970 as 1969 years have |
| `WireServer.Server.ListDatasets` | internal/server/server.go:76-89 | conversion, backend call and response loop together answer as the flat catalog seen through the converters |
| `WireServer.Server.ListTables` | internal/server/server.go:91-105 | the same, an error becoming its status |
| `WireServer.Server.GetTable` | internal/server/server.go:107-113 | the same, an absent reference reading as empty names |
| `WireServer.Server.CreateDataset` | internal/server/server.go:115-126 | the same, with the backend moved by that one call |
| `WireServer.Server.DropDataset` | internal/server/server.go:128-136 | the same |
| `WireServer.Server.CreateTable` | internal/server/server.go:138-150 | the same, columns translated in and out |
| `WireServer.Server.DropTable` | internal/server/server.go:152-159 | the same |
| `WireServer.SchemaIsTold` | internal/server/convert.go:189-207 | a client reads a schema field by field as it is: reference, kind, sizes, instants by their millisecond, columns, partitioning, clustering |
| `WireServer.DatasetIsTold` | internal/server/convert.go:211-218 | and a dataset likewise |
| `WireSimulation.CreateGoesByItsName` | internal/server/server.go:138-150 | a create makes exactly the table its request names, in the dataset it names, tells it under that name, and is refused only for a missing dataset or a table that is there |
| `WireSimulation.GetGoesByItsName` | internal/server/server.go:107-113 | a read finds a table if and only if the one its request names is there |
| `WireSimulation.DropGoesByItsName` | internal/server/server.go:152-159 | a drop takes the table its request names and no other |
| `WireSimulation.NoNameIsEmptyName` | internal/server/convert.go:122-124 | a request without a reference is served as one for the table with empty names |
| `WireSimulation.StepSimulates` | internal/server/server.go:76-159 | one request, served by conversion, backend and status mapping, gives the answer and the next state of a catalog stated in wire messages, codes and texts alone |
| `WireSimulation.ServerMeetsContract` | internal/server/server.go:76-159 | over every run of catalog requests the responses and status codes are exactly that catalog's, and the backend still looks like it at the end |
| `WireSimulation.ClientsSeeDeclaredTypes` | internal/server/convert.go:57-118 | whatever numbers clients send, no schema ever answered holds an unspecified or undeclared type at any depth |
| `ConcurrentServer.LinearizableRpcs` | internal/server/server.go:76-159 | for every interleaving of any number of catalog requests, handlers and backend bodies there is one order of the answered requests, respecting the real time clients saw, in which the wire contract gives each the response it got |
| `ConcurrentServer.SomeRpcCanMove` | internal/server/server.go:76-159 | while any request has no response, its handler or the backend can take a step |
| `ConcurrentServer.AnyRequestCanBeSent` | internal/server/server.go:76-159 | the model shuts out no request: a new one of any kind can be sent at any time |
| `ConcurrentServer.ToldIsServed` | internal/server/server.go:76-159 | a legal order of backend calls, told as requests and responses, is a run of the server |
| `Streams.JobStatesKeepOrder` | internal/server/convert.go:132-143 | the five job states stay distinct and in order, any other reads as unspecified |
| `Streams.JobIsTold` | internal/server/convert.go:140-157 | a client reads a job's own numbers under their own names, each instant by its millisecond |
| `Streams.HeaderTellsResult` | internal/server/server.go:36-40 | the header holds the result's job, its columns one for one and its Arrow schema |
| `Streams.Query` | internal/server/server.go:28-59 | for every reader and every send failure the frames are the header and a prefix of the batches in order; nil is returned exactly when all there was to send was sent and the reader came to its end; the reader is closed once, and never read after |
| `Streams.BatchesAndEnding` | internal/server/server.go:47-58 | the batches sent are the reader's entries up to its first failure, and that failure decides the outcome |
| `Streams.NilForAnyEofInChain` | internal/server/server.go:48-54 | after a full stream the call succeeds if and only if end-of-file is somewhere in the chain of what ended it |
| `Streams.FailureIsTold` | internal/server/server.go:52-54 | any other end of a reader becomes a status whose code tells the failure's class and whose message is its text |
| `Streams.StreamBatchReader.Next` | internal/server/server.go:239-252 | each call takes one message and gives its batch, the bare end of stream for an error with that in its chain, any other receive error untouched, or an invalid argument for what is no batch |
| `Streams.ReadsAreMessages` | internal/server/server.go:239-252 | the i-th read is a batch if and only if the i-th message is that batch, and otherwise the failure that message stands for |
| `Streams.InsertRows` | internal/server/server.go:199-218 | for every backend that decides from its reads whether to read on, past failures too, what it reads is what follows the leading header, message by message; its answer becomes the response or a status, and a failure to send the response is returned as it is |
| `Streams.ReadsFollowBatches` | internal/server/server.go:239-252 | however often the backend reads, it gets exactly the batches after the header, in order, up to the first message that is none, and then the failure that message stands for, or the end of stream when the client sent no more |
| `Streams.PipeThrough` | internal/server/server.go:198-252 | frames of a query turned into messages of an insert deliver the very batches the query's reader produced, as many as the query's stream took before it was cut short, then end of stream for as long as the backend asks |
| `Streams.BareStreamErrorIsInternal` | internal/server/server.go:209-212 | handed on bare the stream's own error becomes Internal, wrapped it keeps its class |
| `Readiness.ProbeTellsCasesApart` | runtime.go:308-323 | an attempt reads as ready only if health was SERVING and Capabilities accepted, and as final only on an Unauthenticated answer; no failure has an empty text |
| `Readiness.Attempted` | runtime.go:283-285 | an attempt takes neither more than its own timeout nor more than is left of the budget |
| `Readiness.AttemptSeesTheGateway` | runtime.go:308-323 | an attempt sees ready, or a rejection, if and only if the gateway answers so within the time the attempt has; else its text is that of the first call that failed or did not fit |
| `Readiness.WaitForReady` | runtime.go:252-301 | the loop ends, by the ticks left before the deadline, on every gateway, and its attempts and verdict form a run |
| `Readiness.AttemptsArePaced` | runtime.go:273-297 | the i-th retry comes no earlier than the i-th tick: the one-slot ticker cannot bunch attempts |
| `Readiness.AttemptsAreBounded` | runtime.go:41-48 | at most 60 attempts, all begun before the deadline, and the wait ends by it |
| `Readiness.SixtyAttemptsAreMade` | runtime.go:41-48 | the bound is met: a gateway that is never up and says so at once is asked sixty times |
| `Readiness.RetriesComeSoon` | runtime.go:283-296 | the wait after an attempt ends within one probe timeout of the attempt's start |
| `Readiness.SomeAttemptComesSoon` | runtime.go:273-297 | when any attempt begins at or after some moment, the first one does by a bound that depends on how long the wait has lasted by then |
| `Readiness.UpInTimeIsFound` | runtime.go:252-301 | a gateway that accepts whoever asks from some moment until that bound is never reported as not ready, if its answer still fits before the deadline |
| `Readiness.RunExists` | runtime.go:252-301 | the description of a run leaves no gateway out |
| `Readiness.NotInTimeIsMissed` | runtime.go:252-301 | otherwise there is a gateway that accepts everyone from that moment on and a wait on it that ends as not ready |
| `Readiness.LateGatewayIsFound` | runtime.go:252-301 | a gateway that comes up at some moment and takes some time over an answer is sure to be found if and only if that time is within a probe timeout and still fits between the latest first attempt and the deadline |
| `Readiness.SlowGatewayIsMissed` | runtime.go:283-299 | up after one second and taking three, it is sure to be found exactly by waits of eight seconds and more |
| `Readiness.VerdictIsLastSeen` | runtime.go:284-300 | nil means that the last attempt itself saw the gateway ready, and a rejected credential is the last thing ever probed |
| `Readiness.VerdictIsAnswered` | runtime.go:277-300 | ready means the gateway itself accepted when last asked, rejected that it refused the credential with that very status, not ready that it failed with that text; before that it did neither |
| `Readiness.Deadline` | runtime.go:271 | the wait ends with the budget or the caller's context, whichever is first |
| `GatewayConfig.LimitsAreMeant` | internal/config/config.go:32-91 | no resolved limit is negative, a byte limit is zero if and only if the variable is unset or written with zeros, and the kind is registered and has its database if it needs one |
| `GatewayConfig.BackendFaultsComeFirst` | internal/config/config.go:75-89 | a fault about the backend is reported whatever the token variables hold, and a fault about the token means a token alone would have been enough |
| `GatewayConfig.BackendIgnoresListener` | internal/config/config.go:33-84 | the backend's part does not depend on the listener's variables and never reports a token fault |
| `GatewayConfig.ListenerIsAuthenticatedOrOptedOut` | internal/config/config.go:93-109 | a resolved listener has no token if and only if anonymous access was asked for, and a token it enforces has no space at its ends |
| `GatewayConfig.FromEnvExactly` | internal/config/config.go:32-109 | an environment resolves if and only if its numbers are sound, its backend known and its callers settled, each said of the variables themselves |
| `GatewayConfig.BackendExactly` | internal/config/config.go:55-84 | and every field of the backend is its own variable's value |
| `GatewayConfig.FirstFaultIsReported` | internal/config/config.go:33-109 | the fault reported is one the environment has, each said of the variables themselves, and it has none that is looked for earlier |
| `Text.TrimSplits` | main.go:171-173 | trimming takes white space off both ends and nothing else |
| `Text.TrimIsIdentityOnTrimmed` | main.go:166-173 | a value is unchanged exactly when it has no space at its ends, so trimming at both boundaries agrees |
| `Text.ParsesToZero` | internal/config/config.go:121-131 | text denotes zero if and only if it is written with zeros |
| `Text.DecimalParses` | internal/config/config.go:126 | a number reads back from its decimal text, signed or not, if and only if 64 bits hold it |
| `Text.NumeralsOnly` | internal/config/config.go:126-129 | leading zeros do not count, and nothing but a sign and digits is a number |
| `Text.BooleansAreSpelled` | internal/config/config.go:136-146 | a truth value is a digit or its word, or the word's first letter, in the spellings Go takes, and nothing else |
| `AgentSettings.PickAll` | main.go:152-165 | the loop over the keys in any order writes each field its own runtime value, and an empty one replaces nothing |
| `AgentSettings.TrimAll` | main.go:171-173 | every field is trimmed, each from its own value |
| `AgentSettings.Resolve` | main.go:144-176 | both loops together give each field its runtime value or default, trimmed |
| `AgentSettings.RuntimeValueWins` | main.go:144-173 | each field takes the non-empty runtime value under its own key whatever its setting, and its own setting where there is none |
| `AgentSettings.EffectiveIsTrimmed` | main.go:166-173 | trimming again at the gateway changes no effective value |
| `AgentSettings.BlankIsLeftToGateway` | main.go:160-172 | a field ends up empty exactly when the value picked for it is blank, so a blank runtime value hides a setting |
| `AgentSettings.BuildEnv` | runtime.go:186-200 | the loop passes the listen address, the token and the non-empty settings |
| `AgentSettings.NothingElsePassed` | runtime.go:186-200 | the container is given six variables at most, and no empty setting |
| `AgentSettings.GatewayReadsWhatAgentPassed` | internal/config/config.go:32-91 | from that environment the gateway resolves the same token, backend, database, dataset and location, or reports a fault that is not about the token; exactly which is decided by the registry and the database |
| `AgentRuntime.Runtime.LoadConfiguration` | main.go:144-176 | assigns the effective configuration and nothing else |
| `AgentRuntime.Runtime.CreateConnectionConfiguration` | main.go:182-206 | the consumer is given the agent's token, which reloading the configuration leaves alone |
| `AgentRuntime.Runtime.Init` | runtime.go:89-142 | the whole call in the source's order, the environment owned before it is started, with roll back after a failed start and one configuration for each address |
| `AgentRuntime.InitEnds` | runtime.go:100-141 | how an Init ends is decided by the request and its configuration in the source's order, and what is refused early changes nothing but the loaded configuration |
| `AgentRuntime.InitThatMakes` | runtime.go:164-227 | an Init that makes an environment holds it unless it failed to start and was shut down again, and its container may be there exactly if it started, or was left behind and not removed |
| `AgentRuntime.ConfiguredTokenWins` | runtime.go:144-159 | a configured token is the one kept, whatever was generated; a generated one is used only where none is configured |
| `AgentRuntime.TokenReachesEveryone` | runtime.go:127-138 | that token is the one the container just started enforces, and the one each address's consumer is given with its address |
| `AgentRuntime.StepKeepsIds` | runtime.go:164-218 | what one call leaves out of reach is exactly what was so before, less what it does away with, and the held container if it makes an environment beside it |
| `AgentRuntime.LostWhenReplaced` | runtime.go:89-227 | over every history a container is out of reach if and only if some Init made an environment beside it and none made since has done away with it |
| `AgentRuntime.OwnedUnlessReplaced` | runtime.go:89-227 | over every history all containers that may exist are referenced if and only if each one an environment was made beside has been done away with since |
| `AgentRuntime.OwnedWhenInitsAlternate` | runtime.go:89-227 | in particular when no Init is repeated while an environment is held |
| `AgentRuntime.OwnedWhenNamesClear` | runtime.go:150-176 | and when every environment made under the shared name does away with the container of the one held, however Inits repeat |
| `AgentRuntime.SecondInitLosesContainer` | runtime.go:170-176 | two successful Inits lose the first container if the second start leaves it alone |
| `AgentRuntime.DestroyReleases` | runtime.go:207-218 | a successful Destroy leaves nothing, repeating it changes nothing, a failed one keeps the reference |
| `AgentRuntime.FailedInitIsRolledBack` | runtime.go:122-130 | an Init that fails from a clean state leaves it clean, or owns what it could not roll back |
| `AgentRuntime.TokenIsSendable` | runtime.go:154-159 | the token of a successful Init is never empty and has no space at its ends |
| `AgentRuntime.ConsumersAndGatewayAgree` | runtime.go:122-138 | after a successful Init every new consumer holds the token the gateway resolves from its container's environment, and the settings agree, omitted meaning the gateway's default |
| `AgentRuntime.StepKeepsConnections` | runtime.go:132-138 | a call adds one configuration for each address of a successful Init and takes none away |
| `AgentRuntime.ConsumersOverRuns` | runtime.go:89-142 | after any history all consumers hold one token, the current one say, if and only if every Init that served a consumer resolved that very token |
| `AgentRuntime.TwoInitsTwoTokens` | runtime.go:132-159 | two Inits that generate different tokens leave two consumers that differ |
| `AgentRuntime.StepKeepsProbeToken` | runtime.go:122-130 | a call keeps the agent's token equal to the one its held container enforces, if and only if it is not an Init that moved the token and then neither replaced nor removed that container |
| `AgentRuntime.FailedInitStrands` | runtime.go:122-125 | an Init that fails to generate a token over a running container is such a call |
| `AgentRuntime.ProbeTokenOverRuns` | runtime.go:252-262 | over every history, readiness is probed all along with the token the gateway asks for if and only if no Init moved the token and left the held container as it was |
| `AgentRuntime.ProbeTokenAtEnd` | runtime.go:122-187 | at the end of any history the held container is probed with its own token if and only if the last Init that got as far as a token came by the same one as the last that made an environment |
| `AgentRuntime.ProbeTokenWhenInitsAlternate` | runtime.go:252-262 | so it is when no Init finds an environment held |
| `Manifest.QuotingIsFaithful` | templates/deployment/kustomize/base/deployment.yaml.tmpl:49-64 | a value placed between the template's quotes reads back as itself if and only if it holds neither quote nor backslash |
| `Manifest.EntriesAsWritten` | templates/deployment/kustomize/base/deployment.yaml.tmpl:45-73 | the lines of a literal and of a secret reference, letter by letter |
| `Manifest.PrintedEnvParses` | templates/deployment/kustomize/base/deployment.yaml.tmpl:40-73 | the printed block parses back to exactly the variables meant, in order, secrets by key |
| `Manifest.NoNameRepeats` | templates/deployment/kustomize/base/deployment.yaml.tmpl:45-73 | no variable is named twice if and only if no secret reference takes the name of a rendered literal |
| `Deployment.Builder.AnyReserved` | builder.go:216-222 | finds a reserved key if and only if there is one |
| `Deployment.Builder.RejectAnonymous` | builder.go:216-248 | refuses exactly when a reserved key is anywhere in the references, the configurations or the environment manager, or the manager fails |
| `Deployment.Builder.Deploy` | builder.go:130-202 | refuses with the first of the obstacles in order, or renders the resolved parameters and all secret references |
| `Deployment.AcceptedExactly` | builder.go:130-248 | a request is accepted if and only if no key it brings by any way asks for anonymous access, its values are renderable, it has no credentials file and no literal token, and it names a secret for the token; said without the checks themselves |
| `Deployment.FirstObstacleIsReported` | builder.go:130-202 | the obstacle a refused request is told of is one it has, each said of the request itself, and it has none that is looked for earlier |
| `Deployment.RenderedValueIsSafe` | builder.go:44-50 | no admitted value can leave its quotes or its line |
| `Deployment.AcceptedDeploymentRoundTrips` | builder.go:130-209 | for every accepted request the rendered list parses back to the list meant, in its order; its members are exactly the template's own literals, the non-empty settings and the secret references, authenticated, each name once unless a reference takes a literal's |
| `Deployment.LiteralCanBeNamedAgain` | builder.go:199-209 | a request with a reference named SWH_LISTEN is accepted, and its rendered list names that variable twice |
| `DeployedGateway.VariableOfDeployment` | templates/deployment/kustomize/base/deployment.yaml.tmpl:40-84 | each variable of the deployed container is its secret's value if a reference bears its name, else the rendered value, else what the base environment brings |
| `DeployedGateway.DeployedGatewayResolves` | internal/config/config.go:32-91 | for every accepted request, whatever its secrets and the base environment hold, the gateway is never anonymous, enforces exactly the trimmed secret behind the token reference, starts exactly when its backend resolves and that secret is not blank, and serves as was rendered |
| `DeployedGateway.DeployedSettingsResolve` | internal/config/config.go:55-91 | where neither secrets nor base speak of what is served, it starts exactly when the kind is registered, has its database if it needs one and the secret is not blank, with each setting as the agent resolved it |
| `Deployment.IntendedIsAuthenticated` | builder.go:199-221 | anonymous access is off by one literal and nothing else, and the token comes of a secret, never of a literal |
| `ReleaseGate.NeedsOf` | sbom_test.go:427-439 | a job's needs, whether one name, a list or neither, as a list in order |
| `ReleaseGate.RunsAfterSearch` | sbom_test.go:442-457 | on every graph, loops and undeclared names included, the search ends and answers yes if and only if a non-empty chain of needs leads from the job to the earlier one |
| `ReleaseGate.NeedsDecide` | sbom_test.go:426-457 | a job that needs one name runs after it and all it runs after, one that needs a list after each name of it, any other after nothing |
| `ReleaseGate.StaysOnCourse` | sbom_test.go:445-454 | one turn of the search meets only names the job runs after, and loses none still to be looked at |
| `ReleaseGate.ClosedHoldsPaths` | sbom_test.go:445-456 | names closed under needing hold the end of every chain, so an exhausted search has seen all |
| `ReleaseGate.RunsAfterIsTransitive` | sbom_test.go:441-457 | jobs that each wait for the next order the first and the last |

## Left out

- The mem backend's constant refusals (Query, GetJob, CancelJob, Load, Unload, InsertRows, Native), its capabilities and the DuckDB skeleton: nothing to prove beyond reading them; streaming is modelled over an arbitrary reader instead.
- The handlers for jobs, load, unload, capabilities and native verbs, and the copied fields of queryOptsIn: single calls between conversions.
- The backend registry's registration and listing: only looking a kind up in a fixed map is used.
- gracefulStop, the interceptors and the comparison of tokens: library behaviour; of the token library only that a missing token or a token beside anonymous access is refused, that a generated token is 64 lowercase hex characters, and that a failed generation returns no token.
- Aliasing: column slices, label maps and table pointers that Go stores by reference are values here, so a caller that changes one after the call is not captured.
- Bodies are cut into a few steps, not into single reads: the two reads of a nested lookup are one step, which the lock makes unobservable.
- The RWMutex's preference for waiting writers and fairness: only mutual exclusion is modelled, which admits more interleavings; that every call returns is proved for schedules in which no new calls begin.
- MemBackend.Backend.CreateTable: the clock reading is a parameter, taken while the call runs.
- Names as text: strings are sequences of characters compared by code, and invalid UTF-8 is not captured.
- Integers of the wire messages are unbounded, but for the query timeout's product.
- Streams.Query: readers follow a finite script of any length and content, so a reader that never ends is not captured; nor is a stream that takes a frame again after refusing one, since the call stops at the first refusal.
- Streams.InsertRows: a backend that never stops reading is not captured.
- Error codes other than the eight declared ones, and errors whose own As or Is method overrides the search.
- Readiness.WaitForReady: the clock is ideal, calls honour their contexts, a call cut off reads as deadline exceeded even where the caller cancelled, and finding the address and building the client are assumed to succeed.
- time.ParseDuration: a parameter, any partial function.
- Kubernetes: the container's variables are taken to be envFrom's, overridden by the list, a later entry overriding an earlier; that a pod with a missing secret does not start is not captured.
- GetConfigurationValue of the framework: a map from keys to values; a key it does not hold is an error there and absent here.
- Docker: an environment that may fail to be made, to start or to shut down, may leave a container behind, and may do away with any of the containers made before it; how the container library decides that from name and fingerprint is not part of this model, and a shutdown is taken to touch its own environment's container only.
- AgentRuntime.Runtime.Init: network lookups are flags, and CreateConnectionConfiguration, which fails nowhere in its own code, does not fail.
- Manifest.PrintedEnvParses: covers the env list only, one-character escapes and plain scalars of letters, digits and . _ -, none of them starting with . or - (how YAML types an unquoted scalar is not captured); secret references are taken to be such scalars, and a service name to be of the characters a rendered value may have.
- Deployment.Builder.Deploy: ends where the framework's renderer is called; the published image, the service port and the environment manager's values are inputs.
- Image and SBOM commands, workflow text checks, the factory and agent README templates, Stop, Test's counters and logging.
