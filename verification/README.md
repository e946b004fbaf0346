# Read path of the event store

This project models the read path of an event store and proves what it promises. The read path has a consistent-hash
router, a concurrent fan-out/fan-in lookup engine in two variants, and the resolution of index entries to byte ranges
of stored objects.

- **New reader service** (`LookupModel`, `LookupProof`, `LookupTheorems`, `LookupMeaning`, `LookupService`, `Tallies`). `LookupMany` is
  a small-step transition system with one task per reference ID, one nested task per index entry, a 32-slot semaphore
  per reference, two levels of wait groups, shared counters and result slots written by index. A run is any list of
  enabled actions. External calls may fail, and their outcome may differ from call to call. The main results are that
  every complete run returns what a sequential program returns, with the same counters; that no run deadlocks and every
  complete run takes the same number of steps; and that concurrency stays within its bound.
- **Older query service** (`FanOut`, `FanOutProof`, `FanOutTheorems`, `FanOutOrder`, `StoredEvents`,
  `QueryText`, `Grouping`, `QueryEngine`,
  `ExecuteQuery`, `QueryConditions`). The spawn-side-semaphore loop is one generic transition system, with a mutex-guarded map or a
  buffered channel as its sink. The metadata lookup, the event fetch and the shard pings are its instances. The
  end-to-end result is that, over all schedules, map orders and arrival orders, a query returns a sorted rearrangement
  of what its files yield, and, exactly when no bucket name is nested in another, of the events that fetching each
  wanted entry alone would yield.
- **Consistent hash ring** (`HashRing`, `RingArcs`, `GoSort`). A class with the source's loops. The hash is any
  function from strings to [0, 2^64), and the unstable sort is any sorted permutation.
- **Pointers and byte ranges** (`Pointers`, `ByteRanges`, `GoText`). Splitting, signed 64-bit decimal parsing and the
  half-open to inclusive conversion, with the server's side of section 14.1.2 of RFC 9110.
- **Start-up** (`Config`, `ShardPool`, `Wiring`). `SHARD_URLS`, the `.env` file, the connection pool, and the
  guarantee that the ring only ever names shards of the pool.

`Sequences` holds the facts about bags that reorderings rest on.

Some promises fail in general, and the exact condition is proved for each, with an input that shows the failure:

- The two pointer parsers find the same object exactly on the unambiguous paths (`Pointers.ReadersAgreeExactly`). They
  differ on `s3://b/k`, on `/` and on `b|`.
- Grouped fetch agrees with per-entry fetch, and a whole query with its reference answer, exactly when no bucket name,
  followed by a slash, begins another (`QueryConditions.GroupedFetchExactly`, `QueryConditions.EndToEndExactly`). With
  the rows `a/b|k` and `a|b/k` and a client for bucket `a` only, an event that is there is not returned.
- An index entry whose range starts inside its object but ends before it starts, or starts below zero, takes the
  process down (`StoredEvents.CrashesAloneExactly`). A row for bytes 1 to 0 of an object of two bytes does.
- Repeated queries for one ref overwrite each other's entries. All complete runs leave the same map exactly when such
  queries find the same or the semaphore has a single slot, in which case the last query in request order wins
  (`QueryEngine.LookupIsUniqueExactly`, `FanOutOrder.OneSlotWritesInOrder`). With two slots and an entry that changes
  between two queries for it, either version may remain (`QueryConditions.RepeatedRefRaces`).
- A ref is put into a shard's query string as it is: it reads back exactly if it holds no `&`, and cut off before the
  first `&` otherwise (`QueryText.QueryPathReads`).
- Routing is independent of the unstable sort exactly when no two shards have colliding points
  (`RingArcs.DeterministicExactlyWithoutCollisions`). If everything hashes to 0, either of two shards may own the whole
  circle (`RingArcs.CollidingShards`).
- A semaphore of capacity zero blocks the older service for ever (`FanOutTheorems.ProgressExactly`).

Where the code and its comments differ, the code is followed. `parsePointer` is documented as receiving
`bucket/key` paths, but only `|` separates a bucket from a key there. The bucket it finds is used in messages only: a
ranged read always goes to the client's own bucket. A limited query of the older service keeps the first events to
arrive, not the earliest ones.

## Model

| member | source | states |
|---|---|---|
| LookupTheorems.EveryScheduleAnswersSequentially | internal/reader/service.go:95-207 | for every interleaving and every outcome of the external calls, a finished run gives the events of the sequential program (refs in request order, entries in index order, failures omitted) and its four counters |
| LookupTheorems.EveryRunFinishes | internal/reader/service.go:98-183 | a state without an enabled step is exactly a finished one; no run is longer than the steps there are at the start, and a finished run has taken exactly that many |
| LookupTheorems.ConcurrencyIsBounded | internal/reader/service.go:124-150 | in every reachable state each semaphore's occupancy is the number of entries between acquire and release, at most 32, so at most 32 reads are in flight per ref and 32 n for n refs |
| LookupTheorems.RunOk | internal/reader/service.go:98-183 | the invariant (slots, wait groups, semaphores, counters) holds after every run, and k steps use up exactly k of the steps there are |
| LookupTheorems.StepOk | internal/reader/service.go:98-183 | every step keeps that invariant |
| LookupTheorems.SomeActionEnabled | internal/reader/service.go:143-168 | unless the query is done some step is enabled, even when every slot is taken |
| LookupTheorems.RemainingSane | internal/reader/service.go:108-158 | in every state of the invariant the fetch count is at most the entry count |
| LookupProof.EntryStepKeepsSlots | internal/reader/service.go:127-166 | an entry task writes its own two slots and leaves every other entry's slots alone |
| LookupProof.MoveOk | internal/reader/service.go:133-166 | each step of an entry task keeps its locals and slots those of the sequential fetch and accounts for what it adds to semaphore, wait group and counters |
| LookupProof.RefStepOk | internal/reader/service.go:100-181 | each step of a ref task keeps its invariant, and the slot it publishes is the sequential answer for its ref |
| LookupProof.KeptIsSequential | internal/reader/service.go:170-180 | once all slots are settled, the collecting loop yields the events of fetching the entries one after another |
| LookupService.LookupMany | internal/reader/service.go:74-208 | an error exactly on the empty request; otherwise, under an arbitrary scheduler, the sequential answer, with events parsed = total events <= fetches <= entries found and one query per ref |
| LookupService.CollectKept | internal/reader/service.go:170-180 | the loop over the slots keeps, in order, the events without an error that have an ID or a ref |
| LookupService.GatherAll | internal/reader/service.go:185-192 | the final loop concatenates the results of the refs that did not fail, in request order |
| LookupService.Lookup | internal/reader/service.go:211-217 | the events of the one ref |
| LookupService.LookupOne | internal/reader/service.go:220-232 | the first event with the given ID, and None only if there is none |
| LookupService.DecodeEvent | internal/reader/service.go:276-316 | the copy-then-delete loop yields the event with the queried ref, the embedded time stamp if it parses, and the fields without the bookkeeping ones |
| LookupMeaning.ParseEventMeaning | internal/reader/service.go:276-316 | the event of a stored line, field by field: ID, category and type are the texts under their names or empty, the time is the embedded one if it parses, the data all fields but the three for bookkeeping |
| LookupMeaning.SeqEventsMeaning | internal/reader/service.go:127-180 | a ref's events are those of its entries in index order, each parsed from what a ranged read of its place brings in; fetches and bytes are those of these reads |
| LookupMeaning.SeqLookupMeaning | internal/reader/service.go:95-207 | the answer is the events of each ref's shard entries in request order, and each counter the sum over the refs |
| LookupService.SeqLookupCounts | internal/reader/service.go:194-207 | one query per ref, and events <= fetches <= entries for every request |
| LookupService.OnlyAnEmptyRefDropsEvents | internal/reader/service.go:176-178 | a successfully parsed event is dropped only when the queried ref is empty; every kept event bears the queried ref |
| LookupService.BuilderEntryReadsItsLine | internal/reader/service.go:136-165 | an entry printed as bucket, key, start, end is answered with the event parsed from exactly those bytes of that object |
| LookupService.NodeEntryReadsItsLine | internal/reader/service.go:257-268 | an entry of the form bucket and key with its range beside it is answered with the event parsed from exactly those bytes |
| FanOutTheorems.SendsNeverBlock | main.go:595-638 | in every reachable state of the loop, whoever is about to send finds room in an open channel |
| FanOutTheorems.ConcurrencyIsBounded | main.go:777-818 | at most cap tasks are between launch and release, at most one holds the mutex, and after the join both are free |
| FanOutTheorems.ProgressExactly | main.go:597-632 | no reachable state is stuck exactly when there is nothing to do or the semaphore's capacity is not zero |
| FanOutTheorems.EveryRunIsFinite | main.go:601-633 | no run is longer than a number fixed at the start, which every complete run reaches |
| FanOutTheorems.MapInvariant | main.go:624-628 | at every reachable state each map entry is the successful answer of a job for that key that has written it, and every job that has written is in the map |
| FanOutTheorems.EveryScheduleDelivers | main.go:595-638 | every complete run leaves all errors and all values in the channels, in some order, the byte total, and map entries for exactly the keys that have an answer |
| FanOutTheorems.Run | main.go:777-818 | the same for the loop run by an arbitrary scheduler, where it cannot deadlock |
| FanOutProof.StepOk | main.go:601-630 | every step keeps the loop's invariant and uses up one step |
| QueryText.QueryPathReads | main.go:662-668 | what a reader of the query string finds: the ref exactly if it holds no '&', then also each positive bound of the time range under its own name |
| QueryEngine.OnlyTheOwnerIsAsked | main.go:611-616 | of all the shards, a query depends only on the one that the hash of its ref picks |
| QueryEngine.QueryMetadata | main.go:584-652 | on every schedule the map holds exactly the refs for which some query found entries, each with what one of its queries found, and one error is recorded per failed query |
| FanOutOrder.MapIsFixedExactly | main.go:597-632 | for any jobs: all complete runs leave the same map exactly when jobs for the same key that yield anything agree, or the semaphore has at most one slot |
| FanOutOrder.OneSlotWritesInOrder | main.go:597-632 | with one slot every complete run leaves the answers written in the order of the jobs |
| FanOutOrder.AnyoneMayBeLast | main.go:597-632 | with more than one slot, any job with an answer has a complete run after which its answer is in the map |
| QueryEngine.LookupIsUniqueExactly | main.go:584-652 | all complete runs of a request's queries leave the same map exactly when queries for the same ref that find anything find the same, or the semaphore has at most one slot |
| QueryConditions.RepeatedRefRaces | main.go:597-632 | a ref requested twice, two slots: one complete run leaves what the first query found, another what the second found |
| QueryConditions.RepeatedRefInOrder | main.go:597-632 | the same request with one slot: every complete run leaves what the second query found |
| QueryEngine.FetchEvents | main.go:768-849 | the channel delivers the events of all files in some order, cut at the limit; a crash comes from a file that crashes |
| QueryEngine.Gather | main.go:826-834 | the draining loop returns the first limit events of those that arrive, or all of them |
| StoredEvents.FetchFile | main.go:851-961 | the range loop over one object gives an error, a crash or the passing events |
| StoredEvents.GroupIsElementwise | main.go:866-945 | reading the entries of one object together gives, in order, what reading each alone gives |
| StoredEvents.CrashesAloneExactly | main.go:912-923 | exactly which entries make the slice expression panic |
| StoredEvents.EntryEventsMeaning | main.go:912-944 | a well-formed entry yields the event its clipped bytes parse to, unless a given category or event type differs from the event's |
| StoredEvents.IndexableExactly | main.go:719-734 | the entries that can come out of a row are exactly those with a key and a non-empty bucket name without a separator |
| StoredEvents.UsableConcat | main.go:719-734 | rows are answered one by one: whatever precedes or follows a row does not matter to it, and the order is kept |
| StoredEvents.UsableOne | main.go:721-733 | a row with a bucket and a key gives exactly its entry, any other none |
| StoredEvents.ResolveRows | main.go:719-734 | rows whose path names no bucket or no key are skipped, the others kept in order |
| Grouping.GroupByPath | main.go:994-1001 | the map's keys are the paths, and each holds the entries of that path in order: nothing lost or repeated |
| Grouping.UnconfusableExactly | main.go:997 | entries that rows can yield, from given buckets, share a path only if they share an object exactly when no bucket is nested in another |
| Grouping.SamePathCases | main.go:997 | two entries with the same path lie in the same object or have nested bucket names |
| Sequences.GroupwiseIsElementwise | main.go:785-808 | working group by group, in any order of the groups, gives the same bag as working entry by entry |
| ExecuteQuery.Execute | main.go:467-578 | for semaphores of capacity at least one: a crash exactly when the file of some path crashes, else the events of all files in ascending order of time stamps, each matching the given filters, cut to the limit, with the metrics; and the reference answer if paths name objects |
| ExecuteQuery.EndToEnd | main.go:467-578 | if paths name objects, such a response is entry by entry: a crash exactly when some wanted entry crashes, else as a bag the reference answer without a limit, and min(limit, total) of it with one |
| ExecuteQuery.AscendingAndFiltered | main.go:545-547 | every possible answer is in ascending order of time stamps, matches the given filters and carries its metrics |
| ExecuteQuery.FileDataMeaning | main.go:866-893 | what counts as read for a path is the object that its entries point to, or nothing if it is unavailable |
| ExecuteQuery.CollectMetadata | main.go:506-510 | the entries of the map's refs, ref by ref, in some order of the map |
| ExecuteQuery.CollectedIsWanted | main.go:506-510 | as a bag these are the entries of each requested ref, once |
| ExecuteQuery.FilesAreEntries | main.go:785-845 | grouped fetch refines per-entry fetch |
| QueryConditions.DuplicateRefsChangeNothing | main.go:490-510 | order and repetition of the requested refs do not change the reference answer, if queries for the same ref find the same |
| Grouping.UnnestedBucketsSuffice | main.go:997 | entries of unnested buckets with the same path lie in the same object |
| QueryConditions.GroupedFetchExactly | main.go:866-945 | entries of one path with valid ranges read alike together and alone, for every index, store and request, exactly when no bucket is nested in another |
| QueryConditions.EndToEndExactly | main.go:467-578 | every query over entries of given buckets meets its reference answer exactly when no bucket is nested in another |
| QueryConditions.NestedBucketsLoseAnEvent | main.go:866-876 | two rows of different objects with one path, whose group yields nothing although one of them alone yields an event |
| QueryConditions.NestedQueryLoses | main.go:994-1001 | for any nested pair of buckets, every query over these two rows answers nothing although its reference answer has an event |
| QueryConditions.NestedQueryAnswers | main.go:467-578 | and that answer is a possible one |
| QueryConditions.BackwardRangeCrashes | main.go:912-923 | a row whose range ends before it starts, on which every query crashes |
| QueryConditions.OrdinaryQueriesAreExact | main.go:467-578 | slash-free buckets and ranges that do not end before they start: an answer, sorted by time, and as a bag exactly the reference answer, or the limit's share of it |
| HashRing.Ring.constructor | internal/ring/ring.go:32-42 | the points are an ascending arrangement of those of the listed shards, 150 per shard by default |
| HashRing.Ring.Insert | internal/ring/ring.go:62-70 | appends the shard's virtual nodes in order |
| HashRing.Ring.Sort | internal/ring/ring.go:72-76 | some ascending permutation |
| HashRing.Ring.Get | internal/ring/ring.go:45-60 | binary search with wrap-around gives the first point at or after the key's hash, else the first point; None for the panic on an empty ring |
| GoSort.Search | internal/ring/ring.go:53-55 | the index where the test turns true, for a monotone test the only one |
| HashRing.GetIsSimpleLookup | internal/ring/ring.go:45-60 | the answer belongs to a point with the least hash at or after the key's, or the least of all, among the points as inserted; there is one exactly for a non-empty ring |
| HashRing.OrderIndependence | internal/ring/ring.go:32-60 | without collisions routing depends on the set of shards only |
| HashRing.MinimalDisruption | internal/ring/ring.go:32-76 | adding a shard moves exactly the keys to which it has the strictly nearest point, and moves them to it; removing it moves only its own keys |
| RingArcs.DeterministicExactlyWithoutCollisions | internal/ring/ring.go:72-76 | all sorted arrangements route alike exactly when no two shards collide |
| RingArcs.CollidingShards | internal/ring/ring.go:72-76 | two shards and a constant hash: the ring may route everything to the one or everything to the other |
| HashRing.VnodeKeyReads | internal/ring/ring.go:64 | a virtual node's key names the shard before the '#' and the node after it |
| RingArcs.VnodeKeyInjective | internal/ring/ring.go:64 | different virtual nodes have different keys |
| RingArcs.InjectiveHashGivesStrictRing | internal/ring/ring.go:62-76 | distinct shards and an injective hash give a strictly ascending ring without collisions |
| RingArcs.ArcPartition | internal/ring/ring.go:52-59 | a hash is routed to a point exactly when it lies in the half-open arc that ends there, the first point also taking what is past the last |
| RingArcs.ArcCount | internal/ring/ring.go:52-59 | an arc's length is the number of hash values routed to its point |
| RingArcs.ArcsCoverTheCircle | internal/ring/ring.go:52-59 | the lengths of the arcs sum to 2^64 |
| Pointers.PointerRoundTrip | internal/reader/service.go:244-255 | parsing a printed pointer returns it, for all int64 offsets, exactly when bucket and key hold no separator and the bucket no leading slash |
| Pointers.ParsePrintParse | internal/reader/service.go:244-255 | for every accepted raw value, printing and parsing again changes nothing |
| Pointers.LeadingSlashesIgnored | internal/reader/service.go:245 | any number of leading slashes changes nothing |
| Pointers.RawForm | internal/reader/service.go:248-255 | three separators: the range is that of the text, which must be two int64 numbers |
| Pointers.BucketForm | internal/reader/service.go:262-265 | a bucket before the first separator: the key is all that follows, the range the one beside it, which must not be empty |
| Pointers.BareForm | internal/reader/service.go:266-271 | no bucket: behind leading slashes the whole text is the key |
| Pointers.PipeForm | main.go:746-751 | for the older parser the bucket ends at the first separator |
| Pointers.SchemeForm | main.go:753-759 | without one, it ends at the first slash after the scheme |
| Pointers.OtherForms | main.go:761 | anything else is rejected |
| Pointers.ReadersAgreeExactly | main.go:745-762 | over all paths and ranges, exactly when both parsers find an object, and the same one |
| Pointers.SchemeFormDisagrees | main.go:753-759 | the scheme form is bucket and key to the older parser and one long key to the new one |
| Pointers.EmptyKeyDisagrees | main.go:722 | paths without a key, which the older service skips, are located by the new one |
| GoText.ParseFormat | internal/reader/service.go:249-250 | printing an integer and parsing it as int64 is the identity on int64 and an error elsewhere |
| GoText.ParseIntMeaning | internal/reader/service.go:249-250 | digits are read as their decimal value within int64; a plus sign and leading zeros do not count |
| ByteRanges.RangeReadIsSlice | internal/s3store/client.go:55-71 | for 0 <= start < end the header selects the bytes from start up to end or the end of the object, and fails when start is past it |
| ByteRanges.RangeReadAgreesExactly | main.go:912-923 | over all int64 ranges, exactly when ranged reading and slicing the whole object give the same outcome |
| ByteRanges.RangeHeaderRoundTrip | internal/s3store/client.go:59 | the header parses as the inclusive range start to end - 1 |
| Config.ParseShardURLs | config/config.go:77-89 | the trimmed non-empty pieces, rejected exactly when all pieces are blank |
| Config.NonBlankConcat | config/config.go:79-84 | pieces are taken one by one and in their order |
| Config.NonBlankOne | config/config.go:80-83 | a piece gives its trimmed text, or nothing if it is blank |
| Config.PlainListParses | config/config.go:77-89 | plain addresses written between commas come back, each at its place |
| GoText.SplitMeaning | config/config.go:79 | the pieces hold no separator and, joined by it, spell the text |
| Config.Environment.LoadDotEnv | config/config.go:93-120 | the line loop applies the assignments in order; an unreadable file changes nothing |
| Config.LineAssigns | config/config.go:106-115 | blanks around key and value do not count and a value may be quoted |
| Config.CommentAssignsNothing | config/config.go:106-109 | a line whose first non-blank character is '#' changes nothing |
| Config.NoEqualsAssignsNothing | config/config.go:110-113 | nor does a line without '=' |
| Config.ExistingValuesWin | config/config.go:116-118 | a variable keeps its non-empty value, and otherwise takes the first non-empty value of the file |
| Config.FirstValueMeaning | config/config.go:105-118 | that value is given by a line before which no line gives a non-empty one |
| Config.SetExactly | config/config.go:105-118 | a variable is set afterwards exactly if it was before or some line assigns it |
| Config.LoadingTwiceIsLoadingOnce | config/config.go:93-120 | loading the file a second time changes nothing |
| ShardPool.Open | internal/shard/pool.go:26-44 | a pool with one client and one connection per address, or, if a dial fails, no pool and every connection opened so far closed exactly once |
| ShardPool.Pool.Close | internal/shard/pool.go:47-55 | every connection is closed once more |
| ShardPool.Pool.Len | internal/shard/pool.go:58-62 | the number of shards |
| ShardPool.Pool.ClientOf | internal/shard/pool.go:124-132 | the shard's client, or an error exactly if it is not in the pool |
| ShardPool.Pool.PingAll | internal/shard/pool.go:65-104 | on every schedule the errors name each failing shard once and no other |
| Wiring.Start | cmd/main.go:34-55 | there is a ring and a pool exactly if the configuration is accepted and every shard can be dialled; they have n >= 1 shards 0 to n - 1, the 150 n points of these shards, and a route to a shard of the pool for every hash |
| Wiring.WiredQueriesReachTheirShard | internal/shard/pool.go:108-115 | so a range query is never refused for want of a client |

## Left out

- xxhash: any function into [0, 2^64); that it has no collisions is a hypothesis where it is needed.
- gRPC, HTTP, S3 and JSON libraries, time parsing: functions of the world that may fail; a timeout is such a failure, and calls are taken to return.
- The time filters of the new service's range query: part of the outcome of the call.
- Escaping in URLs: a reader of a query string takes names and values as they are written.
- Logging, tracing, durations, metrics exporters, and the texts of error messages: no effect on answers.
- Wrap-around of the counters and of lengths: they are unbounded integers here.
- The ring's and the pool's read-write locks: both are filled before they are shared and only read afterwards.
- StoredEvents.FetchFile: called once per file before the schedule is run, because its outcome does not depend on the schedule; the steps around it are scheduled.
- LookupModel.RangeQuery: the route is a function of the world here, tied to the ring by Wiring.WiredQueriesReachTheirShard.
- A claim that a limited query returns the earliest events: the code cuts in order of arrival before it sorts, so it does not hold.
- The shard list, buckets and timeouts of the older service's configuration, its health endpoints and its connectivity test, which repeats PingAll.
- The modulo hash of the older service beyond its use to pick a shard.
