# Verified model of the Feedling backend's protocols

A Dafny model of six parts of the Feedling service, each with the guarantee it exists for:

- the **crash-consistent log spool** (`ops/`): frame demultiplexing, the (nanosecond, count) cursor,
  append-then-checkpoint, tail repair, sealing by atomic replacement, upload receipts;
- the **provider request transformations** (`backend/provider_client.py`): the Gemini tool-schema
  adapter, the compatibility fallback, cache markers, the retry loop and the probe observer;
- the **managed Genesis claim protocol** (`backend/genesis_managed_store.py`);
- **at-most-once on-chain publication** (`deploy/`): publisher, recovery and the evidence between them;
- **trace accounting** (`backend/debug_trace.py`): the bounded queue and the absolute counters;
- the **provider health automaton** (`backend/provider_health.py`).

Protocols are state machines: a state, the steps any thread, process, crash or peer may take, an
invariant every step keeps, and theorems about every run. Code that works in place is a class or a
method with a loop, proved against a function that the theorems are about. Values the outside world
chooses (replies, RPC answers, receipts, clock readings, what a crash leaves on disk) are unconstrained
inputs or steps.

`dafny verify dfyconfig.toml` checks the whole project.

## How the files fit together

| files | contents |
|---|---|
| `LogText`, `LogSpool`, `LogSpoolFiles`, `LogSpoolSafety`, `LogShipper` | newline records and tail repair; the crash machine; its per-hour and whole-run invariants; the follower loop |
| `FrameDemux`, `Receipts` | the Docker frame demultiplexer; upload receipts |
| `Json`, `JsonPointer`, `GeminiSchema`, `GeminiShape`, `GeminiReach`, `SchemaValidity`, `GeminiMeaning`, `GeminiKept`, `GeminiFallback`, `GeminiMisaimed` | JSON values and pointers; the adapter; the shape of its output; when references inline; what a schema accepts; that adaptation keeps or relaxes it, and where it does not |
| `CompatFallback`, `CompatChoice`, `Payloads`, `CacheMarkers`, `CacheSelection`, `RetryLoop`, `RetryLaws`, `ProbeObserver` | the other request transformations: the fallback loop and which field a reply takes; markers and which messages get them; the retry loop and when it goes on; the observer |
| `GenesisClaims` | the claim protocol |
| `Publisher`, `Publication`, `Recovery` | one publisher journal; all runs, publishers and recoveries together; one recovery attempt |
| `TraceQueue`, `TraceProgress`, `TraceCounters`, `ProviderHealth` | trace accounting and that every event settles; counters; health |

## Properties that turn out not to hold everywhere

- Without a system text, the Anthropic marker goes on the first markable message even if that is the
  live runtime block, against the comment on the marker functions. `CacheMarkers.RuntimeCanBeMarked` shows it for
  every reader and every text it takes for runtime context, and `CacheMarkers.AnthropicRuntimeMarkedIff` says
  exactly which requests are affected.
- When references cannot be inlined, the sanitizer alone can tighten a schema: it rewrites a property
  map as a map, so a reference that names that map as a schema may find a keyword-like property name
  gone. `GeminiMisaimed.MisaimedReferenceTightens` is such a document; `GeminiFallback.FallbackOnlyRelaxes`
  holds for every document none of whose references in use names a map of schemas. The condition is sufficient, not
  necessary: a map whose names are no keywords does no harm as a schema, and whether others do depends on
  the meaning of every keyword.
- A put the uploader gives up on may land after a newer one was confirmed and receipted
  (`Receipts.LateLandingHappens`). `Receipts.ReceiptMeansUploadedIff` says of every reachable state that receipts
  are and stay true exactly when no given-up put is still under way and the current ones are confirmed;
  until something has landed late, `Receipts.SafeUntilLandingIff` says the same in terms of what the uploader did.
- The cache fallback's stripping drops every cache point, the caller's included, so it gives the canonical
  messages back exactly when the caller sent none (`CacheMarkers.MarkingIsErasable`).
- The attempt limit counts two temperatures once, so some payload could reach the `else` of the fallback loop;
  `CompatFallback.ExhaustionIffUndercounted` says which. No request builder makes one
  (`Payloads.BuiltNeverExhausts`).
- The probe ledger rejects a valid observation without a POST (`ProbeObserver.UnpostedIsRefused`).
  `ProbeObserver.SnapshotAcceptedIff` gives the exact condition for arbitrary sequences; the trace hook is
  installed by a POST, so the program does not produce such a sequence.

## Model

| member | source | states |
|---|---|---|
| `LogText.PartFile.RepairTail` | ops/log_shipper_store.py:82-101 | the backward 4096-byte block scan leaves exactly the newline-terminated prefix of the file |
| `LogText.WholePrefixIsLongest` | ops/log_shipper_store.py:82-101 | every newline-terminated prefix of the file survives the repair, so the cut is the longest one |
| `LogText.RepairKeepsRecords` | ops/log_shipper_store.py:83-84 | repair removes only an incomplete tail: the whole records are the same before and after |
| `LogText.SplitPartitions` | ops/log_shipper_store.py:102-115 | records and rest, put back together, are the bytes that were split |
| `LogText.LastNewline` | ops/log_shipper_store.py:91-92 | the last newline of a block, or -1 if there is none |
| `LogSpool.HourHoldsStamp` | ops/log_shipper_store.py:102-115 | an entry's hour is the one its stamp lies in |
| `LogSpoolSafety.SkipsExactlyAcknowledged` | ops/log_shipper.py:223-231 | comparing stamps with the durable cursor and counting at the boundary skips exactly the acknowledged entries, also when many share a stamp |
| `LogSpoolSafety.AcknowledgedIsPrefix` | ops/log_shipper_store.py:63-79 | an entry is acknowledged (older stamp, or among the first `count` at the stamp) exactly when it is in the prefix the cursor stands for |
| `LogSpoolSafety.AdvanceMarks` | ops/log_shipper.py:242-246 | the moving (stamp, count) pair always denotes the prefix up to and including the entry just handled |
| `LogSpoolSafety.EveryStepKeeps` | ops/log_shipper_store.py:37-135 | every step of follower, sealer, failure and crash keeps the spool invariant |
| `LogSpoolSafety.NoAcknowledgedLineIsLost` | ops/log_shipper_store.py:3-6 | over every run with crashes between any two disk steps, whatever cursor and files survive, every line the cursor acknowledges is a whole record of its hour's archive followed by the open file, with multiplicity |
| `LogSpoolSafety.DuplicatesAreInterruptions` | ops/log_shipper.py:208-246 | with no interruption inside a seal, what is stored exceeds the acknowledged log by at most one copy per interrupted append or checkpoint and the record in flight |
| `LogShipper.Store.CursorFor` | ops/log_shipper_store.py:63-74 | the cursor of another container reads as zero |
| `LogShipper.Store.Checkpoint` | ops/log_shipper_store.py:76-79 | the cursor file is replaced as a whole |
| `LogShipper.Store.Append` | ops/log_shipper_store.py:102-115 | the hour gains exactly this record after its whole records, and no other hour changes |
| `LogShipper.Store.Seal` | ops/log_shipper_store.py:116-135 | the open file's whole records become one more archive member, and the stored records of every hour stay the same |
| `LogShipper.FollowOnce` | ops/log_shipper.py:203-246 | one session appends exactly the entries not yet acknowledged, once each and in order, and leaves a cursor that acknowledges them |
| `LogShipper.AppendAgrees` | ops/log_shipper_store.py:102-115 | run without a crash, the machine's append steps leave exactly the file the store's append writes, with no older image left |
| `LogShipper.CheckpointAgrees` | ops/log_shipper_store.py:76-79 | run without a crash, the machine's checkpoint leaves exactly that cursor file, with no older one left |
| `LogShipper.SealAgrees` | ops/log_shipper_store.py:116-135 | run without a crash, the machine's seal leaves exactly the archive and no open file, with no older image left |
| `LogShipper.TextsAreFiled` | ops/log_shipper.py:232-240 | the records a session appends to an hour are, as a multiset, the lines the machine owes to that hour |
| `FrameDemux.DecodeEncode` | ops/log_shipper.py:106-112 | decoding the wire form of any frames gives the frames back |
| `FrameDemux.Exact` | ops/log_shipper.py:96-105 | the next `size` bytes however the reads cut them, or the end of the stream |
| `FrameDemux.NextFrame` | ops/log_shipper.py:106-112 | one more frame of the decoded stream, or the reason it ended |
| `FrameDemux.Demux.Piece` | ops/log_shipper.py:115-126 | one piece extends, discards or completes its own stream's line and keeps the invariant |
| `FrameDemux.Demux.Feed` | ops/log_shipper.py:113-126 | a payload extends only its own stream, and what that stream yielded stays the split of what it carried |
| `FrameDemux.Lines` | ops/log_shipper.py:85-126 | unless the cycle is cut, exactly the frames of the byte stream were consumed; a cut consumes a prefix of them |
| `FrameDemux.DemuxRefinesSplitting` | ops/log_shipper.py:113-126 | each stream yields the newline split of its concatenated payload with over-long lines replaced by None, and no buffer exceeds MAX_LINE + 64 |
| `Receipts.RunKeeps` | ops/log_shipper_store.py:169-190 | a receipt always names an earlier content of the growing archive, older than any open snapshot, and so do the puts under way |
| `Receipts.ReceiptMeansUploaded` | ops/log_shipper_store.py:169-190 | over every interleaving of seals, confirmed, refused and ambiguous puts and restarts in which no put lands after its call was given up, a receipt equal to the archive's digest means the remote object is the archive |
| `Receipts.ReceiptMeansUploadedIff` | ops/log_shipper_store.py:169-190 | for every reachable state: in every continuation in which no further put is given up a receipt equal to the archive's digest means the remote object is the archive, exactly when no given-up put is under way and what is receipted or confirmed now is stored |
| `Receipts.SettledPutsSuffice` | ops/log_shipper.py:144-172 | a run in which no put is given up always has true receipts |
| `Receipts.SafeUntilLandingIff` | ops/log_shipper.py:156-166 | before anything has landed late, receipts are and stay true exactly when the uploader has given up on no put |
| `Receipts.LateLandingHappens` | ops/log_shipper.py:144-172 | a run in which that happens |
| `Receipts.UploadOne` | ops/log_shipper.py:144-172 | the put loop marks the receipt exactly when a put was confirmed, and then the remote object is the archive |
| `Receipts.ChangedIsPending` | ops/log_shipper_store.py:169-185 | whatever is receipted in any reachable state, a sealed hour that changes is pending again |
| `Receipts.UploadHappens` | ops/log_shipper.py:144-172 | an archive without its receipt can always be brought to be stored and receipted |
| `JsonPointer.ParseUndoesEscape` | backend/provider_client.py:2378-2394 | pointer decoding undoes the escaping of section 4 of RFC 6901 for every token list |
| `JsonPointer.UnquoteQuote` | backend/provider_client.py:2378 | percent decoding undoes percent encoding (section 6 of RFC 6901) |
| `JsonPointer.ResolveReachesTokens` | backend/provider_client.py:2373-2412 | the fragment form of a token list under the definitions resolves to what walking the tokens reaches |
| `JsonPointer.ResolvedIsDefinition` | backend/provider_client.py:2373-2412 | nothing else resolves: what does is a local reference that names an object, by two tokens or more from a definition map on |
| `JsonPointer.ElementIsReached` | backend/provider_client.py:2404-2408 | an array element is reached by its decimal number, and none beyond the end |
| `JsonPointer.DecodeToken` | backend/provider_client.py:2380-2394 | the character loop decodes one token, and fails exactly on a bad tilde escape |
| `JsonPointer.ResolveRef` | backend/provider_client.py:2373-2412 | the resolving loop returns the target schema, or fails for every unsupported reference |
| `GeminiReach.InlinesIff` | backend/provider_client.py:2431-2436 | references inline exactly when every one reached resolves to an object, none recurs on its own path, no path passes more than 64 and the unfolding meets at most 256 in all; the unfolding is described by the references a schema holds and what they lead to, the count by a function of its own |
| `GeminiReach.AdaptedIsFreeOrSanitized` | backend/provider_client.py:2552-2574 | for such a schema, and without asking whether inlining succeeded, no schema position of the adapted form holds a reference, a definition map or a dropped keyword; every other schema goes through the sanitizer as it is |
| `GeminiMeaning.InlineMeans` | backend/provider_client.py:2415-2505 | inlining preserves validity both ways up to the dropped keywords, with siblings conjoined through allOf |
| `GeminiMeaning.AdaptIsExact` | backend/provider_client.py:2552-2574 | the adapted schema accepts exactly what the source accepts once the dropped keywords are disregarded, for every meaning of the other keywords |
| `GeminiMeaning.AdaptOnlyRelaxes` | backend/provider_client.py:2460-2464 | every value valid under the source schema is valid under the adapted one |
| `GeminiKept.AdaptPreserves` | backend/provider_client.py:2415-2574 | where nothing that constrains is dropped at a schema position, at the root or behind a reference, validity is the same before and after; property names and data may look like keywords |
| `GeminiKept.DocumentPreserves` | backend/provider_client.py:2552-2574 | the same for a document and the references it resolves by itself |
| `GeminiFallback.WalkLeaves` | backend/provider_client.py:2508-2549 | a schema a reference finds in the sanitized document is what it found in the source, or the sanitized form of that |
| `GeminiFallback.FallbackOnlyRelaxes` | backend/provider_client.py:2570-2574 | root, cyclic, over-deep or external references: with every reference into the document, the whole of it and plain data included, meaning what it points to, the sanitized schema still accepts everything the source accepts, unless a reference in use names a map of schemas |
| `GeminiFallback.AdaptNeverTightens` | backend/provider_client.py:2552-2574 | both ways of the adapter together: no value the source accepts is refused on the wire |
| `GeminiFallback.LocalExtends` | backend/provider_client.py:2373-2412 | the definitions the adapter resolves are among the references into the document |
| `GeminiMisaimed.MisaimedReferenceTightens` | backend/provider_client.py:2532-2537 | a document that accepts a value while its adapted form refuses it, because a reference names a property map |
| `GeminiMisaimed.WordsExist` | backend/provider_client.py:2337-2364 | that document exists: the words it is built from are real keywords |
| `CompatChoice.ChooseIff` | backend/provider_client.py:3629-3653 | for every payload and reply the field that goes and its code are the ones of a table of grounds in rank order (region, a named cache field, a cache hint, reasoning, temperature, a schema hint), and nothing goes when no ground is given |
| `CompatChoice.NamedFieldGoes` | backend/provider_client.py:1564-1565 | a 400 or 422 that names a cache field of the payload takes exactly that field, whatever else the text mentions |
| `CompatChoice.EachRemovalIsCalledFor` | backend/provider_client.py:4362-4392 | for every sequence of replies, the i-th field removed and its code are what the i-th reply calls for, of the first payload minus the fields removed before |
| `CompatChoice.WalkEnds` | backend/provider_client.py:4362-4392 | the loop ends at the first reply that is no rejection or calls for nothing, and not before |
| `CompatFallback.DropIsMinus` | backend/provider_client.py:1482-1525 | removing a field, cache markers in content blocks included, changes exactly that field, key by key |
| `CompatFallback.UnmarkedCleans` | backend/provider_client.py:1482-1517 | for every list of blocks, marked or not: what is left are the blocks that are no cache point, in order, each the same on every key but `cache_control`, anything but an object untouched |
| `CompatFallback.UnmarkedKeepsContent` | backend/provider_client.py:1434-1463 | blocks without a marker are left alone, whatever they hold |
| `CompatFallback.PresentMinus` | backend/provider_client.py:1464-1479 | afterwards exactly the removed fields are absent |
| `CompatFallback.EachDecisionLowers` | backend/provider_client.py:3629-3653 | every decision lowers the number of removable fields by one |
| `CompatFallback.WalkIsMonotone` | backend/provider_client.py:4362-4392 | for every sequence of replies: no field is removed twice, every code names the field that went, and the final payload is the first minus exactly those fields |
| `CompatFallback.WalkKeepsContent` | backend/provider_client.py:4362-4392 | for every sequence of replies and every key: removed fields are absent, block lists are cleaned in that sense, and every other member, of messages and of the tool configuration too, is as it was |
| `CompatFallback.ToolsIntact` | backend/provider_client.py:4365-4367 | the tools are the same in the final payload |
| `CompatFallback.BedrockToolsIntact` | backend/provider_client.py:4362-4392 | Bedrock's tools inside the tool configuration stay in order, each but for its marker, and so do the members beside them |
| `CompatFallback.OtherKeysIntact` | backend/provider_client.py:4365-4367 | so is every key that is neither removable nor a holder of content blocks |
| `CompatFallback.ExhaustionIffUndercounted` | backend/provider_client.py:3656-3666 | some sequence of replies exhausts the attempts exactly when both temperatures are present and every counted reasoning field is removable |
| `CompatFallback.Attempts` | backend/provider_client.py:4362-4392 | the loop ends with the outcome, payload and codes of the walk through the replies, after as many posts as codes, and one more unless exhausted |
| `CompatFallback.PostWithFallbacks` | backend/provider_client.py:4362-4392 | at most the attempt limit of posts, and the `else` branch only for undercounted payloads |
| `Payloads.BuiltIsCounted` | backend/provider_client.py:3431-3510 | no request builder writes both temperatures, so none of their payloads is undercounted |
| `Payloads.BuiltNeverExhausts` | backend/provider_client.py:4391-4392 | for every built payload and every sequence of replies the `else` branch is unreachable |
| `CacheMarkers.CanonReadsTheSame` | backend/provider_client.py:1873-1901 | the canonical shape keeps a message's role and whether it is runtime context, a coverage notice or the profile |
| `CacheMarkers.SelectedIsSafe` | backend/provider_client.py:1989-2032 | at most `limit` messages are chosen, each once, and each is a system message or not the runtime block |
| `CacheMarkers.BoundariesAreSelected` | backend/provider_client.py:1980-1987 | the first system message and the two newest user boundaries keep their slots when the profiles leave room |
| `CacheSelection.BoundariesAreServed` | backend/provider_client.py:2009-2032 | for every list of messages and every limit: the first system message is chosen, profiles oldest first, a newest user boundary unless only those and a newer one took the slots; of the other advancing messages a chosen one is newer than every one left out, and none is left out while a slot is free |
| `CacheSelection.OnlyBoundariesAreServed` | backend/provider_client.py:1990-2003 | while any message has a rank, only the first system message and messages that are neither system, runtime context nor a coverage notice are chosen |
| `CacheSelection.SelectedServes` | backend/provider_client.py:2009-2032 | the ranking is served first come, first served, and without a system or advancing message the oldest that are not the runtime block are chosen |
| `CacheSelection.MarkingAt` | backend/provider_client.py:2033-2044 | a chosen message with a text has exactly one marker, on its last text block, and is otherwise canonical; every other message is canonical without a marker |
| `CacheMarkers.MarkBreakpoints` | backend/provider_client.py:1973-2046 | the selection and marking loops compute the specified marking for the clamped limit |
| `CacheMarkers.StripCanonIff` | backend/provider_client.py:1482-1517 | the cache fallback's stripping leaves canonical messages alone exactly when they carry no cache point |
| `CacheMarkers.MarkingIsErasable` | backend/provider_client.py:1973-2046 | at most `limit` markers; the cache fallback's stripping maps marked and canonical messages to the same, and gives the canonical ones back exactly when the caller sent no cache point |
| `CacheMarkers.RuntimeIsNeverMarked` | backend/provider_client.py:1938-1954 | a non-system runtime-context message carries no marker |
| `CacheMarkers.StrippedPrefixIsStable` | backend/provider_client.py:1876-1886 | appending messages never changes what the cache fallback's stripping leaves of the earlier ones |
| `CacheMarkers.MarkAnthropic` | backend/provider_client.py:2047-2077 | the loop marks the first markable message when there is no system text |
| `CacheSelection.SystemMarkIsLast` | backend/provider_client.py:2054-2068 | the parts of the system text go out in order, the one marker on the last |
| `CacheMarkers.AnthropicAtMostFour` | backend/provider_client.py:2047-2077 | the system parts and the messages together carry at most four markers, and the messages are erasable by the cache fallback |
| `CacheMarkers.AnthropicPrefixIsStable` | backend/provider_client.py:2047-2077 | appending messages keeps the stripped prefix on this wire, too, with and without a system text |
| `CacheMarkers.AnthropicRuntimeMarkedIff` | backend/provider_client.py:2069-2076 | a non-system runtime block is marked exactly when there is no system text and it is the first markable message |
| `CacheMarkers.RuntimeCanBeMarked` | backend/provider_client.py:2069-2076 | for every reader and every text it takes for runtime context, a request of that user message alone has its marker there |
| `CacheMarkers.BedrockAtMostFour` | backend/provider_client.py:4744-4759 | tools, system and messages carry at most four cache points, none on a runtime block, and the cache fallback's stripping gives the messages back |
| `CacheMarkers.BedrockIsErasable` | backend/provider_client.py:4649-4685 | whatever the messages carry, marking adds at most `limit` cache points and the cache fallback's stripping gives the same messages with and without them |
| `CacheMarkers.MarkBedrock` | backend/provider_client.py:4649-4685 | the choosing and appending loops compute the specified marking for the limit, negative ones read as zero |
| `CacheSelection.BedrockMarksNewest` | backend/provider_client.py:4669-4684 | for messages without cache points: each one comes out the same or the same with one cache point after its blocks; with two slots the two newest user messages have one; of the others one that has it is newer than every one that could and does not |
| `CacheSelection.BedrockFillsSlots` | backend/provider_client.py:4669-4684 | the cache points are as many as the slots or as the non-runtime messages with blocks, whichever is fewer |
| `RetryLoop.DelayBetween` | backend/provider_client.py:302-330 | the drawn delay lies between two thirds of its ceiling and the ceiling, at most 1.5 times the cap |
| `RetryLoop.DelayCovers` | backend/provider_client.py:316-330 | every delay in that window can be drawn |
| `RetryLoop.CeilingTriples` | backend/provider_client.py:302-313 | without Retry-After the ceiling starts at 1.5 times the base and triples up to 1.5 times the cap; a Retry-After raises it to 1.5 times that wait, within the same cap |
| `RetryLoop.ExtendTrace` | backend/provider_client.py:3842-3856 | the loop numbers the new entries on from the trace and returns exactly their ordinals |
| `RetryLoop.ChainOrdinals` | backend/provider_client.py:3842-3856 | trace ordinals are 1..n |
| `RetryLoop.MarkersCloseBlocks` | backend/provider_client.py:6715-6749 | every outer marker lists exactly the contiguous wires of its own attempt, back to the previous marker |
| `RetryLoop.AttemptIsLawful` | backend/provider_deadline.py:35-77 | one attempt: no call at or after the deadline, no sleep past it, and the loop goes on only after a call that was no config error and was not the last |
| `RetryLoop.RunIsLawful` | backend/provider_client.py:6551-6803 | over the whole run: the attempt bound, the deadline and the config-error rule, and a returned answer is that of the last call |
| `RetryLoop.RunIsTied` | backend/provider_client.py:6551-6803 | calls and traced wires are those of the turns, in order |
| `RetryLaws.AttemptGoesOnIff` | backend/provider_client.py:6706-6713 | an attempt is followed by another exactly when its turn is no usable answer, no config error, no truncation or refusal whose retry is off and not the last attempt, and the backoff ends before the deadline |
| `RetryLaws.AttemptConcludes` | backend/provider_client.py:6751-6803 | a last attempt returns exactly when its answer is usable and in time, ends in the deadline's own result when the deadline cut it off, made it late or left no room for a retry, and raises otherwise |
| `RetryLaws.RunIsDecidedByTurns` | backend/provider_client.py:6551-6803 | the whole run from the turns and the clock: every turn before the last is followed by another for that reason, the last one is not and gives the result, and without a deadline the time is that of the attempts and the backoff between them |
| `RetryLaws.RunWithoutDeadline` | backend/provider_client.py:6551-6803 | without a deadline the calls are exactly those up to the first turn that stops the loop, and the run returns exactly when that turn is a usable answer |
| `RetryLaws.Reliable` | backend/provider_client.py:6445-6803 | the loop computes the run that the turns and the clock decide: call `i` has the answer and duration of turn `i`, at most max_attempts of them, none after a config error, none starting at or after the deadline, no backoff past it, and the trace has the wires of each attempt |
| `RetryLoop.WithinEnvelope` | backend/provider_client.py:333-361 | without deadline and Retry-After, attempts within their timeout stay within the nominal envelope |
| `RetryLaws.RunWithinEnvelope` | backend/provider_client.py:333-361 | so the whole run without a deadline is over within the envelope |
| `ProbeObserver.ObserveKeeps` | backend/provider_client.py:492-603 | after any sequence of inputs the observation hangs together, and counts the POSTs |
| `ProbeObserver.SnapshotAcceptedIff` | backend/provider_attempt_ledger.py:198-224 | for every sequence of POSTs, events and completions, the ledger returns the snapshot unchanged exactly when the count is within its limit and a valid observation saw a POST |
| `ProbeObserver.SnapshotIsAccepted` | backend/provider_attempt_ledger.py:198-224 | every sequence the program can produce, up to 1,000,000 POSTs, is accepted unchanged |
| `ProbeObserver.UnpostedIsRefused` | backend/provider_attempt_ledger.py:216 | an observation that belongs to no POST is refused |
| `ProbeObserver.PhaseIsEarned` | backend/provider_client.py:581-594 | a failure phase is reported only when the failed stage's exception is in the final cause chain |
| `ProbeObserver.OrdinaryPost` | backend/provider_client.py:513-603 | whatever came before and whatever connection events come between, a POST whose headers and body arrive and whose call returns is reported complete, with its status |
| `ProbeObserver.BodyFailure` | backend/provider_client.py:513-603 | one whose body fails, the failure among the causes raised, is reported as failed in the body, with its status |
| `ProbeObserver.HeaderFailure` | backend/provider_client.py:513-603 | one whose headers fail is reported as failed there, without a status |
| `ProbeObserver.Observer.BeginPost` | backend/provider_client.py:620-633 | a POST resets and counts; another extension owner makes it unobservable |
| `ProbeObserver.Observer.TraceEvent` | backend/provider_client.py:513-579 | a trace event moves the automaton and keeps it coherent |
| `ProbeObserver.Observer.FinishOk` | backend/provider_client.py:581-587 | a returned call completes only with headers and body seen |
| `ProbeObserver.Observer.FinishWith` | backend/provider_client.py:581-594 | the walk up the cause chain, cyclic ones included, finds the failed exception exactly when the chain reaches it |
| `ProbeObserver.Observer.Snap` | backend/provider_client.py:596-603 | a snapshot after at least one POST is accepted by the ledger unchanged |
| `GenesisClaims.StepKeeps` | backend/genesis_managed_store.py:149-379 | every claim, phase change, deferral, failure, completion and recovery keeps the row invariant |
| `GenesisClaims.ExecutesAtMostOnce` | backend/genesis_managed_store.py:347 | over every run the row enters execution at most once, and is never uploaded again once it has |
| `GenesisClaims.TerminalIsAbsorbing` | backend/genesis_managed_store.py:149-295 | `done` and `failed` rows never change |
| `GenesisClaims.OneHolder` | backend/genesis_managed_store.py:190-206 | only one witness can pass a row's guards |
| `GenesisClaims.RetiredIsRejected` | backend/genesis_managed_store.py:250-265 | a deferred or requeued worker is rejected in every later state, by guards and readback |
| `GenesisClaims.RecoveredNeverActs` | backend/genesis_managed_store.py:346-379 | whether it requeued or failed the row, a recovery ends every guarded act of the former holder |
| `GenesisClaims.OnlyTheStarterPasses` | backend/genesis_managed_store.py:190-227 | after a claim has started, only its generation passes any guard |
| `GenesisClaims.ReadbackIsTrue` | backend/genesis_managed_store.py:268-281 | the authenticated readback reports the row's real state, and the phase it failed in |
| `GenesisClaims.OnlyEdges` | backend/genesis_managed_store.py:149-379 | whatever is called, a row stays as it is or moves along an edge of its life |
| `GenesisClaims.HolderMayIff` | backend/genesis_managed_store.py:190-295 | a witness may do nothing unless it holds the row, and the holder exactly what the phase allows |
| `GenesisClaims.DoneWasApplying` | backend/genesis_managed_store.py:324-343 | a row that a run finished was applying, and the holder of that claim completed it |
| `GenesisClaims.JobCanFinish` | backend/genesis_managed_store.py:149-343 | every uploaded row can be finished by the worker that claims it, with one start, and the readback says so |
| `GenesisClaims.ClaimTable.PrepareClaim` | backend/genesis_managed_store.py:149-187 | a claim is granted exactly for an uploaded row with its dependencies available, and its witness passes the prepared guard |
| `GenesisClaims.ClaimTable.Guarded` | backend/genesis_managed_store.py:209-294 | a guarded call takes effect exactly when the witness passes and the account exists, and changes that row only |
| `GenesisClaims.ClaimTable.RecoverAll` | backend/genesis_managed_store.py:346-379 | the loop recovers exactly the selected rows |
| `Publisher.GasLimit` | deploy/compose_publisher.py:90-96 | 120 % of a positive estimate rounded up, refused exactly when it exceeds the cap |
| `Publisher.GoIsBounded` | deploy/compose_publisher.py:190-281 | a transaction that may go out is the frozen one when there is one, covers both estimates and both prices, and costs at most gas cap times MAX_PRICE |
| `Publisher.AllowedIff` | deploy/compose_publisher.py:190-250 | a decision finds the hash allowed already exactly when the first look passes and the chain says so |
| `Publisher.FreshGoIff` | deploy/compose_publisher.py:190-281 | a fresh transaction goes exactly when both looks pass and the hash is not allowed, with gas for 120 % of the estimate rounded up, at three times the price |
| `Publisher.FrozenGoIff` | deploy/compose_publisher.py:205-281 | a frozen one exactly when both looks pass against its gas and price and it is the transaction this call would make |
| `Publisher.FrozenLimitsIff` | deploy/compose_publisher.py:205-238 | the limits are reported exactly when node and caps are in order and the frozen gas or fee is not |
| `Publisher.AcceptedIffWritable` | deploy/compose_recovery_github.py:18-84 | for an intent whose recorded cost is its own gas times price, the checker accepts a diagnostic exactly when some answers and gas cap make the publisher write it |
| `Publisher.PreparedIffWritable` | deploy/compose_publisher.py:263-281 | for every intent the publisher prepares the checker accepts exactly what the publisher can write, without any condition |
| `Publisher.AcceptedMeansInsufficient` | deploy/compose_recovery_github.py:72-84 | an accepted diagnostic reports a real gas or fee shortage: those readings never let the frozen transaction go |
| `Publisher.Journal.Publish` | deploy/compose_publisher.py:99-334 | over any calls on one journal, dying after any durable effect: the transaction is sent exactly when an admitted call finds the journal open, decides to go and lives long enough; at most once, never after a claim, never when preparing, equal to the frozen intent when sending, within the caps. AlreadyAuthorized is reported exactly when the chain said allowed, at the start or in place of the decision; Authorized exactly when the send's first receipt was its own and a success and the chain then says allowed; PreparedNotSent exactly in the prepare phase; `sends` is the sends made |
| `Publisher.Journal.Broadcast` | deploy/compose_publisher.py:285-334 | claim, intent and broadcast marker are durable before the only send, which happens exactly when no marker was there and the process lives that long |
| `Publication.StepKeeps` | deploy/compose_publisher.py:347-372 | every step of runs, publishers, recoveries and crashes keeps the publication invariant |
| `Publication.OneBroadcast` | deploy/compose_publisher.py:1 | over every interleaving of workflow runs, publishers and recoveries with crashes anywhere, at most one raw transaction is sent for the target; it is the archived intent and within the caps |
| `Publication.BroadcastHappens` | deploy/compose_publisher.py:181-298 | the limit of one is attained: any bounded intent can be prepared, archived and sent |
| `Publication.SendIsARun` | deploy/compose_publisher.py:150-298 | from every ready state an uninterrupted send is a run of the machine and leaves claim, marker and the frozen transaction out |
| `Publication.DecidedIsReady` | deploy/compose_publisher.py:190-281 | a positive decision on the frozen intent makes the state ready |
| `Publication.RecoveryIsARun` | deploy/compose_recovery.py:134-286 | from every ready state an uninterrupted recovery is a run of the machine and leaves its three tags and the authorised transaction out |
| `Publication.RecoveryExcludesPublishers` | deploy/compose_recovery_github.py:161-205 | once a recovery has tagged its broadcast no publisher of the target ever sends |
| `Publication.DecisionSettles` | deploy/compose_publisher.py:201-281 | a positive decision on a frozen intent is what lets a send process go on, with that intent |
| `Publication.AuthorisableIsBounded` | deploy/compose_recovery.py:107-117 | an authorised intent is within the caps |
| `Recovery.Registry.Recover` | deploy/compose_recovery.py:134-286 | a recovery sends exactly when it is entitled, no claim existed, three preflights pass with the hash not allowed, under the owner's key, in its window; then exactly the authorised transaction. AlreadyAuthorized is reported exactly when one of the three readings said allowed, Authorized exactly when the first receipt was good and the chain then says allowed; a claim is never released; `sends` is the sends made |
| `Recovery.RecoveredIsBounded` | deploy/compose_recovery.py:198-224 | a transaction that passes preflight covers the estimate and the price just read |
| `Recovery.PreflightIff` | deploy/compose_recovery.py:198-224 | a look passes exactly while the authorisation is in force, on a drained and live target, with the transaction unseen and next in line, gas and price covered, and the simulation passing |
| `TraceQueue.ReleasedValue` | backend/debug_trace.py:626-634 | releasing a batch lowers each user's counter by exactly its events in the batch |
| `TraceQueue.Release` | backend/debug_trace.py:626-634 | the release loop computes that |
| `TraceQueue.BooksBalance` | backend/debug_trace.py:515-713 | every step of enqueuers and worker keeps conservation, the pending counter, and the drop and risk totals, for every user and every set of events |
| `TraceQueue.PendingIsInFlight` | backend/debug_trace.py:594-685 | pending equals in-flight plus queued plus batched events in every reachable state |
| `TraceQueue.ZeroBarrier` | backend/debug_trace.py:688-713 | a barrier that sees zero means every earlier event of the user was inserted, or its insert raised, or tracing was off for the user, or a full queue turned it away |
| `TraceQueue.UnknownIsAtRisk` | backend/debug_trace.py:561-575 | every event whose insert raised is in the user's at-risk total |
| `TraceQueue.DropsAreToldOrKept` | backend/debug_trace.py:515-583 | queue-full drops are the backlog plus the acknowledged marker counts, and the at-risk total likewise |
| `TraceQueue.AppendConserves` | backend/debug_trace.py:525-583 | one append, successful or not, conserves every user's totals |
| `TraceQueue.Ledger.Append` | backend/debug_trace.py:515-583 | taking both backlogs and restoring them on failure |
| `TraceQueue.StepsAppend` | backend/debug_trace.py:515-583 | the worker's three locked steps, uninterrupted, are one append |
| `TraceProgress.NoNeedlessDrop` | backend/debug_trace.py:669-685 | whatever the threads do, while no more than 5000 events have been offered none is dropped |
| `TraceProgress.QueueIsBounded` | backend/debug_trace.py:594-612 | never more than 5000 events in the queue and 100 in a batch |
| `TraceProgress.EveryEventSettles` | backend/debug_trace.py:594-713 | from every reachable state a run without new events has a bounded number of steps, and one that can go no further has left every counter at zero and every event stored, unknown, skipped or dropped |
| `TraceCounters.RecordedExactly` | backend/debug_trace.py:344-366 | recording adds each key's events and bytes to its own class and nothing else |
| `TraceCounters.Counters.RecordAll` | backend/debug_trace.py:357-366 | the recording loop computes that |
| `TraceCounters.FlushesAreIdempotent` | backend/debug_trace.py:73-76 | under failed, ambiguous, late and concurrent flushes flushed, stored and totals stay ordered for every key, and zero dirty rows means the store holds the totals |
| `TraceCounters.ReplayIsNoOp` | backend/debug_trace.py:73-76 | applying a snapshot's row again changes nothing |
| `TraceCounters.TombstoneMeansDrained` | backend/debug_trace.py:478-505 | a stop tombstone is written only after a clean check, and the store holds all that was counted then |
| `TraceCounters.DrainHappens` | backend/debug_trace.py:478-505 | from every reachable state one flush that gets through lets the writer stop with everything counted in the store |
| `ProviderHealth.FlipIsJustified` | backend/provider_health.py:69-127 | a flip is caused by a user failure, with no success in the last 48 hours, no other failure in the last hour and, without any success, a route selected 48 hours ago or more |
| `ProviderHealth.FlipsIff` | backend/provider_health.py:69-127 | for every history, with or without a success: a user failure flips exactly when 48 hours have passed since the last success or the selection, and an hour since its run of user failures counts as begun |
| `ProviderHealth.RunExists` | backend/provider_health.py:104-113 | every user failure belongs to one such run |
| `ProviderHealth.OverdueIsUnhealthy` | backend/provider_health.py:104-123 | conversely, 48 hours after the last success with only user failures since, the next one flips |
| `ProviderHealth.UnhealthyHasProbeTime` | backend/provider_health.py:119-123 | while unhealthy a probe time is set |
| `ProviderHealth.ProbesAreADayApart` | backend/provider_health.py:368-408 | any two granted probes of any history are at least 24 hours apart |
| `ProviderHealth.AdmissionIff` | backend/provider_health.py:368-408 | for every history and wake: a healthy provider is admitted; an unhealthy one gets a probe exactly when a day has passed since the flip or the last granted probe, and is blocked before |
| `ProviderHealth.UnhealthyIff` | backend/provider_health.py:104-165 | a provider is unhealthy exactly when a flip has no success after it |
| `ProviderHealth.LatencyConverges` | backend/provider_health.py:130-163 | under a steady latency the average closes in on it by 30 % of the distance with every success |
| `ProviderHealth.HealthTable.RecordSuccess` | backend/provider_health.py:178-234 | appends a success to the user's history and leaves every row what its history makes of it; a failed write changes nothing |
| `ProviderHealth.HealthTable.RecordFailure` | backend/provider_health.py:237-344 | appends a failure likewise, and if the row flips, the recorded history has no success within 48 hours and no other failure within an hour |
| `ProviderHealth.HealthTable.ProactiveAdmission` | backend/provider_health.py:368-411 | appends the wake, grants a probe exactly when due, at least a day after every probe in the recorded history, and claims it in the same step; without the database it fails open and grants none |

## Left out

- Transport (HTTP, RPC, Docker, R2, GitHub, SQL): nondeterministic answers or atomic row and ref operations; row locks and the max-merging store are taken as given.
- Hashing, signing and ABI encoding: hashes are injective and fresh tokens distinct, so a transaction stands for its hash and a token for its own.
- Real gzip, regular expressions and JSON text: an archive is the list of its decompressed members, the line whitelist and header classification are arbitrary predicates, documents are values.
- Log pruning, retention, status counters, several aliases, and a container id used again for a different log.
- A torn write leaves a prefix of the record; file systems that reorder bytes inside one write are not modelled.
- A reading cycle that ends inside a frame is modelled as ending at the frame's start, and the container's stamp syntax as an optional parsed stamp.
- Percent escapes of bytes above 127 and non-ASCII decimal digits in pointer tokens.
- Schema keywords outside the positive fragment (`not`, `oneOf`, `if`, `unevaluated*`) and the list form of `items`; a reference that leaves the document, or points to no schema in it, constrains nothing.
- GeminiFallback.FallbackOnlyRelaxes: asks that no reference in use names a map of schemas, because with one it can be false (see above).
- The JSON layer of authorisation and diagnostic documents (exact key sets, repeated keys, number types): they are typed records here.
- The error texts of providers: a reply carries what the text mentions, not the text.
- The values the payload builders write, beyond which keys they can write and where cache markers go; the sync and async loops share one model.
- CacheMarkers.BedrockAtMostFour: for messages that carry no marker yet, as the Bedrock encoder builds them, and so are `CacheSelection.BedrockMarksNewest` and `CacheSelection.BedrockFillsSlots`; `CacheMarkers.BedrockIsErasable` has the general count.
- LogShipper.Store.CursorFor: a cursor file that does not parse, which fails the attempt, is not modelled.
- FrameDemux.Exact: the clock and the stop flag inside one read are not modelled.
- JsonPointer.UnquoteQuote: for ASCII characters.
- LogShipper.FollowOnce: its disk operations are shown to be runs of the crash machine one by one; the session as a whole is proved on the store.
- The names of trace events: the observer's reading of an event name is an input, so the string matching is not modelled.
- Cancellation and the coroutine machinery of the retry loop; an answer after the deadline is the deadline's outcome.
- Genesis prepared inputs, receipts of completed outputs and shadow mirroring; other writers of the job table.
- Publication assumes one journal per run and target and artifacts that are never deleted; a publisher on a workstation has its own journal and is covered by `Publisher.Journal` only. Nonces protect the account further and are not needed here.
- Publication.DecisionSettles: the machine lets a process go on with any bounded frozen intent, which is more than the decision admits.
- TraceQueue: an exception other than a failed insert inside the worker, and the stats writer's fork handling.
- Route and credential lookups, error classification, image handling, reply extraction, prompts and model tables, and the modules outside the six parts above.
