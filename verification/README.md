# Verified model of the scanner's query compiler, work queue, MQTT framing and fingerprinting

The scanner sweeps address ranges, queues the hosts and ports it finds, probes them, identifies what answers, and offers a search language over the stored records. This project models four parts of it in Dafny and proves what they keep, over all inputs, all runs and all interleavings.

**Search queries** (`Query`, `Text`, `Tokenizing`, `Spelling`, `TokenText`, `Parsing`, `QueryRoundTrips`, `SqlText`, `QueryCompiler`, `QueryClauses`, `QueryMeaning`, `QueryAgreement`, `QueryNumbering`, `QueryExactness`, `JsonPath`). The tokenizer and parser are objects with a moving cursor, proved against functions of the text; the generator is an object with the two growing vectors, proved against the tree of conditions it writes. `Spelling` is a grammar of all ways to write a token, apart from the tokenizer, which reads a text as some tokens exactly when the grammar spells them that way; `QueryClauses` says the clause of every tree by the query alone. The emitted text is read back with SQL precedence (OR, then AND, then NOT) and evaluated in three-valued logic; a row is any valuation of the comparisons, which stay opaque. Two references judge it: one that only renumbers placeholders, and one that also puts parentheses around every chain of ORs; the second one means the tree on every row. The code's text is theirs under an exact condition each. For trees whose leaves compare with different texts the same condition is exact for the meaning itself, and small queries show what goes wrong outside it and why the leaves must differ.

**The work queue** (`LeaseTable`, `LeasedQueues`, `Stages`, `Deepscan`, `ProbeStage`, `Pipeline`). Each SQL statement is a step on a table; any number of workers take steps in any order, with stamps that may be old but are never ahead of the clock. `Deepscan` adds the replicas of the deep-scan stage: claim loop, permits, scan tasks, hand-off to the probe queue, the two statements of the sweep as separate steps, lost replies, refused statements, panics, and crashes before any step. `ProbeStage` does the same for the loop that turns probe rows into stored services and queued enrichments, and `Pipeline` puts both on the one probe queue they share.

**MQTT** (`Mqtt`). The remaining-length codec of section 2.2.3 of MQTT Version 3.1.1, the SUBSCRIBE and UNSUBSCRIBE packets, and the walker that parses the whole buffer again after each read.

**Identification and clean-up** (`Services`, `Evidence`, `Matching`, `Fingerprint`, `Technology`, `Normalize`, `Reidentify`, `KeysetRewrite`, `Maintenance`). Evidence, matchers, scores, the winner, canonical kinds, slugs and tags, the two maintenance commands, and the fixed points they reach. `Ordering` holds text order, sorting and `ORDER BY id LIMIT n`.

Where the code and what its comments suggest differ, the model follows the code:

- The restarted count of placeholders is kept: `idx` at `src/query.rs:399` and `src/query.rs:425` is never used. `country:a OR country:b` compares twice with the first country.
- A bare word is a chain of ORs without parentheses (`src/query.rs:480`), so in `word tag:t` the AND takes in the last column only.
- The token AND is no operator: the parser swallows it as an empty filter (`src/query.rs:280-288`). After an operand it is neutral; after NOT it is not.
- `canonical_tag` never yields the allowlist entries `email`, `gps` and `fleet-management`: they are aliases of others.
- Re-identification is announced as safe to run again (`src/reidentify.rs:8-11`). One run settles a record exactly when identification comes to the same thing with the kind made canonical; in general it takes two.
- A failed scan is taken for one without ports, and a save that reports an error is only logged (`src/main.rs:267-268`, `src/main.rs:376-378`): in both cases the row is completed all the same.
- `heartbeat` can cut a running lease short (`src/queue.rs:98-109`). No worker loop calls it; the exclusion of leases is stated for all runs, with exactly the leases cut short excepted.
- The version patterns such as `jquery[/.]` are looked for as they stand, not as expressions (`crates/scanerr-fingerprint/src/tech.rs:109-114`). A page that holds one gives the version `.`, and only the form `?ver=` gives any other.

## Model

| member | source | states |
|---|---|---|
| `Tokenizing.Tokenizer.NextToken` | src/query.rs:49-92 | the cursor never passes the end, moves by at least one with every token, and the token and new place are those of the reference reader `Next` |
| `Tokenizing.Tokenizer.ReadKeyVal` | src/query.rs:94-133 | dotted keys, operator suffixes and values as `KeyValAt` reads them from the place of the cursor |
| `Tokenizing.Tokenizer.ReadQuoted` | src/query.rs:143-163 | backslash escapes and a missing closing quote, as `QuotedText` reads them |
| `Tokenizing.Tokenizer.TokenizeAll` | src/query.rs:190-196 | all tokens of the rest of the text, in order; it always ends |
| `Spelling.TokensAreSpelled` | src/query.rs:49-196 | a text is read as some tokens if and only if the grammar spells them that way: every text has a spelling, and every spelling of a text gives the same tokens |
| `Spelling.SpellingRead` | src/query.rs:49-163 | whatever stands before and after it, a spelling is read as its token to its end: symbols, words, keywords in any case, quoted words with any escapes or cut off by the end, keys with any operator, with or without the colon, with quoted, unquoted or missing values |
| `Spelling.UnquotedValue` | src/query.rs:124-141 | `key:word` for any legal key and word |
| `Spelling.UnquotedAfterOp` | src/query.rs:94-141 | `key.op:word` and `key.op word`, for each of the six operators by name |
| `Spelling.UnquotedWord` | src/query.rs:76-89 | a word without quotes; AND, OR and NOT in any case |
| `Spelling.MinusRead` | src/query.rs:64-70 | a minus right before something is NOT; before a space or at the end it is a word |
| `TokenText.TokenizeRender` | src/query.rs:49-196 | any list of legal tokens, written with quoted and escaped values, reads back as itself |
| `TokenText.TokensLegal` | src/query.rs:49-196 | whatever the text, every token read is legal, so the round trip applies to it |
| `TokenText.RenderStable` | src/query.rs:190-196 | read, write, read is read, for every text |
| `Parsing.Parser.ParseQueryNode` | src/query.rs:209-220 | the tree of the tokens; the cursor ends at most one past the end, or at an unmatched closing parenthesis |
| `Parsing.Parser.ParseAtomNode` | src/query.rs:252-290 | parentheses, filters, words, and the empty filter for any other token, which is used up |
| `Parsing.ParsePrint` | src/query.rs:209-290 | the parser inverts the printer on every tree that has no negated filter and no operator on an empty key |
| `Parsing.UnclosedRead` | src/query.rs:252-259 | closing parentheses may be left out at the end, any number of them |
| `Parsing.UnmatchedCloser` | src/query.rs:219-240 | what follows an unmatched closing parenthesis is not read |
| `Parsing.FewestParentheses` | src/query.rs:209-290 | whatever tokens parse to a tree, the printer writes that tree with no more opening parentheses |
| `QueryRoundTrips.ParseQueryText` | src/query.rs:359-362 | tokenizer and parser together give the tree of the text |
| `QueryRoundTrips.ParsedReadable` | src/query.rs:359-362 | every text parses to a tree the printer and the renderer can write |
| `QueryRoundTrips.ParseRender` | src/query.rs:359-362 | text written for such a tree parses back to that tree |
| `QueryRoundTrips.QueryStable` | src/query.rs:359-362 | parse, render, parse is parse, for every text |
| `QueryRoundTrips.StripCompiles` | src/query.rs:376-381 | dropping the empty filters ANDed to something changes neither clause nor parameters |
| `QueryRoundTrips.AndIsNeutral` | src/query.rs:232-290 | an AND right after a filter, word or closing parenthesis can be left out of any query: same clause, same parameters |
| `QueryRoundTrips.AndAfterNot` | src/query.rs:243-250 | right after NOT it cannot: the two clauses differ for every word |
| `QueryCompiler.Emitter.CompileNode` | src/query.rs:376-463 | the conditions pushed are the texts of the conditions of the tree, numbered from the parameters already there, and the parameters pushed are the live leaf values from left to right |
| `QueryCompiler.Emitter.CompileOr` | src/query.rs:382-414 | a side that emits nothing drops the whole OR with its parameters; a side with several conditions goes in parentheses |
| `QueryCompiler.Emitter.CompileNot` | src/query.rs:415-436 | the negated join of the body, numbered from one; nothing for a body that emits nothing |
| `QueryCompiler.Emitter.CompileFilter` | src/query.rs:437-461 | one condition and at most one parameter per live filter, none for an empty one |
| `QueryCompiler.Emitter.CompileFullText` | src/query.rs:465-481 | six alternatives on one parameter, without parentheses |
| `QueryCompiler.Emitter.CompilePort` | src/query.rs:488-496 | a comparison with the parsed port, or FALSE with no parameter when the text is no 16-bit number |
| `QueryCompiler.CompileToSql` | src/query.rs:364-374 | the clause of the whole tree, and its live leaf values in order |
| `QueryClauses.FieldClause` | src/query.rs:307-331 | any key but the three special ones: with an operator its text is compared by that very operator with `$1` and the value is the parameter; without, containment and no parameter |
| `QueryClauses.TagClause` | src/query.rs:483-486 | containment of the tag, no parameter, whatever the operator |
| `QueryClauses.PortClause` | src/query.rs:488-496 | the port compared with `$1`, or FALSE and no parameter |
| `QueryClauses.CountryClause` | src/query.rs:498-502 | the country compared with `$1`, the value in upper case |
| `QueryClauses.WordClause` | src/query.rs:465-481 | the six columns by name, each compared with `$1`; nothing to ask without a word |
| `QueryClauses.NotClause` | src/query.rs:415-436 | NOT and the clause of the body in parentheses, or TRUE if the body asks nothing; the same parameters |
| `QueryClauses.OrClause` | src/query.rs:382-414 | the clauses of the sides joined by OR in parentheses, a side of several conditions in its own; TRUE and no parameter if a side asks nothing |
| `QueryClauses.AndClause` | src/query.rs:376-381 | the clauses of the sides one after the other, the placeholders of the second outside all parentheses counted on from the parameters of the first, those inside left as they are |
| `QueryCompiler.CodeNumbersWithin` | src/query.rs:382-436 | every restarted number is at least one and at most the number of parameters |
| `SqlText.ReadPrint` | src/query.rs:364-463 | SQL precedence reads a printed condition tree back as itself |
| `SqlText.PrintGlueTwo` | src/query.rs:371-371 | what ` AND ` between two texts means: it captures the last alternative of the one and the first of the other |
| `QueryMeaning.BuildMeaning` | src/query.rs:376-463 | with wrapped joins and the right values, the conditions of a tree are true together exactly as the tree is, vacuous nodes being true, in three-valued logic |
| `QueryAgreement.ReferenceMeaning` | src/query.rs:364-463 | the reference clause, read back and bound, means the tree: every tree, every row |
| `QueryAgreement.TextAgreement` | src/query.rs:364-463 | the emitted text is the reference text if and only if the tree is aligned and no bare word shares a conjunction |
| `QueryAgreement.BoundAgreement` | src/query.rs:364-463 | with parameters bound, the database reads the emitted clause as the reference clause if and only if the restarted numbers resolve to the right texts and no bare word shares a conjunction |
| `QueryAgreement.CompilationMeaning` | src/query.rs:364-463 | compilation preserves meaning on every row under that condition |
| `QueryExactness.MeaningExactly` | src/query.rs:364-463 | for trees that compare with different texts everywhere and hold no impossible port, the clause means the tree on every valuation of its comparisons if and only if the tree is aligned and no bare word shares a conjunction |
| `QueryExactness.Differs` | src/query.rs:371-480 | where a bare word shares a conjunction, some valuation tells the clause from the tree |
| `QueryExactness.WrongTextDiffers` | src/query.rs:382-436 | where a restarted number names the wrong text, some valuation tells the clause from the tree |
| `QueryExactness.RepeatedWord` | src/query.rs:480-480 | `w w`: the word shares its conjunction with itself, and the clause is right on every row |
| `QueryExactness.SwappedTexts` | src/query.rs:382-436 | `x.equals:a NOT (y.equals:b y.equals:a)`: all leaves differ, the numbers name wrong texts, and the clause is right on every row |
| `QueryAgreement.AlignedResolves` | src/query.rs:382-436 | on aligned trees the restarted numbers resolve |
| `QueryAgreement.AlignedNumbers` | src/query.rs:382-436 | restarted numbers equal straight ones if and only if the tree is aligned |
| `QueryAgreement.ClauseReads` | src/query.rs:364-463 | every emitted clause is accepted and read as the tree of its conditions glued together |
| `QueryAgreement.ClauseDiscipline` | src/query.rs:364-463 | on every tree each placeholder names a parameter, parentheses balance, and the clause is TRUE exactly for vacuous trees |
| `QueryAgreement.SharedWordMisleads` | src/query.rs:480-480 | `word tag:t`, any word and tag: aligned, and yet a row without the tag is found when the word is in its banner |
| `QueryAgreement.MisalignedMisleads` | src/query.rs:397-414 | `country:a OR country:b`: a row of the second country is not found |
| `QueryNumbering.OffsetIsStraight` | src/query.rs:399-402 | renumbering each merged side by its offset counts straight on from left to right |
| `QueryNumbering.RenumberingAgreement` | src/query.rs:364-463 | the emitted text is that of the compiler that renumbers by offset if and only if the tree is aligned |
| `JsonPath.BuildNestedJson` | src/query.rs:504-521 | the maps the pointer walk builds form one spine whose value is the object with one leaf at exactly the dotted path |
| `JsonPath.PathEquality` | src/query.rs:538-541 | containment of that object holds of exactly the documents where the path yields the string |
| `JsonPath.TagMembership` | src/query.rs:483-486 | a tag filter holds of exactly the documents whose tags array has the tag |
| `JsonPath.JsonTextCol` | src/query.rs:333-355 | the column steps of a dotted key |
| `JsonPath.ColumnFollowsPath` | src/query.rs:333-355 | the column yields the text the path leads to, and NULL when it leads nowhere |
| `JsonPath.EscapeJsonString` | src/query.rs:523-536 | the escaped text, character by character |
| `JsonPath.EscapeRoundTrip` | src/query.rs:523-536 | it denotes the original exactly when there is no control character but newline, return and tab; otherwise it is malformed |
| `Text.ParseU16Show` | src/query.rs:489-490 | the rendered port parses back to the port |
| `Text.ParseU16Means` | src/query.rs:489-489 | a port is one or more digits, perhaps after a plus, that stand for at most 65535; its value is that number |
| `Text.DottedSplit` | src/query.rs:334-334 | splitting a key at its dots loses nothing |
| `LeasedQueues.LeasedQueue.ClaimRows` | src/queue.rs:14-96 | the lowest claimable unlocked ids, at most the batch, are marked 300 seconds ahead and returned with their keys; no other row changes |
| `LeasedQueues.LeasedQueue.HeartbeatRow` | src/queue.rs:98-109 | from then on exactly the stamps past 300 seconds of `now` let a claim or a sweep take the row; its key and attempts and all other rows are as they were |
| `LeasedQueues.LeasedQueue.CompleteRow` | src/queue.rs:111-118 | no claim ever takes the row again, its key can be queued anew, and all other rows are as they were |
| `LeasedQueues.LeasedQueue.IncrementAttempts` | src/queue.rs:146-150 | sweeps condemn the row exactly one attempt sooner, and claims pick the same rows as before |
| `LeasedQueues.LeasedQueue.InsertRow` | src/queue.rs:163-198 | inserts only if the key is absent; afterwards the key is present |
| `LeasedQueues.LeasedQueue.Sweep` | src/queue.rs:120-144 | expired rows are freed or, with enough attempts, deleted and counted; no expired row is left |
| `LeasedQueues.ClaimedStaysClaimed` | src/queue.rs:24-30 | a claimed row can be claimed again only with a stamp past the lease |
| `LeaseTable.StepKeeps` | src/queue.rs:14-198 | any statement by anyone, any heartbeat included, keeps conservation, keys, leases and the spacing of claims |
| `LeaseTable.ClaimMeans` | src/queue.rs:20-37 | row by row: a claim takes lapsed rows that are not locked, lowest ids first, as many as the batch allows, and marks them 300 seconds ahead |
| `LeaseTable.SweepMeans` | src/queue.rs:120-144 | row by row: an overdue mark is cleared below the maximum of attempts, and its row deleted from the maximum on |
| `LeaseTable.RunKeeps` | src/queue.rs:14-198 | so does every run |
| `LeaseTable.ClaimExcludes` | src/queue.rs:20-37 | when a claim takes a row, every lease ever given on it has run out in real time, but for leases a heartbeat cut short |
| `LeaseTable.Exclusion` | src/queue.rs:20-37 | the same over every run from an empty table, with stale stamps, sweeps and heartbeats in between; ids ever inserted are the disjoint union of present, completed and dropped |
| `LeaseTable.SweepSparesLive` | src/queue.rs:120-144 | neither statement of a sweep touches a row under a live lease |
| `LeaseTable.DropIsLate` | src/queue.rs:132-143 | a row is dropped later than its first claim plus the lease time of all its claims, less the staleness of their stamps |
| `LeaseTable.FreshGrants` | src/queue.rs:35-35 | with fresh stamps that lease time is 300 seconds per claim |
| `LeaseTable.HeartbeatKeepsLeases` | src/queue.rs:98-109 | a heartbeat keeps the leases of its row covered if and only if it ends no earlier than every one still running |
| `LeaseTable.StaleHeartbeatOverlaps` | src/queue.rs:98-109 | a run of three statements, the last a stale heartbeat, after which a row can be claimed while its lease still runs |
| `Deepscan.NextKeeps` | src/main.rs:230-298 | any step of any replica, crash or lost reply keeps permits, hand-off, attempts and both tables in order |
| `Deepscan.HandOff` | src/main.rs:264-288 | over every interleaving, however often a host is scanned, a host row removed by complete was completed on a scan of that very row; it was taken for a honeypot exactly when the result exceeds the threshold; otherwise for each port of it a row of that address, that port and `tcp` was in the probe queue at some moment after that scan, or its insert for that scan reported an error; a failed scan counts as one without ports and is told apart |
| `Deepscan.PortsApart` | src/main.rs:280-282 | open ports that differ never share a probe row, in one scan or in several |
| `Deepscan.ScanHandsOn` | src/main.rs:264-287 | with nothing in its way, from any state, a scan that ends within the threshold goes on, insert by insert, until its host is completed and every port of it is in the probe queue |
| `Deepscan.ClaimHeld` | src/main.rs:233-244 | a claim whose reply comes takes one row at most, and the replica goes on to count and scan that very row |
| `Deepscan.SweepDue` | src/main.rs:292-297 | the sweep comes due on every fiftieth scan a replica spawns since it started, up to the wrap-around of its count, and on no other |
| `Deepscan.OfferWitness` | src/main.rs:280-282 | every insert that ran left its key in a probe row that was in the queue then, after its scan had ended |
| `Deepscan.FailedScanLoses` | src/main.rs:266-268 | from any state, a failed scan completes its host with nothing handed on |
| `Deepscan.PermitBound` | src/main.rs:217-262 | no replica ever runs more than two scans |
| `Deepscan.CountMoves` | src/main.rs:244-244 | counting an attempt, also late, lost or after others claimed the row, keeps the invariant that counted attempts are claims of their own |
| `Deepscan.CountAdds` | src/main.rs:244-244 | a count that runs adds one attempt to the claimed row, if it is there, and changes no other |
| `Deepscan.RequeueFrees` | src/main.rs:295-296 | the first statement of a sweep frees the rows of less than three attempts that are overdue by the time its loop read |
| `Deepscan.DropTakes` | src/main.rs:295-296 | the second drops the other rows that are overdue, and no row besides |
| `Deepscan.PoisonBound` | src/main.rs:295-298 | every host row ever dropped, whether the sweep's reply came or was lost, had been claimed at least three times and went later than its first claim plus the lease time of them all |
| `Deepscan.FreshPoisonBound` | src/main.rs:295-298 | with fresh stamps a dropped host row went later than 900 seconds after its first claim |
| `Deepscan.Conservation` | src/main.rs:207-299 | in both queues nothing is lost and nothing is in two places |
| `LeaseTable.InsertLeavesRow` | src/queue.rs:163-186 | after an insert that runs, whether or not the key was there, a row of the table holds it |
| `LeaseTable.RowStays` | src/queue.rs:111-143 | a row keeps its key, and stays in the table until it is completed or dropped |
| `ProbeStage.NextKeeps` | src/main.rs:333-391 | any step of any probe replica, crash or lost reply keeps both queues, the services and the outcomes in order |
| `ProbeStage.HandOff` | src/main.rs:354-388 | over every interleaving, however often a service is probed, a probe row removed by complete was completed on a probe of that row: it failed; or it found a firewall; or its save reported an error; or its findings were saved and each enrichment they ask for (favicon for a page, frame for a stream, frame for what is tagged a camera) was in the queue at some moment after that probe, unless an insert for that probe, of it or of one before it, reported an error |
| `ProbeStage.AskWitness` | src/probe/dispatch.rs:202-218 | every enrichment insert that ran left its key in a row that was in the queue then, after its probe had ended |
| `ProbeStage.ProbeHandsOn` | src/main.rs:354-388 | with nothing in its way, from any state, findings that are saved go on until the row is completed, they are stored, and all enrichments they ask for are queued |
| `ProbeStage.ProbesTaken` | src/main.rs:333-353 | a claim whose reply comes takes ten rows at most, each of which waits to be probed by its key |
| `ProbeStage.StoredExactly` | src/probe/dispatch.rs:165-200 | a service is stored if and only if some save of its key ran; its payload is one saved, found by a probe of that key that was no firewall; completed rows whose own save ran have their service stored |
| `ProbeStage.FailedSaveCompletes` | src/main.rs:376-378 | from any state, a save that reports an error completes its row all the same, and the findings are stored if and only if the statement ran or the service was there before |
| `ProbeStage.QueueMoves` | src/probe/dispatch.rs:202-218 | a task that queues enrichments has its service stored, and queueing the next one keeps the hand-off |
| `ProbeStage.NoneDropped` | src/main.rs:333-391 | no probe or enrichment row is ever given up: ids handed in are present or completed |
| `ProbeStage.EnrichmentsAskedFor` | src/probe/dispatch.rs:165-218 | every enrichment ever queued names one stored service, no other, and was asked for by what a probe of that service found |
| `ProbeStage.LatestSave` | src/probe/dispatch.rs:172-189 | a stored service holds what the last save of its key that ran had found |
| `ProbeStage.ServiceKeepsId` | src/probe/dispatch.rs:172-189 | the id of a service stays once given |
| `Pipeline.PortsAccountedFor` | src/main.rs:207-391 | over every interleaving of both stages, for each open port of the scan a host row was completed on, a row of that address, that port and `tcp` was in the probe queue at some moment after that scan, and that same row is there still or was completed since as its outcome says, unless the insert for that scan reported an error |
| `Pipeline.PortsApart` | src/main.rs:280-282 | open ports that differ are accounted for by rows that differ |
| `Pipeline.ScanKeeps` | src/main.rs:207-299 | a step of the deep scan keeps what the probe stage relies on |
| `Pipeline.ProbeKeeps` | src/main.rs:301-391 | a step of the probe stage keeps what the deep scan relies on |
| `Mqtt.PushLen` | crates/scanerr-protocol/src/mqtt.rs:168-180 | appends the base-128 encoding, low digit first |
| `Mqtt.EncodedBytes` | crates/scanerr-protocol/src/mqtt.rs:168-180 | the one to four bytes of every allowed length: seven bits each, low bits first, the top bit on all but the last |
| `Mqtt.ReadLen` | crates/scanerr-protocol/src/mqtt.rs:218-238 | the value and end of the field ending at the first byte below 128 among the first four, or nothing; at most four bytes are used and none past the end |
| `Mqtt.DecodeEncode` | crates/scanerr-protocol/src/mqtt.rs:168-238 | in any surroundings an encoded length decodes to itself and its end if it is at most 268435455, and is rejected otherwise |
| `Mqtt.EncodeDecode` | crates/scanerr-protocol/src/mqtt.rs:168-238 | a decoded field is the encoding of its value if and only if it has no idle zero byte; values stay within the limit |
| `Mqtt.DecodeStable` | crates/scanerr-protocol/src/mqtt.rs:218-238 | a field once complete reads the same however the buffer grows |
| `Mqtt.ParseTopics` | crates/scanerr-protocol/src/mqtt.rs:182-216 | appends the topics of the walk from the start, stopping at the first incomplete packet |
| `Mqtt.TopicsGrow` | crates/scanerr-protocol/src/mqtt.rs:182-216 | topics of a prefix are topics of every extension, topics that overrun their packet included |
| `Mqtt.WalkStream` | crates/scanerr-protocol/src/mqtt.rs:182-216 | over whole packets the walker gives the topics of the PUBLISH packets, in order, and nothing else |
| `Mqtt.Collect` | crates/scanerr-protocol/src/mqtt.rs:62-88 | however the stream is cut into reads, the result is the sorted set of the topics of one parse of all of it |
| `Mqtt.ReceivedJoined` | crates/scanerr-protocol/src/mqtt.rs:62-71 | what is parsed is every chunk before the first empty read, joined |
| `Mqtt.PacketId` | crates/scanerr-protocol/src/mqtt.rs:132-134 | the bytes of the id added in 16 bits |
| `Mqtt.SubPkt` | crates/scanerr-protocol/src/mqtt.rs:123-144 | the framed packet of type 8 with id, topic and quality byte |
| `Mqtt.UnsubPkt` | crates/scanerr-protocol/src/mqtt.rs:146-166 | the framed packet of type 10 with id and topic |
| `Mqtt.Delimits` | crates/scanerr-protocol/src/mqtt.rs:123-166 | a packet ends exactly where its header says if and only if the length field can give its body's length |
| `Mqtt.SubTopic` | crates/scanerr-protocol/src/mqtt.rs:123-166 | the topic stands after its length, which is right if and only if it is under 65536 bytes |
| `Ordering.Dedup` | crates/scanerr-protocol/src/mqtt.rs:87-88 | removing equal neighbours of a sorted list leaves the sorted set |
| `Ordering.SortedSorts` | crates/scanerr-protocol/src/mqtt.rs:87-87 | sorting is a permutation in ascending order |
| `Ordering.SortedUnique` | src/normalize.rs:181-195 | an ascending list without repetitions is determined by its elements |
| `Ordering.LessMeans` | crates/scanerr-protocol/src/mqtt.rs:87-87 | the order is that of the first difference, a text before its extensions |
| `Evidence.From` | crates/scanerr-fingerprint/src/evidence.rs:32-118 | the pushes of all payloads build the map of the record's entries in their order |
| `Evidence.ValuesArePushed` | crates/scanerr-fingerprint/src/evidence.rs:22-24 | a matcher sees exactly the entries of its key, in the order they were pushed |
| `Evidence.HeaderLists` | crates/scanerr-fingerprint/src/evidence.rs:57-72 | a list of header values gives its strings in their order, anything else in it is passed over |
| `Evidence.ValuesAreTold` | crates/scanerr-fingerprint/src/evidence.rs:32-118 | under each key, by its name, a matcher sees the field of that name and nothing else |
| `Matching.TwinComplement` | crates/scanerr-fingerprint/src/signature.rs:87-143 | a negative operator is the exact complement of its positive twin, on no values and for an invalid expression too |
| `Matching.HitGrows` | crates/scanerr-fingerprint/src/signature.rs:87-143 | a positive matcher that hits keeps hitting as values are added |
| `Matching.HitMeans` | crates/scanerr-fingerprint/src/signature.rs:87-143 | a positive matcher hits if and only if some value is its text with something around, after or before it, is its text, or is accepted by its expression or number |
| `Matching.Evaluate` | crates/scanerr-fingerprint/src/score.rs:51-101 | score, match and confidence from the weights that hit, for any division that grows with the part and reaches 100 with the whole only |
| `Matching.TruncatedRounds` | crates/scanerr-fingerprint/src/score.rs:74-93 | the exact ratio, truncated, is such a division |
| `Matching.MatchedMeans` | crates/scanerr-fingerprint/src/score.rs:69-72 | a signature matches exactly when some matcher hits, or every matcher, as its condition says |
| `Matching.ScoreAdds` | crates/scanerr-fingerprint/src/score.rs:51-67 | each matcher that hits adds its weight to the score, no other does |
| `Matching.AnyConfidence` | crates/scanerr-fingerprint/src/score.rs:74-81 | when any matcher will do, confidence is the heaviest that hits as a percentage of the heaviest of all |
| `Matching.ConfidenceRange` | crates/scanerr-fingerprint/src/score.rs:74-93 | confidence is at most 100, and 100 exactly for a match of all with some weight, or of any when one of the heaviest hits |
| `Matching.MoreEvidence` | crates/scanerr-fingerprint/src/score.rs:51-101 | without negative operators neither match, score nor confidence is lost as evidence grows |
| `Matching.MatcherOrder` | crates/scanerr-fingerprint/src/score.rs:51-101 | evaluation does not depend on the order of the matchers |
| `Fingerprint.Resolve` | crates/scanerr-fingerprint/src/score.rs:12-49 | the loop returns the evaluation of the foremost signature: no match has a higher score, none of its score a higher priority of the first signature with its id, and none before it is as good in both; none exactly when none match |
| `Fingerprint.BestIsArgmax` | crates/scanerr-fingerprint/src/score.rs:12-49 | the place picked is the foremost one, if and only if; there is none exactly when none match |
| `Fingerprint.IdentifiedAs` | crates/scanerr-fingerprint/src/engine.rs:32-46 | the foremost signature gives the confidence, the first with its id the product and the tags; all other fields stay, and the whole record when none match |
| `Fingerprint.Identify` | crates/scanerr-fingerprint/src/engine.rs:32-46 | product, confidence and merged tags of the winner, other fields untouched; nothing without a winner |
| `Fingerprint.LoadOrder` | crates/scanerr-fingerprint/src/engine.rs:32-46 | with distinct ids and a clear winner the identified record does not depend on the order signatures were loaded in |
| `Fingerprint.MergeTwice` | src/reidentify.rs:61-65 | merging the same tags again adds nothing |
| `Fingerprint.MergeKeeps` | crates/scanerr-fingerprint/src/engine.rs:39-43 | merging keeps the tags there were, in place, and adds none like another in any case |
| `Fingerprint.MergeAdds` | crates/scanerr-fingerprint/src/engine.rs:39-43 | merging adds exactly the tags that are like none there was and none offered before, as they are and in their order |
| `Technology.Detect` | crates/scanerr-fingerprint/src/tech.rs:5-66 | the tags of headers and page offered one by one, each added unless one like it is there |
| `Technology.HeaderProduct` | crates/scanerr-fingerprint/src/tech.rs:68-107 | a product header gives name and version without the spaces around either, the name alone without a slash, nothing without a name |
| `Technology.VersionExactly` | crates/scanerr-fingerprint/src/tech.rs:109-140 | a page that holds a pattern as it stands gives the version `.`; any other gives what follows the first `ver=` after the first mention with a question mark: the longest run of version characters, if there are one to nineteen |
| `Technology.VersionShape` | crates/scanerr-fingerprint/src/tech.rs:109-140 | a version found stands in the page, is not empty, has under 20 characters, and holds only letters, digits, dots and underscores |
| `Technology.DetectedShown` | crates/scanerr-fingerprint/src/tech.rs:5-107 | a tag is detected, in some case, if and only if the server header, the powered-by header, an ASP.NET header or the page by its library marks shows it |
| `Technology.DetectedDistinct` | crates/scanerr-fingerprint/src/tech.rs:142-146 | every offered tag is there in some case and no two detected tags are alike |
| `Normalize.Slugify` | src/normalize.rs:89-106 | the loop builds the hyphenated text, trimmed |
| `Normalize.SlugForm` | src/normalize.rs:87-106 | lower-case letters and digits with single hyphens strictly inside, and all letters and digits of the text kept in order |
| `Normalize.SlugIsWords` | src/normalize.rs:87-106 | a slug is the pieces between spaces, underscores and hyphens, their letters and digits in lower case, one hyphen between any two that have any |
| `Normalize.SlugFixed` | src/normalize.rs:87-106 | the fixed points of slugging are exactly the slugs |
| `Normalize.CanonicalProductFixed` | src/normalize.rs:80-85 | a canonical product is a slug and canonical |
| `Normalize.CanonicalTagFixed` | src/normalize.rs:126-172 | a canonical tag is on the allowlist and stays as it is |
| `Normalize.TagSources` | src/normalize.rs:126-172 | the texts that give each canonical tag: the tag in any case, unless it is an alias itself, and its aliases; the checks for device names and control characters turn nothing else away |
| `Normalize.KindsMerged` | src/normalize.rs:18-24 | `https` and `camera` are taken for `http`, every other kind stays |
| `Normalize.KindsOfCategory` | src/normalize.rs:26-42 | the kinds of each category |
| `Normalize.NormalizeTags` | src/normalize.rs:179-196 | the sorted set of the category and the canonical tags |
| `Normalize.NormalTagsMean` | src/normalize.rs:179-196 | strictly sorted, and holding exactly the category and what some raw tag canonicalises to |
| `Normalize.TagsAsSet` | src/normalize.rs:179-196 | the tags depend only on the set of raw tags |
| `Normalize.NormalizeService` | src/normalize.rs:5-11 | kind, product and tags made canonical, other fields untouched |
| `Normalize.NormalizedForm` | src/normalize.rs:5-11 | the result is a normal form, and normalising leaves a record alone if and only if it is one |
| `Normalize.NormalizedTwice` | src/normalize.rs:201-202 | normalising twice is normalising once |
| `Reidentify.ReidentifyRecord` | src/reidentify.rs:46-71 | reset, detect, merge, identify and normalise one record in place; afterwards it has no version, the canonical kind, the tags of its page with the detected ones merged in, and all fields but these, product, confidence and tags as they were |
| `Reidentify.FindingsForgotten` | src/reidentify.rs:48-52 | the outcome does not depend on the product, version, confidence or tags found before |
| `Reidentify.SecondRun` | src/reidentify.rs:46-71 | the second run gives what the first would have given with the kind made canonical beforehand |
| `Reidentify.SettledByOne` | src/reidentify.rs:46-71 | one run settles a record if and only if identification of the reset record has no winner with either kind, or winners of one canonical product, confidence and set of canonical tags |
| `Reidentify.CanonicalSettledByOne` | src/reidentify.rs:46-71 | so one run settles every record whose kind is canonical |
| `Reidentify.SettledByTwo` | src/reidentify.rs:46-71 | for any record a third run changes nothing |
| `Reidentify.BlindSettledByOne` | src/reidentify.rs:46-71 | with signatures that do not look at the kind one run settles every record |
| `Reidentify.NotSettledByOne` | src/reidentify.rs:46-71 | a record of kind `camera` and one signature on the kind: the second run takes the product away again |
| `KeysetRewrite.RewriteAll` | src/normalize.rs:207-256 | for any table and page size the loop ends with every selected row with a positive id rewritten, once, in ascending order, no other row touched, and `updated` the number of rows that changed; or stops at the first row that cannot be read or written, or at a page that cannot be fetched, with just the rows before it rewritten |
| `KeysetRewrite.AllDoneMeans` | src/normalize.rs:207-256 | row by row, a finished run leaves each selected row with a positive id as its rewrite and every other as it was; the visits ascend, and the count is of the rows that read differently |
| `KeysetRewrite.RewriteRow` | src/normalize.rs:232-243 | a row that passes reads as its rewrite afterwards, one that does not leaves the table as it was, and the count grows by the number of rows altered |
| `KeysetRewrite.PageNext` | src/normalize.rs:216-222 | a page holds the next ids in order, none left out |
| `KeysetRewrite.SecondRunUpdatesNone` | src/normalize.rs:198-206 | for a rewrite that settles, a second run reads every row and updates none |
| `KeysetRewrite.ThirdRunUpdatesNone` | src/reidentify.rs:5-11 | for a rewrite that settles in two, a third run reads every row and updates none |
| `Maintenance.Backfill` | src/normalize.rs:207-256 | every row with a positive id reads as its record normalised, others as before; or the run was interrupted |
| `Maintenance.BackfillAgain` | src/normalize.rs:198-206 | a second backfill updates nothing |
| `Maintenance.ReidentifyHttp` | src/reidentify.rs:12-95 | every row with a positive id and an HTTP payload reads as its record re-identified, others as before; or the run was interrupted |
| `Maintenance.ReidentifyTwice` | src/reidentify.rs:12-95 | when every kind met is canonical a second re-identification updates nothing |
| `Maintenance.ReidentifyThrice` | src/reidentify.rs:12-95 | a third re-identification updates nothing, whichever rows carry an HTTP payload |

## Left out

- Tokenizing.Tokenizer.NextToken: stated on ASCII text, where the byte cursor and the character cursor agree; Unicode letters, digits and spaces are not modelled.
- QueryCompiler.Emitter.CompileFullText: builds its six alternatives from the last to the first, where the code maps over the columns and joins; the text is the same.
- Comparisons inside SQL text: one comparison is one token with a meaning left open, so that a row is any valuation of them, also one no table can hold (two different countries at once); quoting of interpolated literals and LIKE patterns is not modelled. Upper-casing of country codes is ASCII.
- JsonPath.BuildNestedJson: yields the object; serialising it to text is the JSON library's work.
- QueryAgreement.CompilationMeaning: one direction; the other is `QueryExactness.MeaningExactly`, for trees whose leaves compare with different texts. Where texts repeat, `QueryExactness.RepeatedWord` and `QueryExactness.SwappedTexts` show clauses that are right by coincidence; the exact condition on what the database reads, for all trees, is `QueryAgreement.BoundAgreement`.
- PostgreSQL itself: a statement is atomic, SKIP LOCKED picks among rows not locked by another claim, and the identity column counts up by one per insert.
- LeasedQueues.LeasedQueue.Sweep: runs its two statements with nothing in between, as one caller does alone; `Deepscan` and `LeaseTable` take them as two steps with others in between.
- Deepscan.HandOff: an insert that reports an error counts as handed on, since the code only logs it. What a scan finds is an arbitrary input.
- ProbeStage.HandOff: what a probe finds is an arbitrary input; services are told apart by address, port and transport (there is no server name in this loop). The honeypot mark on hosts is left out; a save is the insert of the service.
- The enrichment loop (`src/main.rs:394-443`): claim, run, complete whatever the result; its statements appear in `ProbeStage` as arbitrary claims and completions.
- Exclusion per address and a cap on attempts: neither holds, and neither is claimed.
- The CONNECT packet: its declared length is two short of what is written, so nothing is stated about its framing.
- Mqtt.ParseTopics: UTF-8 decoding is a parameter, any partial function from bytes to text.
- Matching.Evaluate: the exact intermediate percentages, which depend on binary rounding. Sums of weights do not overflow.
- Matching.TwinComplement: regular expressions, hashing, number parsing and case folding are parameters; folding agrees with ASCII on ASCII text.
- Evidence.From: headers are a list in the order of the map. What gives no evidence (RTSP, SCCP, MikroTik and POP3 payloads, the hash of the headers, redirects) is one opaque rest that every step keeps.
- Technology.Detect: white space and the case of page text are ASCII; on other pages the byte positions of the lower-cased text need not fit the text.
- KeysetRewrite.RewriteAll: takes the treatment of one row as a function from stored JSON to JSON; that the in-place methods compute that function is `Normalize.NormalizeService` and `Reidentify.ReidentifyRecord`. The table is not written by anyone else while the loop runs.
- Maintenance.ReidentifyThrice: supposes that a written record reads back as itself, and that nobody else writes the table meanwhile.
- Sockets, timeouts, TLS, the web interface, configuration, the port scanner and the other protocol probes: input and output, or short decoders with no deep invariant.
