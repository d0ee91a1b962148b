# virt-db: a caching MySQL proxy, modelled and verified

virt-db sits between MySQL clients and one MySQL server. A session copies bytes in both
directions, answers some SELECTs from Redis, attributes the server's bytes to the requests
that caused them, and writes attributed responses back to Redis through a worker. A second job
aggregates execution logs into metrics. This project models that core in Dafny and proves what
holds of it for every input, every interleaving and every number of sessions.

## How it is organised

| module | what it models |
|---|---|
| `Protocol` | packet types, the error packet and a reader for it |
| `Comments`, `Keys`, `Tokens`, `Patterns` | comment stripping, cache keys, token matching, query patterns |
| `Meta`, `Handler` | the template list, the request handler with its mutable context |
| `Session` | one connection as a step system: one step is what a loop does between two awaits |
| `Conservation`, `Streams` | what every run keeps, with no assumption on client or server |
| `Deadlock` | exactly when a session stops moving, and a run that does |
| `Discipline` | attribution and progress of one session with a well-behaved client and server |
| `Truth` | when cached bodies are right, and what follows for one session |
| `Loops` | the two loops as code on a mutable `Connection`; each turn is a run of the step system |
| `System` | any number of sessions, one Redis with expiry, one worker, one template list, one metrics job |
| `Writes` | cache writes from the sessions to Redis: conservation, life time, the clock |
| `Runs`, `Sharing` | orderly runs of the whole proxy; transparency of the shared cache |
| `Collision` | a run in which the shared cache is not transparent |
| `Average`, `Metrics`, `Accounting` | the running average, sorting, grouping, aggregation, batches, totals over all sessions |

A session's state holds both loops' program counters and variables, the capacity-1 channel, the two
locks, and the history of what was read, written, sent and finished. A label carries whatever the
environment answers (chunks read, Redis replies, clock readings), so a statement about every label
sequence is a statement about every environment. Sessions share Redis, the queues and the template list
in `System`, where time passes in steps of its own.

Two hypotheses are kept apart.

* `Runs.OrderlyRun`: every client chunk is one complete packet of 5 to 8192 bytes with a known type byte;
  a request is sent only after the client has received the whole reply to each earlier one, and when the
  server's last response was not empty; the server answers the packets it receives in order, in chunks of
  any size up to the buffer. A server is an arbitrary response for each request of each session: equal
  packets may be answered differently, and nothing is assumed of what the cache holds. Attribution,
  replies and progress need no more than this.
* `Sharing.HonestRun`: whenever a request is about to be looked up in the cache, its response is the one
  its text determines, stripping the text does not change that answer, the stripped text has no backslash,
  and something (the login) was forwarded before it. Nothing is asked of any other request. Only
  transparency and the truth of cache writes need it, and `Collision.CollisionServed` shows what happens
  without it.

## Results that show a limit of the code

* `Streams.RemoteStreamFaithful`, `Streams.StrayChunksRepeat`: a chunk of unknown type is forwarded but
  never cleared from the read buffer (server/src/serve/mod.rs:100-103); forwarding is faithful exactly
  when no chunk but possibly the last is of unknown type, and two such chunks reach the server as three.
* `Deadlock.PipeliningDeadlocks`: four pipelined pings and two chunks from the server leave the client
  loop waiting for room in the channel with the handler lock in its hands, and the remote loop waiting
  for that lock, for ever.
* `Collision.CollisionServed`: for any two texts such that one is looked up under the key the other is
  stored under, an orderly run answers the one with the other's response. Such texts exist:
  `Keys.KeyCollision` has `SELECT '"'` stored and `SELECT '\"'` asked; `Keys.QuotedCommentCollides` has
  `SELECT ''` stored and `SELECT '/*a*/'` asked, because the scanner does not know string literals
  (server/src/utils/sys_sql.rs:307-328; section 9.7 of the MySQL 8.0 Reference Manual reads a `/*`
  inside quotes as text). `Collision.EscapedQuoteServed` and `Collision.QuotedCommentServed` are the runs.
* `Tokens.TransitiveThrough`: matching is transitive through a list exactly when it has no placeholder.
* `Patterns.TemplateSelfMatch`: a query does not match its own pattern when the rewriter dropped an
  operand of several tokens.
* `Protocol.ErrorRoundTrip`: an error payload of 2^24 bytes or more cannot be read back.

## Model

| member | source | states |
|---|---|---|
| `Sharing.Transparency` | server/src/serve/mod.rs:74-230 | In every orderly, honest run of any number of sessions over one Redis, each client has received a prefix of what a direct connection gives it, and exactly that whenever its session is at rest. |
| `Sharing.HonestKept` | server/src/sys_assistant_client.rs:166-190 | The inductive invariant of transparency: every queued, held or stored body is the answer of the text of its key, and every body taken from the cache is the server's own response to that request; each honest step of sessions, worker, clock or jobs keeps it. |
| `Sharing.StoredTruthful` | server/src/serve/mod.rs:314-340 | What a cacheable text is looked up under leads to its own response, although that text was stripped and the stored one escaped. |
| `Sharing.ReplyTruthful` | server/src/serve/mod.rs:331-353 | A body that Redis returns for a looked-up request is empty or the server's own response to that request. |
| `Sharing.RunTasks` | server/src/serve/mod.rs:395-406 | In every orderly, honest run, each cache write of each session carries the answer of its own text. |
| `Sharing.RepliedTruly` | server/src/serve/mod.rs:268-413 | From rest, any valid request, cacheable if it is a SELECT, can be sent and answered with exactly the server's own response, in a run that stays orderly and honest. |
| `Collision.CollisionServed` | server/src/serve/mod.rs:314-353 | For any two texts whose look-up and store keys coincide and any server, an orderly run ends at rest with the first text's response read in answer to the second; it is transparent if and only if the two responses are equal. |
| `Collision.EscapedQuoteServed` | server/src/serve/mod.rs:275-353 | For a library that upper-cases ASCII and templates equal to the two texts, a run answers SELECT of an escaped quotation mark with the response to SELECT of a bare one. |
| `Collision.QuotedCommentServed` | server/src/utils/sys_sql.rs:307-328 | Likewise a run answers a SELECT with a comment inside its quotes with the response to SELECT of the empty text. |
| `Runs.RunAttribution` | server/src/serve/mod.rs:178-192 | In every orderly run, for every server and every cache reply: the k-th finished body is exactly the response to the chunk of the k-th finished context, behind the greeting if it is the first, and that chunk is the k-th the server received. |
| `Runs.RunReplies` | server/src/serve/mod.rs:169-222 | In every orderly run a client has received, in order, the whole reply to every request when its session rests, a prefix before, and never another byte; a reply is the server's response or the body taken from the cache. |
| `Runs.Progress` | server/src/serve/mod.rs:111-128 | In every orderly run, for every server and cache, an unanswered request has an enabled step that brings the session closer to rest, or the queue in its way is full and has a consumer that can step; the channel send never blocks. |
| `Runs.Completes` | server/src/serve/mod.rs:74-230 | Every orderly run continues, without a new request of session i, to one where that session is at rest and its client has every reply. |
| `Runs.Replied` | server/src/serve/mod.rs:268-413 | From rest, any valid request can be sent and answered: the discipline admits runs of every length. |
| `System.TtlSafety` | server/src/sys_assistant_client.rs:171-180 | For every run, each cached body that reached a client was given by Redis under the key of that client's own request at a time t, and was written under that key at t0 with t0 <= t < t0 + max(60, d), where d belongs to the first template, in list order, that matched when the storing request was handled. |
| `System.HitBacked` | server/src/serve/mod.rs:331-353 | A session adds a hit exactly when Redis has given it a body, under the key of the request being answered. |
| `System.FoundAgain` | server/src/serve/mod.rs:314-340 | In every run, an entry that is neither expired nor overwritten by the same text answers a look-up if and only if the escaped stored text is the stripped request. |
| `System.ExpiryForwards` | server/src/serve/mod.rs:331-347 | Expiry between EXISTS and GET forwards the request without a cache write and serves nothing. |
| `System.CacheWorker.HandleTask` | server/src/sys_assistant_client.rs:166-187 | One turn of the worker takes the oldest task and no other, and stores its body under the escaped key, from now on for max(60, duration) seconds, leaving all other keys alone, or drops it when Redis refuses; it is the step system's receive followed by store or refusal on the same queue and store. |
| `Writes.WritesConserved` | server/src/sys_assistant_client.rs:166-187 | For every run, all cache writes ever sent are, in order, those the worker stored or was refused, the one it holds and those queued; each session's are exactly its share; Redis holds the replay of the stored ones, each under the key of its text and as of its own time. |
| `Writes.StoredLives` | server/src/sys_assistant_client.rs:171-180 | A stored write is found at time t if and only if t is less than max(60, duration) seconds later, with its body. |
| `Writes.ClockSums` | server/src/sys_assistant_client.rs:175-180 | The time of a run is the sum of what elapsed, and no write is dated in the future. |
| `Accounting.MetricsEndToEnd` | server/src/serve/mod.rs:416-425 | For every run, batches ++ collected ++ queued logs are the logs sent in order; executions and hits over all reports plus pending ones equal the completed requests, and those answered from the cache, whose text parses with a query as its last statement. |
| `Truth.SessionTransparent` | server/src/serve/mod.rs:169-222 | If every body taken from the cache is the server's response, what one client received is a prefix of the direct connection's bytes, all of them at rest. |
| `Truth.TasksTruthful` | server/src/serve/mod.rs:395-406 | Every cache write of a session whose look-ups were cacheable holds the answer of its own text. |
| `Truth.LookupsStep` | server/src/serve/mod.rs:294-353 | Every context that asks for a cache write, or consults the cache, was made for a cacheable text after the login. |
| `Discipline.ExactAttribution` | server/src/serve/mod.rs:178-192 | In a disciplined state every finished body is the complete response to the chunk of its own context, with the greeting in front of the first and no other byte. |
| `Discipline.DisciplinedStep` | server/src/serve/mod.rs:74-230 | Every orderly step, for every server and every Redis reply, keeps request bookkeeping, delivery of the chunks, the flow balance (received + in hand + unread = replies due) and attribution. |
| `Discipline.AllReceived` | server/src/serve/mod.rs:169-222 | From the flow balance: what was received is a prefix of the replies due, and all of them at rest. |
| `Discipline.SendNeverBlocks` | server/src/serve/mod.rs:118 | In a disciplined state the channel is empty whenever a context is about to be sent. |
| `Discipline.RankDecreases` | server/src/serve/mod.rs:74-230 | Every orderly step but a new request or the end lowers a natural number. |
| `Discipline.MoveEnabled` | server/src/serve/mod.rs:111-128 | While a request is unanswered some such step is enabled, whatever the templates are and whatever Redis replies: no wait for lock or channel is circular. |
| `Streams.AlwaysSound` | server/src/serve/mod.rs:48-244 | Every run keeps mutual exclusion, context order, the byte partition, both stream laws and the reporting law. |
| `Streams.ContextsConserved` | server/src/serve/mod.rs:178-190 | For every run, contexts sent = finished ++ current ++ in the remote loop's hands ++ channel (at most one), as sequences, and finished ones are in request order, none twice. |
| `Streams.BytesPartitioned` | server/src/serve/mod.rs:181-192 | For every run, finished bodies ++ buffer are all bytes read from the server; body k is exactly the slice between two adoptions, the first also holding everything earlier. |
| `Streams.ClientStreamFaithful` | server/src/serve/mod.rs:127-131 | For every run, wherever it stops, the writes to the client are an order-preserving merge of whole server chunks and whole cached bodies, all that were taken but at most one of each in a loop's hands. |
| `Streams.RemoteStreamFaithful` | server/src/serve/mod.rs:98-103 | For every run, wherever it stops, the server got exactly the chunks not answered from the cache if and only if no chunk but possibly the last one disposed of has an unknown fifth byte, and then write by write. |
| `Streams.ForwardingFaithful` | server/src/serve/mod.rs:149-150 | The same equivalence at any single state. |
| `Streams.StrayChunksRepeat` | server/src/serve/mod.rs:100-103 | A run of two chunks of unknown type in which the server receives the first one twice. |
| `Streams.TextsStep` | server/src/serve/mod.rs:105-110 | Every context, sent, answered or in hand, carries the text of the chunk it was made for. |
| `Streams.ReportsStep` | server/src/serve/mod.rs:382-433 | Each finished or answered request leaves one log exactly when its text parses and its last statement is a query, with the printed pattern of that statement and flagged by where the answer came from, and one cache write exactly when its context asked for it, in finishing order. |
| `Conservation.LocksStep` | server/src/serve/mod.rs:67-72 | Each lock has at most one holder and its owner is the loop whose program counter says so. |
| `Conservation.HandOff` | server/src/serve/mod.rs:67-72 | A lock that its holder lets go of belongs at once to the other loop if that waits for it, and to nobody otherwise. |
| `Conservation.ContextsStep` | server/src/serve/mod.rs:115-119 | Every step keeps the sequence equation between contexts sent, finished, current and in the channel. |
| `Conservation.TagsStep` | server/src/serve/mod.rs:323-329 | A context that asks for a cache write carries the duration of the first template that matched its SQL; forwarded contexts are in request order and never flagged as served from the cache. |
| `Conservation.PartitionStep` | server/src/serve/mod.rs:164-192 | Every step keeps the cut of the server's bytes at adoptions. |
| `Deadlock.StuckExactly` | server/src/serve/mod.rs:111-118 | In every state a run can reach, a session has no step but input if and only if both loops wait for input, or the client loop's send is blocked while the remote loop reads or wants the handler lock. |
| `Deadlock.OnlyInput` | server/src/serve/mod.rs:182 | A blocked send waits for the server alone; a deadlocked session can only end. |
| `Deadlock.BlockedSend` | server/src/serve/mod.rs:64 | A blocked send is blocked by the context sent just before it, still undrained, with all others received. |
| `Deadlock.PipeliningDeadlocks` | server/src/serve/mod.rs:118 | A concrete run that deadlocks. |
| `Loops.Connection.ClientTurn` | server/src/serve/mod.rs:74-158 | One turn of the client loop on mutable state changes the connection exactly as the sequential specification says: panic, unknown type, forward, blocked send or cache hit. A forwarded context carries its two start times; the log of a hit has the time since the turn began, no MySQL time, and what Redis took. |
| `Loops.Connection.RemoteTurn` | server/src/serve/mod.rs:161-230 | One turn of the remote loop: old context finished with its body and logged with its own three durations, new one adopted, chunk buffered and relayed, and the current context stamped with the time since its request and since it was forwarded. |
| `Loops.ClientTurnRun` | server/src/serve/mod.rs:79-151 | The client loop's sequential specification is a run of the step system. |
| `Loops.RemoteTurnRun` | server/src/serve/mod.rs:169-222 | The remote loop's sequential specification is a run of the step system. |
| `Loops.TurnsAreRuns` | server/src/serve/mod.rs:232-243 | Turns after a run make a longer run, so every result about runs holds of a connection served turn by turn. |
| `Handler.DecisionTable` | server/src/serve/mod.rs:268-368 | Redis is asked if and only if the request is a COM_QUERY whose text, without comments and upper-cased, starts with SELECT, has no three NULs and an ETX in a row, and has tokens that match some template; then the cache is written, read or left alone by the two replies, under the duration of the first template that matches; every field of the context in every case. |
| `Handler.ConnectionHandler.HandleRequest` | server/src/serve/mod.rs:268-368 | The handler's code computes the decision and the context that the decision table is about, and touches no other clock field. |
| `Handler.ConnectionHandler.ConsultCache` | server/src/serve/mod.rs:313-353 | The part between the two questions to Redis. |
| `Handler.ConnectionHandler.FindTemplate` | server/src/serve/mod.rs:296-307 | The search stops at the first matching template. |
| `Handler.ConnectionHandler.HandleResponse` | server/src/serve/mod.rs:371-380 | Each duration is stamped with its own clock reading and nothing else changes. |
| `Handler.ConnectionHandler.LookUp` | server/src/serve/mod.rs:294-353 | The part of the handler a SELECT reaches: no template leaves the context alone, else the two replies decide. |
| `Handler.ConnectionHandler.HandleRemoteResponseFinished` | server/src/serve/mod.rs:382-433 | At most one cache write and at most one log, each exactly under its condition. |
| `Meta.FirstMatch` | server/src/serve/mod.rs:298-307 | None exactly when no entity matches, else the entity at the first matching index. |
| `Meta.CacheConfigList.Reload` | server/src/meta.rs:16-23 | A reload leaves one entity for each new row, in order, with the row's id and duration and the tokens, but for blanks, of its upper-cased and trimmed template. |
| `Keys.EscapeInjective` | server/src/sys_assistant_client.rs:169 | Debug escaping is injective over all strings, whatever counts as printable. |
| `Keys.KeySound` | server/src/serve/mod.rs:275 | A hit comes from exactly one stored text, whose escaped form is the stripped request; it is the stripped request itself if and only if that has no backslash. |
| `Keys.KeyComplete` | server/src/serve/mod.rs:314 | The two keys of one text agree if and only if stripping and escaping both leave it alone. |
| `Keys.QuoteCollides` | server/src/serve/mod.rs:314 | Any text with one quotation mark is stored under the key of the text that has it escaped. |
| `Keys.KeyCollision` | server/src/serve/mod.rs:314 | Two SELECT texts whose store key and look-up key coincide. |
| `Keys.QuotedComment` | server/src/utils/sys_sql.rs:307-328 | A text with a comment inside its quotes is looked up under the key the text without it is stored under. |
| `Tokens.IsPatternMatch` | server/src/utils/sys_sql.rs:50-114 | The indexed loop with early return decides equal length and agreement at every position. |
| `Tokens.MatchingIsSubstitution` | server/src/utils/sys_sql.rs:75-110 | The matcher accepts if and only if replacing each placeholder, on either side, by exactly one token makes the lists alike. |
| `Tokens.MatchingRelation` | server/src/utils/sys_sql.rs:71-112 | Reflexive, symmetric, and transitive through a middle list without placeholders. |
| `Tokens.PlaceholderNotTransitive` | server/src/utils/sys_sql.rs:100-105 | Transitivity fails through a placeholder for any two unlike tokens. |
| `Tokens.TransitiveThrough` | server/src/utils/sys_sql.rs:71-112 | Matching is transitive through a list, for all lists on either side, if and only if it has no placeholder. |
| `Tokens.BlanksDoNotMatter` | server/src/utils/sys_sql.rs:116-127 | End-of-file and whitespace tokens anywhere change no verdict once both sides are filtered. |
| `Tokens.Trimmed` | server/src/utils/sys_sql.rs:116-127 | The filtered list has no such token, and is the list itself if and only if that has none. |
| `Patterns.ReplaceIdempotent` | server/src/utils/sys_sql.rs:187-227 | The rewriter is idempotent and keeps the skeleton. |
| `Patterns.ReplaceKernel` | server/src/utils/sys_sql.rs:187-227 | Two expressions are rewritten alike if and only if they share a skeleton. |
| `Patterns.TemplateShape` | server/src/utils/sys_sql.rs:187-227 | A rewritten expression prints no longer than the original, equally long if and only if each dropped operand is one token, and then matches it. |
| `Patterns.TemplateSelfMatch` | server/src/utils/sys_sql.rs:137-185 | A query matches the template made of its metric pattern if and only if each dropped operand is one token. |
| `Patterns.SamePatternMatches` | server/src/utils/sys_sql.rs:137-185 | Of all queries with one pattern, that pattern as a template matches exactly those with single-token operands. |
| `Patterns.SqlToPattern` | server/src/utils/sys_sql.rs:137-185 | There is a pattern if and only if the text parses to a non-empty list whose last statement is a query. |
| `Comments.RemoveComments` | server/src/utils/sys_sql.rs:307-328 | The loop over a peekable iterator computes the recursive scanner, trimmed. |
| `Comments.ScanRemovesComments` | server/src/utils/sys_sql.rs:307-328 | On t0 /\*c1\*/ t1 ... /\*cn\*/ tn with clean texts and comments the scanner returns t0 t1 ... tn, trimmed. |
| `Comments.TextRuns` | server/src/utils/sys_sql.rs:315-324 | For every input, outside a comment everything up to the first opener is kept. |
| `Comments.CommentRuns` | server/src/utils/sys_sql.rs:315-324 | For every input, inside a comment everything is dropped up to the first star and slash whose star no slash before it has taken for another opener. |
| `Comments.Unclosed` | server/src/utils/sys_sql.rs:315-324 | A comment without such an end takes all the rest. |
| `Comments.TrimExact` | server/src/utils/sys_sql.rs:327 | Trimming removes all white space at both ends and nothing else. |
| `Comments.StrippedSubsequence` | server/src/utils/sys_sql.rs:307-328 | For every input the output is a subsequence of the input. |
| `Comments.StripIdempotent` | server/src/utils/sys_sql.rs:307-328 | Stripping twice is stripping once if and only if the output holds no comment opener. |
| `Protocol.ErrorPacket` | server/src/protocol/mod.rs:30-52 | Pushes, pop and appends build three little-endian length bytes, sequence 1 and the ERR payload. |
| `Protocol.ErrorRoundTrip` | server/src/protocol/mod.rs:30-52 | An independent reader recovers (1, code, state, message) if and only if the payload is below 2^24 bytes. |
| `Protocol.ErrorDecodeSound` | server/src/protocol/mod.rs:30-52 | What the reader accepts with sequence 1 is an error packet of the proxy. |
| `Protocol.TypeByCode` | server/src/protocol/mod.rs:59-93 | A packet has a type if and only if its fifth byte is the code that the enumeration declares for it, and none exactly for 0x1b, 0x1c and 0x20 upwards. |
| `Average.AveragedCollection.Add` | server/src/math/avg.rs:18-22 | The element is appended and the average is the old sum plus the element over one more than the old length. |
| `Average.AveragedCollection.Remove` | server/src/math/avg.rs:25-35 | The last element is taken off; removing the only one leaves NaN. |
| `Average.AveragedCollection.UpdateAverage` | server/src/math/avg.rs:43-46 | The summing loop computes the exact mean, NaN for an empty list. |
| `Average.SumAppend` | server/src/math/avg.rs:43-46 | The sum behind the mean is additive over concatenation; with the sum of one element this leaves no other function. |
| `Average.ReportedAverage` | server/src/sys_assistant_client.rs:111 | The reported average of non-negative durations is the floor of the mean, between minimum and maximum, cut off at 2^31 - 1. |
| `Metrics.SortProperties` | server/src/sys_assistant_client.rs:79 | The sort by SQL text yields ordered keys and keeps each text's logs in arrival order. |
| `Metrics.LessExactly` | server/src/sys_assistant_client.rs:79 | The order of keys: a proper prefix, or the smaller character at the first difference. |
| `Metrics.Summarise` | server/src/sys_assistant_client.rs:83-106 | The loop over a group folds maximum, minimum, hits, count and average. |
| `Metrics.GroupEnd` | server/src/sys_assistant_client.rs:80 | A group of the sorted logs runs to the next different text. |
| `Metrics.HandleMetrics` | server/src/sys_assistant_client.rs:77-120 | Report keys are strictly increasing and are exactly the distinct texts; each record summarises exactly its text's logs. |
| `Metrics.ReportExact` | server/src/sys_assistant_client.rs:83-116 | Extremes bound and are attained, hits do not exceed executions, the average lies between the extremes. |
| `Metrics.ReportConserves` | server/src/sys_assistant_client.rs:77-120 | Executions and hits summed over a report equal logs and hit logs aggregated. |
| `Metrics.ReportsConserve` | server/src/sys_assistant_client.rs:64-74 | The same over all batches of a run. |
| `Metrics.BatchesDoNotMatter` | admin/src/controller/metric_history_controller.rs:96-121 | For any split into batches, merging the records of a text by max, min and sum gives what one aggregation of all logs gives. |
| `Metrics.LogReceiver.HandleMessages` | server/src/sys_assistant_client.rs:59-75 | A tick drains everything queued into one batch in order; an empty batch is not reported. |

## Left out

- Sockets, drivers, HTTP posting of reports, logging, configuration: a failed read or write on either stream is the step `Ends`; a failed write to the client after a cache hit, which the code logs and ignores, is not modelled, so both stream results are about writes that succeed.
- Tokio: the mutexes are fair, so a released lock goes straight to a waiting loop. `select!` runs both loops in one task; a step is the code between two awaits that can wait. Waits that always return at once (a lock that only one loop ever takes) are not steps.
- Library functions: UTF-8 decoding, upper-casing, the SQL tokenizer (no tokens on failure), the parser, the statement printer and printability of characters are arbitrary given functions (`Meta.Library`). `Patterns` prints an `Expr` to visible tokens itself; that the real printer followed by the real tokenizer yields those tokens is assumed, not modelled. A Dafny `char` also covers surrogates, which Rust's does not.
- Sharing.Transparency: the response to a looked-up request may not depend on state outside its text (current database, user, character set, writes between two look-ups); `HonestRun` states it for those requests. The login must have a known type byte; many real logins do not, and then every later chunk of that connection is of unknown type too.
- Streams.RemoteStreamFaithful: what a server does with bytes it receives twice is not modelled.
- Loops.Connection.ClientTurn: a turn nothing interrupts, from a state where no lock is held; interleavings inside a turn are in `Session`, on values. A connection whose client loop is blocked on the channel is not resumed as an object.
- Loops.Connection: contexts leave a turn with their clock fields, but the step system carries only the fields that steer it; durations in logs are arbitrary non-negative numbers there.
- Handler.ConnectionHandler.HandleResponse: durations are differences of clock readings that saturate at zero; no ordering between total and MySQL time is claimed.
- Deadlock.StuckExactly: a write to client or server is a step that is always enabled; the code can also wait inside a write, the client loop with the handler lock held, when a peer stops reading, and such a wait is not counted as being stuck.
- Keys.KeyComplete: says when the two keys agree; that the entry is then found while it is unexpired and not overwritten is `System.FoundAgain`.
- Runs.Progress: the consumers of the two queues (capacity 10^6) can always step; that they are scheduled, and fairness between sessions, is not modelled: `Completes` says that a run can be continued, not that every schedule does so.
- System.CacheWorker.HandleTask: the connection to Redis and its reconnection are not modelled; a refused write is dropped as in the code.
- Meta.CacheConfigList.Reload: a reload is one atomic step; the code refills an unsynchronised global while sessions read it. Columns that the handler never reads are dropped.
- Average.AveragedCollection.UpdateAverage: floating point is idealised to exact division, and sums do not overflow 64 bits.
- Metrics.HandleMetrics: counters are unbounded, the fields for database name and creation time are dropped, and a lost report is not modelled. The average over several batches is not claimed to agree, because the query averages averages without weights and by minute.
- Metrics.SortProperties: the library's stable sort is modelled by a stable insertion sort on values; strings are compared by code point, as Rust's byte order does.
- `Action::DROP` (never produced), `normally`, `is_sql_pattern_match`, commented-out code and the admin crate apart from its aggregation query are not part of this model.
