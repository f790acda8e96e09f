# Q-Free India waiting line: a Dafny model

This project models the core of Q-Free India. The core is the per-shop FIFO waiting line held in Redis, plus the pieces around it:

- the four Express queue routes: join, serve-next, remove and state;
- the admin session gate: login, logout and `requireAdmin`;
- the two browser pages that react to `queue:update` broadcasts: the operator dashboard and the customer page.

Everything is written as pure functions over immutable values. A route is a step `(store, request) -> (store', reply, event?)`, and the server's broadcasts are an append-only event log.

Modules, one per concern:

- `Common`: `Option`, `Result`, the routes' error tags with their status codes and messages, and JavaScript truthiness of a body field.
- `Seqs`: `LREM key 0 name` as `Without`, which removes every occurrence of a name. It also holds the subsequence order that removal keeps.
- `Store`: the Redis lists as `map<shopId, seq<name>>`. A missing key reads as the empty line. A line that becomes empty is deleted, as Redis does. `Valid` is the store invariant every route keeps: no empty list and no blank name.
- `Projection`: the position projector. The i-th name gets the positional id shopId-i, position i + 1 and, in the estimated form, an estimate of i * 4 minutes.
- `Updates`: the three `queue:update` event shapes and the `Step` a route returns.
- `JoinRoute`, `ServeNextRoute`, `RemoveRoute`, `StateRoute`: one module per route file.
- `Admin`: `requireAdmin`, `/login` and `/logout`. The session is the browser's `admin_auth` cookie.
- `Server`: dispatches requests to the routes and appends each emitted event to the log. It also holds the sequential-join method and an end-to-end example.
- `PositionSort`, `Dashboard`: the dashboard's reducer, including its stable sort by position.
- `CustomerPage`: the customer page's reducer and `joinQueue`.
- `Reconcile`: what observers can rely on, and where it breaks. A dashboard whose list mirrors the shop's line and that then applies every broadcast in order keeps mirroring it, with the exact names and gapless positions, as long as every join is recorded. The dashboard does not wait for its state read before it subscribes, and the read's reply replaces whatever the list holds when it lands. The starting condition therefore holds only when the reply arrives before any event sent after the read and after every event sent before it. Two counterexamples show what happens when the reply and an event cross. A join whose record step fails also breaks the mirror.

The model keeps these behaviours exactly as the code has them:

- Remove has no not-found error. Removing an absent name succeeds and still broadcasts.
- Remove is not behind the admin gate.
- The record write (`queueEntry.create`) is awaited after the `RPUSH`, so it is not fire-and-forget. When it fails, the name stays queued, no event is sent and the reply is a 500. Store and broadcasts then disagree (`Server.RecordFailureQueuesSilently`, `Reconcile.RecordFailureDesyncs`).
- The JOIN delta's entry carries the record store's id, not the positional `shopId-i` id. It also carries no `etaMinutes`.
- The serve-next reply drops `etaMinutes`, but the event it broadcasts carries it.
- Join reads the length and then appends, as two steps. The model is sequential, so it states the join properties for sequential execution only.

Modelling choices:

- Entry ids are a datatype: `Slot(shop, index)` stands for the string made of the shop id, a hyphen and the index, and `Record(key)` stands for the record store's id. The positional string is injective because decimal digits contain no `-`. The model assumes a record id never equals a positional id.
- A serve-next pops the head before it checks `!name`. A blank head would therefore be removed and still reported as "Queue is empty". The model keeps this behaviour, and `Valid` proves it cannot happen.
- The page-side `SHOP_ID` constant is a `shop` parameter of the reducers.

## Model

| member | source | states |
|---|---|---|
| `Common.Status` | server/routes/adminLogin.ts:13-22 | every error reply is a 400, 401 or 500, and a 401 exactly for the missing cookie, the shop mismatch and the invalid PIN |
| `Common.MessagesDistinct` | server/middleware/adminAuth.ts:10-14 | every error tag has its own non-empty message string, so replies can be told apart by their error text |
| `Store.Line` | server/routes/queueState.ts:11 | reading the whole list of a shop with no key gives the empty line |
| `Store.LineNonEmptyIffKey` | server/routes/queueState.ts:11 | in a valid store a shop's line is non-empty exactly when its key exists |
| `Seqs.Without` | server/routes/queueRemove.ts:18-19 | removing a name leaves no occurrence of it, adds nothing and never lengthens the line |
| `Seqs.WithoutMultiset` | server/routes/queueRemove.ts:19 | removal drops exactly the occurrences of the name: every other name keeps its multiplicity |
| `Seqs.WithoutLength` | server/routes/queueRemove.ts:19-21 | the line shrinks by the number of occurrences of the removed name |
| `Seqs.WithoutIsSubsequence` | server/routes/queueRemove.ts:19-21 | the names left keep their relative order (the result is a subsequence of the old line) |
| `Seqs.WithoutAbsent` | server/routes/queueRemove.ts:19 | removing a name that is not queued leaves the line unchanged |
| `Seqs.WithoutIdempotent` | server/routes/queueRemove.ts:19 | removing the same name twice equals removing it once |
| `Seqs.WithoutConcat` | server/routes/queueRemove.ts:19 | removal distributes over concatenation, so each element is kept or dropped on its own |
| `Store.WithLine` | server/routes/queue.ts:18 | writing one shop's list changes only that shop's line, and an emptied list is deleted as in Redis |
| `Store.WithLineValid` | server/routes/queue.ts:11-18 | replacing a line by one without blank names keeps the store invariant |
| `Projection.Positions` | server/routes/queueState.ts:13-17 | the plain projection gives back the names unchanged, with positions 1..n, ids shopId-i and no estimate |
| `Projection.Projected` | server/routes/queueRemove.ts:25-30 | the estimated projection gives back the names, positions 1..n, ids shopId-i and estimate (position - 1) * 4 on every entry |
| `Projection.WithEta` | server/routes/queueServeNext.ts:39-44 | adding estimates keeps every other field of every entry and makes each estimate (position - 1) * 4 |
| `Projection.PositionsInjective` | server/routes/queueState.ts:13-17 | the projection loses nothing: equal views come from equal lines |
| `Projection.PositionsCharacterized` | server/routes/queueState.ts:13-17 | any view with the line's names, gapless positions, positional ids and no estimate is exactly the projection |
| `Projection.ProjectedCharacterized` | server/routes/queueRemove.ts:25-30 | any view with the line's names, gapless positions, positional ids and consistent estimates is exactly the estimated projection |
| `Projection.EtaProjectionsAgree` | server/routes/queueServeNext.ts:33-44 | serve-next's (position - 1) * 4 over the plain projection equals remove's i * 4, and stripping the estimates gives back the plain projection |
| `Projection.ProjectedEntry` | server/routes/queueRemove.ts:25-30 | the entry at index i names the i-th queued person, sits at position i + 1 and carries estimate i * 4 |
| `Admin.RequireAdmin` | server/middleware/adminAuth.ts:3-17 | admits iff the cookie is non-empty and equals the route's shop; a missing or empty cookie gets "No auth cookie" before any mismatch check; a cookie for another shop gets "Shop mismatch" |
| `Admin.Login` | server/routes/adminLogin.ts:10-31 | a falsy shopId or pin gets 400; an unknown shop, or a known shop whose stored PIN differs from String(pin), gets exactly "Invalid PIN" with the cookie unchanged; only success sets the cookie, to exactly the shop id; failures leave the cookie as it was |
| `Admin.PinString` | server/routes/adminLogin.ts:12 | a string pin is compared as it is; an integer pin is compared as its decimal form, with a leading minus sign exactly when it is negative |
| `Admin.Decimal` | server/routes/adminLogin.ts:12 | the decimal form of a natural number is non-empty, all digits, starts with 0 only for zero, and is "0" for zero |
| `Admin.DecimalRoundTrip` | server/routes/adminLogin.ts:12 | reading the decimal digits back gives the number |
| `Admin.DecimalInjective` | server/routes/adminLogin.ts:12 | two numbers have the same decimal form exactly when they are equal |
| `Admin.NumericPinsCompareByValue` | server/routes/adminLogin.ts:12-21 | two integer pins match the same stored PIN string exactly when they are the same number |
| `Admin.Logout` | server/routes/adminLogout.ts:5-10 | the cookie is cleared and the reply is success whatever the prior state |
| `Admin.LoginGrantsOnlyThatShop` | server/routes/adminLogin.ts:21-31 | after a successful login for S, requireAdmin admits S and rejects every other shop as a mismatch |
| `Admin.FailedLoginKeepsGate` | server/routes/adminLogin.ts:13-23 | a failed login leaves requireAdmin's verdict for every shop unchanged |
| `Admin.LogoutRevokes` | server/routes/adminLogout.ts:6-9 | after logout requireAdmin answers "No auth cookie", and logging out twice equals once |
| `JoinRoute.Join` | server/routes/queue.ts:7-51 | a falsy name or shopId fails with "Missing name or shopId" and changes nothing; otherwise the line becomes old ++ [name] and every other shop's line is unchanged; success iff the record step succeeds, and then the entry's position is old length + 1 and exactly one JOIN event with estimate old length * 4 is emitted; a failed record step leaves the name queued, emits nothing and answers a 500 |
| `JoinRoute.ValidAppend` | server/routes/queue.ts:11-18 | since join refuses empty names, appending keeps the store invariant |
| `JoinRoute.DuplicateJoinAppends` | server/routes/queue.ts:9-18 | joining under a name already queued adds a second occurrence |
| `JoinRoute.JoinEta` | server/routes/queue.ts:37-45 | the JOIN event's estimate is (entry position - 1) * 4 |
| `ServeNextRoute.ServeNext` | server/routes/queueServeNext.ts:10-47 | a rejected gate answers its reason before the store is touched; an empty line gives "Queue is empty" with no change and no event; on success the served name is the old head, the line becomes the old tail, other shops are unchanged, the reply queue has the tail's names at positions 1..n with ids shopId-i and no estimate, and the event carries the same queue with estimates |
| `ServeNextRoute.ValidTail` | server/routes/queueServeNext.ts:17 | popping the head keeps the store invariant |
| `ServeNextRoute.EveryoneMovesUp` | server/routes/queueServeNext.ts:17-30 | every entrant still queued moves forward by exactly one position and keeps their order |
| `ServeNextRoute.ReplyAndEventAgree` | server/routes/queueServeNext.ts:35-47 | the event's queue is the estimated projection of the new line, and the reply's queue is the same queue without estimates |
| `RemoveRoute.Remove` | server/routes/queueRemove.ts:7-39 | a falsy name fails with "Missing name" and changes nothing; otherwise the line loses every occurrence of the name, keeps the order of the rest, shrinks by the occurrence count, other shops are unchanged, and reply and REMOVE event carry the same name and the same estimated projection |
| `RemoveRoute.ValidWithout` | server/routes/queueRemove.ts:19 | removal keeps the store invariant |
| `RemoveRoute.RemoveAbsentName` | server/routes/queueRemove.ts:19-39 | removing a name nobody holds still succeeds, still broadcasts and leaves the line unchanged (no not-found error) |
| `RemoveRoute.RemoveIdempotent` | server/routes/queueRemove.ts:19-39 | a second identical removal leaves the same line and gives the same reply |
| `StateRoute.State` | server/routes/queueState.ts:6-19 | read-only: store unchanged and no event; the i-th entry names the i-th queued person, positions 1..n, ids shopId-i, no estimate |
| `StateRoute.StateAfterServeNext` | server/routes/queueState.ts:13-17 | a state read right after a serve-next returns exactly the serve-next reply's queue |
| `Server.Publish` | server/socket/emitter.ts:15 | broadcasting appends the event to the log and keeps everything already sent |
| `Server.Handle` | server/routes/queue.ts:40-50 | across all queue routes the log is append-only and grows by one exactly when a mutating route succeeds; the store invariant is kept; in a valid store every failure leaves store and log untouched except a join whose record step failed, which queued the name without an event |
| `Server.RecordFailureQueuesSilently` | server/routes/queue.ts:18-50 | a join with a failing record step answers 500, leaves the name queued and broadcasts nothing |
| `Server.HandleJoin` | server/routes/queue.ts:15-47 | a valid join with a recorded id answers the entry at position old length + 1 and logs its JOIN delta |
| `Server.HandleServeNext` | server/routes/queueServeNext.ts:17-47 | an admitted serve-next on a non-empty line answers the head and the re-projected tail and logs the estimated snapshot |
| `Server.HandleRemove` | server/routes/queueRemove.ts:19-39 | a remove answers and logs the estimated projection of the line without the name |
| `Server.JoinAll` | server/routes/queue.ts:16-33 | N sequential joins to one shop receive positions old length + 1, ..., old length + N, append the names in order and broadcast N events |
| `Server.WalkThroughJoins` | server/routes/queue.ts:16-38 | on an empty line Alice joins at position 1 with no wait, then Bob at position 2 with four minutes |
| `Server.WalkThroughServeAndRemove` | server/routes/queueServeNext.ts:17-47 | with Alice then Bob queued, serve-next serves Alice and broadcasts Bob at position 1 with no wait, and removing Bob empties the line |
| `PositionSort.Insert` | app/dashboard/page.tsx:66-68 | inserting adds one entry, and every entry of the result is the new one or an old one |
| `PositionSort.InsertPermutes` | app/dashboard/page.tsx:66-68 | insertion adds exactly the new entry to the multiset |
| `PositionSort.InsertSorted` | app/dashboard/page.tsx:66-68 | insertion into a list sorted by position keeps it sorted |
| `PositionSort.InsertStable` | app/dashboard/page.tsx:66-68 | the inserted entry goes ahead of the entries it ties with, and each position class keeps its order |
| `PositionSort.SortByPosition` | app/dashboard/page.tsx:66-68 | the sort returns a permutation of its input, sorted by position |
| `PositionSort.SortStable` | app/dashboard/page.tsx:66-68 | the sort is stable: entries at equal positions keep their prior relative order |
| `PositionSort.SortSorted` | app/dashboard/page.tsx:66-68 | a list already sorted by position comes back unchanged |
| `Dashboard.MergeJoin` | app/dashboard/page.tsx:62-69 | an entry whose id is already listed changes nothing; otherwise the list grows by one, gains exactly that entry, is sorted by position and keeps tie order |
| `Dashboard.OnUpdate` | app/dashboard/page.tsx:49-69 | events for another shop change nothing; SERVE_NEXT and REMOVE replace the list with the event's queue; a join is merged |
| `Dashboard.JoinIdempotent` | app/dashboard/page.tsx:63-68 | delivering the same JOIN event twice equals delivering it once |
| `Dashboard.DisplayEta` | app/dashboard/page.tsx:118 | the shown estimate is the entry's etaMinutes, or (position - 1) * 4 when it is absent |
| `Dashboard.DisplayedEtaIsPositional` | app/dashboard/page.tsx:118 | for an event of the shapes the routes emit (a JOIN entry without estimate, a snapshot with (position - 1) * 4 on every entry), every shown estimate equals (position - 1) * 4 |
| `Reconcile.EmittedEventsServerShaped` | server/routes/queue.ts:37-45 | every event any request makes the server broadcast has those shapes |
| `Reconcile.RunDisplaysPositionalEta` | app/dashboard/page.tsx:118 | across a whole run of requests, a dashboard that applies every broadcast shows (position - 1) * 4 as every entry's estimate |
| `Dashboard.CurrentToken` | app/dashboard/page.tsx:96 | the current token is the head entry's position, and absent iff the list is empty |
| `CustomerPage.FindByName` | app/page.tsx:31-33 | finds the first entry with the name, or reports that none has it |
| `CustomerPage.OnUpdate` | app/page.tsx:18-39 | events for another shop and REMOVE events change nothing; a JOIN is appended to the updates log and sets token and estimate only when it carries this browser's name; a SERVE_NEXT takes token and estimate from the first entry with this browser's name, and leaves them stale when there is none |
| `CustomerPage.JoinQueue` | app/page.tsx:46-62 | an empty input does nothing and sends nothing; otherwise the name is remembered, one join request is sent, and the input is cleared once the request resolves |
| `Reconcile.CustomerJoinSetsToken` | app/page.tsx:21-27 | after the page sends its join body and the route records it, the page's JOIN handler sets its token to old length + 1 and its estimate to old length * 4 |
| `CustomerPage.SnapshotTokenIsRank` | app/page.tsx:30-36 | on a serve-next snapshot the tracked token is the 1-based rank of the first entrant with this browser's name, with estimate (rank - 1) * 4 |
| `Reconcile.StateMirrors` | server/routes/queueState.ts:11-17 | the bootstrap state read lists the line's names at positions 1..n |
| `Reconcile.MergeAppends` | app/dashboard/page.tsx:62-68 | on a mirroring dashboard a fresh JOIN delta for the next position is simply appended |
| `Reconcile.JoinKeepsMirror` | app/dashboard/page.tsx:61-68 | a join whose record step succeeds with a fresh id keeps a mirroring dashboard mirroring |
| `Reconcile.ServeNextKeepsMirror` | app/dashboard/page.tsx:52-55 | a serve-next, successful or not, keeps a mirroring dashboard mirroring |
| `Reconcile.RemoveKeepsMirror` | app/dashboard/page.tsx:56-59 | a remove, successful or not, keeps a mirroring dashboard mirroring |
| `Reconcile.StepKeepsMirror` | app/dashboard/page.tsx:49-69 | any single queue request keeps a mirroring dashboard mirroring, given a successful record step with a fresh id for a join |
| `Reconcile.JoinRecordIds` | app/dashboard/page.tsx:63-68 | after a join the dashboard holds only record ids it held before or the joined entry's |
| `Reconcile.ServeNextRecordIds` | app/dashboard/page.tsx:52-55 | after a serve-next the dashboard holds only record ids it held before |
| `Reconcile.RemoveRecordIds` | app/dashboard/page.tsx:56-59 | after a remove the dashboard holds only record ids it held before |
| `Reconcile.StepRecordIds` | app/dashboard/page.tsx:49-69 | after any request the dashboard holds only record ids it held before or the one that request's join was given |
| `Reconcile.RunKeepsMirror` | app/dashboard/page.tsx:49-69 | a dashboard that already mirrors the line and applies every event broadcast during a run of requests mirrors the line at the end, like a fresh state read, provided every join is recorded under a fresh id |
| `Reconcile.LateSnapshotLosesJoin` | app/dashboard/page.tsx:25-31 | because the state read is not awaited, a join served after the read whose event lands before the reply is listed by the events but wiped out when the older snapshot replaces the list |
| `Reconcile.EarlySnapshotListsJoinTwice` | app/dashboard/page.tsx:25-31 | a join served before the read whose event lands after the reply is listed twice, once under its positional id and once under its record id, so the list no longer mirrors the line |
| `Reconcile.CurrentTokenIsFront` | app/dashboard/page.tsx:96 | on a dashboard that mirrors the line, the current token is position 1 whenever anyone waits and absent otherwise |
| `Reconcile.RecordFailureDesyncs` | server/routes/queue.ts:18-50 | a join whose record step fails breaks this: the dashboard no longer mirrors the line |
| `Reconcile.CustomerTokenIsRank` | app/page.tsx:30-36 | after a real serve-next, a customer page tracking a name shows the rank of the first entrant with that name and estimate (rank - 1) * 4, or keeps its stale values when nobody with that name is left |

## Left out

- Redis and database connection failures: the routes' other 500 replies ("Failed to serve next", "Failed to remove user", "Failed to fetch queue state", the login's internal error) are not modelled. The store primitives are total. Only the join's record step can fail.
- A database failure during the login's shop lookup is not modelled. The shop table is a plain map from shop id to `adminPin`.
- Concurrency: the `LLEN`-then-`RPUSH` race in join and any per-shop serialization cannot be expressed in a sequential model.
- `Reconcile.RunKeepsMirror`: it starts from a dashboard that already mirrors the line, so it does not cover the dashboard's mount, where the state read is not awaited and its reply can overwrite or duplicate events. `Reconcile.LateSnapshotLosesJoin` and `Reconcile.EarlySnapshotListsJoinTwice` show both failures; no ordering of reply and events is modelled beyond them.
- Redis failures after a mutation: serve-next and remove re-read the list after `LPOP` or `LREM`. When that read fails, the store has changed but the route answers 500 and broadcasts nothing, which also breaks the dashboard's mirror. The model's store reads never fail, so this is not modelled.
- The record store's other columns (shopId, timestamps) in the JOIN entry are left out. Only its id, name and position are modelled, and the id is an opaque key.
- `Admin.Login`: only string and integer pins are modelled. `String(pin)` of other JSON values (booleans, fractions, objects, very large numbers) is not.
- `JoinRoute.Join` and `RemoveRoute.Remove`: body fields are strings or missing. JSON numbers and other values coerced into Redis keys and list elements are not modelled.
- Socket transport: events sent before the socket server is registered are silently dropped, and events go to every socket whatever the shop. Broadcasting is an append to the log, and each page filters by shop id itself.
- HTTP plumbing, cookie attributes, console logging and JSX rendering are left out. So are the login page, the older dashboard variant that assumes `string[]` payloads, and the per-shop customer page under `q/`.
