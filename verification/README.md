# Nitrado boost bot: boost deduplication and reconciliation

This project models the part of the boost bot that keeps boost notifications
from repeating. The bot polls the Nitrado API for each game server's boost
history. It compares the fetched boosts with the history stored in the
`gameserver-boosts` table and posts a Discord message for every boost not seen
before. Then it stores the boosts whose message went out. The model covers:

- `boosts.dfy` (module `Boosts`): the `Boost` record, the identity rule
  (`SameEvent`, `InList`) and the parsing of the API response envelope (`Parse`).
- `store.dfy` (module `HistoryStore`): the table, modelled as a `Store` class.
  It holds a `map<int, Record>` keyed by server id and counts its write calls,
  so that "no write" can be stated.
- `reconcile.dfy` (module `Reconciliation`): one server's reconciliation.
  The specification functions `NewBoosts` and `Notified` and the value-level
  `ReconcileSpec` say what it does. The methods `FilterNew`, `NotifyEach` and
  `Reconcile` do it with loops and store calls, and are proved equal to those
  functions. The lemmas cover filtering, append, idempotence, retry of failed
  notifications and duplicate identities.
- `handler.dfy` (module `Handler`): one run of the handler. A first loop fetches
  and parses the history of every enabled server (`CollectFetches`). A second
  loop reconciles the servers in order (`ReconcileAll`); `Run` is the whole
  handler, the two loops one after the other. In slow mode it stops after
  the first server that wrote. `RunFrom` is the value-level specification
  of that second loop.

The Discord notifier is modelled as an oracle. Each fetched server carries a
`seq<bool>` of outcomes. The k-th notification attempt for that server
succeeds exactly when entry k exists and is true (`Succeeded`). The Nitrado
response of each server is an input value of type `Option<Envelope>`.

Three behaviours of the code are kept as written:

- The count the handler returns (`new_boosts`) counts every notification
  attempt, failed ones included (bot.py:262). It does not count only the
  boosts that were notified.
- Every enabled server is fetched before any reconciliation starts
  (bot.py:215-231). Slow mode therefore skips later reconciliations, not later
  fetches.
- Repeats inside one fetch are not collapsed (bot.py:249-251). The stored
  history stays free of duplicate identities when the fetch lists each event
  once (`StoredNoDupPreserved`). A fetch that lists one event twice, with both
  notifications succeeding, stores it twice (`DuplicateFetchStoredTwice`).
- Re-running with the same fetch finds nothing new when every notification of
  the first run succeeded (`ReconcileIdempotent`). For a fetch that lists each
  event once, the re-run finds exactly the boosts whose notification failed
  (`ReconcileRerunRetriesFailed`).

## Model

| member | source | states |
|---|---|---|
| `Boosts.InList` | bot.py:325-330 | true exactly when some boost of the list has the same `username` and `boosted_at` as the given boost |
| `Boosts.InListIgnoresPayload` | bot.py:325-330 | changing a boost's `extended_for` and `message` never changes whether it is found in a list |
| `Boosts.Parse` | bot.py:309-322 | yields the boosts exactly when there is a response with status `success`, non-empty `data` and non-empty `data.boosts`, and then yields `data.boosts` unchanged; otherwise nothing |
| `HistoryStore.Store.Get` | bot.py:171-181 | returns the item stored under the id, or nothing when there is none |
| `HistoryStore.Store.Create` | bot.py:183-187 | stores an item with the given boosts under the id, touches no other id, and counts one write |
| `HistoryStore.Store.SetBoosts` | bot.py:189-193 | replaces the id's boosts attribute, touches no other id, and counts one write |
| `Reconciliation.NewBoosts` | bot.py:248-251 | no longer than the fetch; a boost is in the result exactly when it is in the fetch and matches no stored boost |
| `Reconciliation.NewBoostsCount` | bot.py:248-251 | each boost occurs in the new list as often as in the fetch, or not at all if it is stored: repeats are not collapsed |
| `Reconciliation.NewBoostsAppend` | bot.py:248-251 | filtering a concatenation is the concatenation of the filtered parts, so fetched order is kept |
| `Reconciliation.NewBoostsEmpty` | bot.py:248-254 | nothing is new exactly when every fetched boost is already stored |
| `Reconciliation.NewBoostsCompose` | bot.py:248-251 | filtering against `stored ++ notified` equals filtering against `stored` and then against `notified` |
| `Reconciliation.NewBoostsIdempotent` | bot.py:248-254 | once all the new boosts have been appended to the history, the same fetch yields nothing new |
| `Reconciliation.Notified` | bot.py:256-267 | no longer than the new boosts, and every selected boost is one of them; order and repeats are fixed by `NotifiedSingleton` and `NotifiedAppend` |
| `Reconciliation.NotifiedSingleton` | bot.py:257-267 | a single new boost is kept exactly when its one notification attempt succeeds |
| `Reconciliation.NotifiedAppend` | bot.py:256-267 | the boosts kept from `a ++ b` are those kept from `a`, in order, followed by those kept from `b`, whose attempts come after the `|a|` attempts of `a` |
| `Reconciliation.NotifiedMembers` | bot.py:256-267 | a boost is kept for storage exactly when one of its notification attempts succeeded |
| `Reconciliation.NotifiedAll` | bot.py:256-267 | when every attempt succeeds, every new boost is kept, in order |
| `Reconciliation.NotifiedNone` | bot.py:256-270 | nothing is kept exactly when every notification attempt failed |
| `Reconciliation.NewBoostsNoDup` | bot.py:248-251 | a fetch without duplicate identities yields new boosts without duplicate identities |
| `Reconciliation.NotifiedNoDup` | bot.py:256-267 | the kept boosts inherit freedom from duplicate identities from the new boosts |
| `Reconciliation.StoredNoDupPreserved` | bot.py:248-293 | a duplicate-free history stays duplicate-free after `stored ++ notified`, provided the fetch is duplicate-free |
| `Reconciliation.DuplicateFetchStoredTwice` | bot.py:248-267 | a fetch that lists one boost twice, both notified, stores it twice, so the history then has a duplicate identity |
| `Reconciliation.ReconcileSpec` | bot.py:234-295 | one server's reconciliation leaves every other server's item unchanged, leaves the table unchanged when it does not write, and writes only after at least one attempt |
| `Reconciliation.ReconcileNoWrite` | bot.py:240-270 | no write happens exactly when the fetch is absent or empty, nothing is new, or every notification failed |
| `Reconciliation.ReconcileStored` | bot.py:272-293 | in each of the three write branches the new history is the old history followed by the notified boosts |
| `Reconciliation.ReconcileAppends` | bot.py:256-293 | a boost is in the history afterwards exactly when it was stored before or one of its notification attempts succeeded |
| `Reconciliation.NewBoostsNothingStored` | bot.py:243-251 | with no stored history every fetched boost is new, in fetched order |
| `Reconciliation.NotifiedNotNewAgain` | bot.py:249-267 | a boost whose notification succeeded is no longer new once the notified boosts are stored |
| `Reconciliation.FailedNewAgain` | bot.py:249-267 | a boost whose notification failed is still new after the notified boosts are stored, when no two new boosts are the same event |
| `Reconciliation.RetryOnlyFailed` | bot.py:248-267 | for a duplicate-free fetch, filtering against the extended history leaves exactly the new boosts whose notification failed |
| `Reconciliation.ReconcileRerunRetriesFailed` | bot.py:248-293 | for a fetch that lists each event once, re-running a server against the history it left behind finds as new exactly the boosts whose notification failed |
| `Reconciliation.ReconcileIdempotent` | bot.py:248-293 | if every notification succeeded, re-running the server with the same fetch attempts nothing and writes nothing |
| `Reconciliation.ReconcileCountsAttempts` | bot.py:256-262 | a server reports exactly one attempt per new boost, whatever its outcome, so never fewer attempts than boosts kept |
| `Reconciliation.ReconcileCountsFailures` | bot.py:256-270 | when every notification fails, nothing is written but each new boost still counts as an attempt |
| `Reconciliation.EndToEndExample` | bot.py:234-293 | stored `[A]` with fetch `[A, B]` and a successful notification gives one attempt, one write and history `[A, B]`; a copy of A with another duration or message is not new |
| `Reconciliation.EndToEndConcrete` | bot.py:234-293 | the same scenario with server 42 and concrete users, timestamps and durations |
| `Reconciliation.PartialFailureExample` | bot.py:256-293 | with three new boosts and a failed second notification, the history holds the first and third, and the next run finds only the second |
| `Reconciliation.FilterNew` | bot.py:248-251 | the loop collects exactly `NewBoosts` of the fetch and the stored list |
| `Reconciliation.NotifyEach` | bot.py:256-267 | the loop counts one attempt per new boost and collects exactly the boosts whose notification succeeded |
| `Reconciliation.Reconcile` | bot.py:234-295 | the table after the call, the attempt count and the write flag equal those of `ReconcileSpec`, with one write call when the server wrote and none otherwise |
| `Handler.Fetches` | bot.py:213-231 | there are no more entries than configured servers; every entry is the parsed response of an enabled server, and every enabled server's parsed response is among the entries |
| `Handler.FetchesAppend` | bot.py:215-231 | fetching a concatenated configuration gives the fetches of the first part followed by those of the second: configuration order, one entry per enabled server |
| `Handler.FetchesSingleton` | bot.py:218-231 | one configured server gives one entry, carrying its parsed response, exactly when it is enabled, and none otherwise |
| `Handler.CollectFetches` | bot.py:213-231 | the fetch loop produces exactly `Fetches` of the configuration, in order |
| `Handler.RunFrom` | bot.py:233-306 | outside slow mode a run always ends with the success summary |
| `Handler.RunFromSingleton` | bot.py:233-306 | outside slow mode, one server's run counts its new boosts as attempts, failed ones included, and adds one write exactly when the server wrote |
| `Handler.RunFromAppend` | bot.py:233-306 | outside slow mode, a run over `a ++ b` is the run over `a` followed by the run over `b` from the table `a` left; the counts and the writes add up |
| `Handler.RunFromWriteBounds` | bot.py:272-301 | a run writes at most once per fetched server, and the slow-mode early exit comes only in slow mode after exactly one write |
| `Handler.Run` | bot.py:213-306 | the table, the number of write calls and the returned summary equal those of `RunFrom` over the fetched servers |
| `Handler.ReconcileAll` | bot.py:233-306 | the reconciliation loop leaves the table, the write calls and the summary of `RunFrom` over the given fetches |
| `Handler.ReconcileNext` | bot.py:234-301 | reconciling the first remaining server takes exactly one step of `RunFrom`: the early slow-mode exit after a write, or the rest of the run from the new table with the counts carried forward |
| `Handler.RunFromAdvance` | bot.py:233-306 | one step of `RunFrom`, given the table, attempts and write flag the first server's reconciliation produced |
| `Handler.FetchesSkipDisabled` | bot.py:218-220 | a server that is not enabled never appears among the fetched servers |
| `Handler.RunLeavesOthers` | bot.py:233-306 | a server that is not among the fetched servers keeps its item unchanged |
| `Handler.RunLeavesDisabled` | bot.py:215-306 | a disabled server's item is never touched by a run |
| `Handler.SlowModeWritesAtMostOnce` | bot.py:297-301 | in slow mode a run writes at most one item, and none when it returns the plain success summary |
| `Handler.RunFromSlowSingleton` | bot.py:234-301 | in slow mode, one server that writes ends the run with the slow-mode summary and one write; one that does not write leaves the table unchanged and counts its attempts |
| `Handler.RunFromSlowAppend` | bot.py:233-306 | in slow mode, a run over `a ++ b` is the run over `a` when that run exited after a write; otherwise the servers of `b` are reconciled from the table `a` left, with counts and writes added |
| `Handler.SlowModeStopsAfterWrite` | bot.py:297-301 | in slow mode, once a server has written, servers after it are not reconciled: appending servers changes nothing |
| `Handler.CountCoversWrites` | bot.py:262 | the reported count is never smaller than the number of items written, since every written server had at least one attempt |

## Left out

- Discord HTTP calls (`sendDiscordRequest`, `createMessage`, `editMessage`, `getLatestMessageID`, bot.py:44-118) are network I/O. The notifier is an oracle of outcomes, one per attempt; an attempt beyond the end of the outcome list counts as failed.
- `intialConnection` (bot.py:120-129) and the `initial-connection` event (bot.py:202-206) are a one-time client bootstrap.
- `NitradoHelper.getBoostHistory` (bot.py:146-162) is network I/O. Its result is an input `Option<Envelope>`; None stands for an HTTP error or timeout.
- `DBHelper` (bot.py:165-193) is a DynamoDB wrapper. It is replaced by the in-memory `Store`; a failing read or write is not modelled.
- JSON (de)serialisation of the stored boosts (bot.py:246, 275, 284, 292) and config file loading (bot.py:208-211) are library calls. The store holds `seq<Boost>` directly, and the configuration is a flat sequence of `ServerInput` values (the per-account nesting and auth tokens are dropped).
- `generateEmbed` (bot.py:333-360) is presentation that uses float rounding, `datetime` and `discord.Embed`.
- The environment-variable checks in the helper constructors (bot.py:27-41, 136-144) are configuration plumbing.
- Python exceptions on malformed data are not modelled: a missing `status` key, a non-empty `data` without `boosts`, or a stored `boosts` attribute that `json.loads` rejects. Because of the last one, the `not item["boosts"]` case at bot.py:279 cannot be reached: an empty stored string already fails to decode at bot.py:246. The `else` branch at bot.py:294-295 cannot be reached by the branch conditions alone, since once bot.py:272 and bot.py:279 fail, `item["boosts"]` is truthy.
- Exceptions inside the notification loop are not modelled either. `generateEmbed` (bot.py:258) raises when `boosted_at` is not in the `%Y-%m-%dT%H:%M:%S` format (bot.py:335) or when a boost has no `message` key (bot.py:339). Such an exception aborts the whole handler after this server's earlier notifications went out but before its write. Every later run then notifies those boosts again, and the servers after it are never reconciled. The model treats `boostedAt` as an opaque string and each notification attempt as ending in success or failure. A stored `boosts` value that decodes to an empty list is a truthy string, so it takes the combined branch (bot.py:286-293), as it does in the model.
- The store read at bot.py:238 happens before the empty-fetch check. Reads have no effect in the model.
- `int(gameserver_id)` conversions: server ids are integers throughout.
- The summary-message mode, which posts all known boosts in one message, is not part of this model.
