# Hosttech DNS provider and webhook notifier (Key Vault Acmebot)

Key Vault Acmebot issues certificates with ACME. For the DNS-01 challenge
(section 8.4 of RFC 8555) it publishes TXT records through a DNS provider
adapter, and when an orchestration finishes it can report the outcome to a
webhook. This project models two parts of that in Dafny:

- The Hosttech adapter (`hosttech.dfy`).
  - `HosttechApi` stands for the vendor's service: its zones, the records of each zone, the next record id it assigns, and the log of requests it has received. A constant set names the request positions it answers with a non-success status, so a failure can happen at any call.
  - `HosttechDnsClient` issues one request per operation against that store.
  - `HosttechProvider` creates the challenge records one value at a time and deletes the matching ones one record at a time, in loops proved against the recursive run functions `CreateRun` and `DeleteRun`.
  - Lemmas relate those runs to the intended results: append-only creation, exact-match deletion, idempotent deletion, partial progress when a call fails, and the create-then-delete round trip.
- The webhook notifier (`webhook.dfy`).
  - It decides whether an event is reported at all, and which payload is posted.
  - The destination is recognised by ordinal substring tests on the configured URL (`Strings.Contains`).
  - The failure path reproduces the source's assignments, including the second, independent `if` that overwrites the Slack and Office payloads.
  - `IntendedFailedPayload` is the first-match chain the code evidently meant.

Support modules: `wrappers.dfy` (`Option`, `Result`, `Outcome`), `seqs.dfy`
(order-preserving `Filter`, the model of LINQ `Where`), `strings.dfy` (ordinal
`Contains` and `string.Join`).

Two behaviours are kept exactly as the code has them:
- The client constructor rejects only a null token (HosttechProvider.cs:61-64, `Option.None` here); an empty token is accepted.
- The failure payload keeps the overwrite at WebhookInvoker.cs:161 as written.

## Model

| member | source | states |
|---|---|---|
| Hosttech.HosttechProvider.New | KeyVault.Acmebot/Providers/HosttechProvider.cs:17-25 | building the provider fails with an argument-null error exactly when the token is null, sends no request, and otherwise yields a provider whose propagation delay is 60 seconds |
| Hosttech.HosttechDnsClient.New | KeyVault.Acmebot/Providers/HosttechProvider.cs:59-64 | a null token is rejected with an argument-null error for `apiToken`; any other token, including an empty one, gives a client |
| Hosttech.ToDnsZones | KeyVault.Acmebot/Providers/HosttechProvider.cs:31 | the projection has the same length as the vendor list, and each zone keeps its id and name at the same position |
| Hosttech.HosttechProvider.ListZones | KeyVault.Acmebot/Providers/HosttechProvider.cs:27-32 | one `GET zones?limit=100`; on success, the first 100 vendor zones at most, projected in order to id and name; on a non-success status, the error |
| Hosttech.HosttechDnsClient.ListZones | KeyVault.Acmebot/Providers/HosttechProvider.cs:77-86 | one request for a page of at most 100 zones, returned in the vendor's order; a non-success status is an error |
| Hosttech.HosttechDnsClient.ListTxtRecords | KeyVault.Acmebot/Providers/HosttechProvider.cs:88-97 | one `GET` with `type=TXT`; it returns exactly the zone's TXT records in order, or an error for a non-success status or an unknown zone |
| Hosttech.HosttechDnsClient.CreateDnsRecord | KeyVault.Acmebot/Providers/HosttechProvider.cs:99-104 | one POST with type TXT, the given name and text, and ttl 600; on success the zone gains exactly that one record at its end, with a fresh id, and nothing else changes; on failure nothing changes and the error is returned |
| Hosttech.HosttechDnsClient.DeleteDnsRecord | KeyVault.Acmebot/Providers/HosttechProvider.cs:106-111 | one DELETE for the id; on success exactly the record with that id leaves that zone; otherwise nothing changes and the error is returned |
| Hosttech.HosttechProvider.CreateTxtRecord | KeyVault.Acmebot/Providers/HosttechProvider.cs:34-42 | the loop issues exactly the requests, record changes, id assignments and outcome of `CreateRun` over the values in order, starting from the state before the call; other zones are untouched |
| Hosttech.CreateRunStopsAtFailure | KeyVault.Acmebot/Providers/HosttechProvider.cs:38-41 | creation sends one TXT POST per value, in order, up to and including the first failing one; it passes when none fails and otherwise returns that request's error; in an unknown zone the first POST fails |
| Hosttech.CreateRunAppendsPrefix | KeyVault.Acmebot/Providers/HosttechProvider.cs:38-41 | creation only appends: the zone becomes its old records followed by one TXT record (name, value, ttl 600) per value before the first failure, with consecutive fresh ids |
| Hosttech.HosttechProvider.DeleteTxtRecord | KeyVault.Acmebot/Providers/HosttechProvider.cs:44-54 | it lists the TXT records; a failed listing changes nothing and returns the error; otherwise it deletes the records whose name equals the relative name exactly, as `DeleteRun` says; when it passes, the zone has lost exactly its TXT records with that name and every other record of every zone is unchanged |
| Hosttech.HosttechProvider.DeleteEach | KeyVault.Acmebot/Providers/HosttechProvider.cs:50-53 | the `foreach` sends one DELETE per record to delete (the matched ones, as `DeleteTxtRecord` passes them), in order, with the requests, record changes and outcome of `DeleteRun` |
| Hosttech.MatchingIsExact | KeyVault.Acmebot/Providers/HosttechProvider.cs:46-48 | a record is selected for deletion exactly when the zone holds it, it is TXT, and its name equals the relative name (no prefix or substring match) |
| Hosttech.DeleteMatchedRemovesChallenges | KeyVault.Acmebot/Providers/HosttechProvider.cs:46-53 | in a zone with unique ids, a deletion run that passes leaves exactly the records that are not TXT records with that name |
| Hosttech.DeleteRunStopsAtFailure | KeyVault.Acmebot/Providers/HosttechProvider.cs:50-53 | deletion sends one DELETE per matched record, in order, up to and including the first failing one, and returns that error, or passes |
| Hosttech.DeleteRunRemovesPrefix | KeyVault.Acmebot/Providers/HosttechProvider.cs:50-53 | a deletion stopped part-way has removed exactly the matched records before the failing request, and nothing else |
| Hosttech.DistinctHeldRecordsAreHeldInTurn | KeyVault.Acmebot/Providers/HosttechProvider.cs:48-53 | listed records with distinct ids are each still present when their turn to be deleted comes |
| Hosttech.DeleteWithoutMatchesIsNoOp | KeyVault.Acmebot/Providers/HosttechProvider.cs:46-53 | with no TXT record of that name, deletion matches nothing, sends no DELETE, passes and leaves the zone as it was |
| Hosttech.DeleteIsIdempotent | KeyVault.Acmebot/Providers/HosttechProvider.cs:48-53 | deleting twice leaves the same records as deleting once |
| Hosttech.NothingMatchesAfterDelete | KeyVault.Acmebot/Providers/HosttechProvider.cs:46-48 | after a deletion nothing matches, so a second deletion sends no DELETE |
| Hosttech.CleanupAfterPartialCreate | KeyVault.Acmebot/Providers/HosttechProvider.cs:34-54 | whatever prefix of the values a creation added, deletion removes it along with every earlier challenge record of that name |
| Hosttech.DeleteUndoesCreate | KeyVault.Acmebot/Providers/HosttechProvider.cs:34-54 | on a zone without challenge records of that name, delete after create restores the records exactly |
| Hosttech.ChallengeCycle | KeyVault.Acmebot/Providers/HosttechProvider.cs:34-54 | running create then delete on such a zone, a deletion that passes restores every zone exactly, even when creation stopped part-way |
| Hosttech.RemovingMatchedIdsRemovesChallenges | KeyVault.Acmebot/Providers/HosttechProvider.cs:48-53 | in a zone with unique ids, removing the ids of the matched records is the same as removing the TXT records with that name |
| Hosttech.SucceedingPrefixIsFirstFailure | KeyVault.Acmebot/Providers/HosttechProvider.cs:103 | every request in the succeeding prefix succeeds, and the one right after it fails; this is where `EnsureSuccessStatusCode` ends a loop |
| Hosttech.AppendKeepsUniqueIds | KeyVault.Acmebot/Providers/HosttechProvider.cs:99-104 | records created with fresh ids keep the zone's ids unique and below the next id |
| Seqs.FilterMembers | KeyVault.Acmebot/Providers/HosttechProvider.cs:48 | `Where` keeps exactly the elements that satisfy the predicate |
| Strings.Contains | KeyVault.Acmebot/Internal/WebhookInvoker.cs:38 | an ordinal substring test: true exactly when the marker occurs at some position of the URL |
| Strings.JoinContainsEach | KeyVault.Acmebot/Internal/WebhookInvoker.cs:66 | every joined element can be found in the joined text |
| Webhook.SendCompletedEvent | KeyVault.Acmebot/Internal/WebhookInvoker.cs:29-125 | nothing is sent exactly when the URL is null or empty or the disable-success setting is non-empty; otherwise exactly one POST to the URL, shaped for the URL's first-matching destination, with a non-success status only logged |
| Webhook.SendFailedEvent | KeyVault.Acmebot/Internal/WebhookInvoker.cs:127-188 | nothing is sent exactly when the URL is null or empty; otherwise exactly one POST whose payload is Discord-shaped exactly when the URL contains `discordapp.com` and is the generic `{functionName, reason}` otherwise (as written) |
| Webhook.SendEvent | KeyVault.Acmebot/Internal/WebhookInvoker.cs:190-202 | posts the payload to the URL; a warning is logged exactly when the status is outside 200-299; a non-success status is only logged, never thrown |
| Webhook.DisableSuccessWebhookOnlySilencesCompletions | KeyVault.Acmebot/Internal/WebhookInvoker.cs:31-34 | whenever a completion is reported, a failure would be too; with a URL present, a non-empty disable-success setting silences completions only |
| Webhook.CompletedShapeIsFirstMatch | KeyVault.Acmebot/Internal/WebhookInvoker.cs:38-122 | the completion shape is Slack, else Office, else Discord, else generic, each in both directions, by the markers `hooks.slack.com`, `.office.com` and `discordapp.com` |
| Webhook.GenericCompletedCarriesNamesOnly | KeyVault.Acmebot/Internal/WebhookInvoker.cs:117-121 | the generic completion payload is the certificate name and the list of DNS names, and it does not depend on the expiration date |
| Webhook.CompletedPayloadListsEveryName | KeyVault.Acmebot/Internal/WebhookInvoker.cs:66-108 | every DNS name appears in the joined names of a Slack, Office or Discord completion |
| Webhook.CompletedJoinSeparators | KeyVault.Acmebot/Internal/WebhookInvoker.cs:66-108 | the Slack and Discord payloads join names with a newline; the Office payload joins them with a comma and a space |
| Webhook.FailedIgnoresSlackAndOffice | KeyVault.Acmebot/Internal/WebhookInvoker.cs:136-185 | as written, the failure shape is Discord exactly when the URL contains `discordapp.com`, and generic exactly when it does not; Slack and Office failure payloads are never posted |
| Webhook.SlackFailureIsPostedGeneric | KeyVault.Acmebot/Internal/WebhookInvoker.cs:161 | for `https://hooks.slack.com/x` the destination is Slack, but the failure is posted as the generic object; the intended chain would post the Slack payload |
| Webhook.IntendedFailedMatchesCompletedShape | KeyVault.Acmebot/Internal/WebhookInvoker.cs:136-185 | with `else if` at line 161, the failure payload is shaped for the same destination as the completion payload, the first match deciding |
| Webhook.FailedAgreesWithIntendedUnlessSlackOrOffice | KeyVault.Acmebot/Internal/WebhookInvoker.cs:161-185 | the as-written and the intended failure payloads agree exactly when the URL designates neither Slack nor Office |

## Left out

- HTTP transport is not modelled: `HttpClient`, the base address, the Accept and Authorization headers, and `IHttpClientFactory`. Each vendor call is one request appended to the vendor's log. Its success is decided by whether its position is in the failing set, by an unknown zone, or by an unknown record id. The vendor is also assumed to keep record ids unique within a zone and to give each new record a fresh id above every existing one (`HosttechApi.Valid`); the guarantee that a passing deletion removes exactly the challenge records (`DeleteMatchedRemovesChallenges`) relies on it. These are assumptions about the vendor, not code of the adapter.
- JSON serialisation and the `ApiResult`, `ZoneResult` and `DnsRecordResult` wire mapping are not modelled. Payloads are datatypes holding the field values.
- Pagination: only the single `limit=100` page is modelled, because the code fetches no other.
- Async/`Task`: calls are awaited one after another, so they are sequential method calls.
- Logging: the `ILogger` warning text is not modelled; only whether a warning is logged.
- `DateTimeOffset`: the expiration date is an opaque `Timestamp`. The Office completion text is kept as its parts, certificate name, date and joined names, because the date's rendering depends on the culture.
- Webhook field captions: the fixed Slack and Discord field titles ("Certificate Name" and the others) and the `short` flags are constant and not modelled.
- The unused `IdnMapping` field and the commented-out FQDN line.
- Options loading (`IOptions<AcmebotOptions>`, `HosttechOptions`): the URL, the disable flag and the token are plain inputs.
- The zone fields `email` and `nameserver` are carried but never used. The vendor record's comment field is not modelled.
- Hosttech.Record: ids are `nat` rather than the vendor's id strings. The adapter only passes them back, and the model only compares them.
- Hosttech.HosttechDnsClient.New: any non-null token is accepted, including an empty one. This follows the code's null-only check.
- Webhook.SendEvent: exceptions from `PostAsync` (transport failure, timeout, a URL that is not absolute) fault the returned task and reach the caller; the model covers only the response status.
- Webhook.SendFailedEvent: follows the code as written, not the corrected chain (see Findings).

## Findings

| source | as written | input that shows it | evidently intended | confidence | as-written member | corrected member |
|---|---|---|---|---|---|---|
| KeyVault.Acmebot/Internal/WebhookInvoker.cs:161 | the Discord test is a plain `if`, so its `if`/`else` always runs after the Slack/Office chain and overwrites the payload chosen there | webhook URL `https://hooks.slack.com/x` with a failed event: the generic `{functionName, reason}` object is posted to Slack instead of the Slack attachment payload | `else if`, a first-match chain as in the completion path, so Slack and Office URLs receive their own failure payloads | high; not executed | Webhook.SlackFailureIsPostedGeneric | Webhook.IntendedFailedMatchesCompletedShape |
