# Bidirectional Jira synchronisation — a Dafny model

`jira_sync.py` is a small Flask service that keeps two Jira instances, A and
B, in step. Each instance posts its webhooks to one of two endpoints:
`/webhook/A-to-B` and `/webhook/B-to-A`. The service relays four kinds of
event to the other side:

- issue creation;
- comments;
- worklogs;
- attachment creation.

Two SQLite tables remember what has already been copied:

- `issue_map` pairs an A key with a B key;
- `attachment_map` records each uploaded attachment, keyed by (source instance URL, source attachment id).

Loop prevention has two parts. First, relayed comment and worklog texts carry
a direction-specific tag (`[SyncedFromA]` / `[SyncedFromB]`), and the handler
of the opposite direction drops any text that carries it. Second, the two
tables make issue and attachment events idempotent.

The model is layered like the program:

| module | file | what it holds |
|---|---|---|
| `Basics` | basics.dfy | `Option`, the two directions, Python's `x or ""`, truthiness and `str(None)` |
| `Text` | text.dfy | prefix and substring tests, `rstrip('/')` |
| `SyncTags` | tags.dfy | the tags, `is_synced_from_a/b`, `append_sync_tag` |
| `MappingTables` | tables.dfy | the two tables as values, SQLite's `INSERT OR REPLACE` and `SELECT … WHERE` |
| `Events` | events.dfy | the decoded webhook payload, the outgoing requests, the answers of the remote tracker, the JSON results |
| `Handlers` | handlers.dfy | the four handlers as functions from (tables, payload, tracker answers) to (result, requests sent, new tables) |
| `Dispatch` | dispatch.dfy | the event-name routing the two webhook endpoints share |
| `Store` | store.dfy | the store as a class whose methods update both tables in place |
| `Service` | service.dfy | the handlers and the endpoints as methods on the store, each proved equal to its function in `Handlers` / `Dispatch` |
| `Scenarios` | scenarios.dfy | end-to-end runs on the deployment's own URLs and event names |

The remote tracker is not called. Each handler takes the tracker's answers as
parameters:

- the status code and key returned by issue creation;
- the status code of a comment or worklog post;
- whether the download succeeded or raised;
- the upload's status code and response body, or the exception it raised.

Each handler returns the requests it would have sent, in order, so
properties such as "an echo makes no remote call" are stated as `sent == []`.

SQLite semantics are modelled as follows:

- `issue_map` is a sequence of rows in insertion order. Each column is nullable (`Option<string>`).
- `INSERT OR REPLACE` deletes every row that shares a non-NULL value in either UNIQUE column, then appends the new row (`Upsert`).
- A lookup returns the first row whose column equals the key. A NULL key matches nothing.
- `attachment_map` is a map keyed by its primary key.
- The invariant the UNIQUE constraints enforce, `OneToOne`, is proved to be preserved by every operation.

The attachment handler and the two endpoints take the duplicate guard as a
parameter: the guard as written (`SourceKeyOnly`) or a corrected one
(`SourceOrCopy`, see "## Findings"). The scenarios run the program as written.

Two behaviours of the source are easy to misread, and the model states them as
written:

- Worklog duration: line 194 takes `timeSpent` whenever it is truthy, even
  when `timeSpentSeconds` holds an integer. Only when `timeSpent` is falsy does
  it fall back to `timeSpentSeconds`. Lines 206-210 then send the chosen value
  as seconds if it is an integer and as text otherwise, with `"0s"` for a falsy
  value. `ForwardedTime` states this.
- Comment and worklog echoes: the A-to-B endpoint drops text carrying
  `[SyncedFromB]`, the tag that the B-to-A endpoint appends. The B-to-A
  endpoint drops text carrying `[SyncedFromA]`, the tag that the A-to-B
  endpoint appends. A relayed text therefore comes back through the opposite
  endpoint and is dropped there. `IsEcho` and `RelayedTextIsEcho` state this
  pairing.

## Model

| member | source | states |
|---|---|---|
| Text.RStripSlash | jira_sync.py:243 | the result is a prefix of the input, has no trailing `/`, and only `/` characters were removed |
| Text.OccursAtEnd | jira_sync.py:127-129 | the tag appended at the end of a body occurs in the result |
| Text.OccursLength | jira_sync.py:119 | a text containing a substring is at least as long as it, so the `text and` test in `is_synced_from_*` never changes the answer |
| SyncTags.EchoIsTagOccurrence | jira_sync.py:118-122 | `IsSyncedFromA` and `IsSyncedFromB` hold exactly when the tag `[SyncedFromA]` or `[SyncedFromB]` occurs in the text, so the echo filter of a direction holds exactly when the opposite direction's tag occurs |
| SyncTags.AppendSyncTag | jira_sync.py:124-129 | the tag occurs in the result, and the result starts with the body; the body is returned unchanged when it already holds the tag, else it gets a blank line plus the tag |
| SyncTags.AppendSyncTagIdempotent | jira_sync.py:124-129 | tagging twice gives the same text as tagging once |
| SyncTags.RelayedTextIsEcho | jira_sync.py:177-180 | text relayed in one direction is always recognised as an echo by the other direction's handler |
| MappingTables.Pair | jira_sync.py:33-37 | a row read from one side holds the key in that side's column and the partner in the other |
| MappingTables.DropConflicts | jira_sync.py:54 | the REPLACE part of INSERT OR REPLACE keeps exactly the rows that share no non-NULL key with the new row |
| MappingTables.Lookup | jira_sync.py:58-72 | a NULL key finds nothing; a found value is the partner of the key in a stored row |
| MappingTables.DropConflictsOneToOne | jira_sync.py:33-37 | deleting the conflicting rows keeps the table one-to-one |
| MappingTables.UpsertOneToOne | jira_sync.py:51-56 | `Upsert`, the model of INSERT OR REPLACE (the conflicting rows are deleted and the new row is appended), keeps both UNIQUE constraints |
| MappingTables.LookupConcat | jira_sync.py:61-64 | a lookup in two concatenated tables answers from the first when one of its rows holds the key in that column, otherwise from the second |
| MappingTables.LookupExact | jira_sync.py:58-72 | in a one-to-one table a lookup returns v for k exactly when the row pairing k with v is stored |
| MappingTables.UpsertFinds | jira_sync.py:51-72 | after `map_issue`, each non-NULL key finds the other |
| MappingTables.DropConflictsFrame | jira_sync.py:54 | deleting the conflicting rows changes a lookup of any other key only if that key's partner was replaced |
| MappingTables.UpsertFrame | jira_sync.py:51-56 | after `map_issue`, a lookup of any other key answers as before, unless its partner has just been re-paired |
| MappingTables.FindAttachment | jira_sync.py:86-97 | a row is found exactly when the (source URL, source id) key is stored, and the result is that row's destination triple; `Store.MappingStore.FindMappedAttachment` returns exactly this lookup on its attachment table |
| Store.MappingStore.constructor | jira_sync.py:29-49 | a fresh store has two empty tables and is one-to-one |
| Store.MappingStore.FindMappedToB | jira_sync.py:58-64 | a NULL A key finds nothing; a found B key is stored in the same row as the A key |
| Store.MappingStore.FindMappedToA | jira_sync.py:66-72 | a NULL B key finds nothing; a found A key is stored in the same row as the B key |
| Store.MappingStore.MapIssue | jira_sync.py:51-56 | the issue table becomes `Upsert` of the old one and stays one-to-one; each non-NULL key then finds the other; the attachment table is unchanged |
| Store.MappingStore.MapAttachment | jira_sync.py:74-84 | the attachment row under its primary key is replaced, `find_mapped_attachment` then returns the new destination triple, and the issue table is unchanged |
| Events.SelectAttachment | jira_sync.py:226-233 | the chosen attachment is never `{}`; a non-empty `attachment` object wins, including one whose keys all hold null; otherwise it is the last element of `attachments`, or, when that is falsy, the last element of `issue.fields.attachment` (each direction stated for both lists); an empty or missing list gives none |
| Events.ForwardedTime | jira_sync.py:194 | a truthy `timeSpent` is forwarded as is, as text or, when an integer, as seconds; otherwise `timeSpentSeconds` is forwarded the same way; with neither truthy the text `"0s"` is sent; a forwarded value always comes from one of the two fields |
| Events.UploadedId | jira_sync.py:270-281 | the new id is `str()` of the first list element's id; for an object, its truthy id, else `str()` of the first id in its `attachments` list, `"None"` when that key is absent, and `""` when its value is null, not a list or an empty list; `""` for any other body |
| Handlers.IssueCreated | jira_sync.py:134-171 | an issue already paired answers `already_mapped` with its partner, without any call or write; otherwise one create request is sent, with the summary, the description plus `(Synced from A/B)`, and type `Task`; a 200/201 answer records the pair in source/destination orientation and answers `created`; any other answer records nothing and reports the response text |
| Handlers.IssueCreatedKeepsOneToOne | jira_sync.py:163-166 | issue creation keeps `issue_map` one-to-one |
| Handlers.IssueCreatedLinksBothWays | jira_sync.py:163-166 | after a creation, the source key finds the new key in this direction, and the new key finds the source key in the opposite direction |
| Handlers.IssueCreatedTwice | jira_sync.py:141-148 | for an event with a source key whose first delivery created a non-empty key, a redelivery answers `already_mapped` with that key, without any call or write; without these two conditions the lemma says nothing, and indeed a 200/201 answer without `key` stores the source key with a NULL partner, so a redelivery creates a second issue |
| Handlers.IssueCreatedEchoIsAlreadyMapped | jira_sync.py:141-148 | the destination's own issue-created event for the copy, arriving through the other endpoint, answers `already_mapped` with the original key |
| Handlers.Relay | jira_sync.py:177-186 | a text is dropped exactly when it is an echo; an unmapped issue is reported exactly when the text is not an echo and there is no truthy partner; otherwise the text is forwarded to the partner with this direction's tag |
| Handlers.CommentEvent | jira_sync.py:173-188 | the store is never written; `ignored` exactly for an echo, `no_mapping` exactly for an unpaired issue, and in those cases nothing is sent; otherwise one comment with the tagged body is posted to the paired issue and its status code is returned |
| Handlers.WorklogEvent | jira_sync.py:190-212 | as for comments, with the tagged worklog comment and the duration `ForwardedTime` selects |
| Handlers.RelayedCommentEchoIgnored | jira_sync.py:173-188 | a comment carrying one direction's tag, such as the relayed copy or an edit of it that keeps the tag, is ignored by the other direction's handler without any call, whatever the tables hold |
| Handlers.RelayedWorklogEchoIgnored | jira_sync.py:190-212 | the same for a worklog note carrying one direction's tag |
| Handlers.AttachmentCreated | jira_sync.py:217-292 | under either duplicate guard: the issue table is never written; no attachment, no content URL, an attachment the guard knows, and an unpaired issue each give their own answer with no call and no write; otherwise the content URL is downloaded from the source; a raised download answers `download_failed`; after a download the file is uploaded to the paired issue, under the name `FileName` picks (`filename` when truthy, else `name` when truthy, else `"attachment"`); a raised upload, a non-200/201 answer and an accepted upload each give their own result, and only the accepted upload writes, adding exactly the row for (normalised source URL, attachment id) with the new id |
| Handlers.AttachmentRedeliveryIgnored | jira_sync.py:242-247 | a redelivered attachment event after a successful upload is ignored, with no call and no write |
| Handlers.UploadEchoIgnored | jira_sync.py:282-284 | with the corrected guard, the destination's event for the uploaded copy, arriving through the other endpoint, is ignored and not uploaded back |
| Handlers.SourceGuardMissesEcho | jira_sync.py:242-247 | with the guard as written, after attachment 10010 is uploaded from A to B as 10020, B's event for 10020 is downloaded from B, uploaded back to A as 10030 and recorded as a new row; the corrected guard ignores the same event |
| Dispatch.Classify | jira_sync.py:303-323 | `ClassifyName` applies the source's tests in order: attachment creations (any name starting `attachment_created`), comments (`comment_*`), worklogs (`worklog_*`) and exactly `jira:issue_created` are each routed to their handler, and every other event name or non-string value is ignored |
| Dispatch.EventPrefixes | jira_sync.py:303-320 | the prefixes the dispatcher tests cannot both hold for one name, so the order of the tests only matters for attachment events |
| Dispatch.Webhook | jira_sync.py:297-349 | under the attachment guard it is given (`SourceKeyOnly` is the program as written), each routed event returns exactly its handler's result, with this endpoint's source and destination; an unrouted event is ignored with no call or write; downloads go to the source tracker and every other request to the destination; at most two requests per event; only issue creation writes `issue_map` and only an upload writes `attachment_map` |
| Dispatch.OtherAttachmentEventsIgnored | jira_sync.py:304-308 | attachment events other than creations are ignored |
| Dispatch.WebhookKeepsOneToOne | jira_sync.py:297-349 | every event on either endpoint, under either attachment guard, keeps `issue_map` one-to-one |
| Service.HandleIssueCreated | jira_sync.py:134-171 | the method's result, requests and new store equal `Handlers.IssueCreated` on the old store; the store stays one-to-one |
| Service.HandleCommentEvent | jira_sync.py:173-188 | the method's result and requests equal `Handlers.CommentEvent`, and the store is not written |
| Service.HandleWorklogEvent | jira_sync.py:190-212 | the method's result and requests equal `Handlers.WorklogEvent`, and the store is not written |
| Service.HandleAttachmentCreated | jira_sync.py:217-292 | under either guard, the method's result, requests and new store equal `Handlers.AttachmentCreated` on the old store; the issue table is unchanged |
| Service.HandleWebhook | jira_sync.py:297-349 | under the attachment guard it is given, the method's result, requests and new store equal `Dispatch.Webhook` on the old store; the store stays one-to-one |
| Scenarios.IssueCreatedScenario | jira_sync.py:319-320 | a `jira:issue_created` for TEST-1 on A creates a Task on B whose description ends `(Synced from A)`, and records TEST-1 ↔ TEST-9 |
| Scenarios.IssueCreatedOnEmptyTables | jira_sync.py:141-168 | the handler's part of that scenario: with no stored pair, TEST-1 is created on B as TEST-9 with the tagged description, and the pair is recorded |
| Scenarios.IssueRedeliveredScenario | jira_sync.py:147-148 | the same event delivered again answers `already_mapped` with TEST-9 and makes no call |
| Scenarios.WorklogWithoutMappingScenario | jira_sync.py:200-202 | a worklog on an issue that was never copied answers `no_mapping` |
| Scenarios.CommentRoundTripScenario | jira_sync.py:338-339 | an untagged comment on B's TEST-9 is posted to A's TEST-1 as the body plus a blank line and `[SyncedFromB]`, and A's event for that new comment is ignored without any call |
| Scenarios.CommentRelayedToA | jira_sync.py:173-188 | the handler's part of that relay: the untagged body is tagged with `[SyncedFromB]` on a new paragraph and posted to TEST-1 |
| Scenarios.NullContentScenario | jira_sync.py:226-240 | an `attachment` object whose only key holds null is kept over a usable `attachments` list, and the event is ignored for its missing content URL without any call |

## Left out

- HTTP and JSON plumbing is not modelled: Flask routing, `jsonify`, `request.get_json` and the `/health` endpoint. The model starts from a decoded payload and ends with a result value whose `Status()` is the JSON `status` field.
- The following are not modelled: logging, `BytesIO`, and the request headers and URL construction in `jira_api`. A request records only the endpoint, issue key and the data that matters.
- The tracker's network behaviour (timeouts, connection errors) is represented only by the answers the handlers are given. Exceptions that `jira_api` raises in the issue, comment and worklog handlers are not modelled. Those handlers do not catch them, so in the program they become HTTP 500 responses.
- A response body that is not valid JSON inside the upload branch is treated as the "other body" case, which gives `""`, as the source's `except` does. An unparsable body after issue creation (line 161) is not modelled.
- Payload values are limited to the shapes the handlers distinguish:
  - strings, or absent or null, for texts and keys;
  - an integer, a string or absent for worklog durations;
  - a list, a non-list or absent for attachment lists.
  Other JSON types are not modelled: integer ids, a list where an object is expected, non-object list elements. Nor is the crash of line 229 when `issue` or `issue.fields` is present but `null`: `.get` then returns `None`, the next `.get` raises and the program answers HTTP 500, while the model answers `Ignored(NoAttachmentInPayload)` as if the key were absent.
- Ids are carried as their `str()` text (`IdText`), so `str(None)` is `"None"` as in the source.
- The access tokens are opaque strings, and their values are not part of this model.
- Concurrency is not modelled. Two deliveries handled at the same time could both pass the `already_mapped` or attachment guard. Each delivery is modelled as one atomic step on the store.
- Storage failures are not modelled. The SQLite file is assumed always readable and writable, and `ensure_db` is the store's constructor.
- Lookups rely on `fetchone()` returning the first stored row. Under the UNIQUE constraints at most one row can match, so the order matters only for that tie-break.
- Null-valued keys are modelled where they change the outcome: an attachment object that has only null keys is truthy (`otherKeys`), and a null nested `attachments` in an upload body gives `""`. Apart from these and from the null `issue` and `issue.fields` objects above, the handlers read values with `.get`, and there a null value and an absent key behave the same.

## Findings

| source | as written | input that shows it | evidently intended | confidence | as-written member | corrected member |
|---|---|---|---|---|---|---|
| jira_sync.py:242-247, 283-284 | the duplicate guard looks up only `(source_jira, source_attachment_id)`, while an upload stores the copy's URL and id only in the `dest_*` columns | attachment 10010 of TEST-1 on A (`http://a`) is uploaded to B (`http://b/`) as 10020; B's `attachment_created` for 10020 reaches `/webhook/B-to-A`, where the guard looks up (`http://b`, 10020), finds nothing, and uploads the copy back to A; this repeats forever | an attachment that is itself the stored copy of an earlier upload is also recognised and ignored, so an upload is never relayed back | not executed | Handlers.SourceGuardMissesEcho | Handlers.UploadEchoIgnored |
