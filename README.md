# Conversation audit, transfer and chatbot replies of the cskefu contact center

This project models two pieces of the cskefu contact center in Dafny and proves properties of them.

- **The agent console's audit and transfer pages** (`AgentAuditController`):
  - the sort order and the repository query behind the audit list of in-service conversations;
  - the agents a conversation can be transferred to;
  - the skill group preselected in the transfer dialog;
  - the transfer itself (`transfersave`). It moves the conversation to the target agent, takes the visitor off the source agent's served set, updates the service record, and sends the visitor and the new agent a notice.
- **The chatbot bridge** (`ChatbotEventSubscription`). It takes a queued visitor message and dispatches on the chatbot engine's response code. On success it advances the conversation's chatbot round and logic-error counters, then saves and publishes a reply built field by field from the request.

Repositories, the cache and the message senders become plain state:

- maps of records;
- an `Option` for each lookup (`None` is Java's `null`);
- a sequence of sent notices (`CallCenter.outbox`);
- a sequence of persistence effects in the order they happen (`ChatbotSubscription.effects`).

Modules:

- `Wrappers`: `Option`.
- `JavaText`: nullable strings and commons-lang `StringUtils.isBlank`.
- `Int32`: Java `int` with wrap-around.
- `Entities`: the records shared by both files.
- `AgentAudit`: the controller. `transfersave` is the method `CallCenter.TransferSave` over mutable maps.
- `ChatbotEvents`: the bridge. Its counter update and publishing are methods of the class `ChatbotSubscription`.

Facts about the code that the model keeps:

- A transfer is acted on only when `userid`, `agentuserid` and `agentno` are all non-blank (lines 332-334).
- The code does not check that the target is ready, reserves no capacity and has no rollback. Capacity reservation, least-busy ordering and transfer rollback are not in these files and are not modelled.
- The agent's NEW notice goes to the service record's agent at the moment it is sent. When the target agent has no cached status, that is the agent the record named before the transfer (normally the source agent), because the record is reassigned only afterwards (lines 363-366 against 393-396 and 403-404).
- The chatbot counters are Java `int`s. They are monotonic only below `Integer.MAX_VALUE`: the round counter wraps at the maximum, and the invariant "errors ≤ rounds" then fails (`RoundWrapBreaksConsistency`).

The `MainContext` enum and the `ChatMessage` class are not part of this model. The status, call-type and media-type strings are taken as the lower-case renderings of their constants ("inservice", "in", "out", "text"). A new `ChatMessage` is taken to have every modelled field unset.

## Model

| member | source | states |
|---|---|---|
| `Int32.Inc` | contact-center/app/src/main/java/com/chatopera/cc/activemq/ChatbotEventSubscription.java:134-136 | A Java `int` increment adds one below `Integer.MAX_VALUE` and wraps to `Integer.MIN_VALUE` at it. |
| `AgentAudit.ChooseSort` | contact-center/app/src/main/java/com/chatopera/cc/handler/apps/cca/AgentAuditController.java:130-149 | A blank `sort` gives [status DESC]. "lastmessage" gives [status DESC, lastmessage DESC] and "logintime" gives [status DESC, createtime DESC]; only these two are echoed back as the `sort` attribute. "default" gives [status DESC] with no echo. Any other non-blank value gives no sort. Every chosen sort starts with status DESC. |
| `AgentAudit.ChooseQuery` | contact-center/app/src/main/java/com/chatopera/cc/handler/apps/cca/AgentAuditController.java:154-171 | Every branch selects only in-service conversations of the organisation. With skill and agent both blank, the logged-in agent's own conversations are excluded. Both given: filter on both. Skill only: filter on skill and exclude the (blank) `agentno` value as passed. Agent only: filter on agent. The `skill`/`agentno` view attributes are set exactly when non-blank. |
| `AgentAudit.DefaultOrgan` | contact-center/app/src/main/java/com/chatopera/cc/handler/apps/cca/AgentAuditController.java:222-229 | The preselected skill group is the user's first organ when it is not blank. Otherwise it is the first listed skill group. Otherwise it is the blank first organ, or null when the user has none. |
| `AgentAudit.ReadyCandidateIds` | contact-center/app/src/main/java/com/chatopera/cc/handler/apps/cca/AgentAuditController.java:232-240 | The collected ids are exactly the ready agents other than the conversation's current agent, each once, in no particular order. |
| `AgentAudit.FindAll` | contact-center/app/src/main/java/com/chatopera/cc/handler/apps/cca/AgentAuditController.java:242 | `findAll` returns only stored users among the requested ids, each once even when its id is requested twice, loaded without an agent status. |
| `AgentAudit.FindAllComplete` | contact-center/app/src/main/java/com/chatopera/cc/handler/apps/cca/AgentAuditController.java:289 | Every requested id that has a stored user is among the loaded users. |
| `AgentAudit.AttachReadyStatuses` | contact-center/app/src/main/java/com/chatopera/cc/handler/apps/cca/AgentAuditController.java:243-247 | Each loaded user gets the ready map's entry for its id, and the list is otherwise unchanged. |
| `AgentAudit.Transfer` | contact-center/app/src/main/java/com/chatopera/cc/handler/apps/cca/AgentAuditController.java:205-260 | Nothing is prepared unless visitor and conversation are non-blank. Every offered agent is ready, stored, carries its ready status and is not the current agent. Every such agent is offered, and none twice. The skill group is `DefaultOrgan`; the service record is the one looked up. |
| `AgentAudit.OtherAgentnosMembers` | contact-center/app/src/main/java/com/chatopera/cc/handler/apps/cca/AgentAuditController.java:283-287 | An id is collected exactly when some non-null status entry of the group has it and it is not the current agent. Null entries are skipped and the current agent is never offered. |
| `AgentAudit.SkillCandidateIds` | contact-center/app/src/main/java/com/chatopera/cc/handler/apps/cca/AgentAuditController.java:280-288 | The filtering loop collects the agent numbers of the non-null entries, minus the current agent, in list order. |
| `AgentAudit.FirstStatus` | contact-center/app/src/main/java/com/chatopera/cc/handler/apps/cca/AgentAuditController.java:290-297 | The attached status is the first non-null entry with the user's agent number. It is none exactly when no non-null entry has that number. |
| `AgentAudit.FirstStatusAsWritten` | contact-center/app/src/main/java/com/chatopera/cc/handler/apps/cca/AgentAuditController.java:292-297 | The scan as written dereferences a null entry exactly when one comes before the first match. On a list without nulls it attaches what `FirstStatus` does. |
| `AgentAudit.NullEntryBreaksAttach` | contact-center/app/src/main/java/com/chatopera/cc/handler/apps/cca/AgentAuditController.java:283-297 | For the list [null, status of agent "a"], the filter offers "a" but the scan as written dereferences the null, while `FirstStatus` attaches a's status. |
| `AgentAudit.AttachSkillStatuses` | contact-center/app/src/main/java/com/chatopera/cc/handler/apps/cca/AgentAuditController.java:290-298 | Each loaded user gets `FirstStatus` of its id, and the list is otherwise unchanged. |
| `AgentAudit.TransferAgent` | contact-center/app/src/main/java/com/chatopera/cc/handler/apps/cca/AgentAuditController.java:271-304 | Nothing is prepared without a skill group. Every offered agent has a non-null entry in the group, is stored, is not the current agent and carries its first entry there. Every such agent is offered, and none twice, even when the group lists it twice. |
| `AgentAudit.TransferNotices` | contact-center/app/src/main/java/com/chatopera/cc/handler/apps/cca/AgentAuditController.java:368-400 | No notice is sent when the success text cannot be composed. A visitor STATUS notice on the conversation's channel is sent exactly when the visitor id is non-blank, and only first. An agent NEW notice on WEBIM to the service record's agent is sent exactly when there is a service record, and only last. Both carry the same text, conversation and service record; only the agent's carries the conversation as channel message. |
| `AgentAudit.WithoutVisitor` | contact-center/app/src/main/java/com/chatopera/cc/handler/apps/cca/AgentAuditController.java:357-359 | The visitor leaves the named agent's served set; every other agent's set stays as it was. |
| `AgentAudit.Transferred` | contact-center/app/src/main/java/com/chatopera/cc/handler/apps/cca/AgentAuditController.java:403-408 | The service record names the target agent and is marked transferred. The memo is overwritten only by a non-blank memo; otherwise the old memo is kept. |
| `AgentAudit.CallCenter.TransferSave` | contact-center/app/src/main/java/com/chatopera/cc/handler/apps/cca/AgentAuditController.java:318-414 | Nothing changes unless visitor, conversation and target are non-blank. An unresolvable conversation or a target without a user record fails with nothing changed. Otherwise the conversation names the target agent whatever its status. For an in-service conversation with a cached source status, the visitor leaves the source's served set and the source's status is recomputed. Notices are sent only for an in-service conversation, as `TransferNotices` says. A missing service record fails at line 364 when the target's status is cached, keeping the changes made so far. Otherwise any service record is saved as `Transferred`. |
| `AgentAudit.CallCenter.Reassign` | contact-center/app/src/main/java/com/chatopera/cc/handler/apps/cca/AgentAuditController.java:341-411 | Once the conversation is resolved and the target found, this is the part of `TransferSave` after those checks: the stored conversation, served sets, status recomputations, notices and service record change exactly as `TransferSave` states. |
| `AgentAudit.CallCenter.ReleaseVisitor` | contact-center/app/src/main/java/com/chatopera/cc/handler/apps/cca/AgentAuditController.java:358-361 | The visitor leaves the source agent's served set and the source agent's status recomputation is recorded; nothing else changes. |
| `AgentAudit.CallCenter.SaveTransferred` | contact-center/app/src/main/java/com/chatopera/cc/handler/apps/cca/AgentAuditController.java:403-411 | The service record is saved as `Transferred`; nothing else changes. |
| `ChatbotEvents.Dispatch` | contact-center/app/src/main/java/com/chatopera/cc/activemq/ChatbotEventSubscription.java:90-122 | Only a non-null answer with response code 0 is replied to, with its data. |
| `ChatbotEvents.BuildReply` | contact-center/app/src/main/java/com/chatopera/cc/activemq/ChatbotEventSubscription.java:95-113 | The reply is outbound. `touser` and `userid` are the request's `userid`. orgi, aiid, agentserviceid, msgtype, type, channel, contextid, sessionid and usession are copied from the request. The message is the answer's text and the username is the chatbot's name. `expmsg` is set only when the answer has params. `appid` is the fresh message's own, not the request's. |
| `ChatbotEvents.ReplyIsDetermined` | contact-center/app/src/main/java/com/chatopera/cc/activemq/ChatbotEventSubscription.java:95-113 | These field rules determine the reply completely. |
| `ChatbotEvents.Bump` | contact-center/app/src/main/java/com/chatopera/cc/activemq/ChatbotEventSubscription.java:134-137 | The chatbot round rises by exactly one (below the `int` maximum). The logic-error count rises by one exactly when `logic_is_unexpected` is present and true. No other field changes. Below the maximum, `0 <= errors <= rounds` is preserved. |
| `ChatbotEvents.RoundWrapBreaksConsistency` | contact-center/app/src/main/java/com/chatopera/cc/activemq/ChatbotEventSubscription.java:134 | At the `int` maximum an unflagged answer wraps the round counter below the error count. |
| `ChatbotEvents.ChatbotSubscription.UpdateAgentUserWithRespData` | contact-center/app/src/main/java/com/chatopera/cc/activemq/ChatbotEventSubscription.java:132-141 | A cached conversation is advanced by `Bump` and saved. An uncached one causes no change and no save. The counter invariant of the cache is kept. |
| `ChatbotEvents.ChatbotSubscription.Chat` | contact-center/app/src/main/java/com/chatopera/cc/activemq/ChatbotEventSubscription.java:77-124 | A missing chatbot, a raised client exception, a null result or a non-zero code change nothing and publish nothing. A successful answer advances the counters first (when cached), then saves and publishes exactly one reply satisfying `IsReplyTo`. The counter invariant is kept below the `int` maximum. |
| `ChatbotEvents.ChatbotSubscription.OnMessage` | contact-center/app/src/main/java/com/chatopera/cc/activemq/ChatbotEventSubscription.java:64-74 | A MalformedURL or Chatbot exception is swallowed, with no reply and no counter change. A null message or a missing chatbot is a null dereference that escapes. Otherwise the step is that of `Chat`, and the counter invariant is kept below the `int` maximum. |

## Findings

| source | as written | input that shows it | evidently intended | confidence | as-written member | corrected member |
|---|---|---|---|---|---|---|
| contact-center/app/src/main/java/com/chatopera/cc/handler/apps/cca/AgentAuditController.java:283-297 | The filtering loop skips null status entries, but the attaching loop reads `getAgentno()` of every entry it passes, nulls included. | A skill group whose status list is [null, status of agent "a"], where "a" has a user record: "a" is offered, then attaching its status dereferences the null. | Skip null entries when attaching, as when filtering. | low; not executed (the cache may never return null entries) | `AgentAudit.FirstStatusAsWritten`, `AgentAudit.NullEntryBreaksAttach` | `AgentAudit.FirstStatus` (used by `AgentAudit.TransferAgent`) |

## Left out

- `index` beyond the sort and query choice is left out as page plumbing: view population, `bundleDialogRequiredDataInView`, the skill group and agent lists (lines 173-192). The repository's evaluation of a query is also out: its ordering. `Matches` compares a null column or a null parameter as an ordinary value; how the repository compares null columns and null parameters (SQL null semantics, or a derived query's rewriting to `IS NULL` / `IS NOT NULL`) is not modelled.
- `agentusers` and `agentuser` (lines 417-515) only fill a page from repositories. The `betweentime` computation in `agentuser` is also out: it reads the clock and truncates a `long` to `int`.
- `JavaText.IsWhitespace` is `Character.isWhitespace` of Java 9 and later (Unicode 6.3 onwards). On Java 8, U+180E MONGOLIAN VOWEL SEPARATOR also counts as whitespace, so a string of only U+180E is blank there and not blank in the model. The JDK version is not fixed by these files.
- `UserProxy.attachOrgansPropertiesForUser` is a foreign call and is not modelled.
- `OnlineUserProxy.organ`, `findAllReadyAgentStatusByOrgi` and `getAgentStatusBySkillAndOrgi` become inputs (ready map, skill-group list, status list).
- The order of `findAll` results is taken as the order in which the ids are first requested. The repository does not promise one.
- `resolveAgentUser` is a lookup of the conversation by `agentuserid`; its failure is the checked exception it declares.
- When the target has no user record, the source has already set `agentno` on the resolved conversation in memory before failing at line 342. The model keeps the stored conversation unchanged and does not model an in-memory object shared with the cache.
- `AutomaticServiceDist.updateAgentStatus` is a foreign call; only the fact that it was called for the source agent is recorded (`refreshed`).
- `AutomaticServiceDist.getSuccessMessage` is an input function; `None` means it threw.
- `peerSyncIM.send` is an append to `outbox`. A send that throws (which would skip the agent's notice) is not modelled.
- The organisation scope of the cache and repository lookups in `transfersave` is not modelled: the state is one organisation's.
- Timestamps (`transtime`, `createtime`, `updatetime`) are left out because they read the clock.
- Deserialization and JSON parsing become datatypes: a `None` message, and `ReplyData` with optional `params` and flag. A `JSONException` from a missing or mistyped key is not modelled.
- The chatbot engine call is an input (`BotCall`), and so is its HTTP transport.
- Whether the cache hands out its own entry or a copy is not modelled. The counter update is applied to the cached entry and recorded as a save.
- Logging, concurrency between listeners and cluster-wide consistency are not in these files' logic and are left out.
