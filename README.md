# QualiaIA spend-approval core, in Dafny

QualiaIA is an autonomous business operator. Every spend it considers goes through a
three-tier decision:
- amounts under the automatic threshold are approved outright;
- amounts under the human threshold go to a weighted council of language models;
- everything else, and every council without consensus, goes to a human through the
  communication hub.

Around that pipeline sit pieces of bookkeeping, each modelled here:
- the shared system state: daily metrics, pending decisions and the event log;
- the treasury wallet's spending guards;
- both sides of the x402 pay-per-call protocol (hiring agents, selling services);
- the venture portfolio;
- configuration parsing;
- the compliance checklists;
- the five notification channels (Telegram, Twilio, Discord, email, dashboard);
- the agents that do the work: the base agent, the operator and the market scanner.

Each source file is one module. Pure code becomes datatypes, functions and lemmas. Code
that updates objects in place becomes a class whose methods are proved against
specification functions. Some things the program does not decide itself, and these
arrive as parameters:
- the language models' answers;
- what a channel, a bot update or the chain did;
- the clock, ids and nonces;
- `json.loads` (an `Option`, `None` standing for a decode error).

Three helper modules state the Python built-ins the code relies on:
- `Py`: None and raised exceptions as `Option`/`Result`, string methods, slicing,
  insertion-ordered dicts, and the stable newest-first sort of every history getter;
- `Json`: decoded JSON values with `.get`, truthiness, `int()` and `float()`;
- `Numerals`: decimal text and the `:.0%` format.

Money, weights and confidences are `real`. USDC amounts are integers in millionths of a
dollar.

## Model

| member | source | states |
|---|---|---|
| AgentBase.ValidateConfig | src/agents/base.py:74-78 | construction is refused exactly when the OpenRouter key is empty, with the source's message; otherwise the configuration is kept as given |
| AgentBase.ChooseModel | src/agents/base.py:68 | a non-empty model name is used as given; a missing or empty one means the operational model |
| AgentBase.ChoosePrompt | src/agents/base.py:71 | a non-empty system prompt is used as given; a missing or empty one means the default prompt naming the agent and its role |
| AgentBase.UserPrompt | src/agents/base.py:128-129 | the JSON-only instruction is appended exactly when a JSON answer is asked for |
| AgentBase.MemoryWindow | src/agents/base.py:144-150 | after an exchange the memory holds min(old length + 2, 40) messages and ends with that exchange |
| AgentBase.AgentTask.constructor | src/agents/base.py:22-33 | a new task is pending, with no result, no error and no completion time |
| AgentBase.Agent.constructor | src/agents/base.py:56-91 | a new agent asks the chosen model with the chosen prompt, with no tasks and no memory |
| AgentBase.Agent.Think | src/agents/base.py:104-156 | the conversation sent is the system prompt, the memory when asked for, then the user prompt; a failed call is passed on and leaves memory alone; a successful one with memory appends the exchange and keeps the last 40 messages; tasks are untouched |
| AgentBase.Agent.ClearMemory | src/agents/base.py:206-208 | memory becomes empty and the task list is untouched |
| AgentBase.Agent.StartTask | src/agents/base.py:180-187 | a fresh task with the context (or `{}` when it is empty) is marked running and appended |
| AgentBase.Agent.FinishTask | src/agents/base.py:189-204 | a result completes the task, an exception fails it with its text; either way it is stamped and the list keeps its last 100 tasks |
| AgentBase.Agent.RunTask | src/agents/base.py:163-204 | the task list gains exactly the new task (capped at 100); it ends completed with the result or failed with the error; memory is untouched |
| AgentBase.Agent.TaskHistory | src/agents/base.py:210-212 | a positive limit gives the last min(limit, count) tasks in order; zero gives all of them, and a negative limit drops that many from the front, as Python slicing does |
| Compliance.ConsentValidityOnlyLapses | src/legal/compliance.py:68-73 | a consent valid at some time was valid at every earlier time: it is granted and any expiry only ends it |
| Compliance.RetentionDays | src/legal/compliance.py:108-113 | every category is kept a positive number of days, at most seven years, and only financial data is kept the full 2555 days |
| Compliance.Retention | src/legal/compliance.py:282-285 | the retention of a record is the largest retention of its categories; `max` over no categories raises |
| Compliance.FinancialRetention | src/legal/compliance.py:282-285 | a record holding financial data is kept 2555 days, whatever else it holds |
| Compliance.ActionsRequired | src/legal/compliance.py:210-213 | a key is listed exactly when its entry is the value False or text starting "TODO" |
| Compliance.CheckFrance | src/legal/compliance.py:180-214 | the France report is compliant exactly when RGPD compliance is set, no DPIA is required, a CNIL registration and a DPO e-mail are given |
| Compliance.FranceAlwaysAsksForDpia | src/legal/compliance.py:184-213 | "dpia_completed" is always among the actions required, even in a compliant report |
| Compliance.CheckUsa | src/legal/compliance.py:216-245 | a California report is compliant exactly when CCPA compliance is set and a privacy policy URL is given; a Colorado report never is, since its risk assessment entry is always False |
| Compliance.CheckEuAiAct | src/legal/compliance.py:247-272 | the EU report is "preparing" and compliant, with seven checks led by the risk classification and whether it is "high", and a note naming the classification |
| Compliance.ComplianceManager.constructor | src/legal/compliance.py:98-105 | a new manager keeps its configuration, with no processing records and no consents |
| Compliance.ComplianceManager.CheckCompliance | src/legal/compliance.py:165-178 | France, California and Colorado get their checklists, the EU its preparation report, and Wyoming the "unknown" report |
| Compliance.ComplianceManager.RecordProcessing | src/legal/compliance.py:274-297 | a record with categories is appended with their largest retention; one with none raises and records nothing; consents are untouched |
| Config.NoPlaceholderFixed | src/config.py:270-282 | each `re.sub` pass leaves text without "${" unchanged |
| Config.TextWithoutPlaceholderUnchanged | src/config.py:259-284 | substitution leaves text without "${" unchanged |
| Config.PlaceholderWithDefault | src/config.py:270-274 | `${NAME:-default}` becomes the variable's value when it is set, even to "", and the default otherwise |
| Config.SimplePlaceholderFirstPass | src/config.py:274 | the first pass leaves a `${NAME}` placeholder alone |
| Config.SimplePlaceholderSecondPass | src/config.py:277-282 | the second pass replaces `${NAME}` by the variable's value, or "" when it is unset |
| Config.SimplePlaceholder | src/config.py:259-284 | substitution turns `${NAME}` into the variable's value, or "" when it is unset |
| Config.InsertedPlaceholderIsExpanded | src/config.py:274-282 | a `${NAME}` that the first pass inserts from the environment is expanded in turn by the second pass |
| Config.ValidateApiKey | src/config.py:29-37 | a key is accepted, unchanged, exactly when it is non-empty and does not start with the template placeholder "sk-or-v1-XXXX" |
| Config.ValidateBotToken | src/config.py:79-87 | a bot token is accepted, unchanged, exactly when it contains ':' |
| Config.StrippedPieceSource | src/config.py:113 | every kept piece is the stripped form of an input piece |
| Config.StrippedPieceKept | src/config.py:113 | every input piece that is not blank is kept, stripped |
| Config.StrippedPiecesMembers | src/config.py:113 | the kept pieces are exactly the non-empty stripped input pieces |
| Config.StrippedPiecesStripped | src/config.py:113 | a kept piece has no surrounding whitespace left |
| Config.CommaListPieces | src/config.py:112-113 | a piece of a comma-separated list is non-empty, holds no comma and is already stripped |
| Config.IntsOf | src/config.py:95 | converting a list succeeds exactly when every element converts, one number per element |
| Config.ParseUserIds | src/config.py:89-96 | text is split on commas, stripped and converted; a list is converted element by element; anything else gives no ids |
| Config.StringList | src/config.py:109-114 | text gives its stripped non-empty comma pieces, a missing or empty value gives [], a list is kept, and any other value is refused |
| Config.CorsOrigins | src/config.py:162-167 | as the other list validators, except that a missing or empty non-text value gives ["*"] |
| Config.DigitIdsRoundTrip | src/config.py:323-331 | ids written as comma-separated decimals are loaded back as the same ids |
| Config.DigitPiecesOfDecimals | src/config.py:329-331 | every decimal spelling of an id is kept and converted back to that id |
| Council.BuildMembers | src/council/deliberation.py:106-126 | one member per configured entry, in order (a dict's missing id, role and weight default to "", "Advisor" and 1.0; a bare id is an Advisor of weight 1.0); no entries give the four default members |
| Council.NewCouncil | src/council/deliberation.py:88-129 | construction fails exactly when the API key is empty; otherwise the council has at least one member, as built from the configuration, and the configured threshold |
| Council.FirstFlatObject | src/council/deliberation.py:276 | the search finds the leftmost `{...}` with no brace inside, and finds none exactly when there is none |
| Council.ParseReply | src/council/deliberation.py:271-280 | a reply that decodes as JSON is taken whole; one that does not is replaced by its first flat `{...}`, taken when that decodes and raising when it does not; with no flat `{...}` it raises the "No valid JSON found" error with the first 200 characters |
| Council.OpinionFromJson | src/council/deliberation.py:282-287 | a decoded object gives the member's opinion: the "vote" field lower-cased ("abstain" when absent), the "confidence" field as `float()` reads it (0.5 when absent), the "reasoning" text ("No reasoning provided" when absent); it fails exactly when the reply is not an object, the vote is not text or the confidence does not convert |
| Council.GetOpinion | src/council/deliberation.py:234-304 | the opinion is the member's; a reply that parses and converts gives exactly the opinion `OpinionFromJson` builds; a reply that does not parse abstains at confidence 0 with "Error: " and the parse error; a conversion failure, a missing text and any exception raised inside abstain at confidence 0 with reasoning starting "Error: "; a timeout abstains with "Timeout - no response" |
| Council.GatherOpinions | src/council/deliberation.py:183-232 | one opinion per member in member order; an exception escaping a member's call becomes an "error" vote |
| Council.KeyLines | src/council/deliberation.py:387-390 | one key-consideration line per approve or reject opinion |
| Council.Synthesize | src/council/deliberation.py:306-364 | the verdict keeps the opinions it weighed |
| Council.ValidOpinions | src/council/deliberation.py:157 | the kept opinions are exactly the ones whose vote is not "error", and none are kept exactly when every vote is "error" |
| Council.ValidOpinionsAppend | src/council/deliberation.py:157 | the filter keeps order: filtering a concatenation concatenates the filtered parts |
| Council.ValidOpinionsSingle | src/council/deliberation.py:157 | a single opinion is kept exactly when its vote is not "error" |
| Council.Deliberate | src/council/deliberation.py:131-181 | when every member failed the result is "All council members failed to respond" with no opinions; otherwise it is exactly the synthesis over the opinions that did not fail, in member order, and never holds an "error" vote |
| Council.ErrorOpinionIgnored | src/council/deliberation.py:156-181 | an "error" opinion, at any position, does not change the deliberation |
| Council.ConsensusIffDecisiveVote | src/council/deliberation.py:327-352 | consensus is reported exactly when the verdict is approve or reject, both for the synthesis and for the whole deliberation |
| Council.SynthesisConsensus | src/council/deliberation.py:327-352 | consensus is reported exactly when the synthesised verdict is approve or reject |
| Council.AllAbstainedVerdict | src/council/deliberation.py:327-336 | with no approve or reject weight the result is "All council members abstained" without consensus and at confidence 0 |
| Council.ApproveWhenRatioReachesThreshold | src/council/deliberation.py:338-344 | an approve ratio at or above the threshold approves by consensus, with the ratio as confidence |
| Council.RejectWhenComplementReachesThreshold | src/council/deliberation.py:345-348 | below the threshold, a complement 1 - ratio at or above it rejects by consensus, with the complement as confidence |
| Council.NoConsensusOtherwise | src/council/deliberation.py:349-352 | when neither side reaches the threshold there is no consensus, at the larger side's confidence |
| Council.RejectWeightIsIgnored | src/council/deliberation.py:315-352 | two opinion lists with the same approve and decisive weights get the same verdict and confidence, whatever their reject weights |
| Council.LoneLowConfidenceApproveRejects | src/council/deliberation.py:338-348 | a single approve vote at confidence 0.2 is judged a rejection with confidence 0.8, although nobody voted reject |
| Council.ApproveWeightBounded | src/council/deliberation.py:315-325 | with confidences in [0, 1] and non-negative weights, the approve weight lies between 0 and the decisive weight |
| Council.ConfidenceIsProportion | src/council/deliberation.py:327-352 | under the same conditions the verdict's confidence is in [0, 1], and a consensus verdict's confidence reaches the threshold |
| Council.NonDecisiveVotesIgnored | src/council/deliberation.py:315-325 | an abstention or unrecognised vote moves neither the approve weight nor the decisive weight |
| Council.SynthesisShape | src/council/deliberation.py:366-392 | the synthesis has five header lines and one key line per decisive opinion, its third line naming the decision in capitals |
| Dashboard.VerifyAuth | src/communication/channels/dashboard.py:189-197 | a caller is let in exactly when no API keys are configured or the bearer credentials are one of the keys; otherwise the answer is 401 "Invalid API key" |
| Dashboard.SocketRuleIsRestRule | src/communication/channels/dashboard.py:225-227 | the WebSocket refuses a key exactly when the REST routes would |
| Dashboard.HistorySlice | src/communication/channels/dashboard.py:181 | `event_history[-limit:]` is the last `limit` events for a positive limit, all of them for 0, and all but the first `-limit` for a negative one |
| Dashboard.FailedSends | src/communication/channels/dashboard.py:267-272 | the sockets dropped by a broadcast are exactly the connected ones whose send fails |
| Dashboard.DashboardChannel.constructor | src/communication/channels/dashboard.py:55-73 | a new dashboard holds the configured keys as a set and the injected state, with an empty buffer and no connections |
| Dashboard.DashboardChannel.Broadcast | src/communication/channels/dashboard.py:261-274 | the event is appended to the buffer, which keeps its last 100; failing sockets leave the connections and the rest received the event |
| Dashboard.DashboardChannel.Connect | src/communication/channels/dashboard.py:222-236 | a refused key closes the socket with code 4001 and changes nothing; an accepted socket joins the connections and is sent the last 50 buffered events |
| Dashboard.DashboardChannel.Disconnect | src/communication/channels/dashboard.py:258-259 | the socket leaves the connections, however the session ended |
| Dashboard.DashboardChannel.Stop | src/communication/channels/dashboard.py:280-287 | every connection is dropped; the buffer is kept |
| Dashboard.DashboardChannel.Decide | src/communication/channels/dashboard.py:125-151 | 401 on a bad key, 500 without a state, 404 for an unknown decision; a known decision is resolved by "dashboard" with the requested action, the resolution is broadcast and "recorded" is answered; a failure broadcasts nothing |
| Dashboard.DashboardChannel.SetRunning | src/communication/channels/dashboard.py:153-171 | 401 on a bad key, 500 without a state, served when the key is good and a state exists; then the state's status becomes "paused" or "running", a "system_paused" or "system_resumed" event is broadcast, and the state's event history and everything else in it is unchanged |
| Dashboard.DashboardChannel.History | src/communication/channels/dashboard.py:173-181 | a limit over 1000 fails validation with 422 before the key check; 401 on a bad key; no state gives no events; otherwise the last `limit` events |
| Dashboard.DashboardChannel.Send | src/communication/channels/dashboard.py:289-300 | the hub message is broadcast as a "message" event |
| Dashboard.DashboardChannel.SendAndWait | src/communication/channels/dashboard.py:302-305 | the message is broadcast and there is never a reply |
| Dashboard.BufferBounded | src/communication/channels/dashboard.py:263-265 | the buffer never holds more than 100 events, and the newest is last |
| Dashboard.ReplayIsNewest | src/communication/channels/dashboard.py:233-236 | a new connection is replayed the newest min(50, buffered) events |
| Discord.ValidateWebhooks | src/communication/channels/discord.py:31-41 | construction succeeds, keeping the webhooks, exactly when at least one webhook URL is non-empty |
| Discord.Fallback | src/communication/channels/discord.py:101-106 | a message without keywords goes to a usable "alerts" webhook, else a usable "status" one, else the first configured URL, empty or not |
| Discord.WebhookFor | src/communication/channels/discord.py:90-106 | alert words in the lower-cased subject pick "alerts", then status words "status", then venture words "ventures", each looked up whether present or not; otherwise the fallback |
| Discord.FallbackDefined | src/communication/channels/discord.py:37-41 | once construction succeeded, the fallback always yields some URL |
| Discord.AlertsIsTheDefault | src/communication/channels/discord.py:94-106 | with a usable "alerts" webhook, every message without status or venture words goes there |
| Discord.Colour | src/communication/channels/discord.py:110-121 | each priority has its own colour: red critical, orange urgent, green standard, blue async, gray passive |
| Discord.Fields | src/communication/channels/discord.py:129-136 | one inline field per context entry for the first 25 entries, titled from the key, with the value's text cut to 1024 characters |
| Discord.FormatEmbed | src/communication/channels/discord.py:108-140 | the embed has the subject as title, the body cut to 4096 characters and the priority's colour; fields appear exactly when the context is a non-empty dictionary; a context that is true but not a dictionary raises |
| Discord.Send | src/communication/channels/discord.py:61-83 | nothing is posted before `start` or when the chosen webhook is missing or empty; otherwise exactly one post of the embed to that non-empty URL |
| Discord.SendAndWait | src/communication/channels/discord.py:85-88 | the post of `send`, and never a reply |
| Email.ValidateConfig | src/communication/channels/email.py:39-54 | construction succeeds, keeping the configuration, exactly when the SMTP username, the password and the recipient list are all non-empty; a missing username is reported first |
| Email.Sender | src/communication/channels/email.py:97 | the From header is the configured address, or the SMTP username when that is empty |
| Email.StripTagsKeepsText | src/communication/channels/email.py:101 | text without '<' passes through the tag removal unchanged, whatever follows it |
| Email.StripTagsDropsTag | src/communication/channels/email.py:101 | a tag `<...>` with a non-empty inside vanishes entirely |
| Email.StripTagsDropsTags | src/communication/channels/email.py:101 | a run of such tags vanishes entirely |
| Email.StripTagsOfText | src/communication/channels/email.py:101 | text without '<' has nothing to strip |
| Email.BadgeColour | src/communication/channels/email.py:122-130 | each priority has its own badge colour: red critical, yellow urgent, green standard, blue async, gray passive |
| Email.DetailRowPlain | src/communication/channels/email.py:136-137 | the plain text of a details row is the key as a title followed by the value, when neither holds '<' |
| Email.DetailRows | src/communication/channels/email.py:135-139 | one table row per context entry, in order |
| Email.Details | src/communication/channels/email.py:133-145 | the details section is empty exactly when the context is false in Python; a dictionary gives its table; any other true value raises |
| Email.PageOf | src/communication/channels/email.py:120-187 | the page shows the priority's badge colour and name, the subject, the body, the details, the message id and the time; it fails exactly when the details do |
| Email.FormatHtml | src/communication/channels/email.py:120-187 | `_format_html` renders the page of the message, and fails exactly when the page does |
| Email.Mails | src/communication/channels/email.py:76-81 | one email per recipient in list order, from the sender, under "[QualiaIA] " and the subject |
| Email.Send | src/communication/channels/email.py:72-81 | `send` makes one email per recipient in order, each carrying the message's page under the tagged subject, or raises what `_format_html` raises |
| Email.SentPageIsFormatted | src/communication/channels/email.py:74-81 | every email sent carries exactly the HTML `_format_html` renders |
| Email.SendAndWait | src/communication/channels/email.py:83-86 | the emails of `send`, and never a reply |
| Hub.ChannelNamed | src/communication/hub.py:31-38 | a name is a channel exactly when it is one of the six channel values |
| Hub.EventPriority | src/communication/hub.py:217-219 | an event listed in the priority table gets its listed priority; any other event is STANDARD |
| Hub.LiveChannels | src/communication/hub.py:236 | the routed channels are the listed ones that were initialised, none added and none initialised left out, at most one per listed name; a name that is not a channel raises |
| Hub.Deliver | src/communication/hub.py:297-316 | the send loop tries channels in order: without a wanted reply it stops at the first channel that does not raise and returns nothing; with one it returns the first non-empty reply, which came from the last channel tried, and returns nothing only when no channel gave one |
| Hub.ApprovalPriority | src/communication/hub.py:380-384 | an approval request is URGENT exactly when the amount is given and over 2000, and STANDARD otherwise |
| Hub.ApprovalOutcome | src/communication/hub.py:396-405 | a reply approves exactly when it is non-empty and, lower-cased and stripped, an approve word; any reply is returned as the comment and resolves the decision by "human"; no reply is a timeout by "system", rejected with "Timeout - auto-rejected" |
| Hub.DeliverStep | src/communication/hub.py:298-314 | one turn of the send loop: a channel that stops the loop ends it, any other passes on to the next channel |
| Hub.TryChannels | src/communication/hub.py:298-316 | the loop of `send` returns the reply of the send loop and tries exactly as many channels |
| Hub.CommunicationHub.constructor | src/communication/hub.py:119-132 | a new hub has the configured routing, the initialised channels, the shared state and no message history |
| Hub.CommunicationHub.Send | src/communication/hub.py:238-316 | the message (the given priority or the event's, the subject derived from the event type) joins the history, which keeps its last 1000, and one event is recorded; then the routed channels are tried as the send loop says; nothing else in the state changes |
| Hub.CommunicationHub.RequestApproval | src/communication/hub.py:318-405 | the new decision (status "pending", the given fields, created now) is registered before sending and then resolved as the reply says (approved or rejected by "human", or timeout by "system") and stamped with the second clock reading taken after the wait, other decisions untouched; the message history gains exactly the approval message (the decision's context, the amount's priority, the "high_value_approval" subject, wanting a reply within the timeout) and the event log exactly its send event; the day's metrics and attributes are unchanged; the answer is (approved, comment), or the routing error |
| Hub.DecisionContext | src/core/state.py:81-94 | the approval message's context is a JSON object whose "id" and "status" are the decision's |
| Hub.ContextExpiryFlag | src/core/state.py:77-79 | the context's "is_expired" flag, read as the decision is created, is set only for a negative timeout |
| Hub.PendingAfterApproval | src/communication/hub.py:343-405 | after an approval request only the new decision changes: it stays pending when no channel serves the priority, and otherwise carries the settled status, the responder and the response time, which is the clock reading taken when the wait ended, not the creation time |
| Hub.ApprovalAnswer | src/communication/hub.py:380-405 | the request fails exactly when no channel serves the amount's priority; otherwise it approves exactly when a reply came and is an approve word, and its comment is the reply or "Timeout - auto-rejected" |
| Hub.CommunicationHub.MessageHistory | src/communication/hub.py:449-455 | exactly the first `limit` messages of the history stably sorted newest first: at most `limit` of them, newest first, all from the history, and no message left out is newer than one returned |
| Hub.ReplySource | src/communication/hub.py:304-307 | a reply the send loop returns is the reply of one of the routed channels |
| Hub.ApprovalNeedsAnApprovingReply | src/communication/hub.py:396-401 | the gate approves only when some routed channel returned an approve word |
| Hub.SilenceRejects | src/communication/hub.py:403-405 | when no channel gives a reply the decision times out and is rejected: the gate never approves on silence |
| Py.SpacedTitle | src/communication/hub.py:271 | a message's subject is its event type letter for letter: underscores shown as spaces, a letter after a letter lower-cased and every other letter capitalised, the length unchanged |
| MarketScanner.ToDict | src/agents/market_scanner.py:34-48 | an opportunity's dictionary has its twelve keys and carries its id |
| MarketScanner.IdInjective | src/agents/market_scanner.py:180 | within one day, different positions in a scan get different ids |
| MarketScanner.Convert | src/agents/market_scanner.py:179-190 | a converted entry has the id "opp_<date>_<index>" of its position |
| MarketScanner.ConvertFields | src/agents/market_scanner.py:179-190 | an entry converts exactly when it is a dictionary whose three numbers `float()` accepts; each field is the entry's value or its default ("Untitled", "", 0, confidence 0.5), with no validation score |
| MarketScanner.EmptyEntryDefaults | src/agents/market_scanner.py:179-190 | an empty entry becomes an untitled opportunity with every default |
| MarketScanner.Entries | src/agents/market_scanner.py:172-174 | a list answer is taken as it is; any other answer becomes a one-element list |
| MarketScanner.Conversions | src/agents/market_scanner.py:178-190 | every entry is converted at its own position |
| MarketScanner.ScanStep | src/agents/market_scanner.py:178-192 | one turn of the scan loop appends the converted entry, or stops at the error it raised |
| MarketScanner.ErrorSticks | src/agents/market_scanner.py:178-192 | once an entry has raised, later entries change nothing |
| MarketScanner.ScanMade | src/agents/market_scanner.py:178-194 | the k-th opportunity made is the k-th entry converted; without an error every entry became one; with one, it is the error of the entry right after the last one made |
| MarketScanner.ScanIdsDistinct | src/agents/market_scanner.py:178-192 | no two opportunities of one scan share an id |
| MarketScanner.Dicts | src/agents/market_scanner.py:192 | the results are the opportunities' dictionaries, in order |
| MarketScanner.DictsSnoc | src/agents/market_scanner.py:192 | appending an opportunity appends its dictionary to the results |
| MarketScanner.ScanOutcome | src/agents/market_scanner.py:168-198 | an answer that is not JSON gives [] and stores nothing; otherwise the opportunities made are stored, and the scan returns their dictionaries exactly when no entry raised |
| MarketScanner.AtLeast | src/agents/market_scanner.py:272-274 | exactly the opportunities with confidence at or above the minimum are listed |
| MarketScanner.AtLeastConcat | src/agents/market_scanner.py:272-274 | the query over two lists in a row is the query over each, in that order, so insertion order is kept |
| MarketScanner.Dispatch | src/agents/market_scanner.py:122-133 | the lower-cased task type "scan", "validate" or "analyze" picks its handler; any other goes to generic research |
| MarketScanner.Request | src/agents/market_scanner.py:168 | the scan, validation and analysis handlers ask for JSON with 1000 tokens; research asks for text with 2000 |
| MarketScanner.UnparsedValidationNeedsData | src/agents/market_scanner.py:229-231 | a validation answered without JSON scores 0 and says "need_more_data" |
| MarketScanner.ScannerAgent.constructor | src/agents/market_scanner.py:69-76 | the scanner is a base agent named "MarketScanner" with the scanner prompt and the operational model, with no opportunities |
| MarketScanner.ScannerAgent.ScanEntries | src/agents/market_scanner.py:176-194 | the loop appends each converted entry to the stored list and its dictionary to the results, in order, until an entry raises, whose error is returned with the earlier ones kept |
| MarketScanner.ScannerAgent.ScanMarket | src/agents/market_scanner.py:168-198 | the scan returns and stores what the scan outcome says |
| MarketScanner.ScannerAgent.Opportunities | src/agents/market_scanner.py:272-274 | exactly the stored opportunities with confidence at or above the minimum |
| MarketScanner.ScannerAgent.Execute | src/agents/market_scanner.py:122-270 | a failed model call propagates and stores nothing; a scan stores and returns the scan outcome; validation and analysis return the decoded answer or their fallback; research returns the text; only a scan changes the stored list |
| MarketScanner.ScanThenQuery | src/agents/market_scanner.py:191-274 | after a scan, the query lists what it listed before, then the new opportunities at or above the threshold in the order the model gave them |
| MarketScanner.DefaultConfidenceListed | src/agents/market_scanner.py:189 | an entry without a confidence is listed by the default query at 0.5 |
| Operator.NewOperator | src/agents/operator.py:32-38 | the operator is a base agent named "Operator" on the operational model with the operator prompt, with no tasks and no memory |
| Operator.Dispatch | src/agents/operator.py:58-71 | the lower-cased task type "analyze", "generate", "decide" or "plan" picks its handler; any other goes to the generic one |
| Operator.Request | src/agents/operator.py:90-182 | analysis, decisions and plans ask for JSON; generation asks for 2000 tokens and the rest for 1000 |
| Operator.OverLimit | src/agents/operator.py:137 | `amount > 100` holds for a number over 100 and never for a boolean; any other value raises |
| Operator.DecideAnswer | src/agents/operator.py:111-142 | an answer that is not JSON escalates with the raw text as reasoning; an amount over 100 forces decision "escalate" and the limit reasoning onto a parsed dictionary, whatever the model said, keeping every other field, and raises for a parsed value that is not a dictionary; a non-comparable amount raises; otherwise the parsed answer is returned unchanged |
| Operator.Execute | src/agents/operator.py:58-182 | a failed model call propagates; generation and generic tasks return the text; analysis and plans return the parsed answer or their fallbacks (escalate at confidence 0.5; empty steps); a decision that is not JSON escalates, one over $100 is forced to "escalate" with the limit reasoning, one within the limit is returned as parsed, and a non-comparable amount raises |
| Orchestrator.RouteFor | src/main.py:312-345 | amounts strictly under the automatic threshold are approved outright; between the thresholds the council decides when it reaches consensus on approve or reject; otherwise a human decides, carrying the council's recommendation exactly when the council was consulted |
| Orchestrator.RecordedTiers | src/main.py:314-347 | a route records the autonomous tier iff it was approved outright, the council tier iff the council was consulted, the human tier iff it escalated; one or two records per decision |
| Orchestrator.RecordAllCounts | src/main.py:314-347 | each recorded tier adds one to the day's total, keeps every tier count within the total and leaves the error count alone |
| Orchestrator.CouncilAnswer | src/main.py:329-332 | a consensual council's answer approves iff its vote is approve; a rejection carries the council's reasoning |
| Orchestrator.CouncilContext | src/main.py:323 | the council sees the caller's context with "amount" set to the amount and every other key unchanged |
| Orchestrator.HumanAmount | src/main.py:341 | the approval request carries the amount exactly when it is positive |
| Orchestrator.QualiaIA.constructor | src/main.py:320-350 | the orchestrator keeps its thresholds and its hub |
| Orchestrator.QualiaIA.MakeDecision | src/main.py:292-350 | the answer is the route's (automatic, council, or the human gate's verdict with "Human decision" for an empty comment) and the day's metrics gain exactly the tiers the route recorded; without escalation the hub's message and event histories and the pending decisions are unchanged; an escalation registers exactly the human decision, created at the first clock reading, settles it with the response time of the second reading taken after the wait, and sends exactly its approval message; attributes never change |
| Orchestrator.QualiaIA.AskHuman | src/main.py:337-350 | the human tier answers what the approval request answers ("Human decision" for an empty comment) and records the human tier only when the request returned; the pending decisions gain exactly the settled human decision (24-hour timeout, the council's vote and confidence as recommendation, created at the first clock reading and answered at the second, taken after the wait), the hub sends exactly its approval message, and attributes are unchanged |
| Orchestrator.TiersRecorded | src/main.py:326-347 | when the approval request raises, the recorded tiers are the route's without the final human record |
| Orchestrator.HumanApprovalNeedsApproveWord | src/main.py:338-350 | the human tier approves only if some channel returned a reply that is an approval word |
| Orchestrator.TopTierAlwaysAsksHuman | src/main.py:320-345 | an amount at or over both thresholds always goes to a human, with no council recommendation, and records only the human tier |
| Orchestrator.FallThroughCountsTwice | src/main.py:320-347 | a council without consensus counts the decision twice, once for the council and once for the human |
| Orchestrator.HealthAlerts | src/main.py:251-274 | the low-balance alert is sent iff a wallet's balances sum below the threshold; the error-rate alert iff a decision was made and errors per decision exceed the threshold |
| Orchestrator.ErrorRateSilentWithoutErrors | src/main.py:266-274 | since no operation counts an error, fresh metrics after any decisions never raise the error-rate alert for a non-negative threshold |
| Orchestrator.DefaultTierBoundaries | src/main.py:313-320 | with the default thresholds of 100 and 2000 dollars, an amount just under 100 is approved outright, exactly 100 is not, and exactly 2000 goes straight to a human |
| State.FreshMetrics | src/core/state.py:30-58 | new or reset metrics belong to the given day, count nothing, balance their books and show no profit |
| State.RecordDecision | src/core/state.py:190-199 | a decision adds one to the total and one to the tier it names, when it names one; every other counter is unchanged |
| State.RecordDecisionKeepsTiersWithinTotal | src/core/state.py:190-199 | recording a decision never lets the tier counts exceed the total |
| State.RecordTransaction | src/core/state.py:201-209 | a transaction adds one to the count and its absolute amount to the volume and to the expenses or the revenue, as flagged; nothing else changes |
| State.RecordTransactionKeepsBalance | src/core/state.py:201-209 | the volume stays the sum of revenue and expenses, and the profit moves by the absolute amount, down for an expense and up otherwise |
| State.WithStatus | src/core/state.py:183-189 | the listing holds only decisions with the status asked for, every stored decision with it, and nothing that is not in the table |
| State.WithStatusAppend | src/core/state.py:183-189 | the listing keeps table order: listing two tables laid end to end gives the first table's listing followed by the second's |
| State.SystemState.GetPendingDecisions | src/core/state.py:183-189 | the state's listing holds exactly the stored decisions with the status asked for: each listed one is stored and has that status, and each stored one with that status is listed |
| State.Resolve | src/core/state.py:164-181 | an unknown id returns None and changes nothing; a known one gets the status, the response time and the responder, is returned, and every other decision is unchanged |
| State.ResolveOverwrites | src/core/state.py:164-181 | resolving an already resolved decision overwrites the first answer |
| State.ResolveKeepsKeyedById | src/core/state.py:164-181 | resolution keeps every decision stored under its own id |
| State.UpdateAttributesMeaning | src/core/state.py:143-157 | a key is reported changed exactly when it names an existing attribute holding a different value; such attributes take the new value, the rest keep theirs, and no attribute is created |
| State.UpdateUntouched | src/core/state.py:143-157 | an attribute no keyword names is neither changed nor reported |
| State.SystemState.constructor | src/core/state.py:105-131 | a new state has fresh metrics, no pending decisions and no events |
| State.SystemState.Update | src/core/state.py:143-157 | the loop over the keywords sets the attributes and reports the changed keys as the update function says, touching nothing else |
| State.SystemState.AddPendingDecision | src/core/state.py:158-162 | the decision is stored under its id, replacing any earlier one, and the table stays keyed by id |
| State.SystemState.ResolveDecision | src/core/state.py:164-181 | the table and the answer are the resolution's, and nothing else changes |
| State.SystemState.RecordDecisionMetric | src/core/state.py:190-199 | today's metrics become the recorded decision's, and nothing else changes |
| State.SystemState.RecordTransactionMetric | src/core/state.py:201-209 | today's metrics become the recorded transaction's, keeping the books balanced |
| State.SystemState.RecordEvent | src/core/state.py:211-225 | the event is appended and only the newest 1000 are kept |
| State.SystemState.CheckDailyReset | src/core/state.py:227-236 | the metrics are reset to the new day exactly when the stored date differs from today, and the answer says whether they were |
| State.AddKeepsKeyedById | src/core/state.py:158-162 | adding a decision keeps every decision stored under its own id |
| State.AddedDecisionIsListed | src/core/state.py:158-189 | after a decision is added, listing by its status finds it |
| State.ResolvedDecisionIsListed | src/core/state.py:164-189 | after a known decision is resolved with a status, listing by that status finds the resolved record |
| State.ExpiryBoundary | src/core/state.py:78-79 | a decision is not yet expired at the very end of its timeout, is expired one second later, and stays expired from then on |
| Telegram.ValidateConfig | src/communication/channels/telegram.py:44-59 | the channel is built iff the bot token contains ':' and some user is authorised; the authorised set is exactly the configured ids |
| Telegram.Truncate | src/communication/channels/telegram.py:149-151 | a message never exceeds Telegram's 4096 characters; a longer one keeps its first 4090 and ends in an ellipsis line, a shorter one is unchanged |
| Telegram.DisableNotification | src/communication/channels/telegram.py:158-162 | a message is silent iff the configuration asks for it and its priority is neither critical nor urgent |
| Telegram.SplitCallback | src/communication/channels/telegram.py:222-226 | button data without "_" is refused; otherwise it splits at the last "_", the id part holding no "_" |
| Telegram.CallbackRoundTrip | src/communication/channels/telegram.py:173-180 | the data of a button, split again, gives back its action and message id, for an id without "_" |
| Telegram.ClassifyReply | src/communication/channels/telegram.py:259-264 | a text reply approves iff it is an approval word, rejects iff it is a rejection word, and settles nothing otherwise |
| Telegram.FirstWaiting | src/communication/channels/telegram.py:257-258 | the reply a text settles is the first one still awaited, every earlier one being settled |
| Telegram.ApplyUpdateKeepsKeys | src/communication/channels/telegram.py:212-265 | no button press or text changes which messages are awaited or their order |
| Telegram.PressKeepsAnswer | src/communication/channels/telegram.py:231-232 | a press never changes a reply that is already settled |
| Telegram.TextKeepsAnswer | src/communication/channels/telegram.py:257-265 | a text never changes a reply that is already settled |
| Telegram.UpdateKeepsAnswer | src/communication/channels/telegram.py:212-265 | no single update changes a settled reply, and the table keeps distinct ids |
| Telegram.FirstAnswerWins | src/communication/channels/telegram.py:212-265 | once settled, a reply keeps its first answer whatever updates follow |
| Telegram.WaitSeconds | src/communication/channels/telegram.py:202-204 | the wait is the message's timeout in seconds, never more than a day |
| Telegram.Without | src/communication/channels/telegram.py:210 | dropping the message's entry removes it and leaves every other entry as it was |
| Telegram.PendingLines | src/communication/channels/telegram.py:363-378 | with no pending decisions one line says so; otherwise a header, at most the first ten decisions in order, and a count of the rest when there are more than ten |
| Telegram.TelegramChannel.constructor | src/communication/channels/telegram.py:44-69 | a configured channel authorises exactly the configured users and awaits no replies |
| Telegram.TelegramChannel.Send | src/communication/channels/telegram.py:132-164 | nothing is sent before the bot starts; afterwards every authorised user gets the headline cut to Telegram's limit, silent as the configuration says |
| Telegram.TelegramChannel.HandleCallback | src/communication/channels/telegram.py:212-247 | unauthorised presses and data without "_" change nothing; a press on a settled reply raises and changes nothing; otherwise the awaited reply is settled with the action, "pause" is reported, and the table is the one the press function gives |
| Telegram.TelegramChannel.HandleMessage | src/communication/channels/telegram.py:249-265 | an authorised text settles the first awaited reply exactly when it is an approval or rejection word, and the table is the one the text function gives |
| Telegram.TelegramChannel.Receive | src/communication/channels/telegram.py:212-265 | each update moves the table as its handler's function says |
| Telegram.TelegramChannel.SendAndWait | src/communication/channels/telegram.py:167-210 | without a bot it returns None at once; otherwise the message's reply is registered, the updates within the wait settle replies, the answer is the action that settled it or None, and its entry is always dropped afterwards |
| Telegram.PressSettlesWait | src/communication/channels/telegram.py:173-232 | an authorised press of one of the message's own buttons settles the wait with that button's action, whatever follows |
| Twilio.ValidateConfig | src/communication/channels/twilio.py:54-65 | the channel is built iff the account SID is set and is not the placeholder, and the token, sender and recipients are all set; the SID is checked first, then the token |
| Twilio.PlaceholderRefused | src/communication/channels/twilio.py:55-59 | every SID that begins with the placeholder "AC" and thirty 'x' is refused, whatever follows |
| Twilio.SmsPrefix | src/communication/channels/twilio.py:148 | critical and urgent messages get the siren prefix, the rest the warning one |
| Twilio.FormatSmsShape | src/communication/channels/twilio.py:146-156 | a text starts with its prefix and fits in 140 characters; the body is kept whole iff it fits, and otherwise is cut 20 short of the room and ends in the check-Telegram marker |
| Twilio.VoiceScript | src/communication/channels/twilio.py:158-189 | the call greets, says the severity (the emergency sentence iff the message is critical), reads the body cut to 300 characters, gives the key prompt and hangs up |
| Twilio.Send | src/communication/channels/twilio.py:87-144 | nothing happens before the client starts; afterwards every configured number, in order, is texted the formatted SMS in "sms" mode and called with the voice script in any other mode, from the configured number |
| Twilio.SendAndWait | src/communication/channels/twilio.py:98-104 | the same deliveries as a send, and never a reply |
| Ventures.Margin | src/core/ventures.py:55-57 | with positive revenue the margin is the profit per unit of revenue, positive iff revenue exceeds expenses and at most one when expenses are not negative; without positive revenue it is zero |
| Ventures.MergeMetrics | src/core/ventures.py:222-232 | each metric given a value takes it and every other metric keeps its old value |
| Ventures.HealthCheck | src/core/ventures.py:239-250 | a profit below the loss threshold goes to the shutdown review; otherwise an active venture whose revenue and margin both exceed their triggers goes to the scaling review; both comparisons are strict |
| Ventures.ScalingNeedsProfit | src/core/ventures.py:243-250 | with non-negative triggers only a venture with positive revenue and positive profit is ever sent to the scaling review |
| Ventures.StatusAfterHealthCheck | src/core/ventures.py:239-275 | the scaling review always moves the venture to scaling; the shutdown review shuts it down exactly when a council is set and approves by consensus, and otherwise keeps its status; a healthy venture keeps its status |
| Ventures.ActiveOf | src/core/ventures.py:305-313 | the active listing holds exactly the stored ventures in the building, launching, active or scaling status |
| Ventures.ProfitIsRevenueMinusExpenses | src/core/ventures.py:322-324 | the portfolio's summed profit is its summed revenue minus its summed expenses |
| Ventures.Summary | src/core/ventures.py:315-327 | the summary counts every venture but sums revenue, expenses, profit and customers over the active ones only, and lists those |
| Ventures.InactiveVentureNotSummed | src/core/ventures.py:315-327 | adding an inactive venture changes nothing in the summary but the total count |
| Ventures.VentureManager.constructor | src/core/ventures.py:115-136 | a new manager keeps its thresholds and holds no ventures |
| Ventures.VentureManager.CreateVenture | src/core/ventures.py:138-206 | with a council and a positive investment anything but a consensual approval returns None and stores nothing; otherwise a venture in ideation with no metrics and the given configuration is stored under its id and returned |
| Ventures.VentureManager.Store | src/core/ventures.py:195 | a venture is stored under its own id, and every other entry is unchanged |
| Ventures.VentureManager.ShutdownVenture | src/core/ventures.py:283-303 | an unknown id returns false and changes nothing; a known venture is set to shutdown and nothing else changes |
| Ventures.VentureManager.UpdateMetrics | src/core/ventures.py:208-237 | an unknown id returns None and changes nothing; a known venture gets the merged metrics and the status the health check leads to, and is stored and returned |
| Ventures.VentureManager.EvaluateHealth | src/core/ventures.py:239-281 | the stored venture ends in the status the health check leads to, and nothing else changes |
| Ventures.VentureManager.ActiveVentures | src/core/ventures.py:305-313 | every listed venture is active, and every stored active venture is listed |
| Ventures.VentureManager.PortfolioSummaryNow | src/core/ventures.py:315-327 | the summary counts all ventures, counts and sums the active ones, and its profit is revenue minus expenses |
| Wallet.SettledStatus | src/core/wallet.py:252-307 | a transfer without a chain connection is "simulated"; with one it is "confirmed" iff the receipt reported success and "failed" otherwise, including on any exception |
| Wallet.LowerAll | src/core/wallet.py:129-131 | the whitelist holds exactly the lower-cased configured addresses |
| Wallet.LowerAllLowered | src/core/wallet.py:129-131 | every whitelisted address is lower-case |
| Wallet.WalletManager.constructor | src/core/wallet.py:98-139 | a new wallet has spent nothing, resets from now, holds no transactions, and whitelists the lower-cased configured addresses |
| Wallet.WalletManager.CheckDailyReset | src/core/wallet.py:311-316 | more than 24 hours after the last reset the counter is zeroed and the reset time moves to now; otherwise nothing changes |
| Wallet.WalletManager.SendPayment | src/core/wallet.py:197-263 | after the daily reset a payment is made iff it is within the single-transaction limit, within the daily limit, whitelisted (unless the list is empty or skipped, case-insensitively) and within the multisig threshold; a refused payment records nothing; a made one records exactly one transaction and adds its amount to the daily counter only when confirmed or simulated, so the counter never passes the daily limit |
| Wallet.WalletManager.AddApprovedAddress | src/core/wallet.py:318-320 | the lower-cased address joins the whitelist; the daily spend, the reset time and the transactions are unchanged |
| Wallet.WalletManager.RemoveApprovedAddress | src/core/wallet.py:322-324 | the lower-cased address leaves the whitelist, present or not; the daily spend, the reset time and the transactions are unchanged |
| Wallet.WalletManager.TransactionHistory | src/core/wallet.py:326-332 | the history is newest first, drawn from the recorded transactions, and holds at most the limit's number of them, exactly that many when there are enough |
| Wallet.WhitelistIgnoresCase | src/core/wallet.py:231-234 | two recipients that agree once lower-cased are allowed or refused alike |
| X402Client.AmountUsd | src/x402/client.py:82-85 | the dollar amount is the unit amount divided by a million, never negative for a non-negative amount |
| X402Client.AmountExamples | src/x402/client.py:82-85 | 5000000 units are 5 dollars and 2500000 units are 2.5 dollars |
| X402Client.TextOf | src/x402/client.py:106 | a field reads as text exactly when it is present and a string, and then it is that string; a missing field raises |
| X402Client.IntOf | src/x402/client.py:107 | `int(...)` on a number truncates it toward zero; a missing field raises |
| X402Client.OptionalTextOf | src/x402/client.py:112 | an absent or null description is None and a string is kept |
| X402Client.FromFields | src/x402/client.py:104-113 | a requirement needs a recipient string and an amount, truncated to an integer; a missing token, network, expiry, nonce or description defaults to USDC on Base, "base", five minutes from now, a fresh nonce and None, and a present one is taken as given; a body with a text recipient, a numeric amount and well-typed optional fields is always accepted |
| X402Client.FromJson | src/x402/client.py:101-113 | the requirement is read from the nested "payment" object when there is one and from the body itself otherwise; a body that is not an object raises |
| X402Client.Refusal | src/x402/client.py:325-351 | a hire passes iff x402 is enabled, a key is loaded, the maximum is within the per-hire limit, today's hires are under the daily limit and the URL is trusted (or trust is overridden, or no list is set); each refusal names the first check that failed |
| X402Client.Charged | src/x402/client.py:270-313 | a hire pays only after passing the checks, and then exactly the amount the service required, never more than the caller's maximum |
| X402Client.Settle | src/x402/client.py:252-323 | a hire ends completed (with no error and a payment, zero for a free service), rejected exactly when the service asked more than the maximum, or failed; a refused hire carries its refusal |
| X402Client.RefusedHireFails | src/x402/client.py:259-323 | a refused hire is failed and pays nothing |
| X402Client.PaidWithinLimits | src/x402/client.py:282-313 | a paid hire paid at most the caller's maximum, that maximum is within the per-hire limit, and the day's hires were under the daily limit |
| X402Client.X402Client.constructor | src/x402/client.py:169-194 | a new client has no hires and zeroed counters that reset from now, and trusts exactly the configured services |
| X402Client.X402Client.CheckDailyReset | src/x402/client.py:477-483 | more than 24 hours after the last reset both counters are zeroed and the reset time moves to now; otherwise nothing changes |
| X402Client.X402Client.ValidateHire | src/x402/client.py:325-351 | the refusal is the checks' verdict, and the daily reset runs only once x402 is enabled and a key is loaded |
| X402Client.X402Client.HireAgent | src/x402/client.py:230-323 | every call records exactly one hire, created at the first clock reading and, when it completes, stamped with the second reading taken after the HTTP calls, settled as the checks and replies say; the daily counters restart, and the reset time moves to now, only once x402 is enabled, a key is loaded and a day has passed; only a paid hire then moves the counters, by one hire and by the required amount, so the hire count never passes the daily limit |
| X402Client.X402Client.RecordHire | src/x402/client.py:485-490 | the hire is appended and only the newest 1000 are kept |
| X402Client.X402Client.HireHistory | src/x402/client.py:492-498 | exactly the first `limit` hires stably sorted newest first: at most `limit`, newest first, all recorded, exactly that many when there are enough, and no hire left out is newer than one returned |
| X402Client.X402Client.DailyStats | src/x402/client.py:500-510 | the statistics report the counters after the daily reset, the configured limits, and the signer when a key is loaded; the counters are left as reported, the reset time moves to now exactly when more than 24 hours have passed, and the hires are unchanged |
| X402Server.DescriptionOr | src/x402/server.py:149 | an empty description falls back to "QualiaIA <name> service" and any other is kept |
| X402Server.RequiredUnits | src/x402/server.py:243 | the price in USDC units is the dollar price times a million, truncated: never above it and less than one unit below it |
| X402Server.PriceRoundTrip | src/x402/server.py:243 | for a price with at most six decimals, the amount the server asks for reads back on the client as that price |
| X402Server.SubUnitPriceTruncated | src/x402/server.py:243 | a price finer than a unit is charged short: 0.0000015 dollars is asked as one unit, 0.000001 dollars |
| X402Server.PaymentInfo | src/x402/server.py:245-254 | the 402 answer's requirement carries, once each and in order, the recipient, amount, token, network, expiry, nonce, description and service |
| X402Server.Envelope | src/x402/server.py:294-299 | a payment is considered exactly when its payload decodes to an object whose "payload" object holds a truthy signature and a non-empty authorization object; the pair returned is those two fields |
| X402Server.CheckAuthorization | src/x402/server.py:301-338 | an authorization is accepted iff its recipient matches case-insensitively, its value converts and is at least the price, and now lies in its validity window, both ends included; the record is verified and holds the paid amount in dollars, the payer (or "unknown") and the signature |
| X402Server.VerifyPayment | src/x402/server.py:273-343 | a payment that cannot be read is refused; a readable one is judged by the authorization checks |
| X402Server.OverpaymentAccepted | src/x402/server.py:307-312 | paying more than the price is accepted when everything else holds |
| X402Server.WindowIsInclusive | src/x402/server.py:315-321 | both ends of the validity window are accepted and one second outside either end is refused |
| X402Server.X402ServerState.constructor | src/x402/server.py:107-134 | a new server has no services, no payments and zero revenue, resetting from now |
| X402Server.X402ServerState.RegisterService | src/x402/server.py:136-155 | the service is stored under its endpoint, replacing an earlier one there, with the default description when none is given; every other endpoint, the kept payments, the revenues and the reset time are unchanged |
| X402Server.X402ServerState.CheckDailyReset | src/x402/server.py:358-364 | more than 24 hours after the last reset the daily revenue is zeroed and the reset time moves to now; the total is untouched |
| X402Server.X402ServerState.RecordPayment | src/x402/server.py:345-356 | every payment is recorded (only the newest 10000 kept); only an executed payment adds its amount to the total and, after the reset check, to the daily revenue, and only an executed payment more than 24 hours after the last reset moves the reset time to now |
| X402Server.X402ServerState.HandleServiceRequest | src/x402/server.py:197-238 | without a payment header the answer is the 402 requirement; a payment that fails verification is refused with 402; in both cases the kept payments, the revenues and the reset time are unchanged; otherwise the handler runs and the payment is recorded exactly once, executed with the result on success and failed on error, with the kept payments, the revenues and the reset time updated as `_record_payment` does |
| X402Server.X402ServerState.Stats | src/x402/server.py:173-181 | the statistics report the total revenue, which is the sum of all executed payments ever recorded, the daily revenue after the reset check, and the numbers of kept payments and of services; only the reset check changes the state: the daily revenue is cleared and the reset time moved to now exactly when more than 24 hours have passed |
| X402Server.X402ServerState.PaymentHistory | src/x402/server.py:366-382 | exactly the first `limit` payments stably sorted newest first: at most `limit`, newest first, all kept, exactly that many when there are enough, and no payment left out is newer than one returned |
| X402Server.RegisterKeepsKeyed | src/x402/server.py:136-155 | registration keeps every service under its own endpoint and changes that endpoint's entry only |
| X402Server.RecordKeepsLedger | src/x402/server.py:345-356 | recording a payment keeps the kept records the newest part of all payments and the total the sum of the executed ones |
| X402Server.FailedPaymentsEarnNothing | src/x402/server.py:233-237 | a failed execution is recorded but adds nothing to the revenue |

## Left out

- Language-model calls, prompt wording and the OpenRouter client are inputs. `think` receives the model's answer or its failure, the council receives each member's reply, timeout or exception, and the operator and the scanner receive the text.
- Concurrency is not modelled: `asyncio.gather` and `wait_for`, futures, the state's `asyncio.Lock` and the observer callbacks. Each flow runs sequentially. The state's `update` returns the keys it would notify instead of calling observers.
- Blockchain access, EIP-712 signing and the RPC balance reads are not modelled. A transfer is described by what the chain reported, a hire by whether signing succeeded, and the signer by an optional address.
- base64 and JSON (RFC 8259) decoding of the `X-Payment` and `X-Payment-Required` headers is not modelled. The server receives the decoded value, and `PaymentRequirement.from_header` is not modelled.
- Clock, `uuid4` and `os.urandom` are parameters (`now` in seconds, ids, nonces). Formatted times (`%Y-%m-%d`, `strftime` in emails) arrive as text; `isoformat()` values inside serialised records are kept as seconds (see `Hub.DecisionContext` below).
- Floating-point rounding and the `:,.2f` money format are not modelled: amounts are exact reals, and money formatting is a function parameter where it shows.
- `DailyMetrics.errors_count` is never incremented by any operation of the source. The model keeps it and proves, with `Orchestrator.ErrorRateSilentWithoutErrors`, that the error-rate alert therefore never fires.
- `thresholds.council_review_usd` is configured but never read by `make_decision`, so it plays no part in `Orchestrator.RouteFor`.
- `resolve_decision` overwrites an already resolved decision and does not check the status string, so resolving twice is not idempotent. The model follows the code (`State.ResolveOverwrites`).
- `get_cors_origins` returns `["*"]` for an empty list and also for any missing or empty non-text value. The model follows the code (`Config.CorsOrigins`).
- The compliance configuration is a constructor parameter. The source reads `get_config().compliance`, which the configuration class does not define (src/config.py:245-256).
- `ComplianceManager.get_disclosure`, `generate_compliance_report` and the disclosure texts are not modelled: they only read the checks and constant strings. Consent records are never added by the source, so the consent table stays empty.
- Telegram commands other than `/pending` are not modelled (`/start`, `/help`, `/status`, `/balance`, `/ventures`, `/pause`, `/resume`, `/config`, `/history`, `/kill`). They read and format state or call the hub. `start`/`stop` of the bot and the edit of the button message are Bot API calls.
- Twilio's REST client and the rendering of TwiML to XML are not modelled. A call is its list of TwiML verbs.
- `Discord.WebhookFor` returns the "alerts" webhook for alert keywords even when only another webhook is configured, and `send` then posts nothing. The model keeps this behaviour.
- Of the dashboard, these are not modelled: the WebSocket receive loop (`ping`, `decide` messages), the `/health`, `/api/status`, `/api/wallets`, `/api/ventures` and `/api/pending` read-only endpoints, `_get_status`, the CORS middleware and the FastAPI app itself.
- SMTP delivery of emails is not modelled; a send yields the emails it would deliver.
- `AgentTask.to_dict`, `MarketOpportunity.to_dict` except where the scan stores it, and the other `to_dict` serialisers are not modelled; `PendingDecision.to_dict` is modelled by `Hub.DecisionContext`.
- Hub.DecisionContext: "created_at" is the creation time in seconds, not the ISO text `isoformat()` gives, since calendar formatting is not modelled.
- Hub.DecisionContext: the `is_expired` property reads the clock once more; the model reads it at the creation instant, as the dictionary is built straight after the decision, so a later clock reading is not captured.
- The module-level singletons (`get_state`, `get_hub`, `get_council`, `get_operator`, `get_market_scanner`, `get_qualiaIA` and the rest), `main()`, and the scheduler jobs other than `_health_check` are not modelled: `_daily_report`, `_balance_check` and `_update_metrics` are wiring between modelled pieces.
- The market scanner's `data_sources` list and `_analyze_competition`'s prompt context are not modelled. Its date is a text parameter.
- The operator's `quick_response` and `summarize` are not modelled: each is one `think` call whose answer is returned as is.
- The hub's `initialize`, `shutdown`, `broadcast` and `emergency_shutdown_alert` are not modelled: they construct channels, loop `send` over all channels, or send one fixed message.
- The council's wall-clock `duration_seconds` is not modelled.
- Loading the configuration file, YAML parsing and the process environment are not modelled. The environment is a map parameter of `Config.SubstituteEnvVars`.
- Ventures are records stored by value. The source's aliasing, where a venture object returned to a caller keeps changing with later updates, is not modelled.
- Hub messages keep the event type they were sent for and derive their subject from it, as `send` does. `broadcast`, which uses the fixed subject "Broadcast", is not modelled.
- Council.ParseReply: when the flat `{...}` found in a reply does not decode, the source raises the decoder's own message (such as "Expecting value"); the model raises that fixed text, since the decoder is an input.
- Council.OpinionFromJson: a "reasoning" field that is not text is read as "No reasoning provided". The source keeps the raw value, and `o.reasoning[:100]` in `_generate_synthesis` then raises TypeError for a decisive opinion (a number, a boolean or null) or shows a list slice; the model does not capture that failure.
- X402Client.TextOf: a recipient, token, network or nonce that is not text is refused here, and so is a description that is neither text nor null. `from_json` stores such values as given, because the dataclass does not check types.
- Py.Lower, Py.Strip, Py.SpacedTitle: only ASCII letters change case and only ASCII whitespace is stripped; Python's Unicode case mapping and whitespace are not modelled.
- Json.ToFloat and Numerals.ParseDecimal accept plain decimals only. `float()` also accepts exponents ("1e6"), "inf", "nan" and underscores between digits ("1_000"); the model refuses them, so such a council confidence or scanner number fails to convert here (`Council.OpinionFromJson`, `MarketScanner.ConvertFields`).
- Numerals.ParseInt, Json.ToInt: `int()` text is plain ASCII digits with an optional sign. Python also accepts underscores between digits ("1_000") and non-ASCII decimal digits, which `isdigit` passes on the user-id path; the model refuses them (`X402Client.IntOf`, `X402Server.CheckAuthorization`, `Config.IntsOf`, `Config.ParseUserIds`).
- State.SystemState.Update: the attribute table holds status, wallets, ventures and config. `hasattr` in the source also accepts the other fields of the state (today's metrics, pending decisions, event history); every call in the source passes `status` only.
- Config.StringList: a list whose items are not all text is kept as given, which is what the validator returns; the `List[str]` field type then rejects it, and that type check is not modelled.
- The ventures' hub notifications (`venture_rejected`, `venture_launch`, `venture_scaling`, `venture_shutdown`) are not modelled: they are messages sent after the state change.
- Telegram.TelegramChannel.HandleCallback: the "pause" press's `state.update(status=PAUSED)` is returned as a flag in the outcome rather than performed on the state.
- Telegram.TelegramChannel.SendAndWait: the outgoing text and the approve/reject buttons are not modelled; only the registration and settling of the reply are.
- Orchestrator.ReasonOf: a "reason" in the context that is not text is shown as "". The source passes the raw value on to the approval request.
- `src/api.py`, `scripts/*.py` and the package `__init__.py` files are not part of this model.
- AgentBase.Agent.constructor: requires a configured API key. The refusal itself is `AgentBase.ValidateConfig`'s error path.
