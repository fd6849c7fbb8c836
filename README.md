# Pharmacy SMS chatbot — a Dafny model of its domain core

The chatbot answers text messages from pharmacies on behalf of Pharmesol. When a
call comes in, the caller's number is looked up in the pharmacy directory. A
known pharmacy is greeted by name and answered by the chat model. An unknown
caller becomes a new lead. The bot asks for the pharmacy name, the contact
person, the location and the monthly prescription volume, one question at a
time, and merges what the language model extracts from each answer into the
lead. Once nothing is missing, the chat model answers. Every turn is logged as
a `User: ` entry followed by a `Bot: ` entry. Text templates are read from a
prompts directory, trimmed, and cached until the cache is reloaded.

The model has six files:

- `wrappers.dfy`: `Option` and `Result`.
- `text.dfy`: the string operations the code relies on, namely digit test,
  `strip`, prefix and suffix tests, `join` and `str(int)`.
- `models.dfy`: prescriptions, pharmacies, leads and the conversation context.
  The context is a class whose fields the chatbot updates.
- `pharmacy_service.dfy`:
  - phone normalisation and the first-match directory lookup;
  - the pharmacy summary, including the stable top-3 medications;
  - the lead assessment by volume bracket;
  - the ordered missing-information question;
  - conversation set-up.
- `prompt_manager.dfy`: the template cache, as a class with a `map` field.
- `chatbot.dfy`:
  - greeting dispatch and one message turn, with routing and the apology on
    failure;
  - the fill-only-if-missing merge of extracted lead fields;
  - the 6-entry history window with its role mapping;
  - the follow-up suggestions.

Python truthiness is modelled explicitly. An optional string counts as present
only when it is set and non-empty. An optional volume counts as present only
when it is set and non-zero. The two "high volume" tests differ in the source
and differ here too: a pharmacy is high-volume above 100 prescriptions in
total, while a lead is in the high bracket from 100 upwards.

The language model, the template composers and the file system are outside the
model and become inputs:

- A turn receives a `Backend` value. It carries the system prompt a composer
  built, the decoded extraction and the chat reply. Each is `None` when that
  call raised.
- A template lookup receives the files present in the prompts directory at that
  moment.

The chatbot logs the user's message before it calls the model, and the model is
then sent the whole recent history plus the current message. The current
message therefore reaches the model twice in a row:
`Chatbot.CurrentMessageSentTwice` proves this, and the `ensures` of
`ProcessUserMessage` restates it.

## Model

| member | source | states |
|---|---|---|
| Models.SumCounts | src/core/models.py:22-25 | the total of an empty prescription list is 0 |
| Models.SumCountsAppend | src/core/models.py:22-25 | the total of two concatenated lists is the sum of their totals |
| Models.AppendPrescription | src/core/models.py:22-25 | appending one prescription raises the total by exactly its count |
| Models.CountBoundedByTotal | src/core/models.py:22-25 | no single count exceeds the total (counts are never negative, models.py line 8) |
| Models.TotalRxVolume | src/core/models.py:22-25 | the total volume is 0 without prescriptions and at least every single count |
| Models.SumCountsPermutation | src/core/models.py:22-25 | the total does not depend on the order of the prescriptions |
| Models.Location | src/core/models.py:27-30 | the location is the city, then ", ", then the state, and each part can be read back |
| Models.IsHighVolume | src/core/models.py:32-35 | a high-volume pharmacy has at least one prescription (its total exceeds 100) |
| Models.HighVolumeKeptByMorePrescriptions | src/core/models.py:32-35 | adding prescriptions never makes a high-volume pharmacy regular |
| Models.HighVolumeBoundary | src/core/models.py:32-35 | the threshold is strict: a total of 60+40 is not high-volume, 60+41 is |
| Models.EmptyLead | src/core/models.py:38-47 | a lead built from a phone alone keeps that phone, is not complete and has no volume |
| Models.IsComplete | src/core/models.py:49-59 | a complete lead has name, contact person, city and state all set (and, by the body, non-empty) |
| Models.CompletenessIgnoresVolumeAndContactMethod | src/core/models.py:49-59 | completeness does not depend on the volume or the preferred contact method |
| Models.ConversationContext.constructor | src/core/models.py:62-69 | a new context has no pharmacy, no lead, stage "greeting" and an empty log |
| Models.ConversationContext.IsReturningCustomer | src/core/models.py:71-74 | a returning customer is exactly a context whose pharmacy is not None |
| Models.ConversationContext.CallerName | src/core/models.py:76-83 | the pharmacy name, else a present contact person, else "there" |
| PharmacyService.NormalizePhoneNumber | src/core/pharmacy_service.py:34-44 | the result is never longer than the input |
| PharmacyService.NormalizeYieldsDigits | src/core/pharmacy_service.py:34-44 | the result holds digits only |
| PharmacyService.NormalizeConcat | src/core/pharmacy_service.py:34-44 | normalising a concatenation concatenates the normalised parts, so digits keep their order |
| PharmacyService.NormalizeKeepsDigits | src/core/pharmacy_service.py:34-44 | a string of digits is its own normal form |
| PharmacyService.NormalizeDropsFormatting | src/core/pharmacy_service.py:34-44 | a string without digits normalises to the empty string |
| PharmacyService.NormalizeIdempotent | src/core/pharmacy_service.py:34-44 | normalising twice equals normalising once |
| PharmacyService.NormalizeIgnoresFormatting | src/core/pharmacy_service.py:34-44 | inserting non-digit formatting anywhere does not change the normal form |
| PharmacyService.NormalizeDashGroup | src/core/pharmacy_service.py:34-44 | a dash followed by a digit group contributes exactly that group |
| PharmacyService.DirectoryFormatMatchesBareDigits | tests/test_demo_scenarios.py:289-296 | "+c-aaa-eee-llll" and the bare digits "caaaeeellll" have the same normal form, so both find the same record |
| PharmacyService.FirstMatchIndex | src/core/pharmacy_service.py:26-31 | the index of the first record whose normalised phone matches, or the length when none does |
| PharmacyService.FindPharmacyByPhone | src/core/pharmacy_service.py:12-31 | returns None exactly when no record's normalised phone equals the normalised query, and otherwise the first record that matches |
| PharmacyService.InsertKeepsRank | src/core/pharmacy_service.py:64 | inserting a new position into a ranked list keeps it ranked |
| PharmacyService.SortPositions | src/core/pharmacy_service.py:64 | the positions ordered by count descending, ties in original order, as a permutation of all positions |
| PharmacyService.PrefixRanksFirst | src/core/pharmacy_service.py:64 | a prefix of the full ranking is ranked and ranks before every position it leaves out |
| PharmacyService.TopPositions | src/core/pharmacy_service.py:64 | at most three positions, in that order, and every position left out ranks after all those kept |
| PharmacyService.TopMedications | src/core/pharmacy_service.py:64 | min(3, n) prescriptions with non-increasing counts, the i-th being the prescription at the i-th top position |
| PharmacyService.CreatePharmacySummary | src/core/pharmacy_service.py:47-71 | the summary joins, with newlines, the name, location and total lines, then the top-medications line if there are prescriptions, then the high-volume line; the last line is the high-volume line exactly when the pharmacy is high-volume |
| PharmacyService.Bracket | src/core/pharmacy_service.py:84-101 | unknown when the volume is missing or 0, high from 100, medium from 50 to 99, low below 50 |
| PharmacyService.AssessLeadPotential | src/core/pharmacy_service.py:74-101 | for a high or medium estimate the message quotes the volume right after its opening words |
| PharmacyService.AssessmentOpening | src/core/pharmacy_service.py:74-101 | each assessment message opens with its bracket's wording |
| PharmacyService.AssessmentsSeparateBrackets | src/core/pharmacy_service.py:74-101 | leads in different brackets get different messages |
| PharmacyService.BracketBoundaries | src/core/pharmacy_service.py:84-92 | 0 is unknown, 49 low, 50 and 99 medium, 100 high, while a pharmacy total of 100 is not high-volume |
| PharmacyService.FirstMissing | src/core/pharmacy_service.py:114-126 | the first failed check in the order name, contact person, city and state, volume, and None exactly when all pass |
| PharmacyService.GetMissingInfoPrompt | src/core/pharmacy_service.py:104-126 | None exactly when the lead is complete and has a volume, otherwise the question for the first failed check only |
| PharmacyService.QuestionsAreDistinct | src/core/pharmacy_service.py:114-124 | the four questions are pairwise different |
| PharmacyService.CompletenessAndPromptDisagree | src/core/pharmacy_service.py:123-126 | no question implies a complete lead, but a complete lead without a volume is still asked for it |
| PharmacyService.QuestionSequence | tests/test_prompt_manager.py:180-200 | filling name, contact, location and volume of 50 in turn leaves a question open until the last step |
| PharmacyService.InitializeConversation | src/core/pharmacy_service.py:129-149 | exactly one of pharmacy and lead is set; a new lead carries only the caller's phone; the stage names the greeting |
| Text.Strip | src/core/prompt_manager.py:36 | the result is no longer than the input and neither starts nor ends with whitespace |
| Text.StripIsTrimmedSlice | src/core/prompt_manager.py:36 | the result is a slice of the input with only whitespace cut off on either side |
| Text.StripIdempotent | src/core/chatbot.py:167 | stripping stripped text changes nothing |
| Prompts.NormalizeKey | src/core/prompt_manager.py:24-25 | the key ends with ".txt" and starts with the given name, and is longer by exactly ".txt" when the name lacked the suffix and equally long otherwise |
| Prompts.NormalizeKeyIdempotent | src/core/prompt_manager.py:24-25 | a normalised key is its own normal form |
| Prompts.SuffixSharesSlot | tests/test_prompt_manager.py:57-63 | a name with and without ".txt" map to the same cache key |
| Prompts.PromptManager.constructor | src/core/prompt_manager.py:13-18 | a new manager keeps its directory and company name and has an empty cache |
| Prompts.PromptManager.Create | src/core/prompt_manager.py:13-21 | construction fails exactly when the directory does not exist, and otherwise yields an empty cache |
| Prompts.PromptManager.GetItem | src/core/prompt_manager.py:23-44 | a hit returns the cached text without reading; a missing file or a failed read is an error that leaves the cache as it was; a read file is stored stripped under its key; existing entries never change, so a cache that agreed with the directory still does |
| Prompts.PromptManager.ReloadPrompts | src/core/prompt_manager.py:46-47 | the cache is empty afterwards |
| Prompts.LookupTwice | tests/test_prompt_manager.py:202-205 | two lookups of one name give equal results and, when the first lookup succeeds, only the first may read the file (a failed read is not cached, so a second lookup reads again) |
| Prompts.LookupWithAndWithoutSuffix | tests/test_prompt_manager.py:57-63 | lookups with and without ".txt" give equal results |
| Prompts.LookupReloadLookup | tests/test_prompt_manager.py:207-215 | for an existing file the pair reads it twice, or once when the first lookup was a hit, so the lookup after the reload always reads it; the file unchanged, both return equal text |
| Chatbot.Fill | src/core/chatbot.py:113-123 | a merged field is the old or the extracted value, and is present exactly when either of them is |
| Chatbot.FillVolume | src/core/chatbot.py:125-128 | the merged volume is the old or the extracted one, and is present exactly when either is |
| Chatbot.MergeExtraction | src/core/chatbot.py:113-131 | the merge never changes the lead's phone |
| Chatbot.MergeKeepsPresentFields | src/core/chatbot.py:113-131 | a field that is already present is never overwritten |
| Chatbot.MergeFillsMissingFields | src/core/chatbot.py:113-131 | a missing field takes the extracted value when it is present and stays unchanged otherwise |
| Chatbot.MergeIdempotent | src/core/chatbot.py:113-131 | merging the same extraction twice equals merging it once |
| Chatbot.MergeOnlyProgresses | src/core/chatbot.py:113-135 | a merge, or a failed extraction, keeps completeness and the volume and never reopens an earlier question |
| Chatbot.LeadAfterTurn | src/core/chatbot.py:78-88 | a lead stays a lead and keeps its phone, and a lead with nothing left to ask is returned unchanged |
| Chatbot.LeadAfterTurnProgress | src/core/chatbot.py:78-88 | a lead with nothing to ask is left untouched; otherwise the lead keeps its phone and only moves forward |
| Chatbot.ToChatMessage | src/core/chatbot.py:152-155 | one log entry yields at most one message |
| Chatbot.ToChatMessageInverse | src/core/chatbot.py:152-155 | an entry is dropped exactly when it starts with neither "User: " nor "Bot: "; otherwise it yields one user or assistant message whose log entry is the original entry |
| Chatbot.HistoryEntryRoundTrip | src/core/chatbot.py:44-52 | a logged user or bot entry is read back as the same message |
| Chatbot.ConvertHistory | src/core/chatbot.py:151-155 | no more messages than log entries |
| Chatbot.ConvertHistoryAppend | src/core/chatbot.py:151-155 | converting a concatenated log concatenates the conversions |
| Chatbot.HistoryOf | src/core/chatbot.py:44-61 | one log entry per message |
| Chatbot.ConvertHistoryRoundTrip | src/core/chatbot.py:151-155 | converting a log written by the chatbot gives back exactly the messages it records |
| Chatbot.Window | src/core/chatbot.py:151 | the last six entries, or all when fewer |
| Chatbot.ModelMessages | src/core/chatbot.py:148-158 | between 2 and 8 messages, the system prompt first and the current message last |
| Chatbot.OneSystemMessage | src/core/chatbot.py:148-158 | only the first message has the system role |
| Chatbot.ConvertHistoryRoles | src/core/chatbot.py:151-155 | no converted history entry has the system role |
| Chatbot.CurrentMessageSentTwice | src/core/chatbot.py:44-62 | when the log already ends with the current message, the model receives it twice in a row |
| Chatbot.BuildModelMessages | src/core/chatbot.py:148-158 | the loop over the window yields the system prompt, then the conversion of each window entry in order, then the current message |
| Chatbot.GenerateAIResponse | src/core/chatbot.py:144-170 | sends the specified message list and returns the stripped reply, or fails when the call raised |
| Chatbot.PharmacyChatbot.constructor | src/core/chatbot.py:27-34 | the bot keeps the company phone it tells callers to ring and the template store it was given |
| Chatbot.PharmacyChatbot.Create | src/core/chatbot.py:27-34 | construction fails with the directory-not-found error exactly when the prompts directory does not exist (the template store's own check), and otherwise yields a bot with an empty template cache for that directory |
| Chatbot.PharmacyChatbot.Apology | src/core/chatbot.py:56-60 | the apology contains the company phone at a fixed place |
| Chatbot.PharmacyChatbot.GenerateGreeting | src/core/chatbot.py:36-39 | the returning-customer greeting for the known pharmacy exactly when the caller is a returning customer |
| Chatbot.PharmacyChatbot.ExtractLeadInfo | src/core/chatbot.py:96-142 | the lead becomes the merge of the extraction, and stays unchanged when the extraction raised |
| Chatbot.PharmacyChatbot.HandleReturningCustomer | src/core/chatbot.py:64-73 | calls the model with the system prompt and the log, or fails when the prompt cannot be built |
| Chatbot.PharmacyChatbot.HandleNewLead | src/core/chatbot.py:75-94 | merges only while a question is open; asks the next open question without calling the model; otherwise calls the model |
| Chatbot.PharmacyChatbot.ProcessUserMessage | src/core/chatbot.py:41-62 | the log grows by exactly the user entry and the bot entry; routing follows the returning-customer flag; any failure gives the apology; the merged lead is kept even when the reply fails |
| Chatbot.PharmacyChatbot.SuggestFollowUpActions | src/core/chatbot.py:172-186 | email and callback (callback last) for a known pharmacy, three hand-over items for a complete lead, and nothing otherwise |
| Chatbot.AnswerCall | main.py:154-157 | lookup, set-up and greeting in sequence (as also at tests/test_demo_scenarios.py:75-80): a caller whose number matches a directory record is greeted as the first such pharmacy, any other caller as a new lead holding only the phone; the returned context has the caller's phone, holds the greeted pharmacy (and no lead) for a returning customer and no pharmacy otherwise, and the greeting is the one `GenerateGreeting` gives for it |

## Left out

- Language-model calls and JSON decoding (src/core/chatbot.py:100-111, 160-167) are network and library calls. What they return in a turn is an input: a `Backend` value, with `None` for a call that raised. A reply that decodes to something other than a JSON object raises at the first `get` the merge evaluates, before any field is assigned, so it also counts as `None`.
- The template composers the chatbot calls are not defined in src/core/prompt_manager.py. They are `get_returning_customer_greeting`, `get_new_lead_greeting`, `get_*_system_prompt`, `get_extraction_prompt`, `get_missing_info_prompt_for_lead` and `get_lead_assessment`.
  - A greeting is modelled as the choice of template (`Greeting`). A greeting composer that raises is not modelled, so `GenerateGreeting` cannot fail. A failing system-prompt composer is modelled, as `Backend.systemPrompt == None`.
  - A system prompt is an input.
  - `get_lead_assessment` only feeds `get_new_lead_system_prompt` (src/core/chatbot.py:91-92), so it is folded into that system-prompt input. The chatbot model never calls `PharmacyService.AssessLeadPotential`, which models the service's own `assess_lead_potential`.
  - `get_missing_info_prompt_for_lead` is modelled as the first-unmet rule of `get_missing_info_prompt` in src/core/pharmacy_service.py.
  - A compound question that joins every unmet question as "Also, … And …" is not modelled, because no code for it exists in the core.
- Template contents and `str.format` substitution are not modelled, because the template files are not part of this model.
- src/api/pharmacy/client.py, src/api/follow_up_actions.py, main.py and env.py are not part of this model, apart from the lookup, set-up and greeting sequence at main.py:154-157 that `Chatbot.AnswerCall` models. They hold HTTP fetching, print-only mock actions, the interactive console loop and environment configuration. The configured company phone becomes the constructor argument of `PharmacyChatbot`.
- `PharmacyChatbot.__init__` builds the language-model client and a `PromptManager`. Every model call and every composer call goes through one of them. The model keeps the `PromptManager` as a field, whose construction can fail (`PharmacyChatbot.Create`). What the client and the composers return in a turn is the `Backend` input. The client itself is not modelled.
- Unicode: `str.isdigit` is modelled as ASCII '0'..'9' only. `str.strip` is modelled as removing the ASCII whitespace, including the separators U+001C..U+001F, but not non-ASCII whitespace such as U+0085 or U+00A0.
- Pydantic validation is not modelled. A prescription count is a `nat`, following `ge=0`. The lead's volume is an `int`, because extracted values are assigned without validation.
- Lead updates: the source assigns the lead's fields in place. The model writes back a new lead value into the context's `newLead` field, which is the only reference the core holds to the lead.
- Prompts.PromptManager.GetItem: the directory is a map passed to each lookup, not a live file system. A file that exists but cannot be read or decoded is `Unreadable`, and a path is the directory name, "/" and the key.
- Prompts.LookupReloadLookup: equal text after a reload is promised only when every cached entry still agrees with the files; a file edited since it was cached may differ.
- PharmacyService.NormalizePhoneNumber: its own contract states only the length bound. That the result is exactly the input's digits in order is stated by the lemmas beside it.
- PharmacyService.DirectoryFormatMatchesBareDigits: the test's concrete numbers are replaced by the general "+c-a-e-l" format with digit groups.
- `get_fallback_response` is left out together with main.py. It picks a canned reply by counting the "User:" entries of the log and never touches the lead.
- The fallback extractor with an empty body (src/core/chatbot.py:137-142) leaves the lead unchanged, which `ExtractLeadInfo` states for a failed extraction.
