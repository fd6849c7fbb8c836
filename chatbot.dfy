/**
 * One conversation turn of the SMS chatbot: routing a message to the
 * returning-customer or the new-lead path, merging what the language model
 * extracted into the lead, windowing the history sent to the model, the
 * apology on failure, and the follow-up suggestions.
 *
 * The language model and the template composers are outside the model: what
 * they answer during a turn is a `Backend` value, where `None` stands for a
 * call that raised.
 */
module Chatbot {
  import opened Wrappers
  import opened Text
  import opened Models
  import opened PharmacyService
  import Prompts

  datatype Role = System | User | Assistant

  /** One entry of the message list sent to the chat model. */
  datatype ChatMessage = ChatMessage(role: Role, content: string)

  /** The fields the extraction call reports; `None` where a key is absent or null. */
  datatype Extraction = Extraction(
    pharmacyName: Option<string>,
    contactPerson: Option<string>,
    city: Option<string>,
    state: Option<string>,
    estimatedRxVolume: Option<int>,
    preferredContact: Option<string>)

  /**
   * What the outside world answers during one turn: the system prompt the
   * template composer builds, the decoded extraction object and the chat
   * model's reply. `None` is a call that raised (a missing template, a network
   * error, a reply that is not a JSON object).
   */
  datatype Backend = Backend(
    systemPrompt: Option<string>,
    extraction: Option<Extraction>,
    reply: Option<string>)

  /** Which greeting template the conversation opens with. */
  datatype Greeting = ReturningCustomerGreeting(pharmacy: Pharmacy) | NewLeadGreeting

  // ---------------------------------------------------------------------------
  // Merging an extraction into a lead: a field is filled only while it is
  // missing, and only with a value that is present.

  function Fill(current: Option<string>, extracted: Option<string>): (r: Option<string>)
    ensures r == current || r == extracted
    ensures Present(r) <==> Present(current) || Present(extracted)
  {
    if !Present(current) && Present(extracted) then extracted else current
  }

  function FillVolume(current: Option<int>, extracted: Option<int>): (r: Option<int>)
    ensures r == current || r == extracted
    ensures VolumePresent(r) <==> VolumePresent(current) || VolumePresent(extracted)
  {
    if !VolumePresent(current) && VolumePresent(extracted) then extracted else current
  }

  function MergeExtraction(lead: NewPharmacyLead, e: Extraction): (merged: NewPharmacyLead)
    ensures merged.phone == lead.phone
  {
    lead.(
      name := Fill(lead.name, e.pharmacyName),
      contactPerson := Fill(lead.contactPerson, e.contactPerson),
      city := Fill(lead.city, e.city),
      state := Fill(lead.state, e.state),
      estimatedRxVolume := FillVolume(lead.estimatedRxVolume, e.estimatedRxVolume),
      preferredContact := Fill(lead.preferredContact, e.preferredContact))
  }

  /** A failed extraction leaves the lead as it was: the fallback does nothing. */
  function ApplyExtraction(lead: NewPharmacyLead, extraction: Option<Extraction>): NewPharmacyLead {
    match extraction
    case None => lead
    case Some(e) => MergeExtraction(lead, e)
  }

  /** A field that is already present is never overwritten. */
  lemma MergeKeepsPresentFields(lead: NewPharmacyLead, e: Extraction)
    ensures var merged := MergeExtraction(lead, e);
            && (Present(lead.name) ==> merged.name == lead.name)
            && (Present(lead.contactPerson) ==> merged.contactPerson == lead.contactPerson)
            && (Present(lead.city) ==> merged.city == lead.city)
            && (Present(lead.state) ==> merged.state == lead.state)
            && (VolumePresent(lead.estimatedRxVolume) ==> merged.estimatedRxVolume == lead.estimatedRxVolume)
            && (Present(lead.preferredContact) ==> merged.preferredContact == lead.preferredContact)
  {
  }

  /** A missing field takes the extracted value when that is present, and stays as it was otherwise. */
  lemma MergeFillsMissingFields(lead: NewPharmacyLead, e: Extraction)
    ensures var merged := MergeExtraction(lead, e);
            && (!Present(lead.name) ==> merged.name == if Present(e.pharmacyName) then e.pharmacyName else lead.name)
            && (!Present(lead.contactPerson) ==>
                  merged.contactPerson == if Present(e.contactPerson) then e.contactPerson else lead.contactPerson)
            && (!Present(lead.city) ==> merged.city == if Present(e.city) then e.city else lead.city)
            && (!Present(lead.state) ==> merged.state == if Present(e.state) then e.state else lead.state)
            && (!VolumePresent(lead.estimatedRxVolume) ==>
                  merged.estimatedRxVolume ==
                    if VolumePresent(e.estimatedRxVolume) then e.estimatedRxVolume else lead.estimatedRxVolume)
            && (!Present(lead.preferredContact) ==>
                  merged.preferredContact == if Present(e.preferredContact) then e.preferredContact else lead.preferredContact)
  {
  }

  /** Merging the same extraction a second time changes nothing. */
  lemma MergeIdempotent(lead: NewPharmacyLead, e: Extraction)
    ensures MergeExtraction(MergeExtraction(lead, e), e) == MergeExtraction(lead, e)
  {
  }

  /** Merges only move the lead forward: completeness is kept and no earlier question is asked again. */
  lemma MergeOnlyProgresses(lead: NewPharmacyLead, extraction: Option<Extraction>)
    ensures var merged := ApplyExtraction(lead, extraction);
            && (IsComplete(lead) ==> IsComplete(merged))
            && (VolumePresent(lead.estimatedRxVolume) ==> VolumePresent(merged.estimatedRxVolume))
            && Progress(FirstMissing(lead)) <= Progress(FirstMissing(merged))
  {
    var merged := ApplyExtraction(lead, extraction);
    if extraction.Some? {
      var e := extraction.value;
      assert Present(lead.name) ==> Present(merged.name);
      assert Present(lead.contactPerson) ==> Present(merged.contactPerson);
      assert Present(lead.city) ==> Present(merged.city);
      assert Present(lead.state) ==> Present(merged.state);
    }
  }

  /** The lead after the new-lead path: extraction is attempted only while a question is still open. */
  function LeadAfterTurn(lead: Option<NewPharmacyLead>, extraction: Option<Extraction>): (after: Option<NewPharmacyLead>)
    ensures after.Some? <==> lead.Some?
    ensures lead.Some? ==> after.value.phone == lead.value.phone
    ensures lead.Some? && GetMissingInfoPrompt(lead.value).None? ==> after == lead
  {
    match lead
    case None => None
    case Some(l) => if GetMissingInfoPrompt(l).Some? then Some(ApplyExtraction(l, extraction)) else lead
  }

  /** A lead with nothing left to ask is not touched; any other lead only progresses. */
  lemma LeadAfterTurnProgress(lead: NewPharmacyLead, extraction: Option<Extraction>)
    ensures GetMissingInfoPrompt(lead).None? ==> LeadAfterTurn(Some(lead), extraction) == Some(lead)
    ensures var after := LeadAfterTurn(Some(lead), extraction).value;
            after.phone == lead.phone && Progress(FirstMissing(lead)) <= Progress(FirstMissing(after))
  {
    MergeOnlyProgresses(lead, extraction);
  }

  // ---------------------------------------------------------------------------
  // The conversation history and the message list sent to the chat model.

  const UserPrefix := "User: "
  const BotPrefix := "Bot: "

  /** How the conversation log records a user or an assistant message. */
  function HistoryEntry(m: ChatMessage): string
    requires m.role != System
  {
    if m.role == User then UserPrefix + m.content else BotPrefix + m.content
  }

  /** One log entry as a chat message: the role its prefix names, without the prefix; other entries give none. */
  function ToChatMessage(entry: string): (m: seq<ChatMessage>)
    ensures |m| <= 1
  {
    if StartsWith(entry, UserPrefix) then [ChatMessage(User, entry[6..])]
    else if StartsWith(entry, BotPrefix) then [ChatMessage(Assistant, entry[5..])]
    else []
  }

  /** A converted entry is the log entry of the message it yields; only entries with neither prefix yield none. */
  lemma ToChatMessageInverse(entry: string)
    ensures var m := ToChatMessage(entry);
            && (m == [] <==> !StartsWith(entry, UserPrefix) && !StartsWith(entry, BotPrefix))
            && (m != [] ==> m[0].role != System && HistoryEntry(m[0]) == entry)
  {
    if StartsWith(entry, UserPrefix) {
      assert entry == UserPrefix + entry[6..];
    } else if StartsWith(entry, BotPrefix) {
      assert entry == BotPrefix + entry[5..];
    }
  }

  /** What the log records is read back as the same message. */
  lemma HistoryEntryRoundTrip(m: ChatMessage)
    requires m.role != System
    ensures ToChatMessage(HistoryEntry(m)) == [m]
  {
    var entry := HistoryEntry(m);
    if m.role == User {
      assert entry[..6] == UserPrefix;
    } else {
      assert entry[..5] == BotPrefix;
      assert entry[0] == 'B';
    }
  }

  /** The log entries converted one by one, in order. */
  function ConvertHistory(entries: seq<string>): (ms: seq<ChatMessage>)
    ensures |ms| <= |entries|
  {
    if entries == [] then []
    else ConvertHistory(entries[..|entries| - 1]) + ToChatMessage(entries[|entries| - 1])
  }

  lemma {:induction false} ConvertHistoryAppend(a: seq<string>, b: seq<string>)
    ensures ConvertHistory(a + b) == ConvertHistory(a) + ConvertHistory(b)
    decreases |b|
  {
    if b == [] {
      assert a + b == a;
    } else {
      assert (a + b)[..|a + b| - 1] == a + b[..|b| - 1];
      ConvertHistoryAppend(a, b[..|b| - 1]);
    }
  }

  /** The log of a sequence of user and assistant messages. */
  function HistoryOf(ms: seq<ChatMessage>): (entries: seq<string>)
    requires forall k :: 0 <= k < |ms| ==> ms[k].role != System
    ensures |entries| == |ms|
  {
    if ms == [] then [] else HistoryOf(ms[..|ms| - 1]) + [HistoryEntry(ms[|ms| - 1])]
  }

  /** Converting a log back gives exactly the messages it records. */
  lemma {:induction false} ConvertHistoryRoundTrip(ms: seq<ChatMessage>)
    requires forall k :: 0 <= k < |ms| ==> ms[k].role != System
    ensures ConvertHistory(HistoryOf(ms)) == ms
  {
    if ms != [] {
      var init := ms[..|ms| - 1];
      var last := ms[|ms| - 1];
      var entries := HistoryOf(ms);
      assert entries[..|entries| - 1] == HistoryOf(init) && entries[|entries| - 1] == HistoryEntry(last) by {
        assert entries == HistoryOf(init) + [HistoryEntry(last)];
      }
      assert ConvertHistory(HistoryOf(init)) == init by {
        ConvertHistoryRoundTrip(init);
      }
      assert ToChatMessage(HistoryEntry(last)) == [last] by {
        HistoryEntryRoundTrip(last);
      }
      assert ms == init + [last];
    }
  }

  /** Converting one more entry appends its conversion. */
  lemma ConvertHistoryStep(entries: seq<string>, i: nat)
    requires i < |entries|
    ensures ConvertHistory(entries[..i + 1]) == ConvertHistory(entries[..i]) + ToChatMessage(entries[i])
  {
    assert entries[..i + 1][..i] == entries[..i];
  }

  /** `history[-6:]`: the last six entries, or all of them when there are fewer. */
  function Window(history: seq<string>): (w: seq<string>)
    ensures |w| == if |history| < 6 then |history| else 6
    ensures w == history[|history| - |w|..]
  {
    if |history| <= 6 then history else history[|history| - 6..]
  }

  /** The system prompt, the converted window of the history, then the current message. */
  function ModelMessages(systemPrompt: string, userMessage: string, history: seq<string>): (ms: seq<ChatMessage>)
    ensures 2 <= |ms| <= 8
    ensures ms[0] == ChatMessage(System, systemPrompt)
    ensures ms[|ms| - 1] == ChatMessage(User, userMessage)
  {
    [ChatMessage(System, systemPrompt)] + ConvertHistory(Window(history)) + [ChatMessage(User, userMessage)]
  }

  /** Only the first message is a system message. */
  lemma {:induction false} OneSystemMessage(systemPrompt: string, userMessage: string, history: seq<string>)
    ensures var ms := ModelMessages(systemPrompt, userMessage, history);
            forall k :: 1 <= k < |ms| ==> ms[k].role != System
  {
    ConvertHistoryRoles(Window(history));
  }

  lemma {:induction false} ConvertHistoryRoles(entries: seq<string>)
    ensures forall k :: 0 <= k < |ConvertHistory(entries)| ==> ConvertHistory(entries)[k].role != System
  {
    if entries != [] {
      ConvertHistoryRoles(entries[..|entries| - 1]);
      ToChatMessageInverse(entries[|entries| - 1]);
    }
  }

  /**
   * The log already ends with the current message when the model is called, so
   * the current message reaches the model twice in a row.
   */
  lemma CurrentMessageSentTwice(systemPrompt: string, userMessage: string, history: seq<string>)
    requires history != [] && history[|history| - 1] == UserPrefix + userMessage
    ensures var ms := ModelMessages(systemPrompt, userMessage, history);
            |ms| >= 3 && ms[|ms| - 2] == ms[|ms| - 1] == ChatMessage(User, userMessage)
  {
    var w := Window(history);
    var current := ChatMessage(User, userMessage);
    assert w[|w| - 1] == HistoryEntry(current) by {
      assert w[|w| - 1] == history[|history| - 1];
    }
    assert ToChatMessage(HistoryEntry(current)) == [current] by {
      HistoryEntryRoundTrip(current);
    }
    assert ConvertHistory(w) == ConvertHistory(w[..|w| - 1]) + [current];
  }

  /** Python's `str.strip` applied to a reply that arrived. */
  function StrippedReply(reply: Option<string>): Option<string> {
    match reply
    case None => None
    case Some(text) => Some(Strip(text))
  }

  /** Builds the message list entry by entry, as the loop over the history window does. */
  method BuildModelMessages(systemPrompt: string, userMessage: string, window: seq<string>)
    returns (messages: seq<ChatMessage>)
    ensures messages == [ChatMessage(System, systemPrompt)] + ConvertHistory(window) + [ChatMessage(User, userMessage)]
  {
    messages := [ChatMessage(System, systemPrompt)];
    for i := 0 to |window|
      invariant messages == [ChatMessage(System, systemPrompt)] + ConvertHistory(window[..i])
    {
      var entry := window[i];
      ConvertHistoryStep(window, i);
      var converted: seq<ChatMessage> := [];
      if StartsWith(entry, UserPrefix) {
        converted := [ChatMessage(User, entry[6..])];
      } else if StartsWith(entry, BotPrefix) {
        converted := [ChatMessage(Assistant, entry[5..])];
      }
      assert converted == ToChatMessage(entry);
      messages := messages + converted;
    }
    assert window[..|window|] == window;
    messages := messages + [ChatMessage(User, userMessage)];
  }

  /** One chat-model call: the messages sent and the stripped reply, or `None` when the call raised. */
  method GenerateAIResponse(systemPrompt: string, userMessage: string, history: seq<string>, reply: Option<string>)
    returns (sent: seq<ChatMessage>, response: Option<string>)
    ensures sent == ModelMessages(systemPrompt, userMessage, history)
    ensures response == StrippedReply(reply)
  {
    sent := BuildModelMessages(systemPrompt, userMessage, Window(history));
    if reply.None? {
      return sent, None;
    }
    response := Some(Strip(reply.value));
  }

  const ThanksPrefix := "Thanks for that information! "
  const ApologyOpening := "I apologize, but I'm having trouble processing your message right now. "
                          + "Please call us directly at "
  const ApologyClosing := " and we'll be happy to help!"

  class PharmacyChatbot {
    /** The number callers are told to ring when something goes wrong. */
    const companyPhone: string
    /** The template store; the composers it would serve are outside the model (see `Backend`). */
    const promptManager: Prompts.PromptManager

    constructor (companyPhone: string, promptManager: Prompts.PromptManager)
      ensures this.companyPhone == companyPhone && this.promptManager == promptManager
    {
      this.companyPhone := companyPhone;
      this.promptManager := promptManager;
    }

    /**
     * `PharmacyChatbot(prompts_dir=...)`: building the template store fails when the
     * prompts directory does not exist, and that error propagates out of construction.
     */
    static method Create(companyPhone: string, companyName: string, promptsDir: string, promptsDirExists: bool)
      returns (r: Result<PharmacyChatbot, Prompts.PromptError>)
      ensures r.Failure? <==> !promptsDirExists
      ensures r.Failure? ==> r.error == Prompts.DirectoryNotFound(promptsDir)
      ensures r.Success? ==>
                fresh(r.value) && r.value.companyPhone == companyPhone
                && r.value.promptManager.Valid() && r.value.promptManager.cache == map[]
                && r.value.promptManager.promptsDir == promptsDir && r.value.promptManager.companyName == companyName
    {
      var manager := Prompts.PromptManager.Create(promptsDir, companyName, promptsDirExists);
      if manager.Failure? {
        return Failure(manager.error);
      }
      var bot := new PharmacyChatbot(companyPhone, manager.value);
      return Success(bot);
    }

    /** The reply sent when handling a message raised; the company phone can be read back out of it. */
    function Apology(): (reply: string)
      ensures |reply| == |ApologyOpening| + |companyPhone| + |ApologyClosing|
      ensures reply[|ApologyOpening|..|ApologyOpening| + |companyPhone|] == companyPhone
    {
      ApologyOpening + companyPhone + ApologyClosing
    }

    /** The returning-customer greeting when a pharmacy is known, the new-lead greeting otherwise. */
    function GenerateGreeting(ctx: ConversationContext): (g: Greeting)
      reads ctx
      ensures g.ReturningCustomerGreeting? <==> ctx.IsReturningCustomer()
      ensures g.ReturningCustomerGreeting? ==> g.pharmacy == ctx.pharmacy.value
    {
      if ctx.IsReturningCustomer() then ReturningCustomerGreeting(ctx.pharmacy.value) else NewLeadGreeting
    }

    /**
     * Merges an extraction into the context's lead field by field. When the call
     * raised, or there is no lead to merge into, the lead is left as it was.
     */
    method ExtractLeadInfo(ctx: ConversationContext, extraction: Option<Extraction>)
      modifies ctx`newLead
      ensures ctx.newLead == if old(ctx.newLead).None? then None
                             else Some(ApplyExtraction(old(ctx.newLead).value, extraction))
    {
      if extraction.None? || ctx.newLead.None? {
        return;
      }
      var e := extraction.value;
      var lead := ctx.newLead.value;
      if !Present(lead.name) && Present(e.pharmacyName) {
        lead := lead.(name := e.pharmacyName);
      }
      if !Present(lead.contactPerson) && Present(e.contactPerson) {
        lead := lead.(contactPerson := e.contactPerson);
      }
      if !Present(lead.city) && Present(e.city) {
        lead := lead.(city := e.city);
      }
      if !Present(lead.state) && Present(e.state) {
        lead := lead.(state := e.state);
      }
      if !VolumePresent(lead.estimatedRxVolume) && VolumePresent(e.estimatedRxVolume) {
        lead := lead.(estimatedRxVolume := e.estimatedRxVolume);
      }
      if !Present(lead.preferredContact) && Present(e.preferredContact) {
        lead := lead.(preferredContact := e.preferredContact);
      }
      ctx.newLead := Some(lead);
    }

    /** The model call made for a known pharmacy, when its system prompt could be built. */
    method HandleReturningCustomer(ctx: ConversationContext, message: string, backend: Backend)
      returns (sent: Option<seq<ChatMessage>>, response: Option<string>)
      ensures backend.systemPrompt.None? ==> sent.None? && response.None?
      ensures backend.systemPrompt.Some? ==>
                sent == Some(ModelMessages(backend.systemPrompt.value, message, ctx.messages))
                && response == StrippedReply(backend.reply)
    {
      if backend.systemPrompt.None? {
        return None, None;
      }
      var messages;
      messages, response := GenerateAIResponse(backend.systemPrompt.value, message, ctx.messages, backend.reply);
      sent := Some(messages);
    }

    /**
     * The new-lead path: while a question is open, merge the extraction and ask
     * the next open question without calling the model; once nothing is left to
     * ask, call the model. Without a lead the composer raises.
     */
    method HandleNewLead(ctx: ConversationContext, message: string, backend: Backend)
      returns (sent: Option<seq<ChatMessage>>, response: Option<string>)
      modifies ctx`newLead
      ensures ctx.newLead == LeadAfterTurn(old(ctx.newLead), backend.extraction)
      ensures ctx.newLead.None? ==> sent.None? && response.None?
      ensures ctx.newLead.Some? && GetMissingInfoPrompt(ctx.newLead.value).Some? ==>
                sent.None? && response == Some(ThanksPrefix + GetMissingInfoPrompt(ctx.newLead.value).value)
      ensures ctx.newLead.Some? && GetMissingInfoPrompt(ctx.newLead.value).None? ==>
                if backend.systemPrompt.None? then sent.None? && response.None?
                else sent == Some(ModelMessages(backend.systemPrompt.value, message, ctx.messages))
                     && response == StrippedReply(backend.reply)
    {
      if ctx.newLead.None? {
        return None, None;
      }
      var question := GetMissingInfoPrompt(ctx.newLead.value);
      if question.Some? {
        ExtractLeadInfo(ctx, backend.extraction);
        question := GetMissingInfoPrompt(ctx.newLead.value);
        if question.Some? {
          return None, Some(ThanksPrefix + question.value);
        }
      }
      if backend.systemPrompt.None? {
        return None, None;
      }
      var messages;
      messages, response := GenerateAIResponse(backend.systemPrompt.value, message, ctx.messages, backend.reply);
      sent := Some(messages);
    }

    /**
     * One turn: log the user's message, route it, and log the reply. Whatever
     * happens, the log grows by exactly the user entry and the bot entry, and a
     * failure anywhere on the way gives the apology.
     */
    method ProcessUserMessage(ctx: ConversationContext, userMessage: string, backend: Backend)
      returns (response: string, sent: Option<seq<ChatMessage>>)
      modifies ctx`messages, ctx`newLead
      ensures ctx.messages == old(ctx.messages) + [UserPrefix + userMessage, BotPrefix + response]
      ensures old(ctx.Initialized()) ==> ctx.Initialized()
      ensures old(ctx.IsReturningCustomer()) ==> ctx.newLead == old(ctx.newLead)
      ensures !old(ctx.IsReturningCustomer()) ==> ctx.newLead == LeadAfterTurn(old(ctx.newLead), backend.extraction)
      ensures var asked := !old(ctx.IsReturningCustomer()) && ctx.newLead.Some?
                           && GetMissingInfoPrompt(ctx.newLead.value).Some?;
              var callable := old(ctx.IsReturningCustomer()) || ctx.newLead.Some?;
              if asked then
                sent.None? && response == ThanksPrefix + GetMissingInfoPrompt(ctx.newLead.value).value
              else if callable && backend.systemPrompt.Some? then
                sent == Some(ModelMessages(backend.systemPrompt.value, userMessage,
                                           old(ctx.messages) + [UserPrefix + userMessage]))
                && response == if backend.reply.Some? then Strip(backend.reply.value) else Apology()
              else
                sent.None? && response == Apology()
      ensures sent.Some? ==> |sent.value| >= 3 && sent.value[|sent.value| - 2] == ChatMessage(User, userMessage)
    {
      ctx.messages := ctx.messages + [UserPrefix + userMessage];
      ghost var history := ctx.messages;
      var reply: Option<string>;
      if ctx.IsReturningCustomer() {
        sent, reply := HandleReturningCustomer(ctx, userMessage, backend);
      } else {
        sent, reply := HandleNewLead(ctx, userMessage, backend);
      }
      if sent.Some? {
        CurrentMessageSentTwice(backend.systemPrompt.value, userMessage, history);
      }
      response := if reply.Some? then reply.value else Apology();
      ctx.messages := ctx.messages + [BotPrefix + response];
    }

    /**
     * The next steps for staff: email and callback for a known pharmacy,
     * hand-over and callback for a complete lead, nothing otherwise.
     */
    method SuggestFollowUpActions(ctx: ConversationContext) returns (actions: seq<string>)
      ensures actions != [] <==> ctx.IsReturningCustomer() || (ctx.newLead.Some? && IsComplete(ctx.newLead.value))
      ensures ctx.IsReturningCustomer() ==>
                var p := ctx.pharmacy.value;
                && |actions| == (if Present(p.email) then 2 else 1)
                && (Present(p.email) ==> actions[0] == "Send follow-up email to " + p.email.value)
                && actions[|actions| - 1] == "Schedule callback to " + p.phone
      ensures !ctx.IsReturningCustomer() && ctx.newLead.Some? && IsComplete(ctx.newLead.value) ==>
                actions == ["Send lead information to sales team",
                            "Create CRM entry for new lead",
                            "Schedule callback to " + ctx.newLead.value.phone]
    {
      actions := [];
      if ctx.IsReturningCustomer() {
        var pharmacy := ctx.pharmacy.value;
        if Present(pharmacy.email) {
          actions := actions + ["Send follow-up email to " + pharmacy.email.value];
        }
        actions := actions + ["Schedule callback to " + pharmacy.phone];
      } else if ctx.newLead.Some? && IsComplete(ctx.newLead.value) {
        actions := actions + ["Send lead information to sales team"];
        actions := actions + ["Create CRM entry for new lead"];
        actions := actions + ["Schedule callback to " + ctx.newLead.value.phone];
      }
    }
  }

  /**
   * Answering a call: look the caller up, set up the conversation and pick the
   * greeting. A known number is greeted as the first matching pharmacy, any
   * other number as a new lead that knows only the phone.
   */
  method AnswerCall(bot: PharmacyChatbot, directory: seq<Pharmacy>, callerPhone: string)
    returns (ctx: ConversationContext, greeting: Greeting)
    ensures fresh(ctx) && ctx.Initialized() && ctx.messages == []
    ensures greeting.ReturningCustomerGreeting? <==>
              exists j :: 0 <= j < |directory| && NormalizePhoneNumber(directory[j].phone) == NormalizePhoneNumber(callerPhone)
    ensures greeting.ReturningCustomerGreeting? ==>
              greeting.pharmacy == directory[FirstMatchIndex(directory, NormalizePhoneNumber(callerPhone))]
    ensures greeting.NewLeadGreeting? ==> ctx.newLead == Some(EmptyLead(callerPhone))
    ensures ctx.callerPhone == callerPhone && greeting == bot.GenerateGreeting(ctx)
    ensures greeting.ReturningCustomerGreeting? ==> ctx.pharmacy == Some(greeting.pharmacy) && ctx.newLead == None
    ensures greeting.NewLeadGreeting? ==> ctx.pharmacy == None
  {
    var found := FindPharmacyByPhone(directory, callerPhone);
    ctx := InitializeConversation(callerPhone, found);
    greeting := bot.GenerateGreeting(ctx);
  }
}
