/**
 * The Gemini runner: one chat session, the free-tier throttle before every
 * request, lenient reminders, whitespace-stripped replies and cumulative
 * token accounting.
 */
module GeminiBot {
  import opened Wrappers
  import opened Text
  import opened OrderedDict
  import opened Injection
  import opened Script
  import opened Reminders
  import opened Usage
  import opened Throttling

  /**
   * The injectable-prompts table `ask_user_inputs()` builds: the chatbot's
   * name and company are fixed, the five others are the user's answers.
   */
  function Injects(topic: string, researchDesign: string, domain: string, specialisation: string,
                   domainRelatedRole: string): (vars: Injects)
    ensures |vars| == 7
    ensures vars[0] == ("{INJECT_CHATBOT}", "Gemini 2.5 Pro")
    ensures vars[1] == ("{INJECT_CHATBOT_COMPANY}", "Google")
  {
    [ ("{INJECT_CHATBOT}", "Gemini 2.5 Pro"),
      ("{INJECT_CHATBOT_COMPANY}", "Google"),
      ("{INJECT_TOPIC}", topic),
      ("{INJECT_RESEARCHDESIGN}", researchDesign),
      ("{INJECT_DOMAIN}", domain),
      ("{INJECT_SPECIALISATION}", specialisation),
      ("{INJECT_DOMAIN_RELATED_ROLE}", domainRelatedRole) ]
  }

  /** The fixed chatbot tag always becomes the chatbot's name, whatever the user answered. */
  lemma ChatbotInjected(topic: string, researchDesign: string, domain: string, specialisation: string,
                        domainRelatedRole: string)
    ensures Injected("{INJECT_CHATBOT}", Injects(topic, researchDesign, domain, specialisation, domainRelatedRole))
         == "Gemini 2.5 Pro"
  {
    FirstTagInjected(Injects(topic, researchDesign, domain, specialisation, domainRelatedRole));
  }

  /** The fixed company tag always becomes the company's name: the chatbot tag does not occur in it. */
  lemma CompanyInjected(topic: string, researchDesign: string, domain: string, specialisation: string,
                        domainRelatedRole: string)
    ensures Injected("{INJECT_CHATBOT_COMPANY}",
                     Injects(topic, researchDesign, domain, specialisation, domainRelatedRole))
         == "Google"
  {
    var s: string := "{INJECT_CHATBOT_COMPANY}";
    var t: string := "{INJECT_CHATBOT}";
    assert s[..|t|][15] == '_' != t[15];
    assert forall i :: 1 <= i < |s| ==> s[i] != '{';
    SecondTagInjected(Injects(topic, researchDesign, domain, specialisation, domainRelatedRole));
  }

  /**
   * `gen_cfg_kwargs` and whether `generation_config` is passed at all:
   * a key is present exactly when its flag was given (`is not None`, so
   * 0.0 is kept), and no config is passed when neither was given.
   */
  method GenerationConfig(temperature: Option<real>, topP: Option<real>)
    returns (config: Option<Dict<string, real>>)
    ensures config.None? <==> temperature.None? && topP.None?
    ensures config.Some? ==>
      && Get(config.value, "temperature") == temperature
      && Get(config.value, "top_p") == topP
      && forall k :: k != "temperature" && k != "top_p" ==> Get(config.value, k).None?
  {
    var kwargs: Dict<string, real> := [];
    if temperature.Some? {
      PutSpec(kwargs, "temperature", temperature.value);
      kwargs := Put(kwargs, "temperature", temperature.value);
    }
    if topP.Some? {
      PutSpec(kwargs, "top_p", topP.value);
      kwargs := Put(kwargs, "top_p", topP.value);
    }
    config := if kwargs != [] then Some(kwargs) else None;
  }

  datatype UsageMetadata = UsageMetadata(promptTokenCount: int, candidatesTokenCount: int)

  /** What `chat.send_message` returns: the reply text and, possibly, usage metadata. */
  datatype Response = Response(text: string, usageMetadata: Option<UsageMetadata>)

  /** The counts the runner reads; absent metadata counts as 0 for both. */
  function UsageReport(r: Response): (rep: Report)
    ensures r.usageMetadata.None? ==> rep == Report(0, 0)
    ensures r.usageMetadata.Some? ==>
      rep == Report(r.usageMetadata.value.promptTokenCount, r.usageMetadata.value.candidatesTokenCount)
  {
    match r.usageMetadata
    case None => Report(0, 0)
    case Some(u) => Report(u.promptTokenCount, u.candidatesTokenCount)
  }

  /** The recorded content of each reply: its text, stripped. */
  function Contents(replies: seq<Response>): (outs: seq<string>)
    ensures |outs| == |replies|
  {
    if replies == [] then [] else Contents(replies[..|replies| - 1]) + [Strip(replies[|replies| - 1].text)]
  }

  /** The `k`-th recorded content is the `k`-th reply's text, stripped. */
  lemma {:induction false} ContentsAt(replies: seq<Response>, k: nat)
    requires k < |replies|
    ensures Contents(replies)[k] == Strip(replies[k].text)
  {
    if k < |replies| - 1 {
      ContentsAt(replies[..|replies| - 1], k);
    }
  }

  function Reports(replies: seq<Response>): (reps: seq<Report>)
    ensures |reps| == |replies|
  {
    if replies == [] then [] else Reports(replies[..|replies| - 1]) + [UsageReport(replies[|replies| - 1])]
  }

  /** The `k`-th report is read off the `k`-th reply. */
  lemma {:induction false} ReportsAt(replies: seq<Response>, k: nat)
    requires k < |replies|
    ensures Reports(replies)[k] == UsageReport(replies[k])
  {
    if k < |replies| - 1 {
      ReportsAt(replies[..|replies| - 1], k);
    }
  }

  /**
   * A reply without usage metadata counts as 0 and 0: that turn's input delta
   * is minus the previous reply's prompt count, it adds no output, and the
   * carried count drops to 0, so the next turn's delta is its whole prompt count.
   */
  lemma MissingMetadataTurn(replies: seq<Response>, k: nat)
    requires k < |replies| && replies[k].usageMetadata.None?
    ensures var reps := Reports(replies);
      var l := Account(Cumulative(0), reps[..k + 1]);
      && |l.turns| == k + 1
      && l.turns[k] == Turn(-LastPrompt(reps[..k]), 0)
      && l.carry == Cumulative(0)
  {
    var reps := Reports(replies);
    ReportsAt(replies, k);
    AccountStep(Cumulative(0), reps, k);
    CumulativeTotals(reps[..k]);
    TotalsAreSums(Cumulative(0), reps[..k]);
  }

  /**
   * The chat session, as an oracle: the `k`-th `send_message` gets
   * `replies[k]`; one more raises, as a failed request does. The session
   * keeps its own history server-side; what it was sent, and when each
   * request went out, is logged.
   */
  class ChatSession {
    const replies: seq<Response>
    var sent: seq<string>
    /** The clock reading at which each request went out, oldest first. */
    ghost var sentAt: seq<real>

    constructor (replies: seq<Response>)
      ensures this.replies == replies && sent == [] && sentAt == []
    {
      this.replies := replies;
      sent := [];
      sentAt := [];
    }

    /** `chat.send_message(prompt)`, issued at the clock's current time; `None` stands for the exception. */
    method SendMessage(prompt: string, clock: Clock) returns (response: Option<Response>)
      modifies this
      ensures sent == old(sent) + [prompt]
      ensures sentAt == old(sentAt) + [clock.now]
      ensures response == if |old(sent)| < |replies| then Some(replies[|old(sent)|]) else None
    {
      response := if |sent| < |replies| then Some(replies[|sent|]) else None;
      sent := sent + [prompt];
      sentAt := sentAt + [clock.now];
    }
  }

  /**
   * The loop's bookkeeping: `prompt_output_map`, `prompt_name_out_map`,
   * `prev_prompt_tokens`, `total_in` and `total_out`.
   */
  datatype Books = Books(promptOutputMap: Dict<string, string>, promptNameOutMap: Dict<string, string>,
                         prevPromptTokens: int, totalIn: int, totalOut: int)

  /** The books after the turns of `processed`, as the replies in hand determine them. */
  predicate Kept(processed: seq<Entry>, vars: Injects, replies: seq<Response>, sent: seq<string>, books: Books) {
    && LenientRecorded(processed, vars, Contents(replies), sent, books.promptOutputMap, books.promptNameOutMap)
    && Accounted(Cumulative(0), Reports(replies), |processed|, Cumulative(books.prevPromptTokens),
                 books.totalIn, books.totalOut)
  }

  /** The books after one more completed turn, as `SendEntry` writes them. */
  function Booked(books: Books, prompt: string, name: string, reply: Response): Books {
    var content := Strip(reply.text);
    var usage := UsageReport(reply);
    Books(Put(books.promptOutputMap, prompt, content), Put(books.promptNameOutMap, name, content),
          usage.prompt, books.totalIn + (usage.prompt - books.prevPromptTokens), books.totalOut + usage.completion)
  }

  /** A completed turn keeps the books in step with the replies. */
  lemma KeptStep(processed: seq<Entry>, entry: Entry, vars: Injects, replies: seq<Response>, sent: seq<string>,
                 books: Books)
    requires Kept(processed, vars, replies, sent, books) && |processed| < |replies|
    ensures var prompt := LenientDispatch(entry, vars, books.promptNameOutMap);
      Kept(processed + [entry], vars, replies, sent + [prompt], Booked(books, prompt, entry.name, replies[|processed|]))
  {
    var outs := Contents(replies);
    var reps := Reports(replies);
    var k := |processed|;
    ContentsAt(replies, k);
    ReportsAt(replies, k);
    LenientRecordStep(processed, entry, vars, outs, sent, books.promptOutputMap, books.promptNameOutMap);
    CumulativeStep(reps, k, books.prevPromptTokens, books.totalIn, books.totalOut);
  }

  /** What the books say once every turn of `e` is complete. */
  lemma KeptAll(e: seq<Entry>, vars: Injects, replies: seq<Response>, sent: seq<string>, books: Books)
    requires Kept(e, vars, replies, sent, books)
    ensures var outs := Contents(replies);
      && |e| <= |replies|
      && sent == LenientDispatched(e, vars, outs)
      && books.promptOutputMap == Build(sent, outs[..|e|])
      && books.totalIn == Account(Cumulative(0), Reports(replies)[..|e|]).totalIn
      && books.totalOut == Account(Cumulative(0), Reports(replies)[..|e|]).totalOut
  {
  }

  /**
   * The bookkeeping once the response is in: strip its text, record it under
   * the prompt and under the name, and account the usage against the carried
   * cumulative prompt count.
   */
  method RecordTurn(books: Books, prompt: string, name: string, response: Response) returns (next: Books)
    ensures next == Booked(books, prompt, name, response)
  {
    var content := Strip(response.text);
    var promptOutputMap := Put(books.promptOutputMap, prompt, content);
    var promptNameOutMap := Put(books.promptNameOutMap, name, content);

    var cumPrompt, turnOut := 0, 0;
    if response.usageMetadata.Some? {
      cumPrompt := response.usageMetadata.value.promptTokenCount;
      turnOut := response.usageMetadata.value.candidatesTokenCount;
    }
    var turnIn := cumPrompt - books.prevPromptTokens;
    next := Books(promptOutputMap, promptNameOutMap, cumPrompt, books.totalIn + turnIn, books.totalOut + turnOut);
  }

  /**
   * One pass of the inner loop's body for `entry`: build the prompt, append
   * the reminder's output, throttle, send, and on a reply record it in both
   * maps and account its usage. `None` is the failed request that ends the
   * run; the prompt was sent all the same.
   */
  method SendEntry(entry: Entry, vars: Injects, books: Books, chat: ChatSession, limiter: RateLimiter,
                   clock: Clock, ghost processed: seq<Entry>)
    returns (next: Option<Books>)
    requires limiter.Valid() && Kept(processed, vars, chat.replies, chat.sent, books)
    modifies chat, limiter, clock
    ensures limiter.Valid() && limiter.stamps == old(limiter.stamps) + [limiter.lastRequestTs]
    ensures chat.sentAt == old(chat.sentAt) + [limiter.lastRequestTs]
    ensures |chat.sent| == |old(chat.sent)| + 1
    ensures next.Some? <==> |processed| < |chat.replies|
    ensures next.Some? ==> Kept(processed + [entry], vars, chat.replies, chat.sent, next.value)
    ensures next.None? ==>
      && |processed| == |chat.replies|
      && chat.sent == LenientDispatched(processed + [entry], vars, Contents(chat.replies))
  {
    var prompt := BuildPrompt(entry.text, vars);
    if IsReminder(entry.name) {
      var key := ReminderKey(entry.name);
      prompt := prompt + Get(books.promptNameOutMap, key).GetOr("");
    }
    assert prompt == LenientDispatch(entry, vars, books.promptNameOutMap);

    var _, _ := limiter.Throttle(clock);
    ghost var sentBefore := chat.sent;
    var response := chat.SendMessage(prompt, clock);
    if response.None? {
      LenientAbort(processed, entry, vars, Contents(chat.replies), sentBefore, books.promptOutputMap,
                   books.promptNameOutMap);
      return None;
    }
    assert |sentBefore| == |processed|;
    KeptStep(processed, entry, vars, chat.replies, sentBefore, books);
    var recorded := RecordTurn(books, prompt, entry.name, response.value);
    next := Some(recorded);
  }

  /**
   * The inner loop, `for prompt_name, prompt in line.items()`: the entries of
   * one line in order, until the line ends or a request fails.
   */
  method SendLine(line: seq<Entry>, vars: Injects, books: Books, chat: ChatSession, limiter: RateLimiter,
                  clock: Clock, ghost processed: seq<Entry>)
    returns (next: Option<Books>, ghost reached: seq<Entry>)
    requires limiter.Valid() && Kept(processed, vars, chat.replies, chat.sent, books)
    modifies chat, limiter, clock
    ensures limiter.Valid() && old(limiter.stamps) <= limiter.stamps
    ensures |limiter.stamps| - |chat.sent| == |old(limiter.stamps)| - |old(chat.sent)|
    ensures chat.sentAt == old(chat.sentAt) + limiter.stamps[|old(limiter.stamps)|..]
    ensures next.Some? <==> |processed + line| <= |chat.replies|
    ensures next.Some? ==> Kept(processed + line, vars, chat.replies, chat.sent, next.value)
    ensures next.None? ==>
      && |processed| <= |chat.replies|
      && reached == (processed + line)[..|chat.replies| + 1]
      && chat.sent == LenientDispatched(reached, vars, Contents(chat.replies))
  {
    ghost var stamps0 := limiter.stamps;
    ghost var sent0 := chat.sent;
    ghost var sentAt0 := chat.sentAt;
    ghost var done := processed;
    var current := books;
    var j := 0;
    while j < |line|
      invariant 0 <= j <= |line|
      invariant done == processed + line[..j]
      invariant limiter.Valid() && stamps0 <= limiter.stamps
      invariant |limiter.stamps| - |chat.sent| == |stamps0| - |sent0|
      invariant chat.sentAt == sentAt0 + limiter.stamps[|stamps0|..]
      invariant Kept(done, vars, chat.replies, chat.sent, current)
    {
      var entry := line[j];
      AppendNext(processed, line, j);
      ghost var stampsBefore := limiter.stamps;
      var step := SendEntry(entry, vars, current, chat, limiter, clock, done);
      PrefixGrows(stamps0, stampsBefore, limiter.lastRequestTs);
      if step.None? {
        AppendPrefix(processed, line, j, |chat.replies|);
        return None, done + [entry];
      }
      current := step.value;
      done := done + [entry];
      j := j + 1;
    }
    AppendWhole(processed, line);
    next, reached := Some(current), done;
  }

  /**
   * `run_conversation`: every entry of every line, in order, is injected,
   * completed with its reminder output, throttled, sent, and recorded. The
   * run either reaches the end and yields the transcript file, or stops at
   * the first failed request and yields nothing. Either way the session was
   * sent the lenient dispatch of the entries it got to, each after a
   * throttle of its own, and the totals account for the completed turns.
   */
  method RunConversation(script: seq<seq<Entry>>, vars: Injects, modelName: string, ts: string,
                         chat: ChatSession, limiter: RateLimiter, clock: Clock)
    returns (artifact: Option<Artifact>, totalIn: int, totalOut: int)
    requires chat.sent == [] && chat.sentAt == [] && limiter.Valid()
    modifies chat, limiter, clock
    ensures limiter.Valid() && old(limiter.stamps) <= limiter.stamps
    ensures |limiter.stamps| == |old(limiter.stamps)| + |chat.sent|
    ensures chat.sentAt == limiter.stamps[|old(limiter.stamps)|..] && Spaced(chat.sentAt)
    ensures artifact.Some? <==> |Flatten(script)| <= |chat.replies|
    ensures artifact.Some? ==>
      var e := Flatten(script);
      var outs := Contents(chat.replies);
      && chat.sent == LenientDispatched(e, vars, outs)
      && artifact.value == Artifact(modelName + "_run_" + ts + ".json", Build(chat.sent, outs[..|e|]))
      && totalIn == Account(Cumulative(0), Reports(chat.replies)[..|e|]).totalIn
      && totalOut == Account(Cumulative(0), Reports(chat.replies)[..|e|]).totalOut
    ensures artifact.None? ==>
      chat.sent == LenientDispatched(Flatten(script)[..|chat.replies| + 1], vars, Contents(chat.replies))
  {
    ghost var stamps0 := limiter.stamps;
    var books := Books([], [], 0, 0, 0);
    ghost var processed: seq<Entry> := [];

    var i := 0;
    while i < |script|
      invariant 0 <= i <= |script|
      invariant processed == Flatten(script[..i])
      invariant limiter.Valid() && stamps0 <= limiter.stamps && |limiter.stamps| == |stamps0| + |chat.sent|
      invariant chat.sentAt == limiter.stamps[|stamps0|..]
      invariant Kept(processed, vars, chat.replies, chat.sent, books)
    {
      var line := script[i];
      FlattenNextLine(script, i);
      ghost var stampsBefore := limiter.stamps;
      var next, reached := SendLine(line, vars, books, chat, limiter, clock, processed);
      SuffixJoin(stamps0, stampsBefore, limiter.stamps);
      if next.None? {
        FlattenLinePrefix(script, i);
        PrefixOfPrefix(Flatten(script), processed + line, |chat.replies| + 1);
        SpacedSuffix(limiter.stamps, |stamps0|);
        return None, books.totalIn, books.totalOut;
      }
      books := next.value;
      processed := processed + line;
      i := i + 1;
    }
    assert script[..i] == script;
    KeptAll(processed, vars, chat.replies, chat.sent, books);
    SpacedSuffix(limiter.stamps, |stamps0|);
    totalIn, totalOut := books.totalIn, books.totalOut;
    artifact := Some(Artifact(modelName + "_run_" + ts + ".json", books.promptOutputMap));
  }
}
