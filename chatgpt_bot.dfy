/**
 * The OpenAI runner: a system message first, the whole history resent on
 * every call, lenient reminders, replies recorded as they come, and
 * cumulative token accounting on every turn.
 */
module ChatGptBot {
  import opened Wrappers
  import opened Text
  import opened OrderedDict
  import opened Injection
  import opened Script
  import opened Reminders
  import opened Usage

  /**
   * The injectable-prompts table: the chatbot's name and company are fixed,
   * the five others are the user's answers.
   */
  function Injects(topic: string, researchDesign: string, domain: string, specialisation: string,
                   domainRelatedRole: string): (vars: Injects)
    ensures |vars| == 7
    ensures vars[0] == ("{INJECT_CHATBOT}", "ChatGPT")
    ensures vars[1] == ("{INJECT_CHATBOT_COMPANY}", "OpenAI")
  {
    [ ("{INJECT_CHATBOT}", "ChatGPT"),
      ("{INJECT_CHATBOT_COMPANY}", "OpenAI"),
      ("{INJECT_TOPIC}", topic),
      ("{INJECT_RESEARCHDESIGN}", researchDesign),
      ("{INJECT_DOMAIN}", domain),
      ("{INJECT_SPECIALISATION}", specialisation),
      ("{INJECT_DOMAIN_RELATED_ROLE}", domainRelatedRole) ]
  }

  /** The fixed chatbot tag always becomes the chatbot's name, whatever the user answered. */
  lemma ChatbotInjected(topic: string, researchDesign: string, domain: string, specialisation: string,
                        domainRelatedRole: string)
    ensures Injected("{INJECT_CHATBOT}", Injects(topic, researchDesign, domain, specialisation, domainRelatedRole))
         == "ChatGPT"
  {
    FirstTagInjected(Injects(topic, researchDesign, domain, specialisation, domainRelatedRole));
  }

  /** The fixed company tag always becomes the company's name: the chatbot tag does not occur in it. */
  lemma CompanyInjected(topic: string, researchDesign: string, domain: string, specialisation: string,
                        domainRelatedRole: string)
    ensures Injected("{INJECT_CHATBOT_COMPANY}",
                     Injects(topic, researchDesign, domain, specialisation, domainRelatedRole))
         == "OpenAI"
  {
    var s: string := "{INJECT_CHATBOT_COMPANY}";
    var t: string := "{INJECT_CHATBOT}";
    assert s[..|t|][15] == '_' != t[15];
    assert forall i :: 1 <= i < |s| ==> s[i] != '{';
    SecondTagInjected(Injects(topic, researchDesign, domain, specialisation, domainRelatedRole));
  }

  /**
   * `build_chat_params()`: a key is present exactly when its flag was given
   * (`is not None`, so 0.0 is kept); the dict may be empty, and is spread
   * into every call either way.
   */
  method BuildChatParams(temperature: Option<real>, topP: Option<real>) returns (params: Dict<string, real>)
    ensures Get(params, "temperature") == temperature
    ensures Get(params, "top_p") == topP
    ensures forall k :: k != "temperature" && k != "top_p" ==> Get(params, k).None?
    ensures params == [] <==> temperature.None? && topP.None?
  {
    params := [];
    if temperature.Some? {
      PutSpec(params, "temperature", temperature.value);
      params := Put(params, "temperature", temperature.value);
    }
    if topP.Some? {
      PutSpec(params, "top_p", topP.value);
      params := Put(params, "top_p", topP.value);
    }
  }

  /** What `chat.completions.create` returns: the first choice's content and the usage counts. */
  datatype Completion = Completion(content: string, promptTokens: int, completionTokens: int)

  function UsageReport(r: Completion): (rep: Report)
    ensures rep.prompt == r.promptTokens && rep.completion == r.completionTokens
  {
    Report(r.promptTokens, r.completionTokens)
  }

  /** The message appended to the history after a reply. */
  function AssistantMessage(content: string): Message {
    Message("assistant", content)
  }

  /** The recorded output of each reply: its content, as it is. */
  function Contents(replies: seq<Completion>): (outs: seq<string>)
    ensures |outs| == |replies|
  {
    if replies == [] then [] else Contents(replies[..|replies| - 1]) + [replies[|replies| - 1].content]
  }

  lemma {:induction false} ContentsAt(replies: seq<Completion>, k: nat)
    requires k < |replies|
    ensures Contents(replies)[k] == replies[k].content
  {
    if k < |replies| - 1 {
      ContentsAt(replies[..|replies| - 1], k);
    }
  }

  function Answers(replies: seq<Completion>): (ms: seq<Message>)
    ensures |ms| == |replies|
  {
    if replies == [] then [] else Answers(replies[..|replies| - 1]) + [AssistantMessage(replies[|replies| - 1].content)]
  }

  lemma {:induction false} AnswersAt(replies: seq<Completion>, k: nat)
    requires k < |replies|
    ensures Answers(replies)[k] == AssistantMessage(replies[k].content)
  {
    if k < |replies| - 1 {
      AnswersAt(replies[..|replies| - 1], k);
    }
  }

  function Reports(replies: seq<Completion>): (reps: seq<Report>)
    ensures |reps| == |replies|
  {
    if replies == [] then [] else Reports(replies[..|replies| - 1]) + [UsageReport(replies[|replies| - 1])]
  }

  lemma {:induction false} ReportsAt(replies: seq<Completion>, k: nat)
    requires k < |replies|
    ensures Reports(replies)[k] == UsageReport(replies[k])
  {
    if k < |replies| - 1 {
      ReportsAt(replies[..|replies| - 1], k);
    }
  }

  type Request = ChatRequest<Dict<string, real>>

  /**
   * The OpenAI endpoint, as an oracle: the `k`-th call gets `replies[k]`;
   * one more raises, as a failed request does. Every call is logged with
   * the message list and parameters it carried.
   */
  class Client {
    const replies: seq<Completion>
    var requests: seq<Request>

    constructor (replies: seq<Completion>)
      ensures this.replies == replies && requests == []
    {
      this.replies := replies;
      requests := [];
    }

    /** `openai.chat.completions.create(model=..., messages=msgs, **chat_params)`; `None` stands for the exception. */
    method Create(messages: seq<Message>, params: Dict<string, real>) returns (response: Option<Completion>)
      modifies this
      ensures requests == old(requests) + [ChatRequest(messages, params)]
      ensures response == if |old(requests)| < |replies| then Some(replies[|old(requests)|]) else None
    {
      response := if |requests| < |replies| then Some(replies[|requests|]) else None;
      requests := requests + [ChatRequest(messages, params)];
    }
  }

  /**
   * The loop's state: the history `msgs`, `prompt_output_map`,
   * `prompt_name_out_map`, `prev_prompt_total`, `total_in` and `total_out`.
   */
  datatype Books = Books(msgs: seq<Message>, promptOutputMap: Dict<string, string>,
                         promptNameOutMap: Dict<string, string>, prevPromptTotal: int, totalIn: int, totalOut: int)

  /**
   * The state after the turns of `processed`: one call each, carrying the
   * system message and the history, both maps recorded, and the counters
   * following the cumulative ledger.
   */
  predicate Kept(processed: seq<Entry>, vars: Injects, params: Dict<string, real>, replies: seq<Completion>,
                 requests: seq<Request>, books: Books) {
    var outs := Contents(replies);
    && |processed| <= |replies|
    && var sent := LenientDispatched(processed, vars, outs);
    && LenientRecorded(processed, vars, outs, sent, books.promptOutputMap, books.promptNameOutMap)
    && requests == ChatRequests([SystemMessage()], sent, Answers(replies), params)
    && books.msgs == [SystemMessage()] + Conversation(sent, Answers(replies)[..|processed|])
    && Accounted(Cumulative(0), Reports(replies), |processed|, Cumulative(books.prevPromptTotal),
                 books.totalIn, books.totalOut)
  }

  /** The run stopped after the entries of `reached`, the last of which was sent in a call that failed. */
  predicate Stopped(reached: seq<Entry>, vars: Injects, params: Dict<string, real>, replies: seq<Completion>,
                    requests: seq<Request>) {
    && |reached| == |replies| + 1
    && requests == ChatRequests([SystemMessage()], LenientDispatched(reached, vars, Contents(replies)),
                                Answers(replies), params)
  }

  /** The state after one more completed turn, as `SendEntry` writes it. */
  function Booked(books: Books, prompt: string, name: string, reply: Completion): Books {
    var content := reply.content;
    var usage := UsageReport(reply);
    Books((books.msgs + [UserMessage(prompt)]) + [AssistantMessage(content)],
          Put(books.promptOutputMap, prompt, content), Put(books.promptNameOutMap, name, content),
          usage.prompt, books.totalIn + (usage.prompt - books.prevPromptTotal), books.totalOut + usage.completion)
  }

  /** A completed turn keeps the state in step with the replies. */
  lemma KeptStep(processed: seq<Entry>, entry: Entry, vars: Injects, params: Dict<string, real>,
                 replies: seq<Completion>, requests: seq<Request>, books: Books)
    requires Kept(processed, vars, params, replies, requests, books) && |processed| < |replies|
    ensures var prompt := LenientDispatch(entry, vars, books.promptNameOutMap);
      Kept(processed + [entry], vars, params, replies,
           requests + [ChatRequest(books.msgs + [UserMessage(prompt)], params)],
           Booked(books, prompt, entry.name, replies[|processed|]))
  {
    var outs := Contents(replies);
    var k := |processed|;
    ContentsAt(replies, k);
    AnswersAt(replies, k);
    ReportsAt(replies, k);
    var sent := LenientDispatched(processed, vars, outs);
    var prompt := LenientDispatch(entry, vars, books.promptNameOutMap);
    LenientRecordStep(processed, entry, vars, outs, sent, books.promptOutputMap, books.promptNameOutMap);
    HistoryStep([SystemMessage()], sent, prompt, Answers(replies), params, requests, books.msgs);
    CumulativeStep(Reports(replies), k, books.prevPromptTotal, books.totalIn, books.totalOut);
  }

  /** A call beyond the last reply: the prompt went out, and the call failed. */
  lemma CallFailStop(processed: seq<Entry>, entry: Entry, vars: Injects, params: Dict<string, real>,
                     replies: seq<Completion>, requests: seq<Request>, books: Books)
    requires Kept(processed, vars, params, replies, requests, books) && |processed| == |replies|
    ensures var prompt := LenientDispatch(entry, vars, books.promptNameOutMap);
      Stopped(processed + [entry], vars, params, replies,
              requests + [ChatRequest(books.msgs + [UserMessage(prompt)], params)])
  {
    var outs := Contents(replies);
    var sent := LenientDispatched(processed, vars, outs);
    var prompt := LenientDispatch(entry, vars, books.promptNameOutMap);
    LenientAbort(processed, entry, vars, outs, sent, books.promptOutputMap, books.promptNameOutMap);
    ChatRequestsStep([SystemMessage()], sent, prompt, Answers(replies), params);
  }

  /** What the state says once every turn of `e` is complete. */
  lemma KeptAll(e: seq<Entry>, vars: Injects, params: Dict<string, real>, replies: seq<Completion>,
                requests: seq<Request>, books: Books)
    requires Kept(e, vars, params, replies, requests, books)
    ensures var outs := Contents(replies);
      var sent := LenientDispatched(e, vars, outs);
      && |e| <= |replies|
      && requests == ChatRequests([SystemMessage()], sent, Answers(replies), params)
      && books.promptOutputMap == Build(sent, outs[..|e|])
      && books.totalIn == Account(Cumulative(0), Reports(replies)[..|e|]).totalIn
      && books.totalOut == Account(Cumulative(0), Reports(replies)[..|e|]).totalOut
  {
  }

  /**
   * The rest of the loop body once the response is in: append the assistant
   * message to the history `msgs` (which already ends with the prompt),
   * record the content under the prompt and under the name, and account the
   * usage.
   */
  method RecordTurn(books: Books, msgs: seq<Message>, prompt: string, name: string, response: Completion)
    returns (next: Books)
    requires msgs == books.msgs + [UserMessage(prompt)]
    ensures next == Booked(books, prompt, name, response)
  {
    var content := response.content;
    var history := msgs + [AssistantMessage(content)];
    var promptOutputMap := Put(books.promptOutputMap, prompt, content);
    var promptNameOutMap := Put(books.promptNameOutMap, name, content);

    var turnIn := response.promptTokens - books.prevPromptTotal;
    var turnOut := response.completionTokens;
    var prevPromptTotal := response.promptTokens;
    next := Books(history, promptOutputMap, promptNameOutMap, prevPromptTotal, books.totalIn + turnIn,
                  books.totalOut + turnOut);
  }

  /**
   * One pass of the inner loop's body for `entry`: inject every tag, append
   * the reminder's output (or nothing), append the prompt to the history,
   * call the model with it, append the answer, record it under both keys
   * and account its usage. `None` is the failed call that ends the run.
   */
  method SendEntry(entry: Entry, vars: Injects, params: Dict<string, real>, books: Books, client: Client,
                   ghost processed: seq<Entry>)
    returns (next: Option<Books>)
    requires Kept(processed, vars, params, client.replies, client.requests, books)
    modifies client
    ensures next.Some? <==> |processed| < |client.replies|
    ensures next.Some? ==> Kept(processed + [entry], vars, params, client.replies, client.requests, next.value)
    ensures next.None? ==> Stopped(processed + [entry], vars, params, client.replies, client.requests)
  {
    var prompt := BuildPrompt(entry.text, vars);
    if IsReminder(entry.name) {
      var key := ReminderKey(entry.name);
      prompt := prompt + Get(books.promptNameOutMap, key).GetOr("");
    }
    assert prompt == LenientDispatch(entry, vars, books.promptNameOutMap);

    ghost var requestsBefore := client.requests;
    assert |requestsBefore| == |processed|;
    var msgs := books.msgs + [UserMessage(prompt)];
    var response := client.Create(msgs, params);
    if response.None? {
      CallFailStop(processed, entry, vars, params, client.replies, requestsBefore, books);
      return None;
    }
    KeptStep(processed, entry, vars, params, client.replies, requestsBefore, books);
    var recorded := RecordTurn(books, msgs, prompt, entry.name, response.value);
    next := Some(recorded);
  }

  /**
   * The inner loop, `for prompt_name, prompt in line.items()`: the entries of
   * one line in order, until the line ends or a call fails.
   */
  method SendLine(line: seq<Entry>, vars: Injects, params: Dict<string, real>, books: Books, client: Client,
                  ghost processed: seq<Entry>)
    returns (next: Option<Books>, ghost reached: seq<Entry>)
    requires Kept(processed, vars, params, client.replies, client.requests, books)
    modifies client
    ensures next.Some? <==> |processed + line| <= |client.replies|
    ensures next.Some? ==> Kept(processed + line, vars, params, client.replies, client.requests, next.value)
    ensures next.None? ==>
      && |processed| < |reached| <= |processed + line|
      && reached == (processed + line)[..|reached|]
      && Stopped(reached, vars, params, client.replies, client.requests)
  {
    ghost var done := processed;
    var current := books;
    var j := 0;
    while j < |line|
      invariant 0 <= j <= |line|
      invariant done == processed + line[..j]
      invariant Kept(done, vars, params, client.replies, client.requests, current)
    {
      var entry := line[j];
      AppendNext(processed, line, j);
      var step := SendEntry(entry, vars, params, current, client, done);
      if step.None? {
        AppendPrefix(processed, line, j, |done|);
        return None, done + [entry];
      }
      current := step.value;
      done := done + [entry];
      j := j + 1;
    }
    AppendWhole(processed, line);
    next, reached := Some(current), done;
  }

  /**
   * `run_conversation`, with `chat_params` as `BuildChatParams` computes it:
   * every entry of every line, in order, is injected, completed with its
   * reminder output, sent after the system message and the whole history,
   * and recorded. The run completes and yields the transcript file exactly
   * when every call gets a reply; otherwise it stops at the first failed
   * call and yields nothing.
   */
  method RunConversation(script: seq<seq<Entry>>, vars: Injects, params: Dict<string, real>, modelName: string,
                         ts: string, client: Client)
    returns (artifact: Option<Artifact>, totalIn: int, totalOut: int)
    requires client.requests == []
    modifies client
    ensures artifact.Some? <==> |Flatten(script)| <= |client.replies|
    ensures artifact.Some? ==>
      var e := Flatten(script);
      var outs := Contents(client.replies);
      var sent := LenientDispatched(e, vars, outs);
      && client.requests == ChatRequests([SystemMessage()], sent, Answers(client.replies), params)
      && artifact.value == Artifact(modelName + "_run_" + ts + ".json", Build(sent, outs[..|e|]))
      && totalIn == Account(Cumulative(0), Reports(client.replies)[..|e|]).totalIn
      && totalOut == Account(Cumulative(0), Reports(client.replies)[..|e|]).totalOut
    ensures artifact.None? ==>
      var e := Flatten(script);
      client.requests
        == ChatRequests([SystemMessage()], LenientDispatched(e[..|client.replies| + 1], vars, Contents(client.replies)),
                        Answers(client.replies), params)
  {
    var books := Books([SystemMessage()], [], [], 0, 0, 0);
    ghost var processed: seq<Entry> := [];
    assert [SystemMessage()] + [] == [SystemMessage()];

    var i := 0;
    while i < |script|
      invariant 0 <= i <= |script|
      invariant processed == Flatten(script[..i])
      invariant Kept(processed, vars, params, client.replies, client.requests, books)
    {
      var line := script[i];
      FlattenNextLine(script, i);
      var next, reached := SendLine(line, vars, params, books, client, processed);
      if next.None? {
        FlattenLinePrefix(script, i);
        PrefixOfPrefix(Flatten(script), processed + line, |reached|);
        return None, books.totalIn, books.totalOut;
      }
      books := next.value;
      processed := processed + line;
      i := i + 1;
    }
    assert script[..i] == script;
    KeptAll(processed, vars, params, client.replies, client.requests, books);
    totalIn, totalOut := books.totalIn, books.totalOut;
    artifact := Some(Artifact(modelName + "_run_" + ts + ".json", books.promptOutputMap));
  }
}
