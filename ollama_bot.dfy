/**
 * The Ollama runner: the whole history is resent on every call, reminders
 * are strict (a missing output raises `KeyError`), replies are recorded as
 * they come, and token usage is accounted only in verbose mode, with the
 * trimming scheme.
 */
module OllamaBot {
  import opened Wrappers
  import opened OrderedDict
  import opened Injection
  import opened Script
  import opened Reminders
  import opened Usage

  /** The injectable-prompts table: five tags, each filled with the user's answer. */
  function Injects(topic: string, researchDesign: string, domain: string, specialisation: string,
                   domainRelatedRole: string): (vars: Injects)
    ensures |vars| == 5
    ensures vars[0] == ("{INJECT_TOPIC}", topic) && vars[4] == ("{INJECT_DOMAIN_RELATED_ROLE}", domainRelatedRole)
  {
    [ ("{INJECT_TOPIC}", topic),
      ("{INJECT_RESEARCHDESIGN}", researchDesign),
      ("{INJECT_DOMAIN}", domain),
      ("{INJECT_SPECIALISATION}", specialisation),
      ("{INJECT_DOMAIN_RELATED_ROLE}", domainRelatedRole) ]
  }

  /** Python truthiness of an optional float flag: given and non-zero. */
  predicate Truthy(x: Option<real>) {
    x.Some? && x.value != 0.0
  }

  /** The sampling options; `None` when nothing was set. */
  type Options = Option<Dict<string, real>>

  /**
   * `make_chat_options()`: a key is present exactly when its flag is truthy,
   * so a flag of 0.0 is dropped; an empty dict becomes `None`.
   */
  method MakeChatOptions(temperature: Option<real>, repeatPenalty: Option<real>) returns (opts: Options)
    ensures opts.None? <==> !Truthy(temperature) && !Truthy(repeatPenalty)
    ensures opts.Some? ==>
      && Get(opts.value, "temperature") == (if Truthy(temperature) then temperature else None)
      && Get(opts.value, "repeat_penalty") == (if Truthy(repeatPenalty) then repeatPenalty else None)
      && forall k :: k != "temperature" && k != "repeat_penalty" ==> Get(opts.value, k).None?
  {
    var chatOptions: Dict<string, real> := [];
    if temperature.Some? && temperature.value != 0.0 {
      PutSpec(chatOptions, "temperature", temperature.value);
      chatOptions := Put(chatOptions, "temperature", temperature.value);
    }
    if repeatPenalty.Some? && repeatPenalty.value != 0.0 {
      PutSpec(chatOptions, "repeat_penalty", repeatPenalty.value);
      chatOptions := Put(chatOptions, "repeat_penalty", repeatPenalty.value);
    }
    opts := if chatOptions != [] then Some(chatOptions) else None;
  }

  /** What `ollama.chat` returns: the assistant message and, possibly, the two token counts. */
  datatype OllamaReply = OllamaReply(message: Message, promptEvalCount: Option<int>, evalCount: Option<int>)

  /** `output.get("prompt_eval_count", 0)` and `output.get("eval_count", 0)`. */
  function UsageReport(r: OllamaReply): (rep: Report)
    ensures rep.prompt == (if r.promptEvalCount.Some? then r.promptEvalCount.value else 0)
    ensures rep.completion == (if r.evalCount.Some? then r.evalCount.value else 0)
  {
    Report(r.promptEvalCount.GetOr(0), r.evalCount.GetOr(0))
  }

  /** The recorded output of each reply: its message content, as it is. */
  function Contents(replies: seq<OllamaReply>): (outs: seq<string>)
    ensures |outs| == |replies|
  {
    if replies == [] then [] else Contents(replies[..|replies| - 1]) + [replies[|replies| - 1].message.content]
  }

  lemma {:induction false} ContentsAt(replies: seq<OllamaReply>, k: nat)
    requires k < |replies|
    ensures Contents(replies)[k] == replies[k].message.content
  {
    if k < |replies| - 1 {
      ContentsAt(replies[..|replies| - 1], k);
    }
  }

  /** The messages appended to the history: each reply's `message`. */
  function Answers(replies: seq<OllamaReply>): (ms: seq<Message>)
    ensures |ms| == |replies|
  {
    if replies == [] then [] else Answers(replies[..|replies| - 1]) + [replies[|replies| - 1].message]
  }

  lemma {:induction false} AnswersAt(replies: seq<OllamaReply>, k: nat)
    requires k < |replies|
    ensures Answers(replies)[k] == replies[k].message
  {
    if k < |replies| - 1 {
      AnswersAt(replies[..|replies| - 1], k);
    }
  }

  function Reports(replies: seq<OllamaReply>): (reps: seq<Report>)
    ensures |reps| == |replies|
  {
    if replies == [] then [] else Reports(replies[..|replies| - 1]) + [UsageReport(replies[|replies| - 1])]
  }

  lemma {:induction false} ReportsAt(replies: seq<OllamaReply>, k: nat)
    requires k < |replies|
    ensures Reports(replies)[k] == UsageReport(replies[k])
  {
    if k < |replies| - 1 {
      ReportsAt(replies[..|replies| - 1], k);
    }
  }

  /**
   * A reply without either count, accounted in verbose mode: that turn's
   * input delta is minus the previous reply's two counts, it adds no output,
   * and the carried counts drop to 0.
   */
  lemma MissingCountsTurn(replies: seq<OllamaReply>, k: nat)
    requires k < |replies| && replies[k].promptEvalCount.None? && replies[k].evalCount.None?
    ensures var reps := Reports(replies);
      var l := Account(Trimming(0, 0), reps[..k + 1]);
      && |l.turns| == k + 1
      && l.turns[k] == (if k == 0 then Turn(0, 0) else Turn(-reps[k - 1].prompt - reps[k - 1].completion, 0))
      && l.carry == Trimming(0, 0)
  {
    var reps := Reports(replies);
    ReportsAt(replies, k);
    assert reps[k] == Report(0, 0);
    var l0 := Account(Trimming(0, 0), reps[..k]);
    AccountStep(Trimming(0, 0), reps, k);
    TotalsAreSums(Trimming(0, 0), reps[..k]);
    if k > 0 {
      TrimmingCarry(reps[..k]);
      assert reps[..k][k - 1] == reps[k - 1];
      assert l0.carry == Trimming(reps[k - 1].prompt, reps[k - 1].completion);
    } else {
      assert l0.carry == Trimming(0, 0);
    }
  }

  type Request = ChatRequest<Options>

  /**
   * The Ollama server, as an oracle: the `k`-th `ollama.chat` call gets
   * `replies[k]`; one more raises, as a failed request does. Every call is
   * logged with the message list and options it carried.
   */
  class Client {
    const replies: seq<OllamaReply>
    var requests: seq<Request>

    constructor (replies: seq<OllamaReply>)
      ensures this.replies == replies && requests == []
    {
      this.replies := replies;
      requests := [];
    }

    /** `ollama.chat(model=..., messages=msgs[, options=opts])`; `None` stands for the exception. */
    method Chat(messages: seq<Message>, options: Options) returns (output: Option<OllamaReply>)
      modifies this
      ensures requests == old(requests) + [ChatRequest(messages, options)]
      ensures output == if |old(requests)| < |replies| then Some(replies[|old(requests)|]) else None
    {
      output := if |requests| < |replies| then Some(replies[|requests|]) else None;
      requests := requests + [ChatRequest(messages, options)];
    }
  }

  /**
   * The loop's state: `prompt_output_map`, `prompt_name_output_map`, the
   * history `msgs`, `prev_prompt_eval`, `prev_eval`, `total_in` and
   * `total_out`.
   */
  datatype Books = Books(promptOutputMap: Dict<string, string>, promptNameOutputMap: Dict<string, string>,
                         msgs: seq<Message>, prevPromptEval: int, prevEval: int, totalIn: int, totalOut: int)

  /**
   * The state after the turns of `processed`, all of which went through:
   * no `KeyError`, one call each, the history holding every prompt and its
   * answer, and the counters following the trimming ledger in verbose mode
   * and staying 0 otherwise.
   */
  predicate Kept(processed: seq<Entry>, vars: Injects, opts: Options, verbose: bool, replies: seq<OllamaReply>,
                 requests: seq<Request>, books: Books) {
    var outs := Contents(replies);
    && |processed| <= |replies|
    && var sent := LenientDispatched(processed, vars, outs);
    && LenientRecorded(processed, vars, outs, sent, books.promptOutputMap, books.promptNameOutputMap)
    && |StrictDispatched(processed, vars, outs)| == |processed|
    && requests == ChatRequests([], sent, Answers(replies), opts)
    && books.msgs == Conversation(sent, Answers(replies)[..|processed|])
    && (verbose ==>
          Accounted(Trimming(0, 0), Reports(replies), |processed|, Trimming(books.prevPromptEval, books.prevEval),
                    books.totalIn, books.totalOut))
    && (!verbose ==> books.prevPromptEval == 0 && books.prevEval == 0 && books.totalIn == 0 && books.totalOut == 0)
  }

  /**
   * The run stopped after the entries of `reached`: the last of them either
   * raised `KeyError` (and was never sent) or was sent in a call that failed.
   */
  predicate Stopped(reached: seq<Entry>, vars: Injects, opts: Options, replies: seq<OllamaReply>,
                    requests: seq<Request>) {
    && 0 < |reached| <= |replies| + 1
    && var d := StrictDispatched(reached, vars, Contents(replies));
    && requests == ChatRequests([], d, Answers(replies), opts)
    && (|d| < |reached| || |reached| == |replies| + 1)
  }

  /** The state after one more completed turn, as `SendEntry` writes it. */
  function Booked(books: Books, prompt: string, name: string, reply: OllamaReply, verbose: bool): Books {
    var content := reply.message.content;
    var msgs := (books.msgs + [UserMessage(prompt)]) + [reply.message];
    var byText := Put(books.promptOutputMap, prompt, content);
    var byName := Put(books.promptNameOutputMap, name, content);
    if verbose then
      var usage := UsageReport(reply);
      Books(byText, byName, msgs, usage.prompt, usage.completion,
            books.totalIn + (usage.prompt - books.prevPromptEval - books.prevEval), books.totalOut + usage.completion)
    else
      Books(byText, byName, msgs, books.prevPromptEval, books.prevEval, books.totalIn, books.totalOut)
  }

  /** A completed turn keeps the state in step with the replies. */
  lemma KeptStep(processed: seq<Entry>, entry: Entry, vars: Injects, opts: Options, verbose: bool,
                 replies: seq<OllamaReply>, requests: seq<Request>, books: Books, prompt: string)
    requires Kept(processed, vars, opts, verbose, replies, requests, books) && |processed| < |replies|
    requires StrictDispatch(entry, vars, books.promptNameOutputMap) == Some(prompt)
    ensures Kept(processed + [entry], vars, opts, verbose, replies,
                 requests + [ChatRequest(books.msgs + [UserMessage(prompt)], opts)],
                 Booked(books, prompt, entry.name, replies[|processed|], verbose))
  {
    var outs := Contents(replies);
    var k := |processed|;
    ContentsAt(replies, k);
    AnswersAt(replies, k);
    ReportsAt(replies, k);
    var sent := LenientDispatched(processed, vars, outs);
    StrictDispatchAgrees(entry, vars, books.promptNameOutputMap);
    LenientRecordStep(processed, entry, vars, outs, sent, books.promptOutputMap, books.promptNameOutputMap);
    StrictNext(processed, entry, vars, outs, books.promptNameOutputMap);
    assert [] + books.msgs == books.msgs;
    HistoryStep([], sent, prompt, Answers(replies), opts, requests, books.msgs);
    if verbose {
      TrimmingStep(Reports(replies), k, books.prevPromptEval, books.prevEval, books.totalIn, books.totalOut);
    }
  }

  /** A reminder whose key has no recorded output: `KeyError`, before anything is sent. */
  lemma KeyErrorStop(processed: seq<Entry>, entry: Entry, vars: Injects, opts: Options, verbose: bool,
                     replies: seq<OllamaReply>, requests: seq<Request>, books: Books)
    requires Kept(processed, vars, opts, verbose, replies, requests, books)
    requires StrictDispatch(entry, vars, books.promptNameOutputMap).None?
    ensures Stopped(processed + [entry], vars, opts, replies, requests)
  {
    var outs := Contents(replies);
    StrictNext(processed, entry, vars, outs, books.promptNameOutputMap);
    StrictComplete(processed, vars, outs);
  }

  /** A call beyond the last reply: the prompt went out, and the call failed. */
  lemma CallFailStop(processed: seq<Entry>, entry: Entry, vars: Injects, opts: Options, verbose: bool,
                     replies: seq<OllamaReply>, requests: seq<Request>, books: Books, prompt: string)
    requires Kept(processed, vars, opts, verbose, replies, requests, books) && |processed| == |replies|
    requires StrictDispatch(entry, vars, books.promptNameOutputMap) == Some(prompt)
    ensures Stopped(processed + [entry], vars, opts, replies,
                    requests + [ChatRequest(books.msgs + [UserMessage(prompt)], opts)])
  {
    var outs := Contents(replies);
    var sent := LenientDispatched(processed, vars, outs);
    StrictNext(processed, entry, vars, outs, books.promptNameOutputMap);
    StrictComplete(processed, vars, outs);
    ChatRequestsStep([], sent, prompt, Answers(replies), opts);
    assert [] + books.msgs == books.msgs;
  }

  /** What the state says once every turn of `e` is complete. */
  lemma KeptAll(e: seq<Entry>, vars: Injects, opts: Options, verbose: bool, replies: seq<OllamaReply>,
                requests: seq<Request>, books: Books)
    requires Kept(e, vars, opts, verbose, replies, requests, books)
    ensures var outs := Contents(replies);
      var d := StrictDispatched(e, vars, outs);
      && |e| <= |replies| && |d| == |e|
      && requests == ChatRequests([], d, Answers(replies), opts)
      && books.promptOutputMap == Build(d, outs[..|e|])
      && (verbose ==>
            && books.totalIn == Account(Trimming(0, 0), Reports(replies)[..|e|]).totalIn
            && books.totalOut == Account(Trimming(0, 0), Reports(replies)[..|e|]).totalOut)
      && (!verbose ==> books.totalIn == 0 && books.totalOut == 0)
  {
    StrictComplete(e, vars, Contents(replies));
  }

  /**
   * A run that stopped after `reached`, a prefix of the whole visiting order
   * `e`, did not complete, and made the calls of the strict dispatch of `e`
   * cut after the first `|replies| + 1` entries.
   */
  lemma StopAll(e: seq<Entry>, reached: seq<Entry>, vars: Injects, opts: Options, replies: seq<OllamaReply>,
                requests: seq<Request>)
    requires |reached| <= |e| && reached == e[..|reached|]
    requires Stopped(reached, vars, opts, replies, requests)
    ensures var outs := Contents(replies);
      var c := if |e| <= |replies| then |e| else |replies| + 1;
      && !(|e| <= |replies| && |StrictDispatched(e, vars, outs)| == |e|)
      && requests == ChatRequests([], StrictDispatched(e[..c], vars, outs), Answers(replies), opts)
  {
    var outs := Contents(replies);
    var c := if |e| <= |replies| then |e| else |replies| + 1;
    var d := StrictDispatched(reached, vars, outs);
    if |d| < |reached| {
      StrictPrefix(e[..c], vars, outs, |reached|);
      assert e[..c][..|reached|] == reached;
      if |e| <= |replies| {
        assert e[..c] == e;
      }
    } else {
      assert e[..c] == reached;
    }
  }

  /** A stop inside line `i` of the script is a stop of the whole run. */
  lemma StopInLine(script: seq<seq<Entry>>, i: nat, processed: seq<Entry>, reached: seq<Entry>, vars: Injects,
                   opts: Options, replies: seq<OllamaReply>, requests: seq<Request>)
    requires i < |script| && processed + script[i] == Flatten(script[..i + 1])
    requires |reached| <= |processed + script[i]| && reached == (processed + script[i])[..|reached|]
    requires Stopped(reached, vars, opts, replies, requests)
    ensures var e := Flatten(script);
      var outs := Contents(replies);
      var c := if |e| <= |replies| then |e| else |replies| + 1;
      && !(|e| <= |replies| && |StrictDispatched(e, vars, outs)| == |e|)
      && requests == ChatRequests([], StrictDispatched(e[..c], vars, outs), Answers(replies), opts)
  {
    FlattenLinePrefix(script, i);
    PrefixOfPrefix(Flatten(script), processed + script[i], |reached|);
    StopAll(Flatten(script), reached, vars, opts, replies, requests);
  }

  /**
   * The rest of the loop body once the reply is in: append it to the history
   * `msgs` (which already ends with the prompt), record its content under the
   * prompt and under the name, and in verbose mode account its usage.
   */
  method RecordTurn(books: Books, msgs: seq<Message>, prompt: string, name: string, reply: OllamaReply,
                    verbose: bool)
    returns (next: Books)
    requires msgs == books.msgs + [UserMessage(prompt)]
    ensures next == Booked(books, prompt, name, reply, verbose)
  {
    var history := msgs + [reply.message];
    var promptOutputMap := Put(books.promptOutputMap, prompt, reply.message.content);
    var promptNameOutputMap := Put(books.promptNameOutputMap, name, reply.message.content);

    var prevPromptEval, prevEval, totalIn, totalOut := books.prevPromptEval, books.prevEval, books.totalIn, books.totalOut;
    if verbose {
      var promptEval := reply.promptEvalCount.GetOr(0);
      var completion := reply.evalCount.GetOr(0);
      var inputTokens := promptEval - prevPromptEval - prevEval;
      totalIn := totalIn + inputTokens;
      totalOut := totalOut + completion;
      prevPromptEval := promptEval;
      prevEval := completion;
    }
    next := Books(promptOutputMap, promptNameOutputMap, history, prevPromptEval, prevEval, totalIn, totalOut);
  }

  /**
   * One pass of the inner loop's body for `entry`: inject the tags present,
   * append the reminder's output (`KeyError` when there is none), append the
   * prompt to the history, call the model with it, append the reply, record
   * it under both keys, and in verbose mode account its usage. `None` is a
   * `KeyError` or a failed call, either of which ends the run.
   */
  method SendEntry(entry: Entry, vars: Injects, opts: Options, verbose: bool, books: Books, client: Client,
                   ghost processed: seq<Entry>)
    returns (next: Option<Books>)
    requires Kept(processed, vars, opts, verbose, client.replies, client.requests, books)
    modifies client
    ensures next.Some? ==> Kept(processed + [entry], vars, opts, verbose, client.replies, client.requests, next.value)
    ensures next.None? ==> Stopped(processed + [entry], vars, opts, client.replies, client.requests)
  {
    var prompt := BuildPromptGuarded(entry.text, vars);
    if IsReminder(entry.name) {
      var keyOfRemindable := ReminderKey(entry.name);
      var found := Get(books.promptNameOutputMap, keyOfRemindable);
      if found.None? {
        KeyErrorStop(processed, entry, vars, opts, verbose, client.replies, client.requests, books);
        return None;
      }
      prompt := prompt + found.value;
    }
    assert StrictDispatch(entry, vars, books.promptNameOutputMap) == Some(prompt);

    ghost var requestsBefore := client.requests;
    assert |requestsBefore| == |processed|;
    var msgs := books.msgs + [UserMessage(prompt)];
    var output := client.Chat(msgs, opts);
    if output.None? {
      CallFailStop(processed, entry, vars, opts, verbose, client.replies, requestsBefore, books, prompt);
      return None;
    }
    var reply := output.value;
    KeptStep(processed, entry, vars, opts, verbose, client.replies, requestsBefore, books, prompt);
    var recorded := RecordTurn(books, msgs, prompt, entry.name, reply, verbose);
    next := Some(recorded);
  }

  /**
   * The inner loop, `for prompt_name, prompt in line.items()`: the entries of
   * one line in order, until the line ends or the run stops.
   */
  method SendLine(line: seq<Entry>, vars: Injects, opts: Options, verbose: bool, books: Books, client: Client,
                  ghost processed: seq<Entry>)
    returns (next: Option<Books>, ghost reached: seq<Entry>)
    requires Kept(processed, vars, opts, verbose, client.replies, client.requests, books)
    modifies client
    ensures next.Some? ==> Kept(processed + line, vars, opts, verbose, client.replies, client.requests, next.value)
    ensures next.None? ==>
      && |processed| < |reached| <= |processed + line|
      && reached == (processed + line)[..|reached|]
      && Stopped(reached, vars, opts, client.replies, client.requests)
  {
    ghost var done := processed;
    var current := books;
    var j := 0;
    while j < |line|
      invariant 0 <= j <= |line|
      invariant done == processed + line[..j]
      invariant Kept(done, vars, opts, verbose, client.replies, client.requests, current)
    {
      var entry := line[j];
      AppendNext(processed, line, j);
      var step := SendEntry(entry, vars, opts, verbose, current, client, done);
      if step.None? {
        AppendPrefix(processed, line, j, |done|);
        return None, done + [entry];
      }
      current := step.value;
      done := done + [entry];
      j := j + 1;
    }
    AppendWhole(processed, line);
    next, reached := Some(current), done;
  }

  /**
   * `get_response`: every entry of every line, in order, is injected,
   * completed with its reminder output, sent with the whole history, and
   * recorded. The run completes and yields the transcript file exactly when
   * every reminder finds an earlier output and every call gets a reply;
   * otherwise it made the calls of the strict dispatch up to where it
   * stopped, and yields nothing.
   */
  method RunConversation(script: seq<seq<Entry>>, vars: Injects, opts: Options, verbose: bool, modelName: string,
                         ts: string, client: Client)
    returns (artifact: Option<Artifact>, totalIn: int, totalOut: int)
    requires client.requests == []
    modifies client
    ensures artifact.Some? <==>
      |Flatten(script)| <= |client.replies|
      && |StrictDispatched(Flatten(script), vars, Contents(client.replies))| == |Flatten(script)|
    ensures artifact.Some? ==>
      var e := Flatten(script);
      var outs := Contents(client.replies);
      var sent := StrictDispatched(e, vars, outs);
      && client.requests == ChatRequests([], sent, Answers(client.replies), opts)
      && artifact.value == Artifact(modelName + "_test_" + ts + ".json", Build(sent, outs[..|e|]))
      && (verbose ==>
            && totalIn == Account(Trimming(0, 0), Reports(client.replies)[..|e|]).totalIn
            && totalOut == Account(Trimming(0, 0), Reports(client.replies)[..|e|]).totalOut)
      && (!verbose ==> totalIn == 0 && totalOut == 0)
    ensures artifact.None? ==>
      var e := Flatten(script);
      var c := if |e| <= |client.replies| then |e| else |client.replies| + 1;
      client.requests
        == ChatRequests([], StrictDispatched(e[..c], vars, Contents(client.replies)), Answers(client.replies), opts)
  {
    var books := Books([], [], [], 0, 0, 0, 0);
    ghost var processed: seq<Entry> := [];

    var i := 0;
    while i < |script|
      invariant 0 <= i <= |script|
      invariant processed == Flatten(script[..i])
      invariant Kept(processed, vars, opts, verbose, client.replies, client.requests, books)
    {
      var line := script[i];
      FlattenNextLine(script, i);
      var next, reached := SendLine(line, vars, opts, verbose, books, client, processed);
      if next.None? {
        StopInLine(script, i, processed, reached, vars, opts, client.replies, client.requests);
        return None, books.totalIn, books.totalOut;
      }
      books := next.value;
      processed := processed + line;
      i := i + 1;
    }
    assert script[..i] == script;
    KeptAll(processed, vars, opts, verbose, client.replies, client.requests, books);
    totalIn, totalOut := books.totalIn, books.totalOut;
    artifact := Some(Artifact(modelName + "_test_" + ts + ".json", books.promptOutputMap));
  }
}
