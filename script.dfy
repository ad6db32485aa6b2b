/**
 * The prompt script, chat messages and the transcript artifact, shared by the
 * three runners.
 */
module Script {
  import opened OrderedDict

  /** One item of a script line: a prompt name and its prompt text. */
  datatype Entry = Entry(name: string, text: string)

  /**
   * The order in which `for line in lines: for name, prompt in line.items()`
   * visits the entries of a script whose lines are JSON objects.
   */
  function Flatten(lines: seq<seq<Entry>>): seq<Entry> {
    if lines == [] then []
    else Flatten(lines[..|lines| - 1]) + lines[|lines| - 1]
  }

  lemma {:induction false} FlattenAppend(a: seq<seq<Entry>>, b: seq<seq<Entry>>)
    ensures Flatten(a + b) == Flatten(a) + Flatten(b)
    decreases |b|
  {
    if b == [] {
      assert a + b == a;
    } else {
      var b' := b[..|b| - 1];
      assert (a + b)[..|a + b| - 1] == a + b';
      FlattenAppend(a, b');
    }
  }

  /**
   * The entries visited before entry `j` of line `i`, followed by that entry,
   * are a prefix of the whole visiting order.
   */
  lemma FlattenPrefix(lines: seq<seq<Entry>>, i: nat, j: nat)
    requires i < |lines| && j < |lines[i]|
    ensures var p := Flatten(lines[..i]) + lines[i][..j];
      |p| < |Flatten(lines)| && Flatten(lines)[..|p| + 1] == p + [lines[i][j]]
  {
    assert lines == lines[..i] + ([lines[i]] + lines[i + 1..]);
    FlattenAppend(lines[..i], [lines[i]] + lines[i + 1..]);
    FlattenAppend([lines[i]], lines[i + 1..]);
    assert Flatten([lines[i]]) == Flatten([]) + lines[i];
    assert lines[i] == lines[i][..j] + [lines[i][j]] + lines[i][j + 1..];
  }

  /** Finishing line `i` is visiting lines `..i + 1`. */
  lemma FlattenNextLine(lines: seq<seq<Entry>>, i: nat)
    requires i < |lines|
    ensures Flatten(lines[..i + 1]) == Flatten(lines[..i]) + lines[i]
  {
    assert lines[..i + 1][..i] == lines[..i];
  }

  /** The visited prefix grows by one entry of the current line. */
  lemma AppendNext<T>(p: seq<T>, line: seq<T>, j: nat)
    requires j < |line|
    ensures p + line[..j + 1] == (p + line[..j]) + [line[j]]
  {
    assert line[..j + 1] == line[..j] + [line[j]];
  }

  /** Stopping inside the line at entry `j`. */
  lemma AppendPrefix<T>(p: seq<T>, line: seq<T>, j: nat, n: nat)
    requires j < |line| && |p + line[..j]| == n
    ensures (p + line)[..n + 1] == (p + line[..j]) + [line[j]]
  {
    assert (p + line)[..n + 1] == p + line[..j + 1];
    AppendNext(p, line, j);
  }

  /** The whole line visited. */
  lemma AppendWhole<T>(p: seq<T>, line: seq<T>)
    ensures p + line[..|line|] == p + line
  {
    assert line[..|line|] == line;
  }

  /** The entries of the lines before `i + 1` come first in the whole visiting order. */
  lemma FlattenLinePrefix(lines: seq<seq<Entry>>, i: nat)
    requires i < |lines|
    ensures var p := Flatten(lines[..i + 1]); |p| <= |Flatten(lines)| && Flatten(lines)[..|p|] == p
  {
    assert lines == lines[..i + 1] + lines[i + 1..];
    FlattenAppend(lines[..i + 1], lines[i + 1..]);
  }

  /** A prefix of a prefix is a prefix of the whole. */
  lemma PrefixOfPrefix<T>(whole: seq<T>, p: seq<T>, n: nat)
    requires |p| <= |whole| && whole[..|p|] == p && n <= |p|
    ensures whole[..n] == p[..n]
  {
    assert whole[..|p|][..n] == whole[..n];
  }

  function Names(e: seq<Entry>): (ns: seq<string>)
    ensures |ns| == |e| && forall k :: 0 <= k < |e| ==> ns[k] == e[k].name
  {
    seq(|e|, k requires 0 <= k < |e| => e[k].name)
  }

  /** A chat message as the chat APIs take it: `{"role": ..., "content": ...}`. */
  datatype Message = Message(role: string, content: string)

  function SystemMessage(): Message {
    Message("system", "You are an assistant that must assist the user")
  }

  function UserMessage(content: string): Message {
    Message("user", content)
  }

  /** The history after some turns: each user prompt followed by the answer it got. */
  function Conversation(prompts: seq<string>, answers: seq<Message>): (c: seq<Message>)
    requires |prompts| == |answers|
    ensures |c| == 2 * |prompts|
  {
    if prompts == [] then []
    else
      var n := |prompts| - 1;
      Conversation(prompts[..n], answers[..n]) + [UserMessage(prompts[n]), answers[n]]
  }

  /** The history has two messages per turn, user then answer, in turn order. */
  lemma {:induction false} ConversationShape(prompts: seq<string>, answers: seq<Message>)
    requires |prompts| == |answers|
    ensures var c := Conversation(prompts, answers);
      && |c| == 2 * |prompts|
      && forall k :: 0 <= k < |prompts| ==> c[2 * k] == UserMessage(prompts[k]) && c[2 * k + 1] == answers[k]
  {
    if prompts != [] {
      var n := |prompts| - 1;
      ConversationShape(prompts[..n], answers[..n]);
    }
  }

  /** A conversation over a prefix of the turns is a prefix of the conversation. */
  lemma {:induction false} ConversationPrefix(prompts: seq<string>, answers: seq<Message>, m: nat)
    requires |prompts| == |answers| && m <= |prompts|
    ensures Conversation(prompts[..m], answers[..m]) == Conversation(prompts, answers)[..2 * m]
    decreases |prompts|
  {
    ConversationShape(prompts, answers);
    ConversationShape(prompts[..m], answers[..m]);
    if m < |prompts| {
      var n := |prompts| - 1;
      ConversationPrefix(prompts[..n], answers[..n], m);
      assert prompts[..n][..m] == prompts[..m];
      assert answers[..n][..m] == answers[..m];
    } else {
      assert prompts[..m] == prompts && answers[..m] == answers;
    }
  }

  /** One chat-completion call: the message list and the sampling options it carries. */
  datatype ChatRequest<O> = ChatRequest(messages: seq<Message>, options: O)

  /**
   * The calls a runner that resends its whole history makes: call `k` carries
   * the fixed `preamble`, the first `k` prompts each followed by its answer,
   * and prompt `k`.
   */
  function ChatRequests<O>(preamble: seq<Message>, prompts: seq<string>, answers: seq<Message>, options: O)
    : (rs: seq<ChatRequest<O>>)
    requires |prompts| <= |answers| + 1
    ensures |rs| == |prompts|
  {
    if prompts == [] then []
    else
      var k := |prompts| - 1;
      ChatRequests(preamble, prompts[..k], answers, options)
        + [ChatRequest(preamble + Conversation(prompts[..k], answers[..k]) + [UserMessage(prompts[k])], options)]
  }

  /** One more call, after the turns of `prompts`. */
  lemma ChatRequestsStep<O>(preamble: seq<Message>, prompts: seq<string>, p: string, answers: seq<Message>,
                            options: O)
    requires |prompts| <= |answers|
    ensures ChatRequests(preamble, prompts + [p], answers, options)
         == ChatRequests(preamble, prompts, answers, options)
            + [ChatRequest(preamble + Conversation(prompts, answers[..|prompts|]) + [UserMessage(p)], options)]
  {
    assert (prompts + [p])[..|prompts|] == prompts;
  }

  /**
   * One completed turn of a runner that keeps the history `msgs` (the
   * preamble and every earlier prompt and answer): the call carries the
   * history with the new prompt appended, and the answer is appended after.
   */
  lemma HistoryStep<O>(preamble: seq<Message>, sent: seq<string>, prompt: string, answers: seq<Message>,
                       options: O, requests: seq<ChatRequest<O>>, msgs: seq<Message>)
    requires |sent| < |answers|
    requires requests == ChatRequests(preamble, sent, answers, options)
    requires msgs == preamble + Conversation(sent, answers[..|sent|])
    ensures requests + [ChatRequest(msgs + [UserMessage(prompt)], options)]
         == ChatRequests(preamble, sent + [prompt], answers, options)
    ensures (msgs + [UserMessage(prompt)]) + [answers[|sent|]]
         == preamble + Conversation(sent + [prompt], answers[..|sent| + 1])
  {
    var m := |sent|;
    ChatRequestsStep(preamble, sent, prompt, answers, options);
    assert (sent + [prompt])[..m] == sent;
    assert answers[..m + 1][..m] == answers[..m];
  }

  /** Call `k` is the one the runner makes after `k` completed turns. */
  lemma {:induction false} ChatRequestIs<O>(preamble: seq<Message>, prompts: seq<string>, answers: seq<Message>,
                                           options: O, k: nat)
    requires |prompts| <= |answers| + 1 && k < |prompts|
    ensures ChatRequests(preamble, prompts, answers, options)[k]
         == ChatRequest(preamble + Conversation(prompts[..k], answers[..k]) + [UserMessage(prompts[k])], options)
    decreases |prompts|
  {
    var last := |prompts| - 1;
    if k < last {
      ChatRequestIs(preamble, prompts[..last], answers, options, k);
      assert prompts[..last][..k] == prompts[..k];
    }
  }

  /**
   * The message list of a call: the preamble, then the earlier prompts at
   * even offsets each followed by its answer, then the new prompt last.
   */
  lemma MessagesShape(preamble: seq<Message>, prompts: seq<string>, answers: seq<Message>, p: string)
    requires |prompts| == |answers|
    ensures var ms := preamble + Conversation(prompts, answers) + [UserMessage(p)];
      var n := |preamble|;
      && |ms| == n + 2 * |prompts| + 1
      && ms[..n] == preamble
      && (forall j :: 0 <= j < |prompts| ==>
            ms[n + 2 * j] == UserMessage(prompts[j]) && ms[n + 2 * j + 1] == answers[j])
      && ms[n + 2 * |prompts|] == UserMessage(p)
  {
    var c := Conversation(prompts, answers);
    ConversationShape(prompts, answers);
    var ms := preamble + c + [UserMessage(p)];
    assert forall j :: 0 <= j < |c| ==> ms[|preamble| + j] == c[j];
  }

  /**
   * So call `k` carries `|preamble| + 2k + 1` messages: the preamble, the `k`
   * earlier prompts each followed by its answer, and prompt `k`.
   */
  lemma ChatRequestAt<O>(preamble: seq<Message>, prompts: seq<string>, answers: seq<Message>, options: O, k: nat)
    requires |prompts| <= |answers| + 1 && k < |prompts|
    ensures var r := ChatRequests(preamble, prompts, answers, options)[k];
      var n := |preamble|;
      && r.options == options
      && |r.messages| == n + 2 * k + 1
      && r.messages[..n] == preamble
      && (forall j :: 0 <= j < k ==>
            r.messages[n + 2 * j] == UserMessage(prompts[j]) && r.messages[n + 2 * j + 1] == answers[j])
      && r.messages[n + 2 * k] == UserMessage(prompts[k])
  {
    ChatRequestIs(preamble, prompts, answers, options, k);
    MessagesShape(preamble, prompts[..k], answers[..k], prompts[k]);
  }

  /** The JSON file a completed run writes: its file name and the dict it dumps. */
  datatype Artifact = Artifact(fileName: string, contents: Dict<string, string>)
}
