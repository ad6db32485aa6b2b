# Scripted-conversation runners, modelled in Dafny

The internship repository drives a large language model through a fixed
prompt script. The script is a JSON list of lines, and each line is an object
of `{prompt_name: prompt_text}` items. The same runner exists three times,
once per backend:

- `gemini_eabss_automation_bot.py` talks to Gemini through one chat session
  and throttles itself to the free tier's five requests a minute.
- `eabss_automation_bot.py` talks to a local Ollama server and resends the
  whole history on every call.
- `chatgpt_eabss_automation_bot.py` talks to the OpenAI chat-completions
  endpoint. It resends a system message and the whole history on every call.

Each runner visits every entry of every line in order and does five things
per entry:

1. It injects the `{INJECT_...}` placeholders, one `str.replace` per tag, in
   table order.
2. It resolves reminders. A `reminder_...` entry gets the output recorded
   under the last `_`-segment of its name appended.
3. It sends the prompt and grows the history.
4. It turns the backend's usage report into per-turn token deltas and running
   totals.
5. It records the reply in two insertion-ordered dicts: one keyed by prompt
   text and one keyed by prompt name.

After the last entry it writes the text-keyed dict to a JSON file.

The model keeps the three runners apart because their differences matter:

| | Gemini | Ollama | OpenAI |
|---|---|---|---|
| missing reminder key | appends `""` | `KeyError` ends the run | appends `""` |
| sampling options | `is not None` | truthy (0.0 dropped) | `is not None` |
| history sent | held by the session | user and assistant messages | system message, then the same |
| input tokens per turn | `prompt - prev_prompt` | `prompt - prev_prompt - prev_completion`, verbose only | `prompt - prev_prompt` |
| reply recorded | stripped | as is | as is |
| transcript file | `<model>_run_<ts>.json` | `<model>_test_<ts>.json` | `<model>_run_<ts>.json` |

## Structure

- `wrappers.dfy`: `Option`.
- `text.dfy` (`Text`): the Python string operations the runners use. These
  are `startswith`, `in`, `replace` (one left-to-right, non-overlapping pass),
  `split("_")[-1]` and `strip()`, with their laws. `Count` (Python's
  `count`) is not used by any runner; it is a helper for the laws
  `ReplaceLength` and `CountZeroIffAbsent`.
- `ordered_dict.dfy` (`OrderedDict`): Python's insertion-ordered dict as a
  sequence of items. It provides `Get`, `Put`, and `Build` (a dict filled by
  a run of assignments), related to a reference reading `LastValue` and to
  the first-occurrence order `Dedup`.
- `injection.dfy` (`Injection`): placeholder injection as a function, and
  the two injection loops (plain and guarded) as methods proved against it.
- `script.dfy` (`Script`): script entries and their visiting order
  (`Flatten`), chat messages, the history (`Conversation`), the list of calls
  a history-resending runner makes (`ChatRequests`), and the transcript
  `Artifact`.
- `reminders.dfy` (`Reminders`): what each entry dispatches. The lenient
  lookup is `LenientDispatched`; the strict one, which stops at the first
  `KeyError`, is `StrictDispatched`. Both are read against the outputs
  recorded so far.
- `usage.dfy` (`Usage`): the two accounting schemes (cumulative and
  trimming) as one ledger function, with their closed forms.
- `throttle.dfy` (`Throttling`): an abstract monotonic clock and the
  `throttle()` rate limiter as a class.
- `gemini_bot.dfy`, `ollama_bot.dfy`, `chatgpt_bot.dfy` (`GeminiBot`,
  `OllamaBot`, `ChatGptBot`): each runner as imperative methods over its
  backend.
  - `SendEntry` is one pass of the inner loop body.
  - `SendLine` is the inner loop.
  - `RunConversation` is the outer loop and the transcript.
  - The backend is an oracle class. It holds the replies the backend will
    give and logs every call it receives. A call beyond the last reply fails,
    which stands for the exception that ends a run.
  - Each method is proved against the specification functions above, through
    a per-runner invariant `Kept` and the lemma `KeptStep` that advances it by
    one turn.

Three facts about the code that the model makes explicit:

- The throttle measures the interval from the time the previous `throttle()`
  returned. That moment comes before `send_message` is called.
- Placeholder injection is not idempotent in general. A value can assemble a
  tag from surrounding text, and a second pass would then replace it.
  `Text.SecondPassNotIdempotent` gives the input: `"{{X}}"` with `{X}`
  replaced by `X`.
- Ollama reports (50, 20) then (40, 15) give input deltas 50 and
  40 - 50 - 20 = -30. The totals are 20 in and 35 out. This is
  `Usage.TrimmingExample`.

## Model

| member | source | states |
|---|---|---|
| Throttling.RateLimiter.Throttle | internship-results-sener/updates/part3/gemini_eabss_automation_bot.py:66-72 | sleeps exactly `MIN_INTERVAL_SEC - elapsed` when less than the interval has passed since `_last_request_ts`, and not at all otherwise, so the clock's sleep log gains exactly that sleep or nothing; then records the time it returns, which is at least 12 s after the previous record, keeping every pair of recorded returns spaced |
| Throttling.RateLimiter.constructor | internship-results-sener/updates/part3/gemini_eabss_automation_bot.py:64 | `_last_request_ts` starts at 0.0 with no throttle recorded |
| Throttling.Clock.Time | internship-results-sener/updates/part3/gemini_eabss_automation_bot.py:68 | reading the clock never goes back |
| Throttling.Clock.Sleep | internship-results-sener/updates/part3/gemini_eabss_automation_bot.py:71 | a sleep lasts at least the requested time and is logged with the requested length |
| Throttling.SpacedWindow | internship-results-sener/updates/part3/gemini_eabss_automation_bot.py:62-72 | throttle returns `j - i` apart are at least `(j - i) * 12` s apart |
| Throttling.SpacedPerMinute | internship-results-sener/updates/part3/gemini_eabss_automation_bot.py:62-63 | any six successive throttle returns span at least 60 s; since `GeminiBot.RunConversation` sends each request at a throttle return and keeps the request times `Spaced`, at most five requests start in any minute |
| Text.CountZeroIffAbsent | internship-results-sener/updates/part3/eabss_automation_bot.py:74-75 | `count` finds no occurrence exactly when `in` is false |
| Text.ReplaceAbsent | internship-results-sener/updates/part3/gemini_eabss_automation_bot.py:90 | `replace` of a tag the text does not contain returns the text unchanged |
| Text.ReplaceLength | internship-results-sener/updates/part3/gemini_eabss_automation_bot.py:90 | each replaced occurrence trades the tag's length for the value's |
| Text.ReplaceWhole | internship-results-sener/updates/part3/gemini_eabss_automation_bot.py:90 | a text that is exactly the tag becomes the value, which is not scanned again |
| Text.ReplaceAfterPrefix | internship-results-sener/updates/part3/gemini_eabss_automation_bot.py:90 | no occurrence starts inside a prefix lacking the tag's first character |
| Text.SecondPassNotIdempotent | internship-results-sener/updates/part3/gemini_eabss_automation_bot.py:88-91 | a second injection pass can change an injected text: `"{{X}}"` becomes `"{X}"`, then `"X"` |
| Text.LastSegment | internship-results-sener/updates/part3/gemini_eabss_automation_bot.py:108 | `split("_")[-1]` is the suffix after the last separator, or the whole text if it has none, and never contains the separator |
| Text.StripStartSpec | internship-results-sener/updates/part3/gemini_eabss_automation_bot.py:116 | `lstrip()` drops exactly the leading whitespace |
| Text.StripEndSpec | internship-results-sener/updates/part3/gemini_eabss_automation_bot.py:116 | `rstrip()` drops exactly the trailing whitespace |
| Text.StripIdempotent | internship-results-sener/updates/part3/gemini_eabss_automation_bot.py:116 | a stripped reply has no outer whitespace, and stripping it again changes nothing |
| OrderedDict.GetFound | internship-results-sener/updates/part3/gemini_eabss_automation_bot.py:109 | `d.get(k)` finds a value exactly when `k` is a key |
| OrderedDict.PutSpec | internship-results-sener/updates/part3/gemini_eabss_automation_bot.py:120-121 | after `d[k] = v`, `k` holds `v` and every other key what it held; a present key keeps its position and a new key goes last |
| OrderedDict.BuildStep | internship-results-sener/updates/part3/gemini_eabss_automation_bot.py:120-121 | the dict after `m + 1` assignments is the dict after `m` with one more `d[k] = v` |
| OrderedDict.Dedup | internship-results-sener/updates/part3/chatgpt_eabss_automation_bot.py:99 | the first-occurrence order has the same elements and no repeats |
| OrderedDict.BuildGet | internship-results-sener/updates/part3/chatgpt_eabss_automation_bot.py:99-100 | after the assignments each key holds the value of its last assignment |
| OrderedDict.BuildKeys | internship-results-sener/updates/part3/chatgpt_eabss_automation_bot.py:99-100 | after the assignments the keys stand in the order of their first assignment, so duplicate texts collapse into one item |
| OrderedDict.DedupDistinct | internship-results-sener/updates/part3/chatgpt_eabss_automation_bot.py:99 | with no repeated text nothing collapses: one item per turn, in order |
| Injection.InjectedTagFree | internship-results-sener/updates/part3/gemini_eabss_automation_bot.py:88-91 | a text containing none of the tags comes back unchanged |
| Injection.InjectedAppend | internship-results-sener/updates/part3/gemini_eabss_automation_bot.py:88-91 | injecting with the table is injecting with its first part, then with the rest |
| Injection.FirstTagInjected | internship-results-sener/updates/part3/gemini_eabss_automation_bot.py:88-91 | a text that is exactly the first tag becomes its value when no later tag can match inside that value |
| Injection.SecondTagInjected | internship-results-sener/updates/part3/gemini_eabss_automation_bot.py:88-91 | a text that is exactly the second tag, not matched by the first, becomes the second tag's value |
| Injection.BuildPrompt | internship-results-sener/updates/part3/gemini_eabss_automation_bot.py:88-91 | `build_prompt` (and the OpenAI runner's same loop) applies each tag's replacement once, in table order |
| Injection.BuildPromptGuarded | internship-results-sener/updates/part3/eabss_automation_bot.py:73-75 | the `if injectable in prompt` guard makes no difference: the result is the unconditional injection |
| GeminiBot.ChatbotInjected | internship-results-sener/updates/part3/gemini_eabss_automation_bot.py:75-91 | `{INJECT_CHATBOT}` always becomes "Gemini 2.5 Pro", whatever the user entered |
| GeminiBot.CompanyInjected | internship-results-sener/updates/part3/gemini_eabss_automation_bot.py:75-91 | `{INJECT_CHATBOT_COMPANY}` always becomes "Google": the chatbot tag does not match inside it |
| ChatGptBot.ChatbotInjected | internship-results-sener/updates/part3/chatgpt_eabss_automation_bot.py:46-79 | `{INJECT_CHATBOT}` always becomes "ChatGPT" |
| ChatGptBot.CompanyInjected | internship-results-sener/updates/part3/chatgpt_eabss_automation_bot.py:46-79 | `{INJECT_CHATBOT_COMPANY}` always becomes "OpenAI" |
| GeminiBot.GenerationConfig | internship-results-sener/updates/part3/gemini_eabss_automation_bot.py:41-54 | temperature and top_p are in the config exactly when given (0.0 kept), nothing else is, and no config is passed when neither was given |
| OllamaBot.MakeChatOptions | internship-results-sener/updates/part3/eabss_automation_bot.py:28-34 | a key is present exactly when its flag is truthy (0.0 dropped), nothing else is, and the result is `None` exactly when no key was added |
| ChatGptBot.BuildChatParams | internship-results-sener/updates/part3/chatgpt_eabss_automation_bot.py:37-43 | temperature and top_p are present exactly when not `None` (0.0 kept), nothing else is, and the dict is empty exactly when neither was given |
| Reminders.ReminderNeverFetchesUnderscored | internship-results-sener/updates/part3/gemini_eabss_automation_bot.py:107-108 | a reminder key never equals a name that contains `_`, so a reminder never fetches another reminder's output |
| Reminders.LenientDispatched | internship-results-sener/updates/part3/gemini_eabss_automation_bot.py:103-109 | the lenient runners dispatch one text per entry |
| Reminders.StrictDispatched | internship-results-sener/updates/part3/eabss_automation_bot.py:71-79 | the strict runner dispatches at most one text per entry |
| Reminders.LenientStep | internship-results-sener/updates/part3/gemini_eabss_automation_bot.py:103-109 | turn `m` dispatches its entry against the name map of the turns before it |
| Reminders.StrictStep | internship-results-sener/updates/part3/eabss_automation_bot.py:71-79 | a strict turn after an unbroken prefix dispatches its entry or stops the run |
| Reminders.NameMapStep | internship-results-sener/updates/part3/gemini_eabss_automation_bot.py:121 | the name map after a turn is the previous one with the entry's name assigned its output |
| Reminders.LenientRecordStep | internship-results-sener/updates/part3/gemini_eabss_automation_bot.py:103-121 | a completed turn dispatches the next entry and records its reply under the text and under the name |
| Reminders.LenientAbort | internship-results-sener/updates/part3/gemini_eabss_automation_bot.py:113-115 | a turn whose request fails still sent its text, the lenient dispatch of that entry against the outputs recorded before it |
| Reminders.LenientPrefix | internship-results-sener/updates/part3/gemini_eabss_automation_bot.py:103-109 | running a prefix of the script dispatches a prefix of the texts |
| Reminders.LenientReminder | internship-results-sener/updates/part3/gemini_eabss_automation_bot.py:105-109 | turn `k` dispatches the injected text, followed for a reminder by the output of the last earlier entry named by its key, or by nothing; the appended output is not injected |
| Reminders.StrictPrefix | internship-results-sener/updates/part3/eabss_automation_bot.py:71-79 | the strict run of a prefix is the strict run cut at that length |
| Reminders.StrictReminder | internship-results-sener/updates/part3/eabss_automation_bot.py:73-79 | a strict turn that went through dispatched the injected text plus, for a reminder, the last earlier output of its key, which exists |
| Reminders.StrictStopsAtKeyError | internship-results-sener/updates/part3/eabss_automation_bot.py:77-79 | a strict run that stops early stops at a reminder whose key has no earlier output |
| Reminders.StrictDispatchAgrees | internship-results-sener/updates/part3/eabss_automation_bot.py:77-79 | where the strict lookup succeeds it dispatches the lenient text |
| Reminders.StrictLastTurn | internship-results-sener/updates/part3/eabss_automation_bot.py:77-79 | the last turn of a strict run whose earlier turns went through is dispatched exactly when its lookup succeeds |
| Reminders.StrictNext | internship-results-sener/updates/part3/eabss_automation_bot.py:71-79 | after an unbroken prefix the next entry extends the strict run by its text, or by nothing on a `KeyError` |
| Reminders.StrictComplete | internship-results-sener/updates/part3/eabss_automation_bot.py:77-79 | a strict run that went through every entry dispatched the lenient texts |
| Reminders.StrictIsLenientPrefix | internship-results-sener/updates/part3/eabss_automation_bot.py:77-79 | as far as it gets, the Ollama runner dispatches exactly what a lenient runner would, and it stops only at a `KeyError` |
| Usage.AccountStep | internship-results-sener/updates/part3/gemini_eabss_automation_bot.py:123-130 | one more report extends the ledger by its delta and adds it to the totals |
| Usage.AccountedStep | internship-results-sener/updates/part3/gemini_eabss_automation_bot.py:123-130 | accounting one more report keeps a runner's counters in step with the ledger |
| Usage.CumulativeStep | internship-results-sener/updates/part3/chatgpt_eabss_automation_bot.py:102-108 | `turn_in = prompt - prev`, `prev := prompt` and `turn_out = completion` are the ledger's step |
| Usage.TrimmingStep | internship-results-sener/updates/part3/eabss_automation_bot.py:103-113 | `input = prompt_eval - prev_prompt_eval - prev_eval` and the carried pair are the ledger's step |
| Usage.CumulativeTotals | internship-results-sener/updates/part3/gemini_eabss_automation_bot.py:100-130 | starting from 0, the input total telescopes to the last reported prompt count, and the output total is the sum of the completions |
| Usage.TrimmingTotals | internship-results-sener/updates/part3/eabss_automation_bot.py:65-113 | the input total is the last prompt count minus the completions of every turn but the last, and the output total is the sum of all completions |
| Usage.TrimmingCarry | internship-results-sener/updates/part3/eabss_automation_bot.py:111-112 | after any non-empty run of reports, the carried `prev_prompt_eval` and `prev_eval` are the last report's two counts |
| Usage.TotalsAreSums | internship-results-sener/updates/part3/chatgpt_eabss_automation_bot.py:102-108 | one delta per report, and the totals are the sums of the deltas |
| Usage.CumulativeExample | internship-results-sener/updates/part3/gemini_eabss_automation_bot.py:123-130 | cumulative prompt counts 50, 130, 210 give input deltas 50, 80, 80 and a total of 210 |
| Usage.TrimmingExample | internship-results-sener/updates/part3/eabss_automation_bot.py:103-113 | reports (50, 20), (40, 15) give input deltas 50 and -30, accumulated without error: 20 in, 35 out |
| Script.FlattenAppend | internship-results-sener/updates/part3/gemini_eabss_automation_bot.py:103-104 | visiting two runs of lines visits the entries of each in turn |
| Script.FlattenPrefix | internship-results-sener/updates/part3/gemini_eabss_automation_bot.py:103-104 | the entries visited before entry `j` of line `i`, then that entry, are a prefix of the visiting order |
| Script.FlattenNextLine | internship-results-sener/updates/part3/gemini_eabss_automation_bot.py:103-104 | finishing line `i` visits its entries after those of the earlier lines |
| Script.FlattenLinePrefix | internship-results-sener/updates/part3/gemini_eabss_automation_bot.py:103-104 | the entries up to the end of line `i` are a prefix of the visiting order |
| Script.Conversation | internship-results-sener/updates/part3/eabss_automation_bot.py:91-96 | a history of `k` turns holds `2k` messages |
| Script.ConversationShape | internship-results-sener/updates/part3/eabss_automation_bot.py:87-96 | the history alternates user prompt and answer, in turn order |
| Script.ConversationPrefix | internship-results-sener/updates/part3/eabss_automation_bot.py:91-96 | the history after `m` turns is a prefix of the later history |
| Script.ChatRequests | internship-results-sener/updates/part3/eabss_automation_bot.py:87-96 | a history-resending runner makes one call per prompt sent |
| Script.ChatRequestsStep | internship-results-sener/updates/part3/eabss_automation_bot.py:87-96 | one more prompt adds one call, carrying the history so far and the prompt |
| Script.HistoryStep | internship-results-sener/updates/part3/chatgpt_eabss_automation_bot.py:87-96 | appending the prompt, calling with the list, then appending the answer is the next call and the next history |
| Script.ChatRequestIs | internship-results-sener/updates/part3/eabss_automation_bot.py:87-96 | call `k` carries the preamble, the first `k` turns and prompt `k` |
| Script.MessagesShape | internship-results-sener/updates/part3/chatgpt_eabss_automation_bot.py:66-96 | a call's message list is the preamble, alternating prompts and answers, and the new prompt last |
| Script.ChatRequestAt | internship-results-sener/updates/part3/chatgpt_eabss_automation_bot.py:66-96 | call `k` (from 0) carries `|preamble| + 2k + 1` messages: the preamble (the system message for OpenAI, nothing for Ollama), user and answer alternating, and prompt `k` last, with the run's options |
| GeminiBot.MissingMetadataTurn | internship-results-sener/updates/part3/gemini_eabss_automation_bot.py:117-130 | a reply without usage metadata gives that turn the input delta minus the previous reply's prompt count (0 for the first turn) and no output, and resets the carried prompt count to 0 |
| GeminiBot.Contents | internship-results-sener/updates/part3/gemini_eabss_automation_bot.py:116 | one recorded content per reply |
| GeminiBot.ContentsAt | internship-results-sener/updates/part3/gemini_eabss_automation_bot.py:116 | the content recorded for turn `k` is reply `k`'s text, stripped |
| GeminiBot.Reports | internship-results-sener/updates/part3/gemini_eabss_automation_bot.py:117-128 | one usage report per reply |
| GeminiBot.ReportsAt | internship-results-sener/updates/part3/gemini_eabss_automation_bot.py:117-128 | turn `k`'s counts are read off reply `k` |
| GeminiBot.ChatSession.constructor | internship-results-sener/updates/part3/gemini_eabss_automation_bot.py:55-59 | a new session has been sent nothing |
| GeminiBot.ChatSession.SendMessage | internship-results-sener/updates/part3/gemini_eabss_automation_bot.py:115 | the `k`-th message gets reply `k`, or fails when the replies are used up, and is logged either way, with the clock time at which it was sent |
| GeminiBot.KeptStep | internship-results-sener/updates/part3/gemini_eabss_automation_bot.py:105-130 | a completed turn keeps both maps, the carried prompt count and the totals in step with the replies |
| GeminiBot.KeptAll | internship-results-sener/updates/part3/gemini_eabss_automation_bot.py:98-130 | after the turns of a run, the session was sent the lenient texts, the text map is built from them, and the totals are the cumulative ledger's |
| GeminiBot.RecordTurn | internship-results-sener/updates/part3/gemini_eabss_automation_bot.py:116-130 | the books after a reply: its stripped text under the prompt and under the name, the carried prompt count set to the reported one, and the totals advanced by the cumulative delta and the candidates count (0 and 0 without metadata) |
| GeminiBot.SendEntry | internship-results-sener/updates/part3/gemini_eabss_automation_bot.py:104-130 | one turn throttles once and then sends once, at the very time the throttle returned; on a reply the books advance by that turn, and on a failure the text was sent and the replies were used up |
| GeminiBot.SendLine | internship-results-sener/updates/part3/gemini_eabss_automation_bot.py:104-142 | a line completes exactly when the replies last through it; otherwise the sent texts are the lenient dispatch of the entries up to the failed one; the request times it logs are the throttle returns it records |
| GeminiBot.RunConversation | internship-results-sener/updates/part3/gemini_eabss_automation_bot.py:94-146 | one throttle per message sent, and every two requests are at least 12 s apart (`Spaced` request times); the file `<model>_run_<ts>.json` holding the text map is produced exactly when every request gets a reply; then the totals are the cumulative ledger's, and on failure the sent texts stop at the failed entry |
| OllamaBot.MissingCountsTurn | internship-results-sener/updates/part3/eabss_automation_bot.py:103-113 | in verbose mode, a reply without `prompt_eval_count` and `eval_count` gives that turn the input delta minus the previous reply's two counts (0 for the first turn) and no output, and resets both carried counts to 0 |
| OllamaBot.Contents | internship-results-sener/updates/part3/eabss_automation_bot.py:97-98 | one recorded output per reply |
| OllamaBot.ContentsAt | internship-results-sener/updates/part3/eabss_automation_bot.py:97-98 | the output recorded for turn `k` is reply `k`'s message content, unstripped |
| OllamaBot.Answers | internship-results-sener/updates/part3/eabss_automation_bot.py:96 | one history message per reply |
| OllamaBot.AnswersAt | internship-results-sener/updates/part3/eabss_automation_bot.py:96 | the message appended after turn `k` is reply `k`'s message itself |
| OllamaBot.Reports | internship-results-sener/updates/part3/eabss_automation_bot.py:103-104 | one usage report per reply |
| OllamaBot.ReportsAt | internship-results-sener/updates/part3/eabss_automation_bot.py:103-104 | turn `k`'s counts are read off reply `k` |
| OllamaBot.Client.constructor | internship-results-sener/updates/part3/eabss_automation_bot.py:59 | no call has been made yet |
| OllamaBot.Client.Chat | internship-results-sener/updates/part3/eabss_automation_bot.py:92-95 | each call is logged with its message list and options (`None` when options were not passed), and gets the next reply or fails |
| OllamaBot.KeptStep | internship-results-sener/updates/part3/eabss_automation_bot.py:72-113 | a completed turn keeps the maps, the history, the call log and, in verbose mode only, the trimming counters in step with the replies |
| OllamaBot.KeyErrorStop | internship-results-sener/updates/part3/eabss_automation_bot.py:77-79 | a reminder with no recorded output stops the run before any call is made for it |
| OllamaBot.CallFailStop | internship-results-sener/updates/part3/eabss_automation_bot.py:91-95 | a call that fails stops the run after logging its call |
| OllamaBot.KeptAll | internship-results-sener/updates/part3/eabss_automation_bot.py:71-113 | after every entry went through, the calls carry the strict dispatch, and the text map and the totals are as the replies determine |
| OllamaBot.StopAll | internship-results-sener/updates/part3/eabss_automation_bot.py:71-95 | a stopped run made the calls of the strict dispatch up to the point where it stopped |
| OllamaBot.StopInLine | internship-results-sener/updates/part3/eabss_automation_bot.py:71-95 | a stop inside any line of the nested loop ends the whole run: it is not a complete run, and the calls made are the strict dispatch up to the stop |
| OllamaBot.RecordTurn | internship-results-sener/updates/part3/eabss_automation_bot.py:96-113 | the state after a reply: the history grown by the reply's message, its content under the prompt and under the name, and, only in verbose mode, the trimming delta added and the carried pair replaced |
| OllamaBot.SendEntry | internship-results-sener/updates/part3/eabss_automation_bot.py:72-113 | one turn either raises `KeyError` without calling, fails after calling, or advances the state by one turn |
| OllamaBot.SendLine | internship-results-sener/updates/part3/eabss_automation_bot.py:72-117 | a line completes exactly when no entry of it stops; otherwise the run stopped inside it |
| OllamaBot.RunConversation | internship-results-sener/updates/part3/eabss_automation_bot.py:55-122 | `<model>_test_<ts>.json` holding the text map is produced exactly when every reminder finds an earlier output and every call gets a reply; the calls carry the growing history and the options; the totals are the trimming ledger's when verbose and 0 otherwise; a stopped run made exactly the calls up to where it stopped |
| ChatGptBot.Contents | internship-results-sener/updates/part3/chatgpt_eabss_automation_bot.py:94 | one recorded content per reply |
| ChatGptBot.ContentsAt | internship-results-sener/updates/part3/chatgpt_eabss_automation_bot.py:94 | the content recorded for turn `k` is reply `k`'s content |
| ChatGptBot.Answers | internship-results-sener/updates/part3/chatgpt_eabss_automation_bot.py:96 | one assistant message per reply |
| ChatGptBot.AnswersAt | internship-results-sener/updates/part3/chatgpt_eabss_automation_bot.py:96 | the message appended after turn `k` is an assistant message with reply `k`'s content |
| ChatGptBot.Reports | internship-results-sener/updates/part3/chatgpt_eabss_automation_bot.py:102-103 | one usage report per reply |
| ChatGptBot.ReportsAt | internship-results-sener/updates/part3/chatgpt_eabss_automation_bot.py:102-103 | turn `k`'s counts are read off reply `k` |
| ChatGptBot.Client.constructor | internship-results-sener/updates/part3/chatgpt_eabss_automation_bot.py:66 | no call has been made yet |
| ChatGptBot.Client.Create | internship-results-sener/updates/part3/chatgpt_eabss_automation_bot.py:88-92 | each call is logged with its message list and parameters, and gets the next reply or fails |
| ChatGptBot.KeptStep | internship-results-sener/updates/part3/chatgpt_eabss_automation_bot.py:76-108 | a completed turn keeps the history, the maps, the call log and the cumulative counters in step with the replies |
| ChatGptBot.CallFailStop | internship-results-sener/updates/part3/chatgpt_eabss_automation_bot.py:87-92 | a call that fails stops the run after logging its call |
| ChatGptBot.KeptAll | internship-results-sener/updates/part3/chatgpt_eabss_automation_bot.py:75-108 | after every entry, the calls carry the lenient dispatch after the system message, and the text map and the totals are as the replies determine |
| ChatGptBot.RecordTurn | internship-results-sener/updates/part3/chatgpt_eabss_automation_bot.py:94-108 | the state after a response: the history grown by an assistant message, the content under the prompt and under the name, and the totals advanced by the cumulative delta and the completion count |
| ChatGptBot.SendEntry | internship-results-sener/updates/part3/chatgpt_eabss_automation_bot.py:76-108 | one turn either fails after calling or advances the state by one turn |
| ChatGptBot.SendLine | internship-results-sener/updates/part3/chatgpt_eabss_automation_bot.py:76-120 | a line completes exactly when the replies last through it; otherwise the run stopped inside it |
| ChatGptBot.RunConversation | internship-results-sener/updates/part3/chatgpt_eabss_automation_bot.py:62-124 | `<model>_run_<ts>.json` holding the text map is produced exactly when every call gets a reply; the calls carry the system message, the growing history and the parameters; the totals are the cumulative ledger's; a failed run made exactly the calls up to the failed one |

## Left out

- The RAG application elsewhere in the repository is not part of this model.
- Process start is left out: argument parsing, `.env` loading, API-key
  checks and `input()`. The injectable values, the option flags, the model
  name and the timestamp string are parameters.
- Console output is left out. This covers the prompt and reply echo and the
  verbose telemetry lines, which only print.
- JSON is left out. The script is taken as parsed: a sequence of lines, each
  a sequence of (name, text) entries. Duplicate keys inside one JSON object
  are resolved by the parser before the loop runs. The transcript is the
  ordered dict itself, not its bytes.
- Time is abstract. `time.time()` and `time.sleep()` become the monotonic
  `Clock`, and `time.strftime` becomes an opaque string parameter.
- The backends are oracles. The network, the model's behaviour and
  Gemini's server-held chat history are not modelled. Every backend failure
  is one failed call that ends the run.
- Exceptions other than a failed backend call and the Ollama runner's `KeyError` are not modelled. These are:
  - a Gemini `response.text` that raises on a blocked reply;
  - an OpenAI `usage` or `content` that is `None`;
  - an Ollama reply without a `message` key.
- Option values are reals. Their sampling meaning and float corner cases
  (NaN) are out of scope.
- The Ollama and OpenAI history `msgs` is one list, appended in place and
  passed by reference (`eabss_automation_bot.py:59, 91-96` and
  `chatgpt_eabss_automation_bot.py:66, 87-96`). In both runners the model
  keeps it as a value and logs a snapshot of it with each call, which is
  what the server receives.
- GeminiBot.ChatSession.SendMessage: it logs the prompts sent, but not the
  history the session resends. That history, including the `start_chat`
  seed message, is library state.
- GeminiBot.RunConversation: after a failed request the returned totals are
  not specified. In the source the exception ends `run_conversation` and no
  total is ever observed.
- OllamaBot.RunConversation: after a `KeyError` or a failed call the returned
  totals are not specified, for the same reason.
- ChatGptBot.RunConversation: after a failed call the returned totals are not
  specified, for the same reason.
