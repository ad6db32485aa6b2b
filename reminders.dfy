/**
 * Script resolution: each entry's text is injected, and an entry whose name
 * starts with `reminder_` gets the output recorded under the last `_`-segment
 * of its name appended. The Gemini and OpenAI runners look the output up with
 * `.get(key, "")` (lenient); the Ollama runner indexes the dict directly and
 * raises `KeyError` when nothing is recorded (strict).
 */
module Reminders {
  import opened Wrappers
  import opened Text
  import opened OrderedDict
  import opened Injection
  import opened Script

  const ReminderPrefix: string := "reminder_"

  predicate IsReminder(name: string) {
    StartsWith(name, ReminderPrefix)
  }

  /** `prompt_name.split("_")[-1]`. */
  function ReminderKey(name: string): string {
    LastSegment(name, '_')
  }

  /**
   * A reminder key never contains `_`, so a reminder never fetches the output
   * of an entry whose name contains `_`, and in particular never that of
   * another reminder.
   */
  lemma ReminderNeverFetchesUnderscored(name: string, other: string)
    requires '_' in other || IsReminder(other)
    ensures ReminderKey(name) != other
  {
    if IsReminder(other) {
      assert other[8] == other[..9][8] == '_';
    }
  }

  /** What a lenient runner dispatches for entry `e`, given the outputs recorded by name so far. */
  function LenientDispatch(e: Entry, vars: Injects, byName: Dict<string, string>): string {
    Injected(e.text, vars) + (if IsReminder(e.name) then Get(byName, ReminderKey(e.name)).GetOr("") else "")
  }

  /** What the strict runner dispatches for entry `e`; `None` is the `KeyError`. */
  function StrictDispatch(e: Entry, vars: Injects, byName: Dict<string, string>): Option<string> {
    if !IsReminder(e.name) then Some(Injected(e.text, vars))
    else
      match Get(byName, ReminderKey(e.name))
      case Some(o) => Some(Injected(e.text, vars) + o)
      case None => None
  }

  /**
   * The texts a lenient runner dispatches for the entries `e`, in order, when
   * `outs[k]` is the output recorded for turn `k`: turn `k` sees the name map
   * built from the turns before it.
   */
  function LenientDispatched(e: seq<Entry>, vars: Injects, outs: seq<string>): (d: seq<string>)
    requires |e| <= |outs| + 1
    ensures |d| == |e|
  {
    if e == [] then []
    else
      var k := |e| - 1;
      LenientDispatched(e[..k], vars, outs) + [LenientDispatch(e[k], vars, Build(Names(e[..k]), outs[..k]))]
  }

  /** The texts the strict runner dispatches, up to the first `KeyError`. */
  function StrictDispatched(e: seq<Entry>, vars: Injects, outs: seq<string>): (d: seq<string>)
    requires |e| <= |outs| + 1
    ensures |d| <= |e|
  {
    if e == [] then []
    else
      var k := |e| - 1;
      var d := StrictDispatched(e[..k], vars, outs);
      if |d| < k then d
      else
        match StrictDispatch(e[k], vars, Build(Names(e[..k]), outs[..k]))
        case Some(t) => d + [t]
        case None => d
  }

  /** One more turn of a lenient run. */
  lemma LenientStep(e: seq<Entry>, vars: Injects, outs: seq<string>, m: nat)
    requires m < |e| && m <= |outs|
    ensures LenientDispatched(e[..m + 1], vars, outs)
         == LenientDispatched(e[..m], vars, outs) + [LenientDispatch(e[m], vars, Build(Names(e[..m]), outs[..m]))]
  {
    assert e[..m + 1][..m] == e[..m];
  }

  /** One more turn of the strict run, when every earlier turn went through. */
  lemma StrictStep(e: seq<Entry>, vars: Injects, outs: seq<string>, m: nat)
    requires m < |e| && m <= |outs|
    requires |StrictDispatched(e[..m], vars, outs)| == m
    ensures StrictDispatched(e[..m + 1], vars, outs)
         == StrictDispatched(e[..m], vars, outs)
            + match StrictDispatch(e[m], vars, Build(Names(e[..m]), outs[..m]))
              case Some(t) => [t]
              case None => []
  {
    assert e[..m + 1][..m] == e[..m];
  }

  /** One more turn recorded in the name map `prompt_name_out_map`. */
  lemma NameMapStep(e: seq<Entry>, outs: seq<string>, m: nat)
    requires m < |e| && m < |outs|
    ensures Build(Names(e[..m + 1]), outs[..m + 1]) == Put(Build(Names(e[..m]), outs[..m]), e[m].name, outs[m])
  {
    var ks := Names(e[..m + 1]);
    var vs := outs[..m + 1];
    assert ks[..m] == Names(e[..m]);
    assert vs[..m] == outs[..m];
  }

  /**
   * A lenient runner's bookkeeping after the turns of `processed`: what it
   * sent, `prompt_output_map` (reply by dispatched text) and
   * `prompt_name_out_map` (reply by entry name).
   */
  predicate LenientRecorded(processed: seq<Entry>, vars: Injects, outs: seq<string>,
                            sent: seq<string>, byText: Dict<string, string>, byName: Dict<string, string>) {
    && |processed| <= |outs|
    && sent == LenientDispatched(processed, vars, outs)
    && byText == Build(sent, outs[..|processed|])
    && byName == Build(Names(processed), outs[..|processed|])
  }

  /** A completed turn dispatches the next entry and records its reply under both keys. */
  lemma LenientRecordStep(processed: seq<Entry>, entry: Entry, vars: Injects, outs: seq<string>,
                          sent: seq<string>, byText: Dict<string, string>, byName: Dict<string, string>)
    requires LenientRecorded(processed, vars, outs, sent, byText, byName) && |processed| < |outs|
    ensures var prompt := LenientDispatch(entry, vars, byName);
      var out := outs[|processed|];
      LenientRecorded(processed + [entry], vars, outs, sent + [prompt],
                      Put(byText, prompt, out), Put(byName, entry.name, out))
  {
    var m := |processed|;
    var e := processed + [entry];
    var prompt := LenientDispatch(entry, vars, byName);
    assert e[..m] == processed;
    LenientStep(e, vars, outs, m);
    assert e[..m + 1] == e;
    BuildStep(sent + [prompt], outs[..m + 1], m);
    assert (sent + [prompt])[..m] == sent;
    assert outs[..m + 1][..m] == outs[..m];
    NameMapStep(e, outs, m);
  }

  /** A failed request: the turn's text, dispatched against the outputs recorded so far, went out. */
  lemma LenientAbort(processed: seq<Entry>, entry: Entry, vars: Injects, outs: seq<string>,
                     sent: seq<string>, byText: Dict<string, string>, byName: Dict<string, string>)
    requires LenientRecorded(processed, vars, outs, sent, byText, byName)
    ensures sent + [LenientDispatch(entry, vars, byName)] == LenientDispatched(processed + [entry], vars, outs)
  {
    var e := processed + [entry];
    assert e[..|processed|] == processed;
  }

  /** Dispatching a prefix of the script dispatches a prefix of the texts. */
  lemma {:induction false} LenientPrefix(e: seq<Entry>, vars: Injects, outs: seq<string>, m: nat)
    requires m <= |e| <= |outs| + 1
    ensures LenientDispatched(e[..m], vars, outs) == LenientDispatched(e, vars, outs)[..m]
    decreases |e|
  {
    if m < |e| {
      var k := |e| - 1;
      LenientPrefix(e[..k], vars, outs, m);
      assert e[..k][..m] == e[..m];
    } else {
      assert e[..m] == e;
    }
  }

  /**
   * Turn `k` dispatches the injected text, followed, for a reminder, by the
   * output of the LAST earlier turn whose name is the reminder's key, or by
   * nothing when there is none. The appended output is not injected.
   */
  lemma LenientReminder(e: seq<Entry>, vars: Injects, outs: seq<string>, k: nat)
    requires k < |e| <= |outs| + 1
    ensures LenientDispatched(e, vars, outs)[k]
         == Injected(e[k].text, vars)
            + (if IsReminder(e[k].name)
               then LastValue(Names(e[..k]), outs[..k], ReminderKey(e[k].name)).GetOr("")
               else "")
  {
    var e' := e[..k + 1];
    LenientPrefix(e, vars, outs, k + 1);
    assert e'[..k] == e[..k] && e'[k] == e[k];
    var byName := Build(Names(e[..k]), outs[..k]);
    assert LenientDispatched(e', vars, outs)
        == LenientDispatched(e[..k], vars, outs) + [LenientDispatch(e[k], vars, byName)];
    assert LenientDispatched(e, vars, outs)[k] == LenientDispatched(e', vars, outs)[k];
    BuildGet(Names(e[..k]), outs[..k], ReminderKey(e[k].name));
  }

  /** Prefixes of the strict run: the run of `e[..m]` is the run of `e` cut at `m`. */
  lemma {:induction false} StrictPrefix(e: seq<Entry>, vars: Injects, outs: seq<string>, m: nat)
    requires m <= |e| <= |outs| + 1
    ensures var d := StrictDispatched(e, vars, outs);
      StrictDispatched(e[..m], vars, outs) == if m <= |d| then d[..m] else d
    decreases |e|
  {
    if m < |e| {
      var k := |e| - 1;
      StrictPrefix(e[..k], vars, outs, m);
      assert e[..k][..m] == e[..m];
    } else {
      assert e[..m] == e;
    }
  }

  /**
   * Turn `k` of a strict run that reached it: a reminder's key has an earlier
   * output, and the text is the injected text followed by the output of the
   * last earlier turn of that name.
   */
  lemma StrictReminder(e: seq<Entry>, vars: Injects, outs: seq<string>, k: nat)
    requires |e| <= |outs| + 1
    requires k < |StrictDispatched(e, vars, outs)|
    ensures var found := LastValue(Names(e[..k]), outs[..k], ReminderKey(e[k].name));
      && (IsReminder(e[k].name) ==> found.Some?)
      && StrictDispatched(e, vars, outs)[k]
         == Injected(e[k].text, vars) + (if IsReminder(e[k].name) then found.value else "")
  {
    var d := StrictDispatched(e, vars, outs);
    StrictPrefix(e, vars, outs, k);
    StrictPrefix(e, vars, outs, k + 1);
    StrictStep(e, vars, outs, k);
    var byName := Build(Names(e[..k]), outs[..k]);
    var step := StrictDispatch(e[k], vars, byName);
    assert d[..k + 1] == d[..k] + [d[k]];
    if step.None? {
      assert false;
    }
    assert step.value == d[k];
    BuildGet(Names(e[..k]), outs[..k], ReminderKey(e[k].name));
  }

  /**
   * A strict run that stops early stops at a reminder whose key has no earlier
   * output: the `KeyError` of `prompt_name_output_map[key_of_remindable]`.
   */
  lemma StrictStopsAtKeyError(e: seq<Entry>, vars: Injects, outs: seq<string>)
    requires |e| <= |outs| + 1
    requires |StrictDispatched(e, vars, outs)| < |e|
    ensures var k := |StrictDispatched(e, vars, outs)|;
      IsReminder(e[k].name) && LastValue(Names(e[..k]), outs[..k], ReminderKey(e[k].name)).None?
  {
    var d := StrictDispatched(e, vars, outs);
    var k := |d|;
    StrictPrefix(e, vars, outs, k);
    assert d[..k] == d;
    StrictPrefix(e, vars, outs, k + 1);
    StrictStep(e, vars, outs, k);
    var byName := Build(Names(e[..k]), outs[..k]);
    if StrictDispatch(e[k], vars, byName).Some? {
      assert false;
    }
    BuildGet(Names(e[..k]), outs[..k], ReminderKey(e[k].name));
  }

  /** One entry: when the strict lookup succeeds it yields the lenient text. */
  lemma StrictDispatchAgrees(e: Entry, vars: Injects, byName: Dict<string, string>)
    requires StrictDispatch(e, vars, byName).Some?
    ensures StrictDispatch(e, vars, byName).value == LenientDispatch(e, vars, byName)
  {
  }

  /** The last turn of a strict run whose earlier turns all went through. */
  lemma StrictLastTurn(e: seq<Entry>, vars: Injects, outs: seq<string>)
    requires 0 < |e| <= |outs| + 1
    requires |StrictDispatched(e[..|e| - 1], vars, outs)| == |e| - 1
    ensures var d := StrictDispatched(e, vars, outs);
      var l := LenientDispatched(e, vars, outs);
      d == StrictDispatched(e[..|e| - 1], vars, outs) + (if |d| == |e| then [l[|e| - 1]] else [])
  {
    var k := |e| - 1;
    var byName := Build(Names(e[..k]), outs[..k]);
    var step := StrictDispatch(e[k], vars, byName);
    if step.Some? {
      StrictDispatchAgrees(e[k], vars, byName);
    }
  }

  /**
   * The strict runner after a prefix that went through entirely: the next
   * entry is dispatched when its lookup succeeds and ends the run otherwise.
   */
  lemma StrictNext(processed: seq<Entry>, entry: Entry, vars: Injects, outs: seq<string>,
                   byName: Dict<string, string>)
    requires |processed| <= |outs| && |StrictDispatched(processed, vars, outs)| == |processed|
    requires byName == Build(Names(processed), outs[..|processed|])
    ensures StrictDispatched(processed + [entry], vars, outs)
         == StrictDispatched(processed, vars, outs)
            + match StrictDispatch(entry, vars, byName)
              case Some(t) => [t]
              case None => []
  {
    var e := processed + [entry];
    var k := |processed|;
    assert e[..k] == processed && e[..k + 1] == e && e[k] == entry;
    StrictStep(e, vars, outs, k);
  }

  /** A strict run that went through every entry dispatched the lenient texts. */
  lemma StrictComplete(e: seq<Entry>, vars: Injects, outs: seq<string>)
    requires |e| <= |outs| + 1 && |StrictDispatched(e, vars, outs)| == |e|
    ensures StrictDispatched(e, vars, outs) == LenientDispatched(e, vars, outs)
  {
    StrictIsLenientPrefix(e, vars, outs);
    var l := LenientDispatched(e, vars, outs);
    assert l[..|e|] == l;
  }

  /** Where the strict runner gets, it dispatches exactly what a lenient runner would. */
  lemma {:induction false} StrictIsLenientPrefix(e: seq<Entry>, vars: Injects, outs: seq<string>)
    requires |e| <= |outs| + 1
    ensures var d := StrictDispatched(e, vars, outs);
      d == LenientDispatched(e, vars, outs)[..|d|]
    decreases |e|
  {
    if e != [] {
      var k := |e| - 1;
      var d := StrictDispatched(e[..k], vars, outs);
      var l := LenientDispatched(e, vars, outs);
      StrictIsLenientPrefix(e[..k], vars, outs);
      LenientPrefix(e, vars, outs, k);
      assert d == l[..|d|];
      if |d| == k {
        StrictLastTurn(e, vars, outs);
        assert l[..k + 1] == l[..k] + [l[k]];
      }
    }
  }
}
