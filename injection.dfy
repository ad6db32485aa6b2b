/**
 * Placeholder injection: every `{INJECT_...}` tag of the injectable-prompts
 * table is replaced by its value, one tag at a time, in the table's order,
 * each with one left-to-right `str.replace` pass.
 */
module Injection {
  import opened Text

  /** The injectable-prompts table: (tag, value) pairs in dict order. */
  type Injects = seq<(string, string)>

  /** The text after each tag's replacement has been applied once, in table order. */
  function Injected(text: string, vars: Injects): string {
    if vars == [] then text
    else ReplaceAll(Injected(text, vars[..|vars| - 1]), vars[|vars| - 1].0, vars[|vars| - 1].1)
  }

  /** None of the table's tags occurs in `text`. */
  predicate TagFree(text: string, vars: Injects) {
    forall i :: 0 <= i < |vars| ==> !Contains(text, vars[i].0)
  }

  /** A text that contains none of the tags comes back unchanged. */
  lemma {:induction false} InjectedTagFree(text: string, vars: Injects)
    requires TagFree(text, vars)
    ensures Injected(text, vars) == text
  {
    if vars != [] {
      var p := vars[..|vars| - 1];
      assert TagFree(text, p) by {
        forall i | 0 <= i < |p| ensures !Contains(text, p[i].0) {
          assert p[i] == vars[i];
        }
      }
      InjectedTagFree(text, p);
      ReplaceAbsent(text, vars[|vars| - 1].0, vars[|vars| - 1].1);
    }
  }

  /** Injecting with a table split in two is injecting with each part in turn. */
  lemma {:induction false} InjectedAppend(text: string, a: Injects, b: Injects)
    ensures Injected(text, a + b) == Injected(Injected(text, a), b)
    decreases |b|
  {
    if b == [] {
      assert a + b == a;
    } else {
      var b' := b[..|b| - 1];
      assert (a + b)[..|a + b| - 1] == a + b';
      InjectedAppend(text, a, b');
    }
  }

  /**
   * A text that is exactly the first tag of the table becomes that tag's
   * value, provided the value lacks the character every tag starts with, so
   * no later tag can match inside it.
   */
  lemma FirstTagInjected(vars: Injects)
    requires |vars| > 0 && |vars[0].0| > 0 && vars[0].0[0] !in vars[0].1
    requires forall i :: 0 < i < |vars| ==> |vars[i].0| > 0 && vars[i].0[0] == vars[0].0[0]
    ensures Injected(vars[0].0, vars) == vars[0].1
  {
    var rest := vars[1..];
    assert vars == [vars[0]] + rest;
    InjectedAppend(vars[0].0, [vars[0]], rest);
    assert [vars[0]][..0] == [];
    ReplaceWhole(vars[0].0, vars[0].1);
    assert TagFree(vars[0].1, rest) by {
      forall i | 0 <= i < |rest| ensures !Contains(vars[0].1, rest[i].0) {
        assert rest[i] == vars[i + 1];
        AbsentHead(vars[0].1, rest[i].0);
      }
    }
    InjectedTagFree(vars[0].1, rest);
  }

  /**
   * A text that is exactly the second tag becomes that tag's value when the
   * first tag neither starts it nor has its first character later in it, and the rest of the table is as in
   * `FirstTagInjected`.
   */
  lemma SecondTagInjected(vars: Injects)
    requires |vars| > 1 && |vars[0].0| > 0 && |vars[1].0| > 0
    requires !StartsWith(vars[1].0, vars[0].0) && vars[0].0[0] !in vars[1].0[1..]
    requires vars[1].0[0] !in vars[1].1
    requires forall i :: 1 < i < |vars| ==> |vars[i].0| > 0 && vars[i].0[0] == vars[1].0[0]
    ensures Injected(vars[1].0, vars) == vars[1].1
  {
    var rest := vars[1..];
    assert vars == vars[..1] + rest;
    InjectedAppend(vars[1].0, vars[..1], rest);
    AbsentAfterHead(vars[1].0, vars[0].0);
    assert vars[..1][..0] == [];
    ReplaceAbsent(vars[1].0, vars[0].0, vars[0].1);
    assert forall i :: 0 < i < |rest| ==> rest[i] == vars[i + 1];
    FirstTagInjected(rest);
  }

  /**
   * `build_prompt` (Gemini), and the identical inline loop of the OpenAI
   * runner: `text = text.replace(tag, val)` for each table item in order.
   */
  method BuildPrompt(text: string, vars: Injects) returns (r: string)
    ensures r == Injected(text, vars)
  {
    r := text;
    var i := 0;
    while i < |vars|
      invariant 0 <= i <= |vars|
      invariant r == Injected(text, vars[..i])
    {
      assert vars[..i + 1][..i] == vars[..i];
      r := ReplaceAll(r, vars[i].0, vars[i].1);
      i := i + 1;
    }
    assert vars[..|vars|] == vars;
  }

  /**
   * The Ollama runner's loop: a tag is replaced only `if injectable in prompt`.
   * The guard changes nothing: replacing an absent tag is the identity, so the
   * result is the unconditional injection.
   */
  method BuildPromptGuarded(text: string, vars: Injects) returns (r: string)
    ensures r == Injected(text, vars)
  {
    r := text;
    var i := 0;
    while i < |vars|
      invariant 0 <= i <= |vars|
      invariant r == Injected(text, vars[..i])
    {
      assert vars[..i + 1][..i] == vars[..i];
      if Contains(r, vars[i].0) {
        r := ReplaceAll(r, vars[i].0, vars[i].1);
      } else {
        ReplaceAbsent(r, vars[i].0, vars[i].1);
      }
      i := i + 1;
    }
    assert vars[..|vars|] == vars;
  }
}
