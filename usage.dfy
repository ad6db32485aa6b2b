/**
 * Token accounting: each backend's usage report becomes a per-turn
 * (input, output) delta and running totals. The input delta is computed
 * against carried state, one variant per accounting scheme.
 */
module Usage {

  /** A usage report after defaulting absent counts to 0. */
  datatype Report = Report(prompt: int, completion: int)

  /** The state carried from one turn to the next. */
  datatype Carry =
    | Cumulative(lastPrompt: int)
      // OpenAI and Gemini: `turn_in = prompt - prev_prompt`
    | Trimming(lastPrompt: int, lastCompletion: int)
      // Ollama: `input_tokens = prompt_eval - prev_prompt_eval - prev_eval`

  datatype Turn = Turn(turnIn: int, turnOut: int)

  /** One turn's delta and the new carried state; negative deltas are kept as they are. */
  function Normalize(r: Report, c: Carry): (Turn, Carry) {
    match c
    case Cumulative(p) => (Turn(r.prompt - p, r.completion), Cumulative(r.prompt))
    case Trimming(p, q) => (Turn(r.prompt - p - q, r.completion), Trimming(r.prompt, r.completion))
  }

  /** The per-turn deltas, the carried state and the running totals after some reports. */
  datatype Ledger = Ledger(turns: seq<Turn>, carry: Carry, totalIn: int, totalOut: int)

  function Account(start: Carry, reports: seq<Report>): Ledger {
    if reports == [] then Ledger([], start, 0, 0)
    else
      var l := Account(start, reports[..|reports| - 1]);
      var (t, c) := Normalize(reports[|reports| - 1], l.carry);
      Ledger(l.turns + [t], c, l.totalIn + t.turnIn, l.totalOut + t.turnOut)
  }

  /** One more report: the ledger of the first `m + 1` reports. */
  lemma AccountStep(start: Carry, reports: seq<Report>, m: nat)
    requires m < |reports|
    ensures var l := Account(start, reports[..m]);
      var (t, c) := Normalize(reports[m], l.carry);
      Account(start, reports[..m + 1]) == Ledger(l.turns + [t], c, l.totalIn + t.turnIn, l.totalOut + t.turnOut)
  {
    assert reports[..m + 1][..m] == reports[..m];
  }

  /**
   * A runner's counters after its first `done` turns: the carried state and
   * the totals are those of the ledger of the first `done` reports.
   */
  predicate Accounted(start: Carry, reports: seq<Report>, done: nat, carry: Carry, totalIn: int, totalOut: int) {
    && done <= |reports|
    && var l := Account(start, reports[..done]);
    && l.carry == carry && l.totalIn == totalIn && l.totalOut == totalOut
  }

  /** Accounting one more report keeps the counters in step with the ledger. */
  lemma AccountedStep(start: Carry, reports: seq<Report>, done: nat, carry: Carry, totalIn: int, totalOut: int)
    requires Accounted(start, reports, done, carry, totalIn, totalOut) && done < |reports|
    ensures var (t, c) := Normalize(reports[done], carry);
      Accounted(start, reports, done + 1, c, totalIn + t.turnIn, totalOut + t.turnOut)
  {
    AccountStep(start, reports, done);
  }

  /** The cumulative step as the OpenAI and Gemini runners write it. */
  lemma CumulativeStep(reports: seq<Report>, done: nat, prev: int, totalIn: int, totalOut: int)
    requires Accounted(Cumulative(0), reports, done, Cumulative(prev), totalIn, totalOut) && done < |reports|
    ensures var r := reports[done];
      Accounted(Cumulative(0), reports, done + 1, Cumulative(r.prompt), totalIn + (r.prompt - prev), totalOut + r.completion)
  {
    AccountedStep(Cumulative(0), reports, done, Cumulative(prev), totalIn, totalOut);
  }

  /** The trimming step as the Ollama runner writes it. */
  lemma TrimmingStep(reports: seq<Report>, done: nat, prevPrompt: int, prevCompletion: int, totalIn: int, totalOut: int)
    requires Accounted(Trimming(0, 0), reports, done, Trimming(prevPrompt, prevCompletion), totalIn, totalOut)
    requires done < |reports|
    ensures var r := reports[done];
      Accounted(Trimming(0, 0), reports, done + 1, Trimming(r.prompt, r.completion),
                totalIn + (r.prompt - prevPrompt - prevCompletion), totalOut + r.completion)
  {
    AccountedStep(Trimming(0, 0), reports, done, Trimming(prevPrompt, prevCompletion), totalIn, totalOut);
  }

  function LastPrompt(reports: seq<Report>): int {
    if reports == [] then 0 else reports[|reports| - 1].prompt
  }

  function SumCompletions(reports: seq<Report>): int {
    if reports == [] then 0
    else SumCompletions(reports[..|reports| - 1]) + reports[|reports| - 1].completion
  }

  /**
   * Cumulative accounting telescopes: the input total is the last reported
   * prompt count, the output total the sum of the completion counts.
   */
  lemma {:induction false} CumulativeTotals(reports: seq<Report>)
    ensures var l := Account(Cumulative(0), reports);
      && l.carry == Cumulative(LastPrompt(reports))
      && l.totalIn == LastPrompt(reports)
      && l.totalOut == SumCompletions(reports)
  {
    if reports != [] {
      CumulativeTotals(reports[..|reports| - 1]);
    }
  }

  /**
   * Trimming accounting: the input total is the last prompt count minus the
   * completions of every turn but the last; the output total is the sum of
   * all completions.
   */
  lemma {:induction false} TrimmingTotals(reports: seq<Report>)
    ensures var l := Account(Trimming(0, 0), reports);
      && l.totalOut == SumCompletions(reports)
      && (reports == [] ==> l.totalIn == 0 && l.carry == Trimming(0, 0))
      && (reports != [] ==>
            && l.carry == Trimming(LastPrompt(reports), reports[|reports| - 1].completion)
            && l.totalIn == LastPrompt(reports) - SumCompletions(reports[..|reports| - 1]))
  {
    if reports != [] {
      var p := reports[..|reports| - 1];
      TrimmingTotals(p);
      if p != [] {
        assert p[..|p| - 1] == reports[..|reports| - 2];
      }
    }
  }

  /** Trimming accounting carries the last report's two counts. */
  lemma {:induction false} TrimmingCarry(reports: seq<Report>)
    requires reports != []
    ensures Account(Trimming(0, 0), reports).carry
            == Trimming(reports[|reports| - 1].prompt, reports[|reports| - 1].completion)
  {
    var p := reports[..|reports| - 1];
    if p != [] {
      TrimmingCarry(p);
    }
  }

  /** The totals are the sums of the per-turn deltas, whatever the scheme. */
  lemma {:induction false} TotalsAreSums(start: Carry, reports: seq<Report>)
    ensures var l := Account(start, reports);
      && |l.turns| == |reports|
      && l.totalIn == SumIn(l.turns)
      && l.totalOut == SumOut(l.turns)
  {
    if reports != [] {
      var l := Account(start, reports[..|reports| - 1]);
      TotalsAreSums(start, reports[..|reports| - 1]);
      var t := Account(start, reports).turns;
      assert t[..|t| - 1] == l.turns;
    }
  }

  function SumIn(turns: seq<Turn>): int {
    if turns == [] then 0 else SumIn(turns[..|turns| - 1]) + turns[|turns| - 1].turnIn
  }

  function SumOut(turns: seq<Turn>): int {
    if turns == [] then 0 else SumOut(turns[..|turns| - 1]) + turns[|turns| - 1].turnOut
  }

  /** Cumulative prompt counts 50, 130, 210 give input deltas 50, 80, 80. */
  lemma CumulativeExample(c1: int, c2: int, c3: int)
    ensures var l := Account(Cumulative(0), [Report(50, c1), Report(130, c2), Report(210, c3)]);
      && l.turns == [Turn(50, c1), Turn(80, c2), Turn(80, c3)]
      && l.totalIn == 210
  {
    var r := [Report(50, c1), Report(130, c2), Report(210, c3)];
    assert r[..2][..1] == r[..1] == [Report(50, c1)];
    assert r[..1][..0] == [];
    assert Account(Cumulative(0), r[..1][..0]) == Ledger([], Cumulative(0), 0, 0);
    assert [] + [Turn(50, c1)] == [Turn(50, c1)];
    var l1 := Account(Cumulative(0), r[..1]);
    assert l1 == Ledger([Turn(50, c1)], Cumulative(50), 50, c1);
    var l2 := Account(Cumulative(0), r[..2]);
    assert l2 == Ledger([Turn(50, c1), Turn(80, c2)], Cumulative(130), 130, c1 + c2);
  }

  /**
   * Trimming reports (50, 20) then (40, 15) give input deltas 50 then
   * 40 - 50 - 20 = -30, accumulated as they are: 20 in, 35 out.
   */
  lemma TrimmingExample()
    ensures var l := Account(Trimming(0, 0), [Report(50, 20), Report(40, 15)]);
      && l.turns == [Turn(50, 20), Turn(-30, 15)]
      && l.totalIn == 20 && l.totalOut == 35
  {
    var r := [Report(50, 20), Report(40, 15)];
    assert r[..1] == [Report(50, 20)];
    assert r[..1][..0] == [];
    assert Account(Trimming(0, 0), r[..1][..0]) == Ledger([], Trimming(0, 0), 0, 0);
    assert [] + [Turn(50, 20)] == [Turn(50, 20)];
    var l1 := Account(Trimming(0, 0), r[..1]);
    assert l1 == Ledger([Turn(50, 20)], Trimming(50, 20), 50, 20);
    assert Account(Trimming(0, 0), r) == Ledger(l1.turns + [Turn(-30, 15)], Trimming(40, 15), 20, 35);
    assert [Turn(50, 20)] + [Turn(-30, 15)] == [Turn(50, 20), Turn(-30, 15)];
  }
}
