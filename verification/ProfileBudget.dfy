/** The token budget of `get_profile`: a greedy prefix of rendered fact lines. */
module ProfileBudget {
  const PROFILE_TOKEN_BUDGET := 400
  const PROFILE_FACT_CAP := 30
  const LINE_CHARS := 300
  const HEADER := "Core profile for this user:"

  /** `math.ceil(n / 4)` on a length. */
  function EstimateLength(n: nat): nat {
    (n + 3) / 4
  }

  function EstimateTokens(text: string): nat {
    EstimateLength(|text|)
  }

  function Digit(n: nat): (d: char)
    requires n < 10
    ensures DigitValue(d) == n
  {
    '0' + (n as char)
  }

  /** What a decimal digit stands for. */
  function DigitValue(d: char): int {
    d as int - '0' as int
  }

  /** Is `s` a decimal with two places that stands for `c`, to the nearest hundredth? */
  predicate Denotes(s: string, c: real) {
    && |s| == 4 && '0' <= s[0] <= '9' && s[1] == '.' && '0' <= s[2] <= '9' && '0' <= s[3] <= '9'
    && var h := (100 * DigitValue(s[0]) + 10 * DigitValue(s[2]) + DigitValue(s[3])) as real;
       c - 0.005 < h / 100.0 <= c + 0.005
  }

  /** The confidence with two decimals; the table's CHECK keeps it within 0 and 1. */
  function TwoDecimals(c: real): (s: string)
    requires 0.0 <= c <= 1.0
    ensures Denotes(s, c)
  {
    var h := (c * 100.0 + 0.5).Floor;
    assert 0 <= h <= 100;
    assert h == 100 * (h / 100) + 10 * (h / 10 % 10) + h % 10;
    [Digit(h / 100), '.', Digit(h / 10 % 10), Digit(h % 10)]
  }

  /** A line that shows a fact: its kind, its confidence, and its content, of which more than 300
      characters are cut to 299 and an ellipsis. */
  predicate ShowsFact(line: string, kind: string, confidence: real, content: string) {
    var shown := if |content| <= 300 then content else content[..299] + "…";
    && |line| == |kind| + 9 + |shown|
    && line[..|kind| + 3] == "[" + kind + ", "
    && Denotes(line[|kind| + 3..|kind| + 7], confidence)
    && line[|kind| + 7..] == "] " + shown
  }

  /** `_fact_line`: type, confidence, and the content cut to 300 characters. */
  function FactLine(kind: string, confidence: real, content: string): (line: string)
    requires 0.0 <= confidence <= 1.0
    ensures ShowsFact(line, kind, confidence, content)
  {
    var shown := if |content| > LINE_CHARS then content[..LINE_CHARS - 1] + "…" else content;
    "[" + kind + ", " + TwoDecimals(confidence) + "] " + shown
  }

  /** What the loop's running total has added up after these lines. */
  function Cost(lines: seq<string>): nat {
    if lines == [] then EstimateTokens(HEADER)
    else Cost(lines[..|lines| - 1]) + EstimateTokens(lines[|lines| - 1])
  }

  /** Would the first `m` lines exceed the budget? */
  predicate Exceeds(lines: seq<string>, m: nat)
    requires m <= |lines|
  {
    Cost(lines[..m]) > PROFILE_TOKEN_BUDGET
  }

  /** How many of the candidate lines the budget admits: the longest prefix that fits. */
  ghost predicate LongestFit(lines: seq<string>, n: nat) {
    && n <= |lines|
    && !Exceeds(lines, n)
    && forall m :: n < m <= |lines| ==> Exceeds(lines, m)
  }

  /** The loop of `get_profile`: take lines until one would exceed the budget. */
  method TakeWithinBudget(candidates: seq<string>) returns (lines: seq<string>)
    ensures LongestFit(candidates, |lines|)
    ensures lines == candidates[..|lines|]
  {
    lines := [];
    var budgetUsed := EstimateTokens(HEADER);
    for i := 0 to |candidates|
      invariant |lines| == i && lines == candidates[..i]
      invariant budgetUsed == Cost(lines) <= PROFILE_TOKEN_BUDGET
    {
      var cost := EstimateTokens(candidates[i]);
      assert candidates[..i + 1][..i] == candidates[..i];
      if budgetUsed + cost > PROFILE_TOKEN_BUDGET {
        ExceedingStays(candidates, i + 1);
        break;
      }
      lines := lines + [candidates[i]];
      budgetUsed := budgetUsed + cost;
      assert candidates[..i + 1] == lines;
    }
  }

  /** The same loop as a function, for the tool's specification; `taken` lines are in already. */
  function Fit(lines: seq<string>, taken: nat := 0): (n: nat)
    requires taken <= |lines| && !Exceeds(lines, taken)
    ensures LongestFit(lines, n)
    decreases |lines| - taken
  {
    if taken == |lines| then taken
    else if Exceeds(lines, taken + 1) then ExceedingStays(lines, taken + 1); taken
    else Fit(lines, taken + 1)
  }

  lemma ExceedingStays(lines: seq<string>, m: nat)
    requires m <= |lines| && Exceeds(lines, m)
    ensures forall n :: m <= n <= |lines| ==> Exceeds(lines, n)
  {
    forall n | m <= n <= |lines| ensures Exceeds(lines, n) {
      CostGrows(lines, m, n);
    }
  }

  lemma {:induction false} CostGrows(lines: seq<string>, m: nat, n: nat)
    requires m <= n <= |lines|
    ensures Cost(lines[..m]) <= Cost(lines[..n])
  {
    if m == n {
    } else {
      CostGrows(lines, m, n - 1);
      assert lines[..n][..n - 1] == lines[..n - 1];
    }
  }

  /** The budget admits one length only, so loop and function agree. */
  lemma LongestFitIsUnique(lines: seq<string>, m: nat, n: nat)
    requires LongestFit(lines, m) && LongestFit(lines, n)
    ensures m == n
  {
  }

  /** `"\n".join([header, *lines])`. */
  function Render(lines: seq<string>): string {
    if lines == [] then HEADER
    else Render(lines[..|lines| - 1]) + "\n" + lines[|lines| - 1]
  }

  /** The text starts with the header, and each line follows on a new line of its own, in order. */
  lemma {:induction false} RenderedInOrder(lines: seq<string>, i: nat)
    requires i < |lines|
    ensures "Core profile for this user:" == Render([])
    ensures Render(lines[..i]) + "\n" + lines[i] == Render(lines[..i + 1]) <= Render(lines)
    decreases |lines|
  {
    assert lines[..i + 1][..i] == lines[..i];
    if i + 1 == |lines| {
      assert lines[..i + 1] == lines;
    } else {
      var front := lines[..|lines| - 1];
      RenderedInOrder(front, i);
      assert front[..i] == lines[..i] && front[..i + 1] == lines[..i + 1];
    }
  }

  /** The rendered length and the running total differ by the newlines and the rounding. */
  lemma {:induction false} RenderedLength(lines: seq<string>)
    ensures |Render(lines)| <= 4 * Cost(lines) + |lines| - 1
  {
    if lines == [] {
    } else {
      RenderedLength(lines[..|lines| - 1]);
    }
  }

  /** The loop keeps its own total within the budget, but joining newlines are not counted:
      the text it returns can be estimated at up to 408 tokens. */
  lemma RenderedBound(lines: seq<string>)
    requires |lines| <= PROFILE_FACT_CAP && Cost(lines) <= PROFILE_TOKEN_BUDGET
    ensures EstimateTokens(Render(lines)) <= PROFILE_TOKEN_BUDGET + 8
  {
    RenderedLength(lines);
  }

  /** Total length of the lines alone. */
  function Length(lines: seq<string>): nat {
    if lines == [] then 0 else Length(lines[..|lines| - 1]) + |lines[|lines| - 1]|
  }

  /** The returned text stays within the advertised budget exactly when the lines leave room
      for one newline each. */
  lemma {:induction false} RenderedWithinBudgetIff(lines: seq<string>)
    ensures |Render(lines)| == |HEADER| + Length(lines) + |lines|
    ensures EstimateTokens(Render(lines)) <= PROFILE_TOKEN_BUDGET <==> Length(lines) + |lines| <= 1573
  {
    if lines == [] {
    } else {
      RenderedWithinBudgetIff(lines[..|lines| - 1]);
    }
  }

  lemma {:induction false} UniformCost(lines: seq<string>)
    requires forall i :: 0 <= i < |lines| ==> |lines[i]| == 52
    ensures Cost(lines) == EstimateTokens(HEADER) + 13 * |lines|
    ensures Length(lines) == 52 * |lines|
  {
    if lines == [] {
    } else {
      UniformCost(lines[..|lines| - 1]);
    }
  }

  /** The bound of 408 is reached: 29 lines of 52 characters and one of 64 use the budget up
      exactly, and every candidate is taken. */
  lemma RenderedBoundIsTight(lines: seq<string>)
    requires |lines| == PROFILE_FACT_CAP && |lines[29]| == 64
    requires forall i :: 0 <= i < 29 ==> |lines[i]| == 52
    ensures LongestFit(lines, |lines|) && Fit(lines) == |lines|
    ensures EstimateTokens(Render(lines)) == PROFILE_TOKEN_BUDGET + 8
  {
    var front := lines[..29];
    UniformCost(front);
    assert lines[..|lines| - 1] == front && lines[..30] == lines;
    RenderedWithinBudgetIff(lines);
    LongestFitIsUnique(lines, |lines|, Fit(lines));
  }

  lemma {:induction false} LengthGrows(lines: seq<string>, m: nat, n: nat)
    requires m <= n <= |lines|
    ensures Length(lines[..m]) <= Length(lines[..n])
  {
    if m == n {
    } else {
      LengthGrows(lines, m, n - 1);
      assert lines[..n][..n - 1] == lines[..n - 1];
    }
  }

  /** When the text a call returns stays within the advertised budget, in terms of the candidate
      lines alone: every prefix that the loop's estimate admits has, with one newline per line, at
      most 1573 characters. */
  lemma ShownWithinBudgetIff(candidates: seq<string>)
    ensures EstimateTokens(Render(candidates[..Fit(candidates)])) <= PROFILE_TOKEN_BUDGET <==>
      forall m: nat | m <= |candidates| && Cost(candidates[..m]) <= PROFILE_TOKEN_BUDGET ::
        Length(candidates[..m]) + m <= 1573
  {
    var n := Fit(candidates);
    RenderedWithinBudgetIff(candidates[..n]);
    assert Cost(candidates[..n]) <= PROFILE_TOKEN_BUDGET;
    forall m: nat | m <= |candidates| && Cost(candidates[..m]) <= PROFILE_TOKEN_BUDGET
      ensures Length(candidates[..m]) + m <= Length(candidates[..n]) + n
    {
      assert !Exceeds(candidates, m);
      LengthGrows(candidates, m, n);
    }
  }

  /** At least four lines always appear (or all, if fewer): a profile line costs at most 80. */
  lemma FourLinesAlwaysFit(lines: seq<string>, n: nat)
    requires forall i :: 0 <= i < |lines| ==> |lines[i]| <= 320
    requires LongestFit(lines, n)
    ensures n >= if |lines| < 4 then |lines| else 4
  {
    var m := if |lines| < 4 then |lines| else 4;
    UpperCost(lines[..m]);
    assert !Exceeds(lines, m);
  }

  lemma {:induction false} UpperCost(lines: seq<string>)
    requires forall i :: 0 <= i < |lines| ==> |lines[i]| <= 320
    ensures Cost(lines) <= EstimateTokens(HEADER) + 80 * |lines|
  {
    if lines == [] {
    } else {
      UpperCost(lines[..|lines| - 1]);
    }
  }
}
