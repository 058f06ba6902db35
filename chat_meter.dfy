/** The conversation-cost meter: seconds of input and output audio turned
    into tokens and dollars at the published per-million-token prices, and
    the two display formats for money and time. */
module ChatMeter {
  import JsNumber
  import Text

  const InputPerMillionTokens: real := 2.10
  const OutputPerMillionTokens: real := 8.50
  const TokensPerSecond: real := 25.0

  /** What the effect stores: the input, output and total cost in dollars. */
  datatype Costs = Costs(input: real, output: real, total: real)

  function Tokens(seconds: real): real
  {
    seconds * TokensPerSecond
  }

  /** The effect run whenever either duration changes. */
  function MeterCosts(inputSeconds: real, outputSeconds: real): (c: Costs)
    ensures c.total == c.input + c.output
  {
    var inputCost := (Tokens(inputSeconds) / 1000000.0) * InputPerMillionTokens;
    var outputCost := (Tokens(outputSeconds) / 1000000.0) * OutputPerMillionTokens;
    Costs(inputCost, outputCost, inputCost + outputCost)
  }

  /** A second of input audio costs 25 tokens at 2.10 dollars per million,
      a second of output audio 25 tokens at 8.50 dollars per million. */
  lemma CostPerSecond(inputSeconds: real, outputSeconds: real)
    ensures MeterCosts(inputSeconds, outputSeconds).input == inputSeconds * 0.0000525
    ensures MeterCosts(inputSeconds, outputSeconds).output == outputSeconds * 0.0002125
  {}

  /** For non-negative durations every cost is non-negative and grows with
      the durations. */
  lemma CostsMonotone(i1: real, o1: real, i2: real, o2: real)
    requires 0.0 <= i1 <= i2 && 0.0 <= o1 <= o2
    ensures var c1, c2 := MeterCosts(i1, o1), MeterCosts(i2, o2);
      0.0 <= c1.input <= c2.input && 0.0 <= c1.output <= c2.output && 0.0 <= c1.total <= c2.total
  {
    CostPerSecond(i1, o1);
    CostPerSecond(i2, o2);
  }

  /** `formatCost`: four decimals below a cent, three from a cent on. */
  function FormatCost(cost: real): string
  {
    if cost < 0.01 then "$" + Text.ToFixed(cost, 4) else "$" + Text.ToFixed(cost, 3)
  }

  /** `s` is a dollar sign and a number with exactly `d` digits after the
      point, whose digits, with the point taken out, spell `n`: the amount
      in units of ten to the minus `d` dollars. */
  predicate DollarText(s: string, d: nat, n: nat)
  {
    |s| >= d + 3 && s[0] == '$' && s[|s| - d - 1] == '.'
    && Text.AllDigits(s[|s| - d..])
    && Text.DigitsValue(s[1..|s| - d - 1] + s[|s| - d..]) == n
  }

  /** A non-negative cost is shown as a dollar sign and the cost rounded to
      four decimals below a cent, to three otherwise. */
  lemma FormatCostDecimals(cost: real)
    requires cost >= 0.0
    ensures cost < 0.01 ==> DollarText(FormatCost(cost), 4, Text.FixedUnits(cost, 4))
    ensures cost >= 0.01 ==> DollarText(FormatCost(cost), 3, Text.FixedUnits(cost, 3))
  {
    var d := if cost < 0.01 then 4 else 3;
    var t := Text.ToFixed(cost, d);
    assert FormatCost(cost) == "$" + t;
    Text.ToFixedShape(cost, d);
    DollarShape(t, d, Text.FixedUnits(cost, d));
  }

  /** A dollar sign in front keeps the decimal shape one place further on. */
  lemma DollarShape(t: string, d: nat, n: nat)
    requires Text.DecimalShape(t, d, n)
    ensures DollarText("$" + t, d, n)
  {
    var s := "$" + t;
    assert |s| == |t| + 1 && s[1..] == t;
    assert s[|s| - d - 1] == t[|t| - d - 1];
    assert s[1..|s| - d - 1] == t[..|t| - d - 1];
    assert s[|s| - d..] == t[|t| - d..];
  }

  /** `formatTime`: below a minute, the seconds with one decimal; from a
      minute on, whole minutes and whole seconds. */
  function FormatTime(seconds: real): string
  {
    if seconds < 60.0 then Text.ToFixed(seconds, 1) + "s"
    else
      var (mins, secs) := JsNumber.MinutesSeconds(seconds);
      Text.IntToString(mins) + "m " + Text.IntToString(secs) + "s"
  }

  /** From a minute on the text is `<m>m <s>s` with at least one minute,
      fewer than sixty seconds, and sixty times the minutes plus the seconds
      the whole number of seconds; below a minute it is a number with one
      decimal followed by `s`. */
  lemma FormatTimeShape(seconds: real)
    ensures 0.0 <= seconds < 60.0 ==> SecondsText(FormatTime(seconds))
    ensures seconds >= 60.0 ==>
      var (mins, secs) := JsNumber.MinutesSeconds(seconds);
      FormatTime(seconds) == Text.IntToString(mins) + "m " + Text.IntToString(secs) + "s"
      && mins >= 1 && 0 <= secs < 60 && 60 * mins + secs == seconds.Floor
  {
    if 0.0 <= seconds < 60.0 {
      Text.ToFixedShape(seconds, 1);
      SecondsShape(Text.ToFixed(seconds, 1), Text.FixedUnits(seconds, 1));
    } else if seconds >= 60.0 {
      JsNumber.MinutesSecondsSplit(seconds);
      assert (seconds / 60.0).Floor >= 1;
    }
  }

  /** A number with one decimal followed by `s`. */
  predicate SecondsText(s: string)
  {
    |s| >= 4 && s[|s| - 1] == 's' && s[|s| - 3] == '.' && Text.AllDigits(s[|s| - 2..|s| - 1])
  }

  /** An `s` after a number with one decimal. */
  lemma SecondsShape(t: string, n: nat)
    requires Text.DecimalShape(t, 1, n)
    ensures SecondsText(t + "s")
  {
    var s := t + "s";
    assert s[|s| - 2..|s| - 1] == t[|t| - 1..];
  }
}
