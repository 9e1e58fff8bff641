/** The patterns of scripts/release.py: literal text and numbers, matched in full. */
module Patterns {
  import opened Common
  import opened Numerals

  datatype Token = Lit(text: string) | Num

  function Nums(tokens: seq<Token>): (r: nat)
  {
    if tokens == [] then 0 else (if tokens[0].Num? then 1 else 0) + Nums(tokens[1..])
  }

  function DigitRun(s: string): (n: nat)
    ensures n <= |s| && AllDigits(s[..n]) && (n < |s| ==> !IsDigit(s[n]))
  {
    if s == "" || !IsDigit(s[0]) then 0
    else
      var n := DigitRun(s[1..]);
      assert s[..n + 1] == [s[0]] + s[1..][..n];
      n + 1
  }

  /** `fullmatch`, with the groups converted. */
  function Match(tokens: seq<Token>, s: string): (r: Option<seq<nat>>)
  {
    if tokens == [] then (if s == "" then Some([]) else None)
    else if tokens[0].Lit? then
      var t := tokens[0].text;
      if t <= s then Match(tokens[1..], s[|t|..]) else None
    else
      var n := DigitRun(s);
      if !Canonical(s[..n]) then None
      else
        var rest := Match(tokens[1..], s[n..]);
        if rest.Some? then Some([Value(s[..n])] + rest.value) else None
  }

  function Render(tokens: seq<Token>, values: seq<nat>): (s: string)
    requires |values| == Nums(tokens)
  {
    if tokens == [] then ""
    else if tokens[0].Lit? then tokens[0].text + Render(tokens[1..], values)
    else Print(values[0]) + Render(tokens[1..], values[1..])
  }

  /** A number is followed by the end or by text that is not a digit. */
  predicate Delimited(tokens: seq<Token>)
  {
    forall i :: 0 <= i < |tokens| && tokens[i].Num? ==> i + 1 == |tokens| || EndsNumber(tokens[i + 1])
  }

  predicate EndsNumber(t: Token)
  {
    t.Lit? && t.text != "" && !IsDigit(t.text[0])
  }

  lemma DelimitedTail(tokens: seq<Token>)
    requires tokens != [] && Delimited(tokens)
    ensures Delimited(tokens[1..]) && (tokens[0].Num? ==> Delimits(tokens[1..]))
  {
    var rest := tokens[1..];
    forall i | 0 <= i < |rest| && rest[i].Num?
      ensures i + 1 == |rest| || EndsNumber(rest[i + 1])
    {
      assert rest[i] == tokens[i + 1];
    }
  }

  predicate Delimits(tokens: seq<Token>)
  {
    tokens == [] || EndsNumber(tokens[0])
  }

  lemma RenderDelimits(tokens: seq<Token>, values: seq<nat>)
    requires |values| == Nums(tokens) && Delimits(tokens)
    ensures Render(tokens, values) == "" || !IsDigit(Render(tokens, values)[0])
  {
  }

  lemma {:induction false} RunStops(a: string, b: string)
    requires AllDigits(a) && (b == "" || !IsDigit(b[0]))
    ensures DigitRun(a + b) == |a|
  {
    if a == "" {
      assert a + b == b;
    } else {
      RunStops(a[1..], b);
      assert (a + b)[1..] == a[1..] + b;
    }
  }

  lemma MatchedRenders(tokens: seq<Token>, s: string)
    requires tokens != [] && tokens[0].Num? && Match(tokens, s).Some?
    ensures s == Print(Match(tokens, s).value[0]) + s[DigitRun(s)..]
  {
    var n := DigitRun(s);
    ParseThenPrint(s[..n]);
  }

  lemma RenderedRun(v: nat, rest: string)
    requires rest == "" || !IsDigit(rest[0])
    ensures var s := Print(v) + rest; var n := DigitRun(s); Canonical(s[..n]) && Value(s[..n]) == v && s[n..] == rest
  {
    PrintThenParse(v);
    RunStops(Print(v), rest);
    var s := Print(v) + rest;
    assert s[..|Print(v)|] == Print(v);
  }

  /** A text matches with these values exactly when it is their rendering: the
      pattern accepts one text per choice of values. */
  lemma {:induction false} MatchesExactlyTheRendering(tokens: seq<Token>, s: string, values: seq<nat>)
    requires Delimited(tokens)
    ensures Match(tokens, s) == Some(values) <==> |values| == Nums(tokens) && s == Render(tokens, values)
    decreases |tokens|
  {
    if tokens == [] {
    } else if tokens[0].Lit? {
      LiteralStep(tokens, s, values);
    } else {
      NumberStep(tokens, s, values);
    }
  }

  lemma LiteralStep(tokens: seq<Token>, s: string, values: seq<nat>)
    requires tokens != [] && tokens[0].Lit? && Delimited(tokens)
    ensures Match(tokens, s) == Some(values) <==> |values| == Nums(tokens) && s == Render(tokens, values)
    decreases |tokens|, 0
  {
    var t := tokens[0].text;
    DelimitedTail(tokens);
    if t <= s {
      MatchesExactlyTheRendering(tokens[1..], s[|t|..], values);
      assert s == t + s[|t|..];
    }
  }

  lemma NumberStep(tokens: seq<Token>, s: string, values: seq<nat>)
    requires tokens != [] && tokens[0].Num? && Delimited(tokens)
    ensures Match(tokens, s) == Some(values) <==> |values| == Nums(tokens) && s == Render(tokens, values)
    decreases |tokens|, 1
  {
    if Match(tokens, s) == Some(values) {
      NumberIsRendered(tokens, s, values);
    }
    if |values| == Nums(tokens) && s == Render(tokens, values) {
      NumberIsMatched(tokens, values);
    }
  }

  lemma NumberIsRendered(tokens: seq<Token>, s: string, values: seq<nat>)
    requires tokens != [] && tokens[0].Num? && Delimited(tokens) && Match(tokens, s) == Some(values)
    ensures |values| == Nums(tokens) && s == Render(tokens, values)
    decreases |tokens|, 0
  {
    DelimitedTail(tokens);
    MatchedRenders(tokens, s);
    MatchesExactlyTheRendering(tokens[1..], s[DigitRun(s)..], values[1..]);
  }

  lemma NumberIsMatched(tokens: seq<Token>, values: seq<nat>)
    requires tokens != [] && tokens[0].Num? && Delimited(tokens) && |values| == Nums(tokens)
    ensures Match(tokens, Render(tokens, values)) == Some(values)
    decreases |tokens|, 0
  {
    var rest := Render(tokens[1..], values[1..]);
    DelimitedTail(tokens);
    RenderDelimits(tokens[1..], values[1..]);
    RenderedRun(values[0], rest);
    MatchesExactlyTheRendering(tokens[1..], rest, values[1..]);
    assert values == [values[0]] + values[1..];
  }
}
