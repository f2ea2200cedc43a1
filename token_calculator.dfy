/**
 * `token_calculator.py`: the pricing table, the four-characters-per-token
 * estimate over whitespace-normalised text, and the validating cost lookup.
 * The calculator object holds no state, so its members are plain functions.
 */
module TokenCalculation {
  import opened Wrappers
  import opened Text

  /** The keys of `PRICING`, in declaration order. */
  const ModelNames: seq<string> := ["gpt-3.5-turbo-0125", "gpt-4o-mini", "gpt-4"]

  const TokenTypes: seq<string> := ["input", "output"]

  /** `PRICING`: dollars per million tokens, by model and token type. */
  const Pricing: map<string, map<string, real>> := map[
    "gpt-3.5-turbo-0125" := map["input" := 0.50, "output" := 1.50],
    "gpt-4o-mini" := map["input" := 0.15, "output" := 0.60],
    "gpt-4" := map["input" := 30.00, "output" := 60.00]
  ]

  // ---------------------------------------------------------------------
  // Whitespace normalisation

  /** `s.lstrip()`: drops the leading whitespace. */
  function LStrip(s: string): (r: string)
    ensures |r| <= |s| && r == s[|s| - |r|..]
    ensures r == [] || !IsSpace(r[0])
    ensures AllSpace(s[..|s| - |r|])
    decreases |s|
  {
    if s != [] && IsSpace(s[0]) then LStrip(s[1..]) else s
  }

  /** `s.rstrip()`: drops the trailing whitespace. */
  function RStrip(s: string): (r: string)
    ensures |r| <= |s| && r == s[..|r|]
    ensures r == [] || !IsSpace(r[|r| - 1])
    ensures AllSpace(s[|r|..])
    decreases |s|
  {
    if s != [] && IsSpace(s[|s| - 1]) then
      var r := RStrip(s[..|s| - 1]);
      assert s[|r|..] == s[..|s| - 1][|r|..] + [s[|s| - 1]];
      r
    else s
  }

  /**
   * `s.strip()`: the left-stripped text with its trailing whitespace cut
   * off, so neither end of the result is whitespace.
   */
  function Strip(s: string): (r: string)
    ensures |r| <= |LStrip(s)| <= |s|
    ensures r == LStrip(s)[..|r|] && AllSpace(LStrip(s)[|r|..])
    ensures r == [] || (!IsSpace(r[0]) && !IsSpace(r[|r| - 1]))
  {
    RStrip(LStrip(s))
  }

  /**
   * `re.sub(r'\s+', ' ', s)`: each maximal whitespace run becomes one space.
   * The result uses no whitespace but ' ', never holds two spaces in a row,
   * and keeps the first character when that is not whitespace.
   */
  function Collapse(s: string): (r: string)
    ensures |r| <= |s|
    ensures (r == []) == (s == [])
    ensures s != [] && !IsSpace(s[0]) ==> r[0] == s[0]
    ensures forall i :: 0 <= i < |r| && IsSpace(r[i]) ==> r[i] == ' '
    ensures forall i :: 0 <= i < |r| - 1 ==> !(IsSpace(r[i]) && IsSpace(r[i + 1]))
    decreases |s|
  {
    if s == [] then []
    else if IsSpace(s[0]) then
      var n := RunLength(s, IsSpace);
      " " + Collapse(s[n..])
    else [s[0]] + Collapse(s[1..])
  }

  /** The characters of `s` that are not whitespace, in order. */
  function NonSpaceChars(s: string): (r: string)
    ensures |r| <= |s|
    decreases |s|
  {
    if s == [] then [] else (if IsSpace(s[0]) then [] else [s[0]]) + NonSpaceChars(s[1..])
  }

  /** A leading whitespace run contributes no characters. */
  lemma {:induction false} NonSpaceCharsSkipRun(s: string, n: nat)
    requires n <= |s| && forall i :: 0 <= i < n ==> IsSpace(s[i])
    ensures NonSpaceChars(s) == NonSpaceChars(s[n..])
    decreases n
  {
    if n > 0 {
      assert s[1..][n - 1..] == s[n..];
      NonSpaceCharsSkipRun(s[1..], n - 1);
    }
  }

  /** Collapsing keeps every non-whitespace character, in order. */
  lemma {:induction false} CollapseKeepsNonSpace(s: string)
    ensures NonSpaceChars(Collapse(s)) == NonSpaceChars(s)
    decreases |s|
  {
    if s != [] {
      if IsSpace(s[0]) {
        var n := RunLength(s, IsSpace);
        NonSpaceCharsSkipRun(s, n);
        CollapseKeepsNonSpace(s[n..]);
        var c := Collapse(s[n..]);
        assert (" " + c)[1..] == c;
      } else {
        CollapseKeepsNonSpace(s[1..]);
        var c := Collapse(s[1..]);
        assert ([s[0]] + c)[1..] == c;
      }
    }
  }

  /** `estimate_tokens`: a quarter of the normalised length, rounded down. */
  function EstimateTokens(text: string): (r: nat)
    ensures text == [] ==> r == 0
    ensures r <= |text| / 4 && 4 * r <= |text|
  {
    if text == [] then 0 else |Collapse(Strip(text))| / 4
  }

  // ---------------------------------------------------------------------
  // Cost lookup

  /** The part of `calculate_cost`'s result this model keeps (the float cost fields are not modelled). */
  datatype CostInfo = CostInfo(tokenCount: nat, model: string, tokenType: string, pricePerMillion: real)

  /** The two `ValueError`s `calculate_cost` raises. */
  datatype CostError =
    | UnsupportedModel(model: string, available: seq<string>)
    | BadTokenType(tokenType: string)

  /**
   * `calculate_cost`: an unknown model is rejected first, then an unknown
   * token type; otherwise the estimate and the table price are returned.
   */
  function CalculateCost(text: string, model: string := "gpt-3.5-turbo-0125", tokenType: string := "input"): (r: Result<CostInfo, CostError>)
    ensures model !in Pricing ==> r == Failure(UnsupportedModel(model, ModelNames))
    ensures model in Pricing && tokenType !in TokenTypes ==> r == Failure(BadTokenType(tokenType))
    ensures r.Success? <==> model in Pricing && tokenType in TokenTypes
    ensures r.Success? ==>
      && tokenType in Pricing[model]
      && r.value == CostInfo(EstimateTokens(text), model, tokenType, Pricing[model][tokenType])
  {
    if model !in Pricing then Failure(UnsupportedModel(model, ModelNames))
    else if tokenType !in TokenTypes then Failure(BadTokenType(tokenType))
    else Success(CostInfo(EstimateTokens(text), model, tokenType, Pricing[model][tokenType]))
  }

  /** `get_model_pricing`: a copy of the table, three models with an input and an output price each. */
  function GetModelPricing(): (p: map<string, map<string, real>>)
    ensures p == Pricing
    ensures forall m :: m in p <==> m in ModelNames
    ensures forall m :: m in p ==> forall t :: t in p[m] <==> t in TokenTypes
  {
    Pricing
  }
}
