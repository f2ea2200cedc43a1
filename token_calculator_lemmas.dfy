/**
 * Properties of the token estimate: it is zero on blank text and blind to
 * how long whitespace runs are and to whitespace around the text.
 */
module TokenCalculationLemmas {
  import Wrappers
  import opened Text
  import opened TokenCalculation

  /** Empty and whitespace-only texts are estimated at zero tokens. */
  lemma BlankTextHasNoTokens(t: string)
    requires AllSpace(t)
    ensures EstimateTokens(t) == 0
  {
    LStripBlank(t);
    assert Strip(t) == [];
  }

  lemma {:induction false} LStripSpacePrefix(a: string, x: string)
    requires AllSpace(a)
    ensures LStrip(a + x) == LStrip(x)
    decreases |a|
  {
    if a != [] {
      assert (a + x)[1..] == a[1..] + x;
      LStripSpacePrefix(a[1..], x);
    } else {
      assert a + x == x;
    }
  }

  lemma {:induction false} LStripKeepsTail(x: string, y: string)
    requires !AllSpace(x)
    ensures LStrip(x + y) == LStrip(x) + y
    decreases |x|
  {
    if IsSpace(x[0]) {
      assert (x + y)[1..] == x[1..] + y;
      LStripKeepsTail(x[1..], y);
    }
  }

  lemma {:induction false} RStripSpaceSuffix(x: string, b: string)
    requires AllSpace(b)
    ensures RStrip(x + b) == RStrip(x)
    decreases |b|
  {
    if b != [] {
      var b' := b[..|b| - 1];
      assert (x + b)[..|x + b| - 1] == x + b';
      RStripSpaceSuffix(x, b');
    } else {
      assert x + b == x;
    }
  }

  lemma {:induction false} RStripKeepsHead(x: string, y: string)
    requires !AllSpace(y)
    ensures RStrip(x + y) == x + RStrip(y)
    decreases |y|
  {
    if IsSpace(y[|y| - 1]) {
      var y' := y[..|y| - 1];
      assert (x + y)[..|x + y| - 1] == x + y';
      RStripKeepsHead(x, y');
    }
  }

  /** Stripping removes whitespace added before or after the text. */
  lemma StripIgnoresSurroundingSpace(a: string, t: string, b: string)
    requires AllSpace(a) && AllSpace(b)
    ensures Strip(a + t + b) == Strip(t)
  {
    assert a + t + b == a + (t + b);
    LStripSpacePrefix(a, t + b);
    if AllSpace(t) {
      BlankStrips(t, b);
    } else {
      LStripKeepsTail(t, b);
      RStripSpaceSuffix(LStrip(t), b);
    }
  }

  lemma BlankStrips(t: string, b: string)
    requires AllSpace(t) && AllSpace(b)
    ensures LStrip(t + b) == [] && LStrip(t) == []
  {
    LStripSpacePrefix(t, b);
    LStripBlank(b);
    LStripBlank(t);
  }

  lemma LStripBlank(s: string)
    requires AllSpace(s)
    ensures LStrip(s) == []
  {
  }

  /** Whitespace added before or after the text does not change the estimate. */
  lemma SurroundingSpaceIgnored(a: string, t: string, b: string)
    requires AllSpace(a) && AllSpace(b)
    ensures EstimateTokens(a + t + b) == EstimateTokens(t)
  {
    var u := a + t + b;
    StripIgnoresSurroundingSpace(a, t, b);
    if t == [] {
      assert Strip(u) == [];
      assert Collapse([]) == [];
    } else {
      assert u != [];
    }
  }

  lemma {:induction false} RunLengthConcat(a: string, b: string, inRun: char -> bool)
    ensures (forall i :: 0 <= i < |a| ==> inRun(a[i])) ==> RunLength(a + b, inRun) == |a| + RunLength(b, inRun)
    ensures RunLength(a, inRun) < |a| ==> RunLength(a + b, inRun) == RunLength(a, inRun)
    decreases |a|
  {
    if a == [] {
      assert a + b == b;
    } else {
      assert (a + b)[1..] == a[1..] + b;
      RunLengthConcat(a[1..], b, inRun);
    }
  }

  lemma {:induction false} LStripDropsRun(y: string)
    ensures LStrip(y) == y[RunLength(y, IsSpace)..]
    decreases |y|
  {
    if y != [] && IsSpace(y[0]) {
      LStripDropsRun(y[1..]);
    }
  }

  /** A non-empty whitespace run followed by `y` collapses to one space and the rest of `y` past its own leading run. */
  lemma CollapseRun(s: string, y: string)
    requires s != [] && AllSpace(s)
    ensures Collapse(s + y) == " " + Collapse(LStrip(y))
  {
    var t := s + y;
    var n := RunLength(t, IsSpace);
    RunLengthConcat(s, y, IsSpace);
    LStripDropsRun(y);
    assert n == |s| + RunLength(y, IsSpace);
    assert t[n..] == LStrip(y);
    assert t[0] == s[0] && IsSpace(t[0]);
    assert Collapse(t) == " " + Collapse(t[n..]);
  }

  /** Two non-empty whitespace runs in the same place collapse alike. */
  lemma {:induction false} CollapseRunsAlike(x: string, s1: string, s2: string, y: string)
    requires s1 != [] && AllSpace(s1) && s2 != [] && AllSpace(s2)
    ensures Collapse(x + s1 + y) == Collapse(x + s2 + y)
    decreases |x|
  {
    if x == [] {
      assert x + s1 + y == s1 + y;
      assert x + s2 + y == s2 + y;
      CollapseRun(s1, y);
      CollapseRun(s2, y);
    } else if !IsSpace(x[0]) {
      CollapseRunsAlike(x[1..], s1, s2, y);
      CollapseKeepsHead(x, s1, y);
      CollapseKeepsHead(x, s2, y);
    } else if AllSpace(x) {
      assert x + s1 + y == (x + s1) + y;
      assert x + s2 + y == (x + s2) + y;
      CollapseRun(x + s1, y);
      CollapseRun(x + s2, y);
    } else {
      var n := RunLength(x, IsSpace);
      CollapseRunsAlike(x[n..], s1, s2, y);
      CollapseSkipsRun(x, s1, y);
      CollapseSkipsRun(x, s2, y);
    }
  }

  lemma CollapseKeepsHead(x: string, s: string, y: string)
    requires x != [] && !IsSpace(x[0])
    ensures Collapse(x + s + y) == [x[0]] + Collapse(x[1..] + s + y)
  {
    var t := x + s + y;
    assert t[0] == x[0];
    assert t[1..] == x[1..] + s + y;
  }

  lemma CollapseSkipsRun(x: string, s: string, y: string)
    requires x != [] && IsSpace(x[0]) && !AllSpace(x)
    ensures RunLength(x, IsSpace) < |x|
    ensures Collapse(x + s + y) == " " + Collapse(x[RunLength(x, IsSpace)..] + s + y)
  {
    var n := RunLength(x, IsSpace);
    var t := x + (s + y);
    assert x + s + y == t;
    RunLengthConcat(x, s + y, IsSpace);
    assert RunLength(t, IsSpace) == n;
    assert t[n..] == x[n..] + s + y;
    assert t[0] == x[0];
  }

  /** How `strip` treats text with a whitespace run `s` between `x` and `y`. */
  lemma StripAroundRun(x: string, s: string, y: string)
    requires AllSpace(s)
    ensures AllSpace(x) ==> Strip(x + s + y) == Strip(y)
    ensures !AllSpace(x) && AllSpace(y) ==> Strip(x + s + y) == Strip(x)
    ensures !AllSpace(x) && !AllSpace(y) ==> Strip(x + s + y) == LStrip(x) + s + RStrip(y)
  {
    if AllSpace(x) {
      assert x + s + y == (x + s) + y;
      LStripSpacePrefix(x + s, y);
    } else {
      assert x + s + y == x + (s + y);
      LStripKeepsTail(x, s + y);
      if AllSpace(y) {
        RStripSpaceSuffix(LStrip(x), s + y);
      } else {
        assert LStrip(x) + (s + y) == (LStrip(x) + s) + y;
        RStripKeepsHead(LStrip(x) + s, y);
      }
    }
  }

  /** Lengthening or shortening a whitespace run inside the text does not change the estimate. */
  lemma InternalSpaceIgnored(x: string, s1: string, s2: string, y: string)
    requires s1 != [] && AllSpace(s1) && s2 != [] && AllSpace(s2)
    ensures EstimateTokens(x + s1 + y) == EstimateTokens(x + s2 + y)
  {
    assert |x + s1 + y| > 0 && |x + s2 + y| > 0;
    StripAroundRun(x, s1, y);
    StripAroundRun(x, s2, y);
    if !AllSpace(x) && !AllSpace(y) {
      CollapseRunsAlike(LStrip(x), s1, s2, RStrip(y));
    }
  }

  /** Normalising already normalised text changes nothing. */
  lemma {:induction false} CollapseIdempotent(s: string)
    ensures Collapse(Collapse(s)) == Collapse(s)
    decreases |s|
  {
    if s != [] {
      var c := Collapse(s);
      if IsSpace(s[0]) {
        var n := RunLength(s, IsSpace);
        var rest := Collapse(s[n..]);
        CollapseIdempotent(s[n..]);
        assert c == " " + rest;
        assert RunLength(c, IsSpace) == 1;
        assert c[1..] == rest;
      } else {
        CollapseIdempotent(s[1..]);
        assert c[1..] == Collapse(s[1..]);
      }
    }
  }

  /** A call with the defaults prices the text as input to gpt-3.5-turbo-0125, at 0.50 per million tokens. */
  lemma DefaultCallPricesInput(text: string)
    ensures CalculateCost(text) == Wrappers.Success(CostInfo(EstimateTokens(text), "gpt-3.5-turbo-0125", "input", 0.50))
  {
    assert "gpt-3.5-turbo-0125" in Pricing;
  }
}
