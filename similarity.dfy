/** Fuzzy string similarity, popup.js:54-78: bigram lists and the Dice
    coefficient over their multisets. */
module Similarity {
  import opened Text

  /** The bigrams of `v` as `buildBigrams` returns them: none for the empty
      string, the string itself when it has one character, and otherwise
      every pair of neighbouring characters, left to right. */
  function Bigrams(v: string): (g: seq<string>)
    ensures |g| > 0 <==> |v| > 0
    ensures |v| >= 2 ==> |g| == |v| - 1
  {
    if |v| == 0 then []
    else if |v| < 2 then [v]
    else seq(|v| - 1, i requires 0 <= i < |v| - 1 => v[i..i + 2])
  }

  /** `buildBigrams`, popup.js:54-60: the loop pushing into `grams`. */
  method BuildBigrams(v: string) returns (grams: seq<string>)
    ensures grams == Bigrams(v)
    ensures forall i :: 0 <= i < |grams| ==> |grams[i]| == if |v| == 1 then 1 else 2
  {
    if |v| == 0 {
      return [];
    }
    if |v| < 2 {
      return [v];
    }
    grams := [];
    var i := 0;
    while i < |v| - 1
      invariant 0 <= i <= |v| - 1
      invariant |grams| == i
      invariant forall k :: 0 <= k < i ==> grams[k] == v[k..k + 2]
    {
      grams := grams + [v[i..i + 2]];
      i := i + 1;
    }
  }

  /** A JavaScript number that is a quotient of naturals, kept exact. */
  datatype Ratio = Ratio(num: nat, den: nat)

  /** `value >= 0.9`. */
  predicate AtLeastNineTenths(r: Ratio) {
    10 * r.num >= 9 * r.den
  }

  /** Shared bigram occurrences, each consumed once: the size of the
      multiset intersection. */
  function Overlap(a: string, b: string): nat {
    |multiset(Bigrams(a)) * multiset(Bigrams(b))|
  }

  /** `diceCoefficient`, popup.js:62-78, as a value. */
  function Dice(a: string, b: string): (r: Ratio)
    ensures r.den > 0
    ensures a == [] || b == [] ==> r.num == 0
    ensures a == b && a != [] ==> r.num == r.den
  {
    if a == [] || b == [] then Ratio(0, 1)
    else if a == b then Ratio(1, 1)
    else Ratio(2 * Overlap(a, b), |Bigrams(a)| + |Bigrams(b)|)
  }

  /** The intersection is no larger than either operand. */
  lemma IntersectionBound<T>(x: multiset<T>, y: multiset<T>)
    ensures |x * y| <= |x| && |x * y| <= |y|
  {
    assert x == x * y + (x - y);
    assert y == x * y + (y - x);
  }

  /** The score never exceeds one. */
  lemma DiceBounded(a: string, b: string)
    ensures Dice(a, b).num <= Dice(a, b).den
  {
    if a != [] && b != [] && a != b {
      IntersectionBound(multiset(Bigrams(a)), multiset(Bigrams(b)));
    }
  }

  /** The score does not depend on the order of the arguments. */
  lemma DiceSymmetric(a: string, b: string)
    ensures Dice(a, b) == Dice(b, a)
  {
    var x, y := multiset(Bigrams(a)), multiset(Bigrams(b));
    assert x * y == y * x;
  }

  /** Number of occurrences `counts` records for `g` (`counts.get(g) || 0`). */
  function Count(counts: map<string, nat>, g: string): nat {
    if g in counts then counts[g] else 0
  }

  /** One more consumed occurrence of `g` grows the intersection exactly
      when `g` still has an unconsumed occurrence in `x`. */
  lemma IntersectionStep(x: multiset<string>, m: multiset<string>, g: string)
    ensures (x - m)[g] > 0 ==> x * (m + multiset{g}) == x * m + multiset{g}
    ensures (x - m)[g] == 0 ==> x * (m + multiset{g}) == x * m
    ensures x - (m + multiset{g}) == (x - m) - multiset{g}
  {
  }

  /** The first `forEach` of `diceCoefficient`, popup.js:68: counts the
      occurrences of each bigram of `a` in a map. */
  method CountBigrams(grams: seq<string>) returns (counts: map<string, nat>)
    ensures forall g :: Count(counts, g) == multiset(grams)[g]
  {
    counts := map[];
    var i := 0;
    while i < |grams|
      invariant 0 <= i <= |grams|
      invariant forall g :: Count(counts, g) == multiset(grams[..i])[g]
    {
      var gram := grams[i];
      assert grams[..i + 1] == grams[..i] + [gram];
      ghost var before := counts;
      counts := counts[gram := Count(counts, gram) + 1];
      forall g ensures Count(counts, g) == multiset(grams[..i + 1])[g] {
        assert Count(counts, g) == Count(before, g) + (if g == gram then 1 else 0);
      }
      i := i + 1;
    }
    assert grams[..i] == grams;
  }

  /** Consuming one occurrence of `g` from a map that counts what is left
      of `x` after `m`: the map then counts what is left after `m` and `g`,
      and the intersection grows by one exactly when an occurrence was left. */
  lemma ConsumeStep(counts: map<string, nat>, x: multiset<string>, m: multiset<string>, gram: string)
    requires forall g :: Count(counts, g) == (x - m)[g]
    ensures var count := Count(counts, gram);
      var after := if count > 0 then counts[gram := count - 1] else counts;
      && (forall g :: Count(after, g) == (x - (m + multiset{gram}))[g])
      && |x * (m + multiset{gram})| == |x * m| + (if count > 0 then 1 else 0)
  {
    IntersectionStep(x, m, gram);
    var count := Count(counts, gram);
    var after := if count > 0 then counts[gram := count - 1] else counts;
    forall g ensures Count(after, g) == (x - (m + multiset{gram}))[g] {
      assert Count(after, g) == if g == gram && count > 0 then Count(counts, g) - 1 else Count(counts, g);
    }
  }

  /** The second `forEach` of `diceCoefficient`, popup.js:69-76: each bigram
      of `b` still counted in the map is consumed and adds one to the
      overlap. */
  method ConsumeBigrams(counts0: map<string, nat>, ghost x: multiset<string>, grams: seq<string>) returns (overlap: nat)
    requires forall g :: Count(counts0, g) == x[g]
    ensures overlap == |x * multiset(grams)|
  {
    var counts := counts0;
    overlap := 0;
    var j := 0;
    while j < |grams|
      invariant 0 <= j <= |grams|
      invariant forall g :: Count(counts, g) == (x - multiset(grams[..j]))[g]
      invariant overlap == |x * multiset(grams[..j])|
    {
      var gram := grams[j];
      ghost var m := multiset(grams[..j]);
      assert multiset(grams[..j + 1]) == m + multiset{gram} by {
        assert grams[..j + 1] == grams[..j] + [gram];
      }
      ConsumeStep(counts, x, m, gram);
      var count := Count(counts, gram);
      if count > 0 {
        overlap := overlap + 1;
        counts := counts[gram := count - 1];
      }
      j := j + 1;
    }
    assert grams[..j] == grams;
  }

  /** `diceCoefficient`, popup.js:62-78. */
  method DiceCoefficient(a: string, b: string) returns (r: Ratio)
    ensures r == Dice(a, b)
  {
    if a == [] || b == [] {
      return Ratio(0, 1);
    }
    if a == b {
      return Ratio(1, 1);
    }
    var aBigrams := BuildBigrams(a);
    var bBigrams := BuildBigrams(b);
    var counts := CountBigrams(aBigrams);
    var overlap := ConsumeBigrams(counts, multiset(aBigrams), bBigrams);
    r := Ratio(2 * overlap, |aBigrams| + |bBigrams|);
  }
}
