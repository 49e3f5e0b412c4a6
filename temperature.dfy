/**
 * The temperature lab of the distillation page: four fixed class scores
 * ("logits"), their softmax with temperature T expressed as percentages,
 * and the labels the page switches on as T rises.
 *
 * exp is a parameter: any function that is positive (and, for the ranking
 * results, strictly increasing; for the melting results also turning sums
 * into products) will do, as the real exponential is.
 */
module Temperature {
  import opened Rounding

  datatype ClassScore = ClassScore(name: string, score: real)

  /** The teacher's scores for a picture of a golden retriever. */
  const Classes: seq<ClassScore> := [
    ClassScore("Golden Retriever", 10.0),
    ClassScore("Tennis Ball", 6.0),
    ClassScore("Tabby Cat", 2.0),
    ClassScore("Sports Car", -5.0)
  ]

  /** The slider's range. */
  const MinTemperature: real := 1.0
  const MaxTemperature: real := 20.0

  ghost predicate Positive(exp: real -> real)
  {
    forall x :: exp(x) > 0.0
  }

  ghost predicate Increasing(exp: real -> real)
  {
    forall a, b :: a < b ==> exp(a) < exp(b)
  }

  predicate AllPositive(vs: seq<real>)
  {
    forall i :: 0 <= i < |vs| ==> vs[i] > 0.0
  }

  function Sum(vs: seq<real>): real
  {
    if vs == [] then 0.0 else vs[0] + Sum(vs[1..])
  }

  /** The map step: exp(score / T), one value per class, in class order. */
  function ExpValues(classes: seq<ClassScore>, temperature: real, exp: real -> real): (e: seq<real>)
    requires temperature != 0.0
    ensures |e| == |classes|
    ensures forall i :: 0 <= i < |e| ==> e[i] == exp(classes[i].score / temperature)
  {
    if classes == [] then []
    else [exp(classes[0].score / temperature)] + ExpValues(classes[1..], temperature, exp)
  }

  /** The last map step: each value as a percentage of total. */
  function Percentages(vs: seq<real>, total: real): (p: seq<real>)
    requires vs != [] ==> total != 0.0
    ensures |p| == |vs|
    ensures forall i :: 0 <= i < |p| ==> p[i] == vs[i] / total * 100.0
  {
    if vs == [] then []
    else [vs[0] / total * 100.0] + Percentages(vs[1..], total)
  }

  /** A sum of positive values is positive, at least each term, and above each term once there are two. */
  lemma {:induction false} SumBounds(vs: seq<real>)
    requires AllPositive(vs)
    ensures vs != [] ==> Sum(vs) > 0.0
    ensures forall i :: 0 <= i < |vs| ==> vs[i] <= Sum(vs)
    ensures |vs| >= 2 ==> forall i :: 0 <= i < |vs| ==> vs[i] < Sum(vs)
  {
    if vs != [] {
      var tail := vs[1..];
      assert AllPositive(tail) by {
        forall i | 0 <= i < |tail| ensures tail[i] > 0.0 {
          assert tail[i] == vs[i + 1];
        }
      }
      SumBounds(tail);
      assert Sum(vs) == vs[0] + Sum(tail);
      forall i | 1 <= i < |vs| ensures vs[i] < Sum(vs) {
        assert vs[i] == tail[i - 1];
      }
    }
  }

  /** The softmax percentages, computed the way the page does: no max-subtraction. */
  function Probabilities(classes: seq<ClassScore>, temperature: real, exp: real -> real): (p: seq<real>)
    requires temperature > 0.0 && Positive(exp)
    ensures |p| == |classes|
    ensures forall i :: 0 <= i < |p| ==> p[i] > 0.0
  {
    var e := ExpValues(classes, temperature, exp);
    SumBounds(e);
    Percentages(e, Sum(e))
  }

  lemma PercentAdd(a: real, b: real, total: real)
    requires total != 0.0
    ensures a / total * 100.0 + b / total * 100.0 == (a + b) / total * 100.0
  {
    var x, y := a / total, b / total;
    assert total * x == a && total * y == b;
    assert total * (x + y) == a + b;
  }

  /** Converting to percentages commutes with summing. */
  lemma {:induction false} SumPercentages(vs: seq<real>, total: real)
    requires total != 0.0
    ensures Sum(Percentages(vs, total)) == Sum(vs) / total * 100.0
  {
    if vs != [] {
      SumPercentages(vs[1..], total);
      PercentAdd(vs[0], Sum(vs[1..]), total);
    }
  }

  lemma FractionBounds(v: real, total: real)
    requires 0.0 < v < total
    ensures 0.0 < v / total * 100.0 < 100.0
  {
    var f := v / total;
    assert total * f == v;
    ScaleOrder(0.0, f, total);
    ScaleOrder(f, 1.0, total);
  }

  /** The percentages always add up to 100, whatever the temperature. */
  lemma ProbabilitiesSum(classes: seq<ClassScore>, temperature: real, exp: real -> real)
    requires temperature > 0.0 && Positive(exp) && classes != []
    ensures Sum(Probabilities(classes, temperature, exp)) == 100.0
  {
    var e := ExpValues(classes, temperature, exp);
    SumBounds(e);
    SumPercentages(e, Sum(e));
    assert Sum(e) / Sum(e) == 1.0;
  }

  /** With two or more classes every percentage lies strictly between 0 and 100; a single class gets all 100. */
  lemma ProbabilitiesInRange(classes: seq<ClassScore>, temperature: real, exp: real -> real)
    requires temperature > 0.0 && Positive(exp)
    ensures var p := Probabilities(classes, temperature, exp);
            (|classes| >= 2 ==> forall i :: 0 <= i < |p| ==> 0.0 < p[i] < 100.0) &&
            (|classes| == 1 ==> p == [100.0])
  {
    var e := ExpValues(classes, temperature, exp);
    SumBounds(e);
    var p := Probabilities(classes, temperature, exp);
    if |classes| >= 2 {
      forall i | 0 <= i < |p| ensures 0.0 < p[i] < 100.0 {
        FractionBounds(e[i], Sum(e));
      }
    }
    if |classes| == 1 {
      assert e[1..] == [];
      assert Sum(e) == e[0];
      assert e[0] / e[0] == 1.0;
      assert p[0] == 100.0;
    }
  }

  lemma DivideOrder(a: real, b: real, d: real)
    requires d > 0.0
    ensures a < b <==> a / d < b / d
  {
    var x, y := a / d, b / d;
    assert d * x == a && d * y == b;
    ScaleOrder(x, y, d);
  }

  /**
   * Softmax keeps the ranking of the scores at every positive temperature:
   * a higher score gets a strictly higher percentage, and only a higher
   * score does.
   */
  lemma RankPreserved(classes: seq<ClassScore>, temperature: real, exp: real -> real, i: int, j: int)
    requires temperature > 0.0 && Positive(exp) && Increasing(exp)
    requires 0 <= i < |classes| && 0 <= j < |classes|
    ensures var p := Probabilities(classes, temperature, exp);
            classes[i].score < classes[j].score <==> p[i] < p[j]
  {
    var e := ExpValues(classes, temperature, exp);
    SumBounds(e);
    var a, b := classes[i].score / temperature, classes[j].score / temperature;
    DivideOrder(classes[i].score, classes[j].score, temperature);
    assert a < b <==> exp(a) < exp(b) by {
      if b <= a {
        assert exp(b) <= exp(a) by {
          if b < a {
            assert exp(b) < exp(a);
          }
        }
      }
    }
    DivideOrder(e[i], e[j], Sum(e));
    ScaleOrder(e[i] / Sum(e), e[j] / Sum(e), 100.0);
  }

  /** On the page's four classes the percentages are ordered as the scores are. */
  lemma ClassesRanked(temperature: real, exp: real -> real)
    requires temperature > 0.0 && Positive(exp) && Increasing(exp)
    ensures var p := Probabilities(Classes, temperature, exp);
            |p| == 4 && p[3] < p[2] < p[1] < p[0] < 100.0
  {
    RankPreserved(Classes, temperature, exp, 1, 0);
    RankPreserved(Classes, temperature, exp, 2, 1);
    RankPreserved(Classes, temperature, exp, 3, 2);
    ProbabilitiesInRange(Classes, temperature, exp);
  }

  // ---------------------------------------------------------------------------
  // Melting: raising T flattens the distribution
  // ---------------------------------------------------------------------------

  ghost function Plus(a: real, b: real): real
  {
    a + b
  }

  /** exp turns sums into products, as the real exponential does. */
  ghost predicate Multiplicative(exp: real -> real)
  {
    forall a, b {:trigger Plus(a, b)} :: exp(Plus(a, b)) == exp(a) * exp(b)
  }

  /** exp(c / T): the weight of a class c points of score away from a reference class, relative to it. */
  function Relative(exp: real -> real, c: real, temperature: real): real
    requires temperature != 0.0
  {
    exp(c / temperature)
  }

  lemma Factor(exp: real -> real, s: real, r: real, temperature: real)
    requires Multiplicative(exp) && temperature != 0.0
    ensures exp(s / temperature) == Relative(exp, s - r, temperature) * exp(r / temperature)
  {
    var a, b := (s - r) / temperature, r / temperature;
    assert temperature * a == s - r && temperature * b == r;
    assert temperature * (a + b) == s;
    assert Plus(a, b) == s / temperature;
  }

  lemma SumOfFour(vs: seq<real>)
    requires |vs| == 4
    ensures Sum(vs) == vs[0] + vs[1] + vs[2] + vs[3]
  {
    assert vs[3..][1..] == [];
    assert Sum(vs[3..]) == vs[3];
    assert vs[2..][1..] == vs[3..];
    assert Sum(vs[2..]) == vs[2] + vs[3];
    assert vs[1..][1..] == vs[2..];
  }

  /** A reference value a against three others r_i a: its percentage is 100 / (1 + r1 + r2 + r3). */
  lemma ShareOfOne(a: real, r1: real, r2: real, r3: real)
    requires a > 0.0 && r1 > 0.0 && r2 > 0.0 && r3 > 0.0
    ensures a / (a + r1 * a + r2 * a + r3 * a) * 100.0 == 100.0 / (1.0 + r1 + r2 + r3)
  {
    var d := 1.0 + r1 + r2 + r3;
    assert a + r1 * a + r2 * a + r3 * a == a * d;
    var m := a * d;
    assert m > 0.0;
    var q := a / m;
    assert q * m == a;
    assert q * m == a * (d * q);
    assert a * (d * q - 1.0) == 0.0;
    assert d * q == 1.0;
    assert q * 100.0 == 100.0 / d;
  }

  /** The top class's percentage: 100 / (1 + e^(-4/T) + e^(-8/T) + e^(-15/T)). */
  lemma TopShare(exp: real -> real, temperature: real)
    requires temperature > 0.0 && Positive(exp) && Multiplicative(exp)
    ensures Probabilities(Classes, temperature, exp)[0]
            == 100.0 / (1.0 + Relative(exp, -4.0, temperature) + Relative(exp, -8.0, temperature)
                            + Relative(exp, -15.0, temperature))
  {
    var e := ExpValues(Classes, temperature, exp);
    SumOfFour(e);
    Factor(exp, 6.0, 10.0, temperature);
    Factor(exp, 2.0, 10.0, temperature);
    Factor(exp, -5.0, 10.0, temperature);
    ShareOfOne(e[0], Relative(exp, -4.0, temperature), Relative(exp, -8.0, temperature),
               Relative(exp, -15.0, temperature));
  }

  /** The bottom class's percentage: 100 / (1 + e^(15/T) + e^(11/T) + e^(7/T)). */
  lemma BottomShare(exp: real -> real, temperature: real)
    requires temperature > 0.0 && Positive(exp) && Multiplicative(exp)
    ensures Probabilities(Classes, temperature, exp)[3]
            == 100.0 / (1.0 + Relative(exp, 15.0, temperature) + Relative(exp, 11.0, temperature)
                            + Relative(exp, 7.0, temperature))
  {
    var e := ExpValues(Classes, temperature, exp);
    SumOfFour(e);
    Factor(exp, 10.0, -5.0, temperature);
    Factor(exp, 6.0, -5.0, temperature);
    Factor(exp, 2.0, -5.0, temperature);
    ShareOfOne(e[3], Relative(exp, 15.0, temperature), Relative(exp, 11.0, temperature),
               Relative(exp, 7.0, temperature));
  }

  /** Dividing by a larger positive number moves c / T toward 0 from either side. */
  lemma DivideByGrowing(c: real, t1: real, t2: real)
    requires 0.0 < t1 < t2
    ensures c < 0.0 ==> c / t1 < c / t2
    ensures c > 0.0 ==> c / t2 < c / t1
  {
    var x, y := c / t1, c / t2;
    assert t1 * x == c && t2 * y == c;
    if c < 0.0 {
      ScaleOrder(t1, t2, -y);
      ScaleOrder(x, y, t1);
    } else if c > 0.0 {
      ScaleOrder(t1, t2, y);
      ScaleOrder(y, x, t1);
    }
  }

  lemma ReciprocalOrder(d1: real, d2: real)
    requires 0.0 < d1 < d2
    ensures 100.0 / d2 < 100.0 / d1
  {
    var x, y := 100.0 / d1, 100.0 / d2;
    assert d1 * x == 100.0 && d2 * y == 100.0;
    ScaleOrder(d1, d2, y);
    ScaleOrder(y, x, d1);
  }

  /**
   * Melting, for the top class: as the temperature rises, the golden
   * retriever's percentage strictly falls.
   */
  lemma TopClassMelts(exp: real -> real, t1: real, t2: real)
    requires Positive(exp) && Increasing(exp) && Multiplicative(exp)
    requires 0.0 < t1 < t2
    ensures Probabilities(Classes, t2, exp)[0] < Probabilities(Classes, t1, exp)[0]
  {
    TopShare(exp, t1);
    TopShare(exp, t2);
    DivideByGrowing(-4.0, t1, t2);
    DivideByGrowing(-8.0, t1, t2);
    DivideByGrowing(-15.0, t1, t2);
    ReciprocalOrder(1.0 + Relative(exp, -4.0, t1) + Relative(exp, -8.0, t1) + Relative(exp, -15.0, t1),
                    1.0 + Relative(exp, -4.0, t2) + Relative(exp, -8.0, t2) + Relative(exp, -15.0, t2));
  }

  /**
   * Melting, for the bottom class: as the temperature rises, the sports
   * car's percentage strictly rises.
   */
  lemma BottomClassRises(exp: real -> real, t1: real, t2: real)
    requires Positive(exp) && Increasing(exp) && Multiplicative(exp)
    requires 0.0 < t1 < t2
    ensures Probabilities(Classes, t1, exp)[3] < Probabilities(Classes, t2, exp)[3]
  {
    BottomShare(exp, t1);
    BottomShare(exp, t2);
    DivideByGrowing(15.0, t1, t2);
    DivideByGrowing(11.0, t1, t2);
    DivideByGrowing(7.0, t1, t2);
    ReciprocalOrder(1.0 + Relative(exp, 15.0, t2) + Relative(exp, 11.0, t2) + Relative(exp, 7.0, t2),
                    1.0 + Relative(exp, 15.0, t1) + Relative(exp, 11.0, t1) + Relative(exp, 7.0, t1));
  }

  /** The "Dark Knowledge Revealed" badge: never up at the slider's starting temperature. */
  predicate DarkKnowledgeRevealed(temperature: real)
    ensures DarkKnowledgeRevealed(temperature) ==> MinTemperature < temperature
  {
    temperature > 1.5
  }

  /** The insight box switches from hard to soft targets, and only ever while the badge is up. */
  predicate SoftTargets(temperature: real)
    ensures SoftTargets(temperature) ==> DarkKnowledgeRevealed(temperature)
  {
    !(temperature < 2.0)
  }

  /** The badge shows without the soft-target text only on (1.5, 2); at the initial T = 1 neither shows. */
  lemma LabelsConsistent(temperature: real)
    ensures DarkKnowledgeRevealed(temperature) && !SoftTargets(temperature) <==> 1.5 < temperature < 2.0
    ensures !DarkKnowledgeRevealed(MinTemperature) && !SoftTargets(MinTemperature)
  {
  }

  /** Width in percent of the grey bar behind a raw score: (score + 10) / 25 of the track, never negative. */
  function LogitBarWidth(score: real): (w: real)
    ensures w >= 0.0
    ensures score <= 15.0 ==> w <= 100.0
    ensures score <= -10.0 <==> w == 0.0
  {
    Max(0.0, (score + 10.0) / 25.0 * 100.0)
  }

  /** The page's four bars, and their order. */
  lemma LogitBarsOfClasses()
    ensures LogitBarWidth(Classes[0].score) == 80.0
    ensures LogitBarWidth(Classes[1].score) == 64.0
    ensures LogitBarWidth(Classes[2].score) == 48.0
    ensures LogitBarWidth(Classes[3].score) == 20.0
  {
  }

  /** The lab's only state: the temperature, set by the slider. */
  class TemperatureLab {
    var temperature: real

    ghost predicate Valid()
      reads this
    {
      MinTemperature <= temperature <= MaxTemperature
    }

    constructor ()
      ensures temperature == 1.0 && Valid()
    {
      temperature := 1.0;
    }

    /** The slider only produces values in [1, 20]. */
    method SetTemperature(t: real)
      requires MinTemperature <= t <= MaxTemperature
      modifies this
      ensures temperature == t && Valid()
    {
      temperature := t;
    }

    /** The bars: four percentages, each strictly between 0 and 100, adding up to 100. */
    function Bars(exp: real -> real): (p: seq<real>)
      reads this
      requires Valid() && Positive(exp)
      ensures |p| == 4 && Sum(p) == 100.0
      ensures forall i :: 0 <= i < 4 ==> 0.0 < p[i] < 100.0
    {
      ProbabilitiesSum(Classes, temperature, exp);
      ProbabilitiesInRange(Classes, temperature, exp);
      Probabilities(Classes, temperature, exp)
    }
  }
}
