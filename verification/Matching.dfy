/** Matchers, scores and confidence (signature.rs and score.rs of crates/scanerr-fingerprint/src). */
module Matching {
  import opened Text
  import opened Evidence

  datatype Operator =
    | Contains | Icontains | Regex | Equals | Starts | Ends | HashEquals | Exists
    | NotContains | NotIcontains | NotRegex | NotEquals | NotStarts | NotEnds

  /**
   `(part as f64 / whole as f64 * 100.0) as u8` of a whole above zero, however
   the machine rounds: it grows with the part, and reaches 100 with the whole only.
   */
  ghost predicate Rounds(p: (nat, nat) -> nat) {
    forall a, b, w :: 0 < w && a <= b <= w ==> p(a, w) <= p(b, w) <= 100 && (p(b, w) == 100 <==> b == w)
  }

  function Truncated(part: nat, whole: nat): nat {
    if whole == 0 then 0 else (part as real / whole as real * 100.0).Floor
  }

  lemma RatioGrows(a: real, b: real, whole: real)
    requires 0.0 <= a <= b && whole > 0.0
    ensures 0.0 <= a / whole <= b / whole
    ensures a < b ==> a / whole < b / whole
  {
  }

  lemma WholeRatio(w: real)
    requires w > 0.0
    ensures w / w == 1.0
  {
  }

  lemma TruncatedRounds()
    ensures Rounds(Truncated)
  {
    forall a: nat, b: nat, w: nat | 0 < w && a <= b <= w
      ensures Truncated(a, w) <= Truncated(b, w) <= 100 && (Truncated(b, w) == 100 <==> b == w)
    {
      RatioGrows(a as real, b as real, w as real);
      RatioGrows(b as real, w as real, w as real);
      WholeRatio(w as real);
    }
  }

  type Percentage = p: (nat, nat) -> nat | Rounds(p) witness (TruncatedRounds(); Truncated)

  /** The libraries the matchers call: case folding, regular expressions, hash, number parsing, division. */
  datatype Library = Library(
    fold: Folding,
    valid: string -> bool,
    isMatch: (string, string) -> bool,
    hash: string -> int,
    number: string -> Option<int>,
    percent: Percentage)

  datatype MatcherDef = MatcherDef(field: string, op: Operator, value: string, weight: nat)

  datatype Matcher = Matcher(field: string, op: Operator, value: string, weight: nat, regex: Option<string>)

  function Compile(lib: Library, def: MatcherDef): Matcher {
    Matcher(def.field, def.op, def.value, def.weight,
            if (def.op.Regex? || def.op.NotRegex?) && lib.valid(def.value) then Some(def.value) else None)
  }

  predicate IsNegative(op: Operator) {
    match op
    case NotContains => true
    case NotIcontains => true
    case NotRegex => true
    case NotEquals => true
    case NotStarts => true
    case NotEnds => true
    case _ => false
  }

  predicate Hit(lib: Library, m: Matcher, values: seq<string>) {
    if values == [] then IsNegative(m.op)
    else
      match m.op
      case Contains => exists i :: 0 <= i < |values| && HasSubstring(values[i], m.value)
      case Icontains =>
        exists i :: 0 <= i < |values| && HasSubstring(lib.fold(values[i]), lib.fold(m.value))
      case Regex =>
        m.regex.Some? && exists i :: 0 <= i < |values| && lib.isMatch(m.regex.value, values[i])
      case Equals => exists i :: 0 <= i < |values| && values[i] == m.value
      case Starts => exists i :: 0 <= i < |values| && StartsWith(values[i], m.value)
      case Ends => exists i :: 0 <= i < |values| && EndsWith(values[i], m.value)
      case HashEquals =>
        exists i :: 0 <= i < |values| && lib.number(m.value) == Some(lib.hash(values[i]))
      case Exists => true
      case NotContains => !exists i :: 0 <= i < |values| && HasSubstring(values[i], m.value)
      case NotIcontains =>
        !exists i :: 0 <= i < |values| && HasSubstring(lib.fold(values[i]), lib.fold(m.value))
      case NotRegex =>
        m.regex.None? || !exists i :: 0 <= i < |values| && lib.isMatch(m.regex.value, values[i])
      case NotEquals => !exists i :: 0 <= i < |values| && values[i] == m.value
      case NotStarts => !exists i :: 0 <= i < |values| && StartsWith(values[i], m.value)
      case NotEnds => !exists i :: 0 <= i < |values| && EndsWith(values[i], m.value)
  }

  function Twin(op: Operator): Operator {
    match op
    case NotContains => Contains
    case NotIcontains => Icontains
    case NotRegex => Regex
    case NotEquals => Equals
    case NotStarts => Starts
    case NotEnds => Ends
    case _ => op
  }

  /** A negative operator says exactly the opposite of its twin, on no values and for a bad expression too. */
  lemma TwinComplement(lib: Library, def: MatcherDef, values: seq<string>)
    requires IsNegative(def.op)
    ensures Hit(lib, Compile(lib, def), values) == !Hit(lib, Compile(lib, def.(op := Twin(def.op))), values)
  {
    hide HasSubstring, StartsWith, EndsWith;
    match def.op
    case NotContains =>
    case NotIcontains =>
    case NotRegex =>
    case NotEquals =>
    case NotStarts =>
    case NotEnds =>
  }

  /** Every value of the one list is in the other. */
  predicate Within(a: seq<string>, b: seq<string>) {
    forall v :: v in a ==> v in b
  }

  /** A positive matcher that hits keeps hitting as values are added. */
  lemma HitGrows(lib: Library, m: Matcher, a: seq<string>, b: seq<string>)
    requires !IsNegative(m.op) && Within(a, b) && Hit(lib, m, a)
    ensures Hit(lib, m, b)
  {
    assert a[0] in b;
    forall i | 0 <= i < |a| ensures exists j :: 0 <= j < |b| && b[j] == a[i] {
      assert a[i] in b;
    }
  }

  ghost predicate Around(text: string, before: string, part: string, after: string) {
    text == before + part + after
  }

  lemma PartFrom(text: string, part: string, i: nat)
    requires i <= |text| && StartsWith(text[i..], part)
    ensures Around(text, text[..i], part, text[i..][|part|..])
  {
    var after := text[i..][|part|..];
    assert text[i..] == part + after && text == text[..i] + text[i..];
    ThreeParts(text[..i], part, after);
  }

  lemma AroundPart(text: string, before: string, part: string, after: string)
    requires Around(text, before, part, after)
    ensures |before| <= |text| && StartsWith(text[|before|..], part)
  {
    ThreeParts(before, part, after);
    assert text[|before|..] == part + after;
  }

  lemma PartInside(text: string, part: string)
    ensures HasSubstring(text, part) <==> exists before, after :: Around(text, before, part, after)
  {
    hide StartsWith, Around;
    if HasSubstring(text, part) {
      var i :| 0 <= i <= |text| && StartsWith(text[i..], part);
      PartFrom(text, part, i);
    }
    forall before, after | Around(text, before, part, after) ensures HasSubstring(text, part) {
      AroundPart(text, before, part, after);
    }
  }

  lemma PartAtStart(text: string, part: string)
    ensures StartsWith(text, part) <==> exists after :: Around(text, "", part, after)
  {
    if StartsWith(text, part) {
      assert text == part + text[|part|..] && "" + part == part;
      assert Around(text, "", part, text[|part|..]);
    }
    forall after | Around(text, "", part, after) ensures StartsWith(text, part) {
      assert "" + part == part && text == part + after;
    }
  }

  lemma PartAtEnd(text: string, part: string)
    ensures EndsWith(text, part) <==> exists before :: Around(text, before, part, "")
  {
    if EndsWith(text, part) {
      var before := text[..|text| - |part|];
      assert text == before + part && before + part + "" == before + part;
      assert Around(text, before, part, "");
    }
    forall before | Around(text, before, part, "") ensures EndsWith(text, part) {
      assert before + part + "" == before + part;
      assert text[|before|..] == part;
    }
  }

  /** What a positive operator asks of one value. */
  ghost predicate Meets(lib: Library, def: MatcherDef, v: string) {
    match def.op
    case Contains => exists before, after :: Around(v, before, def.value, after)
    case Icontains => exists before, after :: Around(lib.fold(v), before, lib.fold(def.value), after)
    case Starts => exists after :: Around(v, "", def.value, after)
    case Ends => exists before :: Around(v, before, def.value, "")
    case Equals => v == def.value
    case Regex => lib.valid(def.value) && lib.isMatch(def.value, v)
    case HashEquals => lib.number(def.value) == Some(lib.hash(v))
    case _ => true
  }

  /** A positive matcher hits when some value of its field meets it. */
  lemma HitMeans(lib: Library, def: MatcherDef, values: seq<string>)
    requires !IsNegative(def.op)
    ensures Hit(lib, Compile(lib, def), values) <==> exists v :: v in values && Meets(lib, def, v)
  {
    hide Meets, MetBy;
    SomeMeets(lib, def, values);
    hide Hit;
    forall v ensures MetBy(lib, def, v) <==> Meets(lib, def, v) {
      MeetsMeans(lib, def, v);
    }
    forall v | v in values && Meets(lib, def, v) ensures Hit(lib, Compile(lib, def), values) {
      var i :| 0 <= i < |values| && values[i] == v;
      assert MetBy(lib, def, values[i]);
    }
    if Hit(lib, Compile(lib, def), values) {
      var i :| 0 <= i < |values| && MetBy(lib, def, values[i]);
      assert values[i] in values && Meets(lib, def, values[i]);
    }
  }

  lemma SomeMeets(lib: Library, def: MatcherDef, values: seq<string>)
    requires !IsNegative(def.op)
    ensures Hit(lib, Compile(lib, def), values) <==> exists i :: 0 <= i < |values| && MetBy(lib, def, values[i])
  {
    hide HasSubstring, StartsWith, EndsWith;
    match def.op
    case Contains =>
    case Icontains =>
    case Regex =>
    case Equals =>
    case Starts =>
    case Ends =>
    case HashEquals =>
    case Exists =>
      if values != [] {
        assert MetBy(lib, def, values[0]);
      }
  }

  predicate MetBy(lib: Library, def: MatcherDef, v: string) {
    match def.op
    case Contains => HasSubstring(v, def.value)
    case Icontains => HasSubstring(lib.fold(v), lib.fold(def.value))
    case Starts => StartsWith(v, def.value)
    case Ends => EndsWith(v, def.value)
    case Equals => v == def.value
    case Regex => lib.valid(def.value) && lib.isMatch(def.value, v)
    case HashEquals => lib.number(def.value) == Some(lib.hash(v))
    case _ => true
  }

  lemma MeetsMeans(lib: Library, def: MatcherDef, v: string)
    ensures MetBy(lib, def, v) <==> Meets(lib, def, v)
  {
    hide HasSubstring, StartsWith, EndsWith, Around;
    match def.op
    case Contains => PartInside(v, def.value);
    case Icontains => PartInside(lib.fold(v), lib.fold(def.value));
    case Starts => PartAtStart(v, def.value);
    case Ends => PartAtEnd(v, def.value);
    case _ =>
  }

  // ─── Scores ───

  datatype Condition = Any | All

  datatype Signature = Signature(
    id: string, name: string, tags: seq<string>, priority: nat, condition: Condition, matchers: seq<Matcher>)

  function Sum(xs: seq<nat>): nat {
    if xs == [] then 0 else Sum(xs[..|xs| - 1]) + xs[|xs| - 1]
  }

  function Max(xs: seq<nat>): nat {
    if xs == [] then 0
    else
      var most := Max(xs[..|xs| - 1]);
      if xs[|xs| - 1] > most then xs[|xs| - 1] else most
  }

  function Weights(ms: seq<Matcher>): seq<nat> {
    if ms == [] then [] else Weights(ms[..|ms| - 1]) + [ms[|ms| - 1].weight]
  }

  predicate HitOn(lib: Library, m: Matcher, facts: Facts) {
    Hit(lib, m, Values(facts, m.field))
  }

  /** The weights of the matchers that hit. */
  function HitWeights(lib: Library, ms: seq<Matcher>, facts: Facts): seq<nat> {
    if ms == [] then []
    else
      var m := ms[|ms| - 1];
      HitWeights(lib, ms[..|ms| - 1], facts) + if HitOn(lib, m, facts) then [m.weight] else []
  }

  datatype MatchResult = MatchResult(id: string, score: nat, confidence: nat, matched: bool)

  /** A zero whole gives no number, and 0. */
  function Percent(lib: Library, part: nat, whole: nat): nat {
    if whole == 0 then 0 else lib.percent(part, whole)
  }

  predicate Matched(lib: Library, sig: Signature, facts: Facts) {
    var hits := |HitWeights(lib, sig.matchers, facts)|;
    if sig.condition.Any? then hits > 0 else hits == |sig.matchers|
  }

  function Score(lib: Library, sig: Signature, facts: Facts): nat {
    Sum(HitWeights(lib, sig.matchers, facts))
  }

  function Confidence(lib: Library, sig: Signature, facts: Facts): nat {
    var hits, all := HitWeights(lib, sig.matchers, facts), Weights(sig.matchers);
    if !Matched(lib, sig, facts) then 0
    else if sig.condition.Any? then Percent(lib, Max(hits), if all == [] then 1 else Max(all))
    else Percent(lib, Sum(hits), Sum(all))
  }

  function Evaluated(lib: Library, sig: Signature, facts: Facts): MatchResult {
    MatchResult(sig.id, Score(lib, sig, facts), Confidence(lib, sig, facts), Matched(lib, sig, facts))
  }

  lemma WeightsStep(ms: seq<Matcher>, i: nat)
    requires i < |ms|
    ensures Weights(ms[..i + 1]) == Weights(ms[..i]) + [ms[i].weight]
    ensures Sum(Weights(ms[..i + 1])) == Sum(Weights(ms[..i])) + ms[i].weight
    ensures Max(Weights(ms[..i + 1])) ==
      if ms[i].weight > Max(Weights(ms[..i])) then ms[i].weight else Max(Weights(ms[..i]))
  {
    assert ms[..i + 1][..i] == ms[..i];
    SumMaxSnoc(Weights(ms[..i]), ms[i].weight);
  }

  lemma SumMaxSnoc(xs: seq<nat>, x: nat)
    ensures Sum(xs + [x]) == Sum(xs) + x
    ensures Max(xs + [x]) == if x > Max(xs) then x else Max(xs)
  {
    assert (xs + [x])[..|xs|] == xs;
  }

  method TotalWeight(ms: seq<Matcher>) returns (total: nat, most: nat)
    ensures total == Sum(Weights(ms)) && most == Max(Weights(ms))
  {
    total, most := 0, 0;
    for i := 0 to |ms|
      invariant total == Sum(Weights(ms[..i])) && most == Max(Weights(ms[..i]))
    {
      WeightsStep(ms, i);
      total := total + ms[i].weight;
      if ms[i].weight > most {
        most := ms[i].weight;
      }
    }
    assert ms[..|ms|] == ms;
  }

  lemma HitWeightsStep(lib: Library, ms: seq<Matcher>, facts: Facts, i: nat)
    requires i < |ms|
    ensures HitWeights(lib, ms[..i + 1], facts) ==
      if HitOn(lib, ms[i], facts)
      then HitWeights(lib, ms[..i], facts) + [ms[i].weight] else HitWeights(lib, ms[..i], facts)
  {
    assert ms[..i + 1][..i] == ms[..i];
  }

  lemma HitSumsStep(lib: Library, ms: seq<Matcher>, facts: Facts, i: nat)
    requires i < |ms|
    ensures var before, after := HitWeights(lib, ms[..i], facts), HitWeights(lib, ms[..i + 1], facts);
      if HitOn(lib, ms[i], facts) then
        && Sum(after) == Sum(before) + ms[i].weight && |after| == |before| + 1
        && Max(after) == (if ms[i].weight > Max(before) then ms[i].weight else Max(before))
      else after == before
  {
    hide HitOn, Sum, Max, HitWeights;
    HitWeightsStep(lib, ms, facts, i);
    SumMaxSnoc(HitWeights(lib, ms[..i], facts), ms[i].weight);
  }

  lemma HitSumsStart(lib: Library, ms: seq<Matcher>, facts: Facts)
    ensures var none := HitWeights(lib, ms[..0], facts);
      Sum(none) == 0 && |none| == 0 && Max(none) == 0
  {
  }

  method AddHits(lib: Library, ms: seq<Matcher>, facts: Facts) returns (score: nat, count: nat, best: nat)
    ensures var hits := HitWeights(lib, ms, facts);
      score == Sum(hits) && count == |hits| && best == Max(hits)
  {
    hide HitOn, Sum, Max, HitWeights;
    score, count, best := 0, 0, 0;
    HitSumsStart(lib, ms, facts);
    for i := 0 to |ms|
      invariant var hits := HitWeights(lib, ms[..i], facts);
        score == Sum(hits) && count == |hits| && best == Max(hits)
    {
      HitSumsStep(lib, ms, facts, i);
      if HitOn(lib, ms[i], facts) {
        score := score + ms[i].weight;
        count := count + 1;
        if ms[i].weight > best {
          best := ms[i].weight;
        }
      }
    }
    assert ms[..|ms|] == ms;
  }

  method Evaluate(lib: Library, sig: Signature, facts: Facts) returns (r: MatchResult)
    ensures r == Evaluated(lib, sig, facts)
  {
    hide Sum, Max, HitWeights, Weights;
    var ms := sig.matchers;
    var score, count, best := AddHits(lib, ms, facts);
    var matched := if sig.condition.Any? then count > 0 else count == |ms|;
    var confidence := 0;
    WeightsLength(ms);
    if matched {
      var total, most := TotalWeight(ms);
      if sig.condition.Any? {
        confidence := Percent(lib, best, if ms == [] then 1 else most);
      } else if total > 0 {
        confidence := Percent(lib, score, total);
      }
    }
    r := MatchResult(sig.id, score, confidence, matched);
  }

  lemma {:induction false} WeightsLength(ms: seq<Matcher>)
    ensures |Weights(ms)| == |ms|
  {
    if ms != [] {
      WeightsLength(ms[..|ms| - 1]);
    }
  }

  /** The hits are some of the matchers: never more in number, sum or maximum. */
  lemma {:induction false} HitsBounded(lib: Library, ms: seq<Matcher>, facts: Facts)
    ensures var hits := HitWeights(lib, ms, facts);
      |hits| <= |ms| && Sum(hits) <= Sum(Weights(ms)) && Max(hits) <= Max(Weights(ms))
    ensures |HitWeights(lib, ms, facts)| == |ms| ==> HitWeights(lib, ms, facts) == Weights(ms)
  {
    if ms != [] {
      hide HitOn;
      var n := |ms| - 1;
      HitsBounded(lib, ms[..n], facts);
      assert ms[..n + 1] == ms;
      SumMaxSnoc(HitWeights(lib, ms[..n], facts), ms[n].weight);
      WeightsStep(ms, n);
      HitWeightsStep(lib, ms, facts, n);
      hide Sum, Max;
    }
  }

  lemma PercentBounds(lib: Library, part: nat, whole: nat)
    requires part <= whole
    ensures Percent(lib, part, whole) <= 100
    ensures Percent(lib, part, whole) == 100 <==> part == whole && whole > 0
  {
    assert Rounds(lib.percent);
  }

  /**
   Confidence is a percentage. It is 100 exactly for a match of all matchers
   with some weight, or of any when one of the heaviest, with some weight, hits.
   */
  lemma ConfidenceRange(lib: Library, sig: Signature, facts: Facts)
    ensures Confidence(lib, sig, facts) <= 100
    ensures Confidence(lib, sig, facts) == 100 <==>
      && Matched(lib, sig, facts)
      && Max(Weights(sig.matchers)) > 0
      && (sig.condition.Any? ==> Max(HitWeights(lib, sig.matchers, facts)) == Max(Weights(sig.matchers)))
  {
    var hits, all := HitWeights(lib, sig.matchers, facts), Weights(sig.matchers);
    HitsBounded(lib, sig.matchers, facts);
    WeightsLength(sig.matchers);
    SumPositive(all);
    PercentBounds(lib, Max(hits), Max(all));
    PercentBounds(lib, Sum(hits), Sum(all));
  }

  lemma {:induction false} SumPositive(xs: seq<nat>)
    ensures Sum(xs) > 0 <==> Max(xs) > 0
  {
    if xs != [] {
      SumPositive(xs[..|xs| - 1]);
    }
  }

  predicate AllHit(lib: Library, ms: seq<Matcher>, facts: Facts) {
    forall m :: m in ms ==> HitOn(lib, m, facts)
  }

  predicate AnyHit(lib: Library, ms: seq<Matcher>, facts: Facts) {
    exists m :: m in ms && HitOn(lib, m, facts)
  }

  lemma HitSnoc(lib: Library, ms: seq<Matcher>, m: Matcher, facts: Facts)
    ensures AllHit(lib, ms + [m], facts) <==> AllHit(lib, ms, facts) && HitOn(lib, m, facts)
    ensures AnyHit(lib, ms + [m], facts) <==> AnyHit(lib, ms, facts) || HitOn(lib, m, facts)
    ensures AllHit(lib, [], facts) && !AnyHit(lib, [], facts)
  {
    hide HitOn;
    assert m in ms + [m];
    assert forall x :: x in ms + [m] <==> x in ms || x == m;
  }

  lemma {:induction false} HitCount(lib: Library, ms: seq<Matcher>, facts: Facts)
    ensures |HitWeights(lib, ms, facts)| == |ms| <==> AllHit(lib, ms, facts)
    ensures HitWeights(lib, ms, facts) != [] <==> AnyHit(lib, ms, facts)
  {
    hide HitOn, AllHit, AnyHit, Weights, Sum, Max;
    if ms != [] {
      var n := |ms| - 1;
      var before := ms[..n];
      assert ms == before + [ms[n]];
      HitCount(lib, before, facts);
      HitsBounded(lib, before, facts);
      HitSnoc(lib, before, ms[n], facts);
    } else {
      HitSnoc(lib, [], Matcher("", Exists, "", 0, None), facts);
    }
  }

  /** What matching means: every matcher hits, or some matcher does. */
  lemma MatchedMeans(lib: Library, sig: Signature, facts: Facts)
    ensures Matched(lib, sig, facts) <==>
      if sig.condition.Any? then AnyHit(lib, sig.matchers, facts) else AllHit(lib, sig.matchers, facts)
  {
    hide AllHit, AnyHit;
    HitCount(lib, sig.matchers, facts);
  }

  /** Each matcher that hits adds its weight to the score, and no other does. */
  lemma ScoreAdds(lib: Library, sig: Signature, m: Matcher, facts: Facts)
    ensures var more := sig.(matchers := sig.matchers + [m]);
      Score(lib, more, facts) == Score(lib, sig, facts) + if HitOn(lib, m, facts) then m.weight else 0
    ensures sig.matchers == [] ==> Score(lib, sig, facts) == 0
  {
    var ms := sig.matchers;
    assert (ms + [m])[..|ms|] == ms;
    hide HitOn;
    assert HitWeights(lib, ms + [m], facts) == HitWeights(lib, ms, facts) + if HitOn(lib, m, facts) then [m.weight] else [];
    SumMaxSnoc(HitWeights(lib, ms, facts), m.weight);
    assert HitWeights(lib, ms, facts) + [] == HitWeights(lib, ms, facts);
    if ms == [] {
      NothingToHit(lib, ms, facts);
    }
  }

  lemma {:induction false} MaxAtMost(xs: seq<nat>, most: nat)
    requires forall i :: 0 <= i < |xs| ==> xs[i] <= most
    ensures Max(xs) <= most
  {
    if xs != [] {
      MaxAtMost(xs[..|xs| - 1], most);
    }
  }

  lemma {:induction false} MaxAtLeast(xs: seq<nat>, k: nat)
    requires k < |xs|
    ensures xs[k] <= Max(xs)
  {
    if k < |xs| - 1 {
      MaxAtLeast(xs[..|xs| - 1], k);
    }
  }

  lemma MaxIs(xs: seq<nat>, most: nat)
    requires most in xs && forall i :: 0 <= i < |xs| ==> xs[i] <= most
    ensures Max(xs) == most
  {
    var k :| 0 <= k < |xs| && xs[k] == most;
    MaxAtLeast(xs, k);
    MaxAtMost(xs, most);
  }

  lemma {:induction false} WeightsAre(lib: Library, ms: seq<Matcher>, facts: Facts, w: nat)
    ensures w in Weights(ms) <==> exists m :: m in ms && m.weight == w
    ensures w in HitWeights(lib, ms, facts) <==> exists m :: m in ms && m.weight == w && HitOn(lib, m, facts)
  {
    hide HitOn;
    if ms != [] {
      var n := |ms| - 1;
      WeightsAre(lib, ms[..n], facts, w);
      assert ms == ms[..n] + [ms[n]];
    }
  }

  /**
   The confidence of a signature that wants any of its matchers: the heaviest of
   those that hit as a percentage of the heaviest of all.
   */
  lemma AnyConfidence(lib: Library, sig: Signature, facts: Facts, best: Matcher, heaviest: Matcher)
    requires sig.condition.Any? && best in sig.matchers && heaviest in sig.matchers && HitOn(lib, best, facts)
    requires forall m :: m in sig.matchers && HitOn(lib, m, facts) ==> m.weight <= best.weight
    requires forall m :: m in sig.matchers ==> m.weight <= heaviest.weight
    ensures Confidence(lib, sig, facts) ==
      if heaviest.weight == 0 then 0 else lib.percent(best.weight, heaviest.weight)
  {
    hide HitOn, HitWeights, Weights, Max;
    var ms := sig.matchers;
    forall w ensures w in Weights(ms) <==> exists m :: m in ms && m.weight == w
      ensures w in HitWeights(lib, ms, facts) <==> exists m :: m in ms && m.weight == w && HitOn(lib, m, facts)
    {
      WeightsAre(lib, ms, facts, w);
    }
    forall i | 0 <= i < |HitWeights(lib, ms, facts)| ensures HitWeights(lib, ms, facts)[i] <= best.weight {
      assert HitWeights(lib, ms, facts)[i] in HitWeights(lib, ms, facts);
    }
    forall i | 0 <= i < |Weights(ms)| ensures Weights(ms)[i] <= heaviest.weight {
      assert Weights(ms)[i] in Weights(ms);
    }
    MaxIs(HitWeights(lib, ms, facts), best.weight);
    MaxIs(Weights(ms), heaviest.weight);
  }

  // ─── More evidence ───

  predicate Positive(ms: seq<Matcher>) {
    forall i :: 0 <= i < |ms| ==> !IsNegative(ms[i].op)
  }

  /** Every value of every field is still there. */
  ghost predicate MoreFacts(a: Facts, b: Facts) {
    forall key :: Within(Values(a, key), Values(b, key))
  }

  lemma {:induction false} HitsGrow(lib: Library, ms: seq<Matcher>, a: Facts, b: Facts)
    requires Positive(ms) && MoreFacts(a, b)
    ensures |HitWeights(lib, ms, a)| <= |HitWeights(lib, ms, b)|
    ensures Sum(HitWeights(lib, ms, a)) <= Sum(HitWeights(lib, ms, b))
    ensures Max(HitWeights(lib, ms, a)) <= Max(HitWeights(lib, ms, b))
  {
    if ms != [] {
      var n := |ms| - 1;
      var m := ms[n];
      HitsGrow(lib, ms[..n], a, b);
      SumMaxSnoc(HitWeights(lib, ms[..n], a), m.weight);
      SumMaxSnoc(HitWeights(lib, ms[..n], b), m.weight);
      assert ms[..n + 1] == ms;
      HitWeightsStep(lib, ms, a, n);
      HitWeightsStep(lib, ms, b, n);
      hide Sum, Max, HitWeights;
      if HitOn(lib, m, a) {
        HitGrows(lib, m, Values(a, m.field), Values(b, m.field));
      }
    }
  }

  lemma PercentGrows(lib: Library, a: nat, b: nat, whole: nat)
    requires a <= b <= whole
    ensures Percent(lib, a, whole) <= Percent(lib, b, whole)
  {
    assert Rounds(lib.percent);
  }

  /** A signature without negative operators loses neither match, score nor confidence as evidence grows. */
  lemma MoreEvidence(lib: Library, sig: Signature, a: Facts, b: Facts)
    requires Positive(sig.matchers) && MoreFacts(a, b)
    ensures Matched(lib, sig, a) ==> Matched(lib, sig, b)
    ensures Score(lib, sig, a) <= Score(lib, sig, b)
    ensures Confidence(lib, sig, a) <= Confidence(lib, sig, b)
  {
    hide HitWeights, Sum, Max, Weights, Positive, MoreFacts, Percent;
    var ms := sig.matchers;
    HitsGrow(lib, ms, a, b);
    HitsBounded(lib, ms, b);
    var all := Weights(ms);
    if all != [] {
      PercentGrows(lib, Max(HitWeights(lib, ms, a)), Max(HitWeights(lib, ms, b)), Max(all));
    } else {
      WeightsLength(ms);
      NothingToHit(lib, ms, a);
    }
    PercentGrows(lib, Sum(HitWeights(lib, ms, a)), Sum(HitWeights(lib, ms, b)), Sum(all));
  }

  lemma NothingToHit(lib: Library, ms: seq<Matcher>, facts: Facts)
    requires ms == []
    ensures HitWeights(lib, ms, facts) == []
  {
  }

  // ─── Matcher order ───

  lemma HitWeightsAppend(lib: Library, a: seq<Matcher>, b: seq<Matcher>, facts: Facts)
    ensures HitWeights(lib, a + b, facts) == HitWeights(lib, a, facts) + HitWeights(lib, b, facts)
    ensures Weights(a + b) == Weights(a) + Weights(b)
    decreases |b|
  {
    hide HitOn;
    if b == [] {
      assert a + b == a;
    } else {
      var n := |b| - 1;
      var m := b[n];
      assert (a + b)[..|a + b| - 1] == a + b[..n];
      HitWeightsAppend(lib, a, b[..n], facts);
      Regroup(Weights(a), Weights(b[..n]), [m.weight], []);
      assert Weights(a + b) == Weights(a) + Weights(b);
      hide Weights;
      if HitOn(lib, m, facts) {
        Regroup(HitWeights(lib, a, facts), HitWeights(lib, b[..n], facts), [m.weight], []);
      }
    }
  }

  lemma RemoveOne<A>(a: seq<A>, b: seq<A>, k: nat)
    requires multiset(a) == multiset(b) && a != [] && k < |b| && b[k] == a[|a| - 1]
    ensures multiset(a[..|a| - 1]) == multiset(b[..k] + b[k + 1..])
  {
    var n := |a| - 1;
    var p, q := b[..k], b[k + 1..];
    assert a == a[..n] + [a[n]];
    assert b == p + [b[k]] + q;
    assert multiset(a) == multiset(a[..n]) + multiset{a[n]};
    assert multiset(b) == multiset(p) + multiset{b[k]} + multiset(q);
    assert multiset(p + q) == multiset(p) + multiset(q);
    assert multiset(a[..n]) == multiset(a) - multiset{a[n]};
    assert multiset(p + q) == multiset(b) - multiset{b[k]};
  }

  lemma MatcherInMiddle(lib: Library, p: seq<Matcher>, m: Matcher, q: seq<Matcher>, facts: Facts)
    ensures multiset(HitWeights(lib, p + [m] + q, facts)) ==
      multiset(HitWeights(lib, p + q, facts)) + multiset(HitWeights(lib, [m], facts))
    ensures multiset(Weights(p + [m] + q)) == multiset(Weights(p + q)) + multiset(Weights([m]))
  {
    hide HitWeights, Weights;
    HitWeightsAppend(lib, p, [m], facts);
    HitWeightsAppend(lib, p + [m], q, facts);
    HitWeightsAppend(lib, p, q, facts);
  }

  /** The order of the matchers does not show in what is hit, nor in all the weights. */
  lemma {:induction false} SameMatchers(lib: Library, a: seq<Matcher>, b: seq<Matcher>, facts: Facts)
    requires multiset(a) == multiset(b)
    ensures multiset(HitWeights(lib, a, facts)) == multiset(HitWeights(lib, b, facts))
    ensures multiset(Weights(a)) == multiset(Weights(b))
    decreases |a|
  {
    hide HitWeights, Weights;
    if a == [] {
      assert |b| == |multiset(b)| == 0;
    } else {
      var n := |a| - 1;
      var m := a[n];
      assert m in multiset(b);
      var k :| 0 <= k < |b| && b[k] == m;
      RemoveOne(a, b, k);
      SameMatchers(lib, a[..n], b[..k] + b[k + 1..], facts);
      MatcherInMiddle(lib, b[..k], m, b[k + 1..], facts);
      assert b == b[..k] + [m] + b[k + 1..];
      assert a == a[..n] + [m];
      HitWeightsAppend(lib, a[..n], [m], facts);
    }
  }

  lemma SumMaxAppend(a: seq<nat>, b: seq<nat>)
    ensures Sum(a + b) == Sum(a) + Sum(b)
    ensures Max(a + b) == if Max(a) > Max(b) then Max(a) else Max(b)
    decreases |b|
  {
    if b == [] {
      assert a + b == a;
    } else {
      var n := |b| - 1;
      assert (a + b)[..|a + b| - 1] == a + b[..n];
      SumMaxAppend(a, b[..n]);
    }
  }

  lemma {:induction false} SameSumMax(a: seq<nat>, b: seq<nat>)
    requires multiset(a) == multiset(b)
    ensures |a| == |b| && Sum(a) == Sum(b) && Max(a) == Max(b)
    decreases |a|
  {
    hide Sum, Max;
    assert |a| == |multiset(a)| == |multiset(b)| == |b|;
    if a != [] {
      var n := |a| - 1;
      var x := a[n];
      assert a == a[..n] + [x];
      assert x in multiset(b);
      var k :| 0 <= k < |b| && b[k] == x;
      var less := b[..k] + b[k + 1..];
      assert b == b[..k] + [x] + b[k + 1..];
      RemoveOne(a, b, k);
      SameSumMax(a[..n], less);
      SumMaxSnoc(a[..n], x);
      SumMaxSnoc(b[..k], x);
      SumMaxAppend(b[..k] + [x], b[k + 1..]);
      SumMaxAppend(b[..k], b[k + 1..]);
    } else {
      assert b == [];
    }
  }

  /** Evaluation does not depend on the order of the matchers. */
  lemma MatcherOrder(lib: Library, sig: Signature, matchers: seq<Matcher>, facts: Facts)
    requires multiset(matchers) == multiset(sig.matchers)
    ensures Evaluated(lib, sig.(matchers := matchers), facts) == Evaluated(lib, sig, facts)
  {
    hide HitWeights, Weights, Sum, Max, Percent;
    SameMatchers(lib, matchers, sig.matchers, facts);
    assert |matchers| == |multiset(matchers)| == |sig.matchers|;
    SameSumMax(HitWeights(lib, matchers, facts), HitWeights(lib, sig.matchers, facts));
    SameSumMax(Weights(matchers), Weights(sig.matchers));
  }
}
