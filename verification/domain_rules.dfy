/**
  The serving-time rule engine of app.py: the regressor's raw (happy, cheat)
  prediction is clipped into [1, 99], nudged by a fixed, ordered sequence of
  business rules read from one relationship row, and clipped again.
 */
module DomainRules {
  import opened Scores
  import opened Features

  /** The Body Count decision table: an if/elif/elif chain, so exactly one band
      applies to every count. */
  datatype Band = Extreme | Elevated | Low | Neutral

  function BandOf(bodyCount: int): (b: Band)
    ensures b == Extreme <==> bodyCount > 20
    ensures b == Elevated <==> 10 < bodyCount <= 20
    ensures b == Low <==> bodyCount < 3
    ensures b == Neutral <==> 3 <= bodyCount <= 10
  {
    if bodyCount > 20 then Extreme
    else if bodyCount > 10 then Elevated
    else if bodyCount < 3 then Low
    else Neutral
  }

  /** The Body Count step: a floor of 90 on cheat together with happy - 30, or
      a floor of 50, or cheat - 10, or nothing. */
  function BodyCountRule(bodyCount: int, s: Pair): (r: Pair)
    ensures bodyCount >= 3 ==> r.cheat >= s.cheat
    ensures bodyCount <= 20 ==> r.happy == s.happy
    ensures 3 <= bodyCount <= 10 ==> r == s
    ensures bodyCount > 20 ==> r.cheat >= 90.0 && r.happy == s.happy - 30.0
    ensures 10 < bodyCount <= 20 ==> r.cheat >= 50.0
    ensures bodyCount < 3 ==> r == s.(cheat := s.cheat - 10.0)
  {
    match BandOf(bodyCount)
    case Extreme => Pair(s.happy - 30.0, AtLeast(s.cheat, 90.0))
    case Elevated => s.(cheat := AtLeast(s.cheat, 50.0))
    case Low => s.(cheat := s.cheat - 10.0)
    case Neutral => s
  }

  /** The rule chain of `apply_domain_rules`, before its final clip. */
  function RuleChain(row: Row, happy: real, cheat: real): Pair {
    var s := Pair(happy, cheat);
    // Past pattern and attachment
    var s := Nudge(s, IsCasual(row), 0.0, 4.0);
    var s := Nudge(s, HasLowAttachment(row), 0.0, 3.0);
    var s := Nudge(s, HasHighAttachment(row), 12.0, -20.0);
    // Body count thresholds
    var s := BodyCountRule(row.bodyCount, s);
    // Prior infidelity
    var s := Nudge(s, row.historyOfInfidelity > 0, -15.0, 20.0);
    // Gentle positives
    var s := Nudge(s, row.trustParameter >= 9, 3.0, -2.0);
    var s := Nudge(s, IsKind(row), 2.0, -2.0);
    Nudge(s, row.timeTogetherPerWeek >= 25.0, 2.0, -1.0)
  }

  /** `apply_domain_rules(row, happy, cheat)`: the rule chain, then a clip of
      both scores into [1, 99]. */
  function ApplyDomainRules(row: Row, happy: real, cheat: real): (r: Pair)
    ensures PairInRange(r)
  {
    ClampPair(RuleChain(row, happy, cheat))
  }

  /** The `/predict` path: clip the regressor's raw output, then apply the rules. */
  function Predict(row: Row, raw: Pair): (r: Pair)
    ensures PairInRange(r)
    ensures PairInRange(raw) ==> r == ApplyDomainRules(row, raw.happy, raw.cheat)
  {
    var clipped := ClampPair(raw);
    ApplyDomainRules(row, clipped.happy, clipped.cheat)
  }

  // ---------------------------------------------------------------------
  // Net effect: an independent, closed-form reading of the rule chain.
  // Every happy step is additive, so happy is the base plus a sum of terms.
  // Cheat is shifted, raised to the Body Count floor, then shifted again.
  // ---------------------------------------------------------------------

  function ServingHappyDelta(row: Row): real {
    (if HasHighAttachment(row) then 12.0 else 0.0)
    + (if row.bodyCount > 20 then -30.0 else 0.0)
    + (if row.historyOfInfidelity > 0 then -15.0 else 0.0)
    + (if row.trustParameter >= 9 then 3.0 else 0.0)
    + (if IsKind(row) then 2.0 else 0.0)
    + (if row.timeTogetherPerWeek >= 25.0 then 2.0 else 0.0)
  }

  /** Cheat terms that act before the floor. The `-10` for a Body Count below 3
      belongs here: no floor applies in that band. */
  function ServingCheatShift(row: Row): real {
    (if IsCasual(row) then 4.0 else 0.0)
    + (if HasLowAttachment(row) then 3.0 else 0.0)
    + (if HasHighAttachment(row) then -20.0 else 0.0)
    + (if row.bodyCount < 3 then -10.0 else 0.0)
  }

  function ServingCheatFloor(row: Row): Floor {
    if row.bodyCount > 20 then FloorAt(90.0)
    else if 10 < row.bodyCount <= 20 then FloorAt(50.0)
    else NoFloor
  }

  /** Cheat terms that act after the floor. */
  function ServingCheatTail(row: Row): real {
    (if row.historyOfInfidelity > 0 then 20.0 else 0.0)
    + (if row.trustParameter >= 9 then -2.0 else 0.0)
    + (if IsKind(row) then -2.0 else 0.0)
    + (if row.timeTogetherPerWeek >= 25.0 then -1.0 else 0.0)
  }

  lemma ServingCheatTailBounds(row: Row)
    ensures -5.0 <= ServingCheatTail(row) <= 20.0
  {
  }

  lemma RuleChainHappy(row: Row, happy: real, cheat: real)
    ensures RuleChain(row, happy, cheat).happy == happy + ServingHappyDelta(row)
  {
  }

  lemma RuleChainCheat(row: Row, happy: real, cheat: real)
    ensures RuleChain(row, happy, cheat).cheat
         == Raise(cheat + ServingCheatShift(row), ServingCheatFloor(row)) + ServingCheatTail(row)
  {
    AttachmentExclusive(row);
  }

  /** The rule chain equals its closed form, for every row and base pair. */
  lemma DomainRulesNetEffect(row: Row, happy: real, cheat: real)
    ensures ApplyDomainRules(row, happy, cheat)
         == Pair(Clip(happy + ServingHappyDelta(row)),
                 Clip(Raise(cheat + ServingCheatShift(row), ServingCheatFloor(row)) + ServingCheatTail(row)))
  {
    RuleChainHappy(row, happy, cheat);
    RuleChainCheat(row, happy, cheat);
  }

  /** The happy output never depends on the base cheat. */
  lemma HappyIgnoresBaseCheat(row: Row, happy: real, cheat1: real, cheat2: real)
    ensures ApplyDomainRules(row, happy, cheat1).happy == ApplyDomainRules(row, happy, cheat2).happy
  {
    DomainRulesNetEffect(row, happy, cheat1);
    DomainRulesNetEffect(row, happy, cheat2);
  }

  /** The cheat output never depends on the base happy. */
  lemma CheatIgnoresBaseHappy(row: Row, happy1: real, happy2: real, cheat: real)
    ensures ApplyDomainRules(row, happy1, cheat).cheat == ApplyDomainRules(row, happy2, cheat).cheat
  {
    DomainRulesNetEffect(row, happy1, cheat);
    DomainRulesNetEffect(row, happy2, cheat);
  }

  /** Each output is monotone in its own base score. */
  lemma DomainRulesMonotone(row: Row, happy1: real, happy2: real, cheat1: real, cheat2: real)
    requires happy1 <= happy2 && cheat1 <= cheat2
    ensures ApplyDomainRules(row, happy1, cheat1).happy <= ApplyDomainRules(row, happy2, cheat2).happy
    ensures ApplyDomainRules(row, happy1, cheat1).cheat <= ApplyDomainRules(row, happy2, cheat2).cheat
  {
    DomainRulesNetEffect(row, happy1, cheat1);
    DomainRulesNetEffect(row, happy2, cheat2);
    ClipMonotone(happy1 + ServingHappyDelta(row), happy2 + ServingHappyDelta(row));
    var f := ServingCheatFloor(row);
    RaiseMonotone(cheat1 + ServingCheatShift(row), cheat2 + ServingCheatShift(row), f);
    ClipMonotone(Raise(cheat1 + ServingCheatShift(row), f) + ServingCheatTail(row),
                 Raise(cheat2 + ServingCheatShift(row), f) + ServingCheatTail(row));
  }

  /** With a Body Count above 20 the floor of 90 is set, but the trust, kind
      and time rules can still take off up to 5 points afterwards. */
  lemma ExtremeBodyCountCheatBound(row: Row, happy: real, cheat: real)
    requires row.bodyCount > 20
    ensures ApplyDomainRules(row, happy, cheat).cheat >= 85.0
  {
    DomainRulesNetEffect(row, happy, cheat);
    ServingCheatTailBounds(row);
  }

  /** The bound of 85 is reached: the final cheat is not always at least 90. */
  lemma ExtremeBodyCountCheatCanBe85()
    ensures ApplyDomainRules(Row(21, 0, 9, 5, 5, 5, 5, "", "", "kind", 25.0), 50.0, 1.0).cheat == 85.0
  {
    var row := Row(21, 0, 9, 5, 5, 5, 5, "", "", "kind", 25.0);
    ToLowerOfLower("kind");
    assert IsKind(row);
    DomainRulesNetEffect(row, 50.0, 1.0);
  }

  /** The Body Count bands at their boundaries. */
  lemma BodyCountBranches(s: Pair)
    ensures BodyCountRule(21, s) == Pair(s.happy - 30.0, AtLeast(s.cheat, 90.0))
    ensures BodyCountRule(20, s) == Pair(s.happy, AtLeast(s.cheat, 50.0))
    ensures BodyCountRule(11, s) == Pair(s.happy, AtLeast(s.cheat, 50.0))
    ensures forall n :: 3 <= n <= 10 ==> BodyCountRule(n, s) == s
    ensures BodyCountRule(2, s) == Pair(s.happy, s.cheat - 10.0)
  {
  }

  /** Letter case of the three string fields does not matter. */
  lemma DomainRulesIgnoreCase(a: Row, b: Row, happy: real, cheat: real)
    requires SameUpToCase(a, b)
    ensures ApplyDomainRules(a, happy, cheat) == ApplyDomainRules(b, happy, cheat)
  {
    SameUpToCaseTests(a, b);
  }

  /** A worked example: Body Count 25, prior infidelity, "high" attachment,
      "casual" past pattern, trust 9, "kind", 30 hours a week, base (60, 40). */
  lemma WorkedTrace()
    ensures ApplyDomainRules(Row(25, 1, 9, 5, 5, 5, 5, "high", "casual", "kind", 30.0), 60.0, 40.0)
         == Pair(34.0, 99.0)
  {
    var row := Row(25, 1, 9, 5, 5, 5, 5, "high", "casual", "kind", 30.0);
    ToLowerOfLower("high");
    ToLowerOfLower("casual");
    ToLowerOfLower("kind");
    assert HasHighAttachment(row) && IsCasual(row) && IsKind(row);
    DomainRulesNetEffect(row, 60.0, 40.0);
  }

  /** Clipping the final result again changes nothing. */
  lemma PredictIsClamped(row: Row, raw: Pair)
    ensures ClampPair(Predict(row, raw)) == Predict(row, raw)
  {
  }

  /** The clip before the rules matters: a raw cheat of 200 with "high"
      attachment ends at 79, not at 99 as it would without the pre-clip. */
  lemma PreClipMatters()
    ensures Predict(Row(5, 0, 5, 5, 5, 5, 5, "high", "", "", 0.0), Pair(50.0, 200.0)).cheat == 79.0
    ensures ApplyDomainRules(Row(5, 0, 5, 5, 5, 5, 5, "high", "", "", 0.0), 50.0, 200.0).cheat == 99.0
  {
    var row := Row(5, 0, 5, 5, 5, 5, 5, "high", "", "", 0.0);
    ToLowerOfLower("high");
    assert HasHighAttachment(row);
    DomainRulesNetEffect(row, 50.0, 200.0);
    DomainRulesNetEffect(row, 50.0, 99.0);
  }
}
