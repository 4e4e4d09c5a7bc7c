/**
  The training-time label rules of train_model.py: a copy of the historical
  table whose two raw label columns, "Chances of Happy Marriage %" and
  "Chances of Cheating %", are adjusted by a fixed sequence of masked column
  updates and finally clipped into [1, 99].

  Every masked update reads only feature columns of its own row and writes
  one label column of that row, so the table operation is modelled directly
  as a map of one per-row function over the rows. This rule set is deliberately different
  from the serving-time one in DomainRules; the two are kept apart.
 */
module LabelRules {
  import opened Scores
  import opened Features

  /** A historical row: its features and its two label columns. */
  datatype LabelledRow = LabelledRow(features: Row, labels: Pair)

  // The three Body Count masks of the label rules.
  predicate ExtremeMask(bodyCount: int) { bodyCount > 20 }
  predicate ElevatedMask(bodyCount: int) { bodyCount > 10 && bodyCount <= 20 }
  predicate LowMask(bodyCount: int) { bodyCount < 3 }

  /** The Body Count statements: three independent masks, a floor of 90 on
      cheat with happy - 30 above 20, a floor of 50 in (10, 20], and cheat - 10
      below 3. */
  function LabelBodyCountRules(bodyCount: int, s: Pair): (r: Pair)
    ensures 3 <= bodyCount <= 10 ==> r == s
    ensures bodyCount > 20 ==> r.cheat >= 90.0
    ensures 10 < bodyCount <= 20 ==> r.cheat >= 50.0
    ensures bodyCount >= 3 ==> r.cheat >= s.cheat
  {
    var s := FloorCheat(s, ExtremeMask(bodyCount), 90.0);
    var s := Nudge(s, ExtremeMask(bodyCount), -30.0, 0.0);
    var s := FloorCheat(s, ElevatedMask(bodyCount), 50.0);
    Nudge(s, LowMask(bodyCount), 0.0, -10.0)
  }

  /** The masked updates of `apply_label_rules` on one row, in source order,
      before the final clip. */
  function LabelChain(f: Row, s: Pair): Pair {
    // Attachment rules
    var s := Nudge(s, HasLowAttachment(f), 0.0, 3.0);
    var s := Nudge(s, HasHighAttachment(f), 0.0, -15.0);
    var s := Nudge(s, HasHighAttachment(f), 8.0, 0.0);
    // Past pattern
    var s := Nudge(s, IsCasual(f), 0.0, 4.0);
    // Body count hard constraints
    var s := LabelBodyCountRules(f.bodyCount, s);
    // Prior infidelity
    var s := Nudge(s, f.historyOfInfidelity > 0, 0.0, 20.0);
    var s := Nudge(s, f.historyOfInfidelity > 0, -15.0, 0.0);
    // Trust and stability
    var s := Nudge(s, f.trustParameter >= 9, 4.0, 0.0);
    var s := Nudge(s, f.trustParameter <= 3, 0.0, 6.0);
    var s := Nudge(s, f.emotionalStability >= 8, 3.0, 0.0);
    var s := Nudge(s, f.emotionalStability <= 3, 0.0, 8.0);
    var s := Nudge(s, f.emotionalStability <= 3, -6.0, 0.0);
    // Caring, Loving and Efforts nudges, on every row
    var s := Nudge(s, true, 0.1 * ((f.caring - 5) as real), 0.0);
    var s := Nudge(s, true, 0.1 * ((f.loving - 5) as real), 0.0);
    Nudge(s, true, 0.15 * ((f.efforts - 5) as real), 0.0)
  }

  /** The labels of one row: the masked updates, then both columns clipped. */
  function LabelScores(f: Row, s: Pair): (r: Pair)
    ensures PairInRange(r)
  {
    ClampPair(LabelChain(f, s))
  }

  /** The label rules applied to one row; its features are left alone. */
  function LabelRow(r: LabelledRow): (r': LabelledRow)
    ensures r'.features == r.features
    ensures PairInRange(r'.labels)
  {
    LabelledRow(r.features, LabelScores(r.features, r.labels))
  }

  /** `apply_label_rules(df)` on a copy of the table: the row count and order
      and every feature column are kept, each row's labels are the label rules
      of that row alone, and every label ends in [1, 99]. */
  function ApplyLabelRules(t: seq<LabelledRow>): (t': seq<LabelledRow>)
    ensures |t'| == |t|
    ensures forall i :: 0 <= i < |t| ==> t'[i] == LabelRow(t[i])
    ensures forall i :: 0 <= i < |t| ==> t'[i].features == t[i].features
    ensures forall i :: 0 <= i < |t| ==> PairInRange(t'[i].labels)
  {
    if t == [] then [] else [LabelRow(t[0])] + ApplyLabelRules(t[1..])
  }

  /** Rows do not influence each other: labelling two tables one after the
      other is labelling their concatenation. */
  lemma {:induction false} ApplyLabelRulesConcat(a: seq<LabelledRow>, b: seq<LabelledRow>)
    ensures ApplyLabelRules(a + b) == ApplyLabelRules(a) + ApplyLabelRules(b)
  {
    if a != [] {
      assert (a + b)[1..] == a[1..] + b;
      ApplyLabelRulesConcat(a[1..], b);
    }
  }

  /** A row's labels depend on that row alone, not on its neighbours. */
  lemma RowwiseIndependent(t1: seq<LabelledRow>, t2: seq<LabelledRow>, i: int, j: int)
    requires 0 <= i < |t1| && 0 <= j < |t2| && t1[i] == t2[j]
    ensures ApplyLabelRules(t1)[i] == ApplyLabelRules(t2)[j]
  {
  }

  // ---------------------------------------------------------------------
  // Net effect of the label rules on one row, in closed form.
  // ---------------------------------------------------------------------

  /** Happy terms from the discrete rules. */
  function LabelHappyRuleTerms(f: Row): real {
    (if HasHighAttachment(f) then 8.0 else 0.0)
    + (if f.bodyCount > 20 then -30.0 else 0.0)
    + (if f.historyOfInfidelity > 0 then -15.0 else 0.0)
    + (if f.trustParameter >= 9 then 4.0 else 0.0)
    + (if f.emotionalStability >= 8 then 3.0 else 0.0)
    + (if f.emotionalStability <= 3 then -6.0 else 0.0)
  }

  /** Happy terms from the continuous Caring, Loving and Efforts nudges. */
  function CareTerms(f: Row): real {
    0.1 * ((f.caring - 5) as real) + 0.1 * ((f.loving - 5) as real) + 0.15 * ((f.efforts - 5) as real)
  }

  /** Cheat terms before the Body Count floor. The `-10` of a Body Count below
      3 meets no floor, so it belongs here. */
  function LabelCheatShift(f: Row): real {
    (if HasLowAttachment(f) then 3.0 else 0.0)
    + (if HasHighAttachment(f) then -15.0 else 0.0)
    + (if IsCasual(f) then 4.0 else 0.0)
    + (if f.bodyCount < 3 then -10.0 else 0.0)
  }

  function LabelCheatFloor(f: Row): Floor {
    if f.bodyCount > 20 then FloorAt(90.0)
    else if 10 < f.bodyCount <= 20 then FloorAt(50.0)
    else NoFloor
  }

  /** Cheat terms after the floor. */
  function LabelCheatTail(f: Row): real {
    (if f.historyOfInfidelity > 0 then 20.0 else 0.0)
    + (if f.trustParameter <= 3 then 6.0 else 0.0)
    + (if f.emotionalStability <= 3 then 8.0 else 0.0)
  }

  /** No cheat change after the Body Count floor is negative. */
  lemma LabelCheatTailNonNegative(f: Row)
    ensures 0.0 <= LabelCheatTail(f) <= 34.0
  {
  }

  /** Before the clip, happy is the base plus the discrete rule terms plus
      `0.1 * (Caring - 5) + 0.1 * (Loving - 5) + 0.15 * (Efforts - 5)`. */
  lemma LabelChainHappy(f: Row, s: Pair)
    ensures LabelChain(f, s).happy == s.happy + LabelHappyRuleTerms(f) + CareTerms(f)
  {
  }

  /** The Body Count statements in closed form: since the masks are disjoint,
      at most one of the floors or the `-10` applies. */
  lemma LabelBodyCountNetEffect(f: Row, s: Pair)
    ensures LabelBodyCountRules(f.bodyCount, s)
         == Pair(s.happy + (if f.bodyCount > 20 then -30.0 else 0.0),
                 Raise(s.cheat + (if f.bodyCount < 3 then -10.0 else 0.0), LabelCheatFloor(f)))
  {
  }

  /** Before the clip, cheat is shifted, raised to the Body Count floor, and
      shifted again by non-negative terms. */
  lemma LabelChainCheat(f: Row, s: Pair)
    ensures LabelChain(f, s).cheat
         == Raise(s.cheat + LabelCheatShift(f), LabelCheatFloor(f)) + LabelCheatTail(f)
  {
    AttachmentExclusive(f);
    var s1 := Nudge(s, HasLowAttachment(f), 0.0, 3.0);
    var s2 := Nudge(s1, HasHighAttachment(f), 0.0, -15.0);
    var s3 := Nudge(s2, HasHighAttachment(f), 8.0, 0.0);
    var s4 := Nudge(s3, IsCasual(f), 0.0, 4.0);
    assert s4.cheat + (if f.bodyCount < 3 then -10.0 else 0.0) == s.cheat + LabelCheatShift(f);
    LabelBodyCountNetEffect(f, s4);
  }

  /** The label rules of one row equal their closed form. */
  lemma LabelNetEffect(f: Row, s: Pair)
    ensures LabelScores(f, s)
         == Pair(Clip(s.happy + LabelHappyRuleTerms(f) + CareTerms(f)),
                 Clip(Raise(s.cheat + LabelCheatShift(f), LabelCheatFloor(f)) + LabelCheatTail(f)))
  {
    LabelChainHappy(f, s);
    LabelChainCheat(f, s);
  }

  /** With a Body Count above 20 the final label cheat is at least 90: every
      later cheat change is non-negative and the upper clip is 99. */
  lemma LabelExtremeBodyCountFloor(f: Row, s: Pair)
    requires f.bodyCount > 20
    ensures LabelScores(f, s).cheat >= 90.0
  {
    LabelNetEffect(f, s);
    LabelCheatTailNonNegative(f);
  }

  /** With a Body Count in (10, 20] the final label cheat is at least 50. */
  lemma LabelElevatedBodyCountFloor(f: Row, s: Pair)
    requires 10 < f.bodyCount <= 20
    ensures LabelScores(f, s).cheat >= 50.0
  {
    LabelNetEffect(f, s);
    LabelCheatTailNonNegative(f);
  }

  /** The three Body Count masks are pairwise disjoint, and each count in
      [3, 10] is in none of them. */
  lemma LabelBodyCountMasks(bodyCount: int)
    ensures !(ExtremeMask(bodyCount) && ElevatedMask(bodyCount))
    ensures !(ExtremeMask(bodyCount) && LowMask(bodyCount))
    ensures !(ElevatedMask(bodyCount) && LowMask(bodyCount))
    ensures (3 <= bodyCount <= 10) <==> !(ExtremeMask(bodyCount) || ElevatedMask(bodyCount) || LowMask(bodyCount))
  {
  }

  /** Emotional Stability at most 3 adds cheat + 8 and happy - 6, and at least
      8 adds happy + 3 only, each compared with a neutral stability of 5; the
      two masks never hold together. */
  lemma StabilityEffect(f: Row, s: Pair)
    ensures f.emotionalStability <= 3 ==>
      LabelChain(f, s) == Pair(LabelChain(f.(emotionalStability := 5), s).happy - 6.0,
                               LabelChain(f.(emotionalStability := 5), s).cheat + 8.0)
    ensures f.emotionalStability >= 8 ==>
      LabelChain(f, s) == Pair(LabelChain(f.(emotionalStability := 5), s).happy + 3.0,
                               LabelChain(f.(emotionalStability := 5), s).cheat)
    ensures !(f.emotionalStability <= 3 && f.emotionalStability >= 8)
  {
    var g := f.(emotionalStability := 5);
    LabelChainHappy(f, s);
    LabelChainCheat(f, s);
    LabelChainHappy(g, s);
    LabelChainCheat(g, s);
    assert IsCasual(g) == IsCasual(f) && HasLowAttachment(g) == HasLowAttachment(f)
      && HasHighAttachment(g) == HasHighAttachment(f);
  }

  /** The happy label never depends on the raw cheat label, nor the cheat
      label on the raw happy label. */
  lemma LabelColumnsIndependent(f: Row, s1: Pair, s2: Pair)
    ensures s1.happy == s2.happy ==> LabelScores(f, s1).happy == LabelScores(f, s2).happy
    ensures s1.cheat == s2.cheat ==> LabelScores(f, s1).cheat == LabelScores(f, s2).cheat
  {
    LabelNetEffect(f, s1);
    LabelNetEffect(f, s2);
  }

  /** Each label is monotone in its own raw value. */
  lemma LabelMonotone(f: Row, s1: Pair, s2: Pair)
    requires s1.happy <= s2.happy && s1.cheat <= s2.cheat
    ensures LabelScores(f, s1).happy <= LabelScores(f, s2).happy
    ensures LabelScores(f, s1).cheat <= LabelScores(f, s2).cheat
  {
    LabelNetEffect(f, s1);
    LabelNetEffect(f, s2);
    var terms := LabelHappyRuleTerms(f) + CareTerms(f);
    ClipMonotone(s1.happy + terms, s2.happy + terms);
    var fl := LabelCheatFloor(f);
    RaiseMonotone(s1.cheat + LabelCheatShift(f), s2.cheat + LabelCheatShift(f), fl);
    ClipMonotone(Raise(s1.cheat + LabelCheatShift(f), fl) + LabelCheatTail(f),
                 Raise(s2.cheat + LabelCheatShift(f), fl) + LabelCheatTail(f));
  }

  /** Letter case of the three string fields does not matter. */
  lemma LabelRulesIgnoreCase(a: Row, b: Row, s: Pair)
    requires SameUpToCase(a, b)
    ensures LabelScores(a, s) == LabelScores(b, s)
  {
    SameUpToCaseTests(a, b);
  }
}
