/**
  How the training-time label rules and the serving-time rules relate. The
  Body Count step is the same in both, although training writes it as
  independent masks and serving as an if/elif/elif chain; the attachment and
  trust rules differ on purpose, and neither rule set contains the other.
 */
module TrainServe {
  import opened Scores
  import opened Features
  import DomainRules
  import LabelRules

  /** Training's three independent Body Count masks select the same band as
      serving's if/elif/elif chain, and a count outside every mask is in
      serving's no-op band. */
  lemma BodyCountMasksMatchBands(bodyCount: int)
    ensures LabelRules.ExtremeMask(bodyCount) <==> DomainRules.BandOf(bodyCount) == DomainRules.Extreme
    ensures LabelRules.ElevatedMask(bodyCount) <==> DomainRules.BandOf(bodyCount) == DomainRules.Elevated
    ensures LabelRules.LowMask(bodyCount) <==> DomainRules.BandOf(bodyCount) == DomainRules.Low
    ensures !(LabelRules.ExtremeMask(bodyCount) || LabelRules.ElevatedMask(bodyCount) || LabelRules.LowMask(bodyCount))
        <==> DomainRules.BandOf(bodyCount) == DomainRules.Neutral
  {
  }

  /** The Body Count step has the same effect at training and at serving time,
      for every count and every pair of scores. */
  lemma BodyCountRulesAgree(bodyCount: int, s: Pair)
    ensures LabelRules.LabelBodyCountRules(bodyCount, s) == DomainRules.BodyCountRule(bodyCount, s)
  {
    BodyCountMasksMatchBands(bodyCount);
  }

  /** A row with "high" attachment and trust 9 shows the two rule sets apart:
      serving gives happy + 12 + 3 and cheat - 20 - 2, training gives
      happy + 8 + 4 and cheat - 15. */
  lemma RuleSetsDiffer()
    ensures DomainRules.ApplyDomainRules(Row(5, 0, 9, 5, 5, 5, 5, "high", "", "", 0.0), 50.0, 50.0)
         == Pair(65.0, 28.0)
    ensures LabelRules.LabelScores(Row(5, 0, 9, 5, 5, 5, 5, "high", "", "", 0.0), Pair(50.0, 50.0))
         == Pair(62.0, 35.0)
  {
    var row := Row(5, 0, 9, 5, 5, 5, 5, "high", "", "", 0.0);
    ToLowerOfLower("high");
    assert HasHighAttachment(row) && !IsCasual(row) && !IsKind(row);
    DomainRules.DomainRulesNetEffect(row, 50.0, 50.0);
    LabelRules.LabelNetEffect(row, Pair(50.0, 50.0));
  }
}
