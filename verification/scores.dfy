/**
  Score pairs and the clipping operations both rule layers end with.

  Every score is a percentage held as an exact rational (`real`). The
  program computes in IEEE doubles, where terms such as `0.1 * (Caring - 5)`
  round; the model does not model that rounding. The score domain is the closed interval [Lo, Hi] = [1, 99].
 */
module Scores {

  const Lo: real := 1.0
  const Hi: real := 99.0

  /** The two outputs: "happy marriage" and "cheating" likelihood, in percent. */
  datatype Pair = Pair(happy: real, cheat: real)

  predicate InRange(x: real) {
    Lo <= x <= Hi
  }

  predicate PairInRange(p: Pair) {
    InRange(p.happy) && InRange(p.cheat)
  }

  /** Distance between two reals. */
  function Dist(x: real, y: real): real {
    if x <= y then y - x else x - y
  }

  /** `np.clip(x, 1.0, 99.0)` and pandas `clip(1, 99)`: the point of the score
      domain nearest to `x`. */
  function Clip(x: real): (r: real)
    ensures InRange(r)
  {
    if x < Lo then Lo else if x > Hi then Hi else x
  }

  /** Clipping projects onto the score domain: no score is closer to `x`. */
  lemma ClipIsNearest(x: real, y: real)
    requires InRange(y)
    ensures Dist(x, Clip(x)) <= Dist(x, y)
  {
  }

  /** Clips both scores of a pair. */
  function ClampPair(p: Pair): (r: Pair)
    ensures PairInRange(r)
    ensures PairInRange(p) ==> r == p
  {
    Pair(Clip(p.happy), Clip(p.cheat))
  }

  /** `max(x, floor)`, and pandas `clip(lower=floor)`: raises `x` to at least
      `floor` and never lowers it. */
  function AtLeast(x: real, floor: real): (r: real)
    ensures r >= x && r >= floor
    ensures r == x || r == floor
  {
    if x < floor then floor else x
  }

  /** An additive rule: when `applies`, adds `dHappy` to happy and `dCheat` to
      cheat; otherwise leaves the pair alone. */
  function Nudge(p: Pair, applies: bool, dHappy: real, dCheat: real): Pair {
    if applies then Pair(p.happy + dHappy, p.cheat + dCheat) else p
  }

  /** What a nudge changes: each score moves by its delta when the rule
      applies and by nothing otherwise. Two nudges on the same mask act as one
      nudge by the summed deltas, so a rule written as two masked statements
      (one per column) is the same as one rule on both columns, and nudges
      commute with each other. */
  lemma NudgeEffect(p: Pair, applies: bool, dHappy: real, dCheat: real,
                    other: bool, eHappy: real, eCheat: real)
    ensures Nudge(p, applies, dHappy, dCheat).happy - p.happy == (if applies then dHappy else 0.0)
    ensures Nudge(p, applies, dHappy, dCheat).cheat - p.cheat == (if applies then dCheat else 0.0)
    ensures Nudge(Nudge(p, applies, dHappy, 0.0), applies, 0.0, dCheat) == Nudge(p, applies, dHappy, dCheat)
    ensures Nudge(Nudge(p, applies, dHappy, dCheat), other, eHappy, eCheat)
         == Nudge(Nudge(p, other, eHappy, eCheat), applies, dHappy, dCheat)
  {
  }

  /** A floor rule: when `applies`, raises cheat to at least `level`. */
  function FloorCheat(p: Pair, applies: bool, level: real): (r: Pair)
    ensures r.happy == p.happy
    ensures r.cheat >= p.cheat
    ensures applies ==> r.cheat >= level
    ensures r.cheat == p.cheat || (applies && r.cheat == level)
  {
    if applies then p.(cheat := AtLeast(p.cheat, level)) else p
  }

  /** An optional lower bound, used to state the net effect of a rule chain. */
  datatype Floor = NoFloor | FloorAt(level: real)

  function Raise(x: real, f: Floor): real {
    match f
    case NoFloor => x
    case FloorAt(level) => AtLeast(x, level)
  }

  /** A value already in the domain is left alone by clipping, so clipping is
      idempotent. */
  lemma ClipIdempotent(x: real)
    ensures Clip(Clip(x)) == Clip(x)
    ensures InRange(x) ==> Clip(x) == x
  {
  }

  lemma ClampPairIdempotent(p: Pair)
    ensures ClampPair(ClampPair(p)) == ClampPair(p)
  {
  }

  /** Clipping and raising to a floor never reverse the order of two values. */
  lemma ClipMonotone(x: real, y: real)
    requires x <= y
    ensures Clip(x) <= Clip(y)
  {
  }

  lemma RaiseMonotone(x: real, y: real, f: Floor)
    requires x <= y
    ensures Raise(x, f) <= Raise(y, f)
  {
  }
}
