/**
  The relationship row, restricted to the fields the two rule layers read,
  and the case-insensitive string tests the rules make on it.
 */
module Features {

  /** One relationship description. Only the columns that a rule consults are
      kept; the other feature columns pass through both rule layers untouched. */
  datatype Row = Row(
    bodyCount: int,                 // "Body Count"
    historyOfInfidelity: int,       // "History of Infidelity" (a 0/1 flag)
    trustParameter: int,            // "Trust Parameter"
    emotionalStability: int,        // "Emotional Stability"
    caring: int,                    // "Caring"
    loving: int,                    // "Loving"
    efforts: int,                   // "Efforts"
    attachmentStyle: string,        // "Attachment Style"
    pastRelationshipPatterns: string, // "Past Relationship Patterns"
    behaviour: string,              // "Behaviour"
    timeTogetherPerWeek: real       // "Time spent together in hours per week"
  )

  predicate IsUpper(c: char) {
    'A' <= c <= 'Z'
  }

  /** ASCII lower-casing of one character. */
  function LowerChar(c: char): (r: char)
    ensures !IsUpper(r)
    ensures !IsUpper(c) ==> r == c
    ensures IsUpper(c) ==> r as int - c as int == 'a' as int - 'A' as int
  {
    if IsUpper(c) then (c as int + ('a' as int - 'A' as int)) as char else c
  }

  /** `str.lower()` on an ASCII string. */
  function ToLower(s: string): (r: string)
    ensures |r| == |s|
    ensures forall i :: 0 <= i < |s| ==> r[i] == LowerChar(s[i])
  {
    if s == [] then [] else [LowerChar(s[0])] + ToLower(s[1..])
  }

  /** A string with no upper-case letter is its own lower-case form; this is
      what lets a rule keyword such as "casual" match itself. */
  lemma ToLowerOfLower(s: string)
    requires forall i :: 0 <= i < |s| ==> !IsUpper(s[i])
    ensures ToLower(s) == s
  {
  }

  lemma ToLowerIdempotent(s: string)
    ensures ToLower(ToLower(s)) == ToLower(s)
  {
    ToLowerOfLower(ToLower(s));
  }

  /** `field.lower() == keyword`: the whole lower-cased field equals the
      keyword, character by character; a field that merely contains the
      keyword does not match. */
  predicate KeywordMatch(field: string, keyword: string): (b: bool)
    ensures b <==> |field| == |keyword| && forall i :: 0 <= i < |field| ==> LowerChar(field[i]) == keyword[i]
  {
    ToLower(field) == keyword
  }

  // The string tests the rules make, each on the lower-cased field.

  predicate IsCasual(row: Row): (b: bool)
    ensures b ==> |row.pastRelationshipPatterns| == |"casual"|
  {
    KeywordMatch(row.pastRelationshipPatterns, "casual")
  }

  predicate HasLowAttachment(row: Row): (b: bool)
    ensures b ==> |row.attachmentStyle| == |"low"|
  {
    KeywordMatch(row.attachmentStyle, "low")
  }

  predicate HasHighAttachment(row: Row): (b: bool)
    ensures b ==> |row.attachmentStyle| == |"high"|
  {
    KeywordMatch(row.attachmentStyle, "high")
  }

  predicate IsKind(row: Row): (b: bool)
    ensures b ==> |row.behaviour| == |"kind"|
  {
    KeywordMatch(row.behaviour, "kind")
  }

  /** Two rows that agree on every field, except that the three string fields
      may differ in letter case. */
  predicate SameUpToCase(a: Row, b: Row) {
    && a.(attachmentStyle := "", pastRelationshipPatterns := "", behaviour := "")
       == b.(attachmentStyle := "", pastRelationshipPatterns := "", behaviour := "")
    && ToLower(a.attachmentStyle) == ToLower(b.attachmentStyle)
    && ToLower(a.pastRelationshipPatterns) == ToLower(b.pastRelationshipPatterns)
    && ToLower(a.behaviour) == ToLower(b.behaviour)
  }

  /** Case-insensitive comparison is what the rules see: rows equal up to case
      pass exactly the same string tests. */
  lemma SameUpToCaseTests(a: Row, b: Row)
    requires SameUpToCase(a, b)
    ensures IsCasual(a) == IsCasual(b)
    ensures HasLowAttachment(a) == HasLowAttachment(b)
    ensures HasHighAttachment(a) == HasHighAttachment(b)
    ensures IsKind(a) == IsKind(b)
    ensures a.bodyCount == b.bodyCount && a.historyOfInfidelity == b.historyOfInfidelity
    ensures a.trustParameter == b.trustParameter && a.emotionalStability == b.emotionalStability
    ensures a.caring == b.caring && a.loving == b.loving && a.efforts == b.efforts
    ensures a.timeTogetherPerWeek == b.timeTogetherPerWeek
  {
    assert a.(attachmentStyle := "", pastRelationshipPatterns := "", behaviour := "").bodyCount == a.bodyCount;
    assert b.(attachmentStyle := "", pastRelationshipPatterns := "", behaviour := "").bodyCount == b.bodyCount;
  }

  /** An attachment style cannot be both "low" and "high". */
  lemma AttachmentExclusive(row: Row)
    ensures !(HasLowAttachment(row) && HasHighAttachment(row))
  {
  }
}
