/** The `user security` scan: an additive score out of 100 and the risk level read off it. */
module UserSecurity {

  /** The age part of the score: 25 past 30 days, 15 past 7 days, else 0. */
  function AgePoints(accountDays: int): nat
  {
    if accountDays > 30 then 25 else if accountDays > 7 then 15 else 0
  }

  /** `flags.includes('VerifiedBot') || flags.includes('VerifiedDeveloper')`. */
  predicate IsVerified(flags: seq<string>)
  {
    "VerifiedBot" in flags || "VerifiedDeveloper" in flags
  }

  /** Age points, 20 for a custom avatar, 30 for any badge, 25 for a verification badge. */
  function SecurityScore(accountDays: int, hasAvatar: bool, flags: seq<string>): (score: nat)
    ensures score <= 100
    ensures score == 100 <==> accountDays > 30 && hasAvatar && IsVerified(flags)
  {
    AgePoints(accountDays) + (if hasAvatar then 20 else 0) + (if |flags| > 0 then 30 else 0) + (if IsVerified(flags) then 25 else 0)
  }

  /** The risk levels; the embed colour follows the same thresholds. */
  datatype Risk = LowRisk | MediumRisk | HighRisk

  /** `score > 70 ? Low : score > 40 ? Medium : High`. */
  function RiskLevel(score: int): Risk
  {
    if score > 70 then LowRisk else if score > 40 then MediumRisk else HighRisk
  }

  /** Each level covers exactly its band of scores. */
  lemma RiskBands(score: int)
    ensures RiskLevel(score) == LowRisk <==> score > 70
    ensures RiskLevel(score) == MediumRisk <==> 40 < score <= 70
    ensures RiskLevel(score) == HighRisk <==> score <= 40
  {
  }

  /**
   * A verification badge is itself a badge, so a verified account scores at
   * least 55 and is never rated high risk.
   */
  lemma VerifiedScoresAtLeast55(accountDays: int, hasAvatar: bool, flags: seq<string>)
    requires IsVerified(flags)
    ensures SecurityScore(accountDays, hasAvatar, flags) >= 55
    ensures RiskLevel(SecurityScore(accountDays, hasAvatar, flags)) != HighRisk
  {
    assert |flags| > 0;
  }

  /** An account without avatar or badges can earn only its age points, and is rated high risk. */
  lemma BareAccountIsHighRisk(accountDays: int)
    ensures SecurityScore(accountDays, false, []) == AgePoints(accountDays) <= 25
    ensures RiskLevel(SecurityScore(accountDays, false, [])) == HighRisk
  {
  }

  /** An older account never scores lower, all else being equal. */
  lemma ScoreGrowsWithAge(younger: int, older: int, hasAvatar: bool, flags: seq<string>)
    requires younger <= older
    ensures SecurityScore(younger, hasAvatar, flags) <= SecurityScore(older, hasAvatar, flags)
  {
  }
}
