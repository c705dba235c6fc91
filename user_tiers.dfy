/**
 * The status ladders `user` reads off a day count: the member status of
 * `joinedat`, and the account status and experience level of `createdat`.
 * Each datatype lists its rungs from lowest to highest; `Rank` is the rung's
 * position.
 */
module UserTiers {

  /** `joinedat`: `> 365` Veteran, `> 180` Experienced, `> 30` Active, else New. */
  datatype MemberStatus = NewMember | ActiveMember | ExperiencedMember | VeteranMember
  {
    function Rank(): nat
    {
      match this
      case NewMember => 0
      case ActiveMember => 1
      case ExperiencedMember => 2
      case VeteranMember => 3
    }
  }

  function JoinStatus(daysSinceJoin: int): MemberStatus
  {
    if daysSinceJoin > 365 then VeteranMember
    else if daysSinceJoin > 180 then ExperiencedMember
    else if daysSinceJoin > 30 then ActiveMember
    else NewMember
  }

  /** `createdat`: `> 1095` Veteran, `> 365` Mature, `> 30` Established, else New. */
  datatype AccountStatus = NewAccount | EstablishedAccount | MatureAccount | VeteranAccount
  {
    function Rank(): nat
    {
      match this
      case NewAccount => 0
      case EstablishedAccount => 1
      case MatureAccount => 2
      case VeteranAccount => 3
    }
  }

  function AccountStatusOf(daysSinceCreation: int): AccountStatus
  {
    if daysSinceCreation > 1095 then VeteranAccount
    else if daysSinceCreation > 365 then MatureAccount
    else if daysSinceCreation > 30 then EstablishedAccount
    else NewAccount
  }

  /** `createdat`: `> 730` Expert, `> 365` Advanced, `> 90` Intermediate, else Beginner. */
  datatype ExperienceLevel = Beginner | Intermediate | Advanced | Expert
  {
    function Rank(): nat
    {
      match this
      case Beginner => 0
      case Intermediate => 1
      case Advanced => 2
      case Expert => 3
    }
  }

  function ExperienceOf(daysSinceCreation: int): ExperienceLevel
  {
    if daysSinceCreation > 730 then Expert
    else if daysSinceCreation > 365 then Advanced
    else if daysSinceCreation > 90 then Intermediate
    else Beginner
  }

  /** The number of thresholds in `[low, mid, high]` that `days` exceeds: the rung a three-threshold ladder picks. */
  function RungOf(days: int, low: int, mid: int, high: int): nat
  {
    (if days > low then 1 else 0) + (if days > mid then 1 else 0) + (if days > high then 1 else 0)
  }

  /** A ladder with ascending thresholds never steps down as the days grow. */
  lemma RungMonotone(fewer: int, more: int, low: int, mid: int, high: int)
    requires fewer <= more
    ensures RungOf(fewer, low, mid, high) <= RungOf(more, low, mid, high)
  {
  }

  /**
   * Each ladder picks the rung given by how many of its thresholds the day
   * count exceeds, so its rungs are ordered like the days; every rung is
   * reached, the lowest by any count up to the first threshold.
   */
  lemma JoinStatusLadder(days: int, later: int)
    requires days <= later
    ensures JoinStatus(days).Rank() == RungOf(days, 30, 180, 365)
    ensures JoinStatus(days).Rank() <= JoinStatus(later).Rank()
    ensures JoinStatus(30) == NewMember && JoinStatus(31) == ActiveMember
    ensures JoinStatus(181) == ExperiencedMember && JoinStatus(366) == VeteranMember
  {
    RungMonotone(days, later, 30, 180, 365);
  }

  lemma AccountStatusLadder(days: int, later: int)
    requires days <= later
    ensures AccountStatusOf(days).Rank() == RungOf(days, 30, 365, 1095)
    ensures AccountStatusOf(days).Rank() <= AccountStatusOf(later).Rank()
    ensures AccountStatusOf(30) == NewAccount && AccountStatusOf(31) == EstablishedAccount
    ensures AccountStatusOf(366) == MatureAccount && AccountStatusOf(1096) == VeteranAccount
  {
    RungMonotone(days, later, 30, 365, 1095);
  }

  lemma ExperienceLadder(days: int, later: int)
    requires days <= later
    ensures ExperienceOf(days).Rank() == RungOf(days, 90, 365, 730)
    ensures ExperienceOf(days).Rank() <= ExperienceOf(later).Rank()
    ensures ExperienceOf(90) == Beginner && ExperienceOf(91) == Intermediate
    ensures ExperienceOf(366) == Advanced && ExperienceOf(731) == Expert
  {
    RungMonotone(days, later, 90, 365, 730);
  }
}
