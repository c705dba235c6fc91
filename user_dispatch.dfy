/**
 * Which branch `user` runs for a subcommand, and the membership check of
 * `joinedat`. Unlike `server`, `user` has no server check, answers `help`
 * (or no subcommand) with the help page, and any other unknown name with an
 * "unknown subcommand" error.
 */
module UserDispatch {
  import opened Optional
  import opened UserTiers

  /** The branches of `user`, in the order the source tests them. */
  datatype UserReply =
    | Info | Avatar | Banner | Roles | Permissions | JoinedAt | Badges | CreatedAt
    | Boosting | Mutuals | Activity | Nickname | Security | Stats
    | Help
    | UnknownSubcommand(name: string)

  /** The subcommand name that selects a branch; the help page and the error have none. */
  function NameOf(r: UserReply): Option<string>
  {
    match r
    case Info => Some("info")
    case Avatar => Some("avatar")
    case Banner => Some("banner")
    case Roles => Some("roles")
    case Permissions => Some("permissions")
    case JoinedAt => Some("joinedat")
    case Badges => Some("badges")
    case CreatedAt => Some("createdat")
    case Boosting => Some("boosting")
    case Mutuals => Some("mutuals")
    case Activity => Some("activity")
    case Nickname => Some("nickname")
    case Security => Some("security")
    case Stats => Some("stats")
    case Help => None
    case UnknownSubcommand(_) => None
  }

  /** The sequence of `if (subcommand === …)` tests, then help, then the unknown-subcommand fallback. */
  function Dispatch(subcommand: string): UserReply
  {
    if subcommand == "info" then Info
    else if subcommand == "avatar" then Avatar
    else if subcommand == "banner" then Banner
    else if subcommand == "roles" then Roles
    else if subcommand == "permissions" then Permissions
    else if subcommand == "joinedat" then JoinedAt
    else if subcommand == "badges" then Badges
    else if subcommand == "createdat" then CreatedAt
    else if subcommand == "boosting" then Boosting
    else if subcommand == "mutuals" then Mutuals
    else if subcommand == "activity" then Activity
    else if subcommand == "nickname" then Nickname
    else if subcommand == "security" then Security
    else if subcommand == "stats" then Stats
    else if subcommand == "help" || subcommand == "" then Help
    else UnknownSubcommand(subcommand)
  }

  /** The fourteen subcommand names with a page of their own. */
  const PageNames: set<string> := {
    "info", "avatar", "banner", "roles", "permissions", "joinedat", "badges",
    "createdat", "boosting", "mutuals", "activity", "nickname", "security", "stats"
  }

  /** Every page is selected by its own name, which is one of the fourteen. */
  lemma DispatchByName(r: UserReply)
    ensures NameOf(r).Some? ==> NameOf(r).value in PageNames && Dispatch(NameOf(r).value) == r
  {
  }

  /**
   * A page name selects the page that carries it; `help` and the empty name
   * select the help page; every other name is echoed back in the
   * unknown-subcommand error.
   */
  lemma DispatchFallback(subcommand: string)
    ensures subcommand in PageNames ==> NameOf(Dispatch(subcommand)) == Some(subcommand)
    ensures Dispatch(subcommand) == Help <==> subcommand == "help" || subcommand == ""
    ensures Dispatch(subcommand).UnknownSubcommand? <==>
      subcommand !in PageNames && subcommand != "help" && subcommand != ""
    ensures Dispatch(subcommand).UnknownSubcommand? ==> Dispatch(subcommand).name == subcommand
  {
  }

  /** The `joinedat` page: an error for a target outside the server, otherwise the days and the member status. */
  datatype JoinedAtReply = NotInServer | JoinedPage(daysActive: int, status: MemberStatus)

  function JoinedAtPage(daysSinceJoin: Option<int>): (r: JoinedAtReply)
    ensures r.NotInServer? <==> daysSinceJoin.None?
    ensures r.JoinedPage? ==> r.daysActive == daysSinceJoin.value && r.status.Rank() == RungOf(r.daysActive, 30, 180, 365)
  {
    if daysSinceJoin.None? then NotInServer
    else
      JoinStatusLadder(daysSinceJoin.value, daysSinceJoin.value);
      JoinedPage(daysSinceJoin.value, JoinStatus(daysSinceJoin.value))
  }
}
