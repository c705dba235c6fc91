/**
 * `user nickname`: only an invoker allowed to manage nicknames gets past the
 * first check; then either the target's nickname is reset, or the current
 * nickname is shown together with whether the invoker outranks the target.
 */
module UserNickname {
  import opened Optional

  /** What the page needs of the target's membership in the server. */
  datatype TargetMember = TargetMember(nickname: Option<string>, displayName: string, highestPosition: int)

  /** The replies of the nickname branch. */
  datatype NicknameReply =
    | AccessDenied
    | ResetDone
    | ResetFailed
    | NicknameView(current: string, displayName: string, canModify: bool)

  /** The text shown when the target has no nickname. */
  const NoNickname: string := "No nickname set"

  /** `member?.nickname || 'No nickname set'`: a missing or empty nickname shows the placeholder. */
  function CurrentNickname(member: Option<TargetMember>): string
  {
    if member.Some? && member.value.nickname.Some? && member.value.nickname.value != "" then member.value.nickname.value
    else NoNickname
  }

  /** `member?.displayName || targetUser.username`. */
  function DisplayName(member: Option<TargetMember>, username: string): string
  {
    if member.Some? && member.value.displayName != "" then member.value.displayName else username
  }

  /** "Can Modify": the target is a member and the invoker's highest role sits strictly above the target's. */
  function CanModify(invokerPosition: int, member: Option<TargetMember>): bool
  {
    member.Some? && invokerPosition > member.value.highestPosition
  }

  /**
   * The nickname branch. `resetSucceeds` is what the platform answers to the
   * reset request; a missing member makes the request itself fail, which the
   * same error reply reports.
   */
  function NicknameCommand(
    invokerMayManage: bool, invokerPosition: int, member: Option<TargetMember>,
    username: string, action: Option<string>, resetSucceeds: bool): NicknameReply
  {
    if !invokerMayManage then AccessDenied
    else if action == Some("reset") then
      if member.Some? && resetSucceeds then ResetDone else ResetFailed
    else NicknameView(CurrentNickname(member), DisplayName(member, username), CanModify(invokerPosition, member))
  }

  /** Whether the branch sends the platform a request to clear the nickname. */
  predicate ResetRequested(invokerMayManage: bool, member: Option<TargetMember>, action: Option<string>)
  {
    invokerMayManage && action == Some("reset") && member.Some?
  }

  /**
   * Access is denied exactly when the invoker may not manage nicknames, and
   * then no reset is requested; a reset is reported done only after a request
   * that the platform granted.
   */
  lemma NicknameAccess(
    invokerMayManage: bool, invokerPosition: int, member: Option<TargetMember>,
    username: string, action: Option<string>, resetSucceeds: bool)
    ensures NicknameCommand(invokerMayManage, invokerPosition, member, username, action, resetSucceeds) == AccessDenied
      <==> !invokerMayManage
    ensures !invokerMayManage ==> !ResetRequested(invokerMayManage, member, action)
    ensures NicknameCommand(invokerMayManage, invokerPosition, member, username, action, resetSucceeds) == ResetDone
      <==> ResetRequested(invokerMayManage, member, action) && resetSucceeds
    ensures NicknameCommand(invokerMayManage, invokerPosition, member, username, action, resetSucceeds) == ResetFailed
      <==> invokerMayManage && action == Some("reset") && !(member.Some? && resetSucceeds)
  {
  }

  /**
   * Any action other than `reset`, including none, shows the view page; it
   * may modify exactly when the target is a member ranked strictly below the
   * invoker, and shows the nickname itself whenever one is set, the
   * placeholder when it is missing or empty.
   */
  lemma NicknameViewPage(
    invokerPosition: int, member: Option<TargetMember>, username: string, action: Option<string>, resetSucceeds: bool)
    requires action != Some("reset")
    ensures var r := NicknameCommand(true, invokerPosition, member, username, action, resetSucceeds);
      && r.NicknameView?
      && (r.canModify <==> member.Some? && invokerPosition > member.value.highestPosition)
      && (member.Some? && member.value.nickname.Some? && member.value.nickname.value != "" ==> r.current == member.value.nickname.value)
      && (!(member.Some? && member.value.nickname.Some? && member.value.nickname.value != "") ==> r.current == NoNickname)
      && (member.None? ==> r.current == NoNickname && r.displayName == username && !r.canModify)
  {
  }
}
