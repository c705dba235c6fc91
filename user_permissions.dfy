/**
 * `user permissions`: the target's permission names in a channel, split into
 * administrative, moderation and basic permissions for display.
 */
module UserPermissions {
  import opened Optional
  import opened Seqs

  /** `['Administrator', 'ManageGuild', 'ManageChannels', 'ManageRoles']`. */
  const AdminNames: seq<string> := ["Administrator", "ManageGuild", "ManageChannels", "ManageRoles"]

  /** `['ManageMessages', 'KickMembers', 'BanMembers', 'ModerateMembers']`. */
  const ModerationNames: seq<string> := ["ManageMessages", "KickMembers", "BanMembers", "ModerateMembers"]

  predicate IsAdmin(p: string) { p in AdminNames }
  predicate IsModeration(p: string) { p in ModerationNames }
  predicate IsBasic(p: string) { !IsAdmin(p) && !IsModeration(p) }

  /** The three lists the permission page shows. */
  datatype Partition = Partition(admin: seq<string>, moderation: seq<string>, basic: seq<string>)

  /**
   * The admin and moderation lists filter the permissions by the two name
   * lists; the basic list keeps what neither of those two lists contains.
   */
  function Classify(permissions: seq<string>): Partition
  {
    var admin := Filter(permissions, IsAdmin);
    var moderation := Filter(permissions, IsModeration);
    Partition(admin, moderation, Filter(permissions, p => p !in admin && p !in moderation))
  }

  /** `channel.permissionsFor(targetUser)?.toArray() || []`: no permission object reads as no permissions. */
  function PermissionNames(granted: Option<seq<string>>): seq<string>
  {
    granted.GetOr([])
  }

  /** The page, or the error shown when no valid channel was given. */
  datatype PermissionsReply = NoChannel | Analysis(total: nat, parts: Partition)

  /**
   * The `permissions` branch: the channel error first, then the count and the
   * three lists. The count is the number of granted permissions, which the
   * three lists share out between them, every one exactly once; no
   * permission object gives an empty page.
   */
  function PermissionsPage(channelFound: bool, granted: Option<seq<string>>): (r: PermissionsReply)
    ensures r.NoChannel? <==> !channelFound
    ensures r.Analysis? && granted.Some? ==> r.total == |granted.value|
    ensures r.Analysis? ==> r.total == |r.parts.admin| + |r.parts.moderation| + |r.parts.basic|
    ensures r.Analysis? ==>
      multiset(r.parts.admin) + multiset(r.parts.moderation) + multiset(r.parts.basic) == multiset(PermissionNames(granted))
    ensures r.Analysis? && granted.None? ==> r.total == 0 && r.parts == Partition([], [], [])
  {
    if !channelFound then NoChannel
    else
      var permissions := PermissionNames(granted);
      ClassifyCovers(permissions);
      ClassifyTotal(permissions);
      Analysis(|permissions|, Classify(permissions))
  }

  /** The basic list, defined by membership in the two other lists, is exactly the permissions in neither name list. */
  lemma BasicIsComplement(permissions: seq<string>)
    ensures Classify(permissions).basic == Filter(permissions, IsBasic)
  {
    var c := Classify(permissions);
    var inOthers := p => p !in c.admin && p !in c.moderation;
    forall i | 0 <= i < |permissions|
      ensures inOthers(permissions[i]) == IsBasic(permissions[i])
    {
      var p := permissions[i];
      if IsAdmin(p) {
        assert p in c.admin;
      }
      if IsModeration(p) {
        assert p in c.moderation;
      }
    }
    FilterCongruent(permissions, inOthers, IsBasic);
  }

  /** Every entry of a list passes the list's test. */
  lemma ClassifyMembers(permissions: seq<string>, p: string)
    ensures var c := Classify(permissions);
      && (p in c.admin ==> IsAdmin(p))
      && (p in c.moderation ==> IsModeration(p))
      && (p in c.basic ==> IsBasic(p))
  {
    var c := Classify(permissions);
    BasicIsComplement(permissions);
    if p in c.admin {
      var k :| 0 <= k < |c.admin| && c.admin[k] == p;
    }
    if p in c.moderation {
      var k :| 0 <= k < |c.moderation| && c.moderation[k] == p;
    }
    if p in c.basic {
      var k :| 0 <= k < |c.basic| && c.basic[k] == p;
    }
  }

  /**
   * No permission is in two of the lists, and the admin and moderation lists
   * hold only names from their own name lists.
   */
  lemma ClassifyDisjoint(permissions: seq<string>, p: string)
    ensures var c := Classify(permissions);
      && (p in c.admin ==> p in AdminNames && p !in c.moderation && p !in c.basic)
      && (p in c.moderation ==> p in ModerationNames && p !in c.basic)
  {
    ClassifyMembers(permissions, p);
  }

  /** Together the three lists hold every entry of the input, as often as it occurs there. */
  lemma ClassifyCovers(permissions: seq<string>)
    ensures var c := Classify(permissions);
      multiset(c.admin) + multiset(c.moderation) + multiset(c.basic) == multiset(permissions)
  {
    BasicIsComplement(permissions);
    forall i | 0 <= i < |permissions| ensures ExactlyOne(IsAdmin, IsModeration, IsBasic, permissions[i]) {
      assert !(IsAdmin(permissions[i]) && IsModeration(permissions[i]));
    }
    FilterSplit3(permissions, IsAdmin, IsModeration, IsBasic);
  }

  /** Each list keeps the order the permissions came in. */
  lemma ClassifyKeepsOrder(permissions: seq<string>)
    ensures var c := Classify(permissions);
      Subsequence(c.admin, permissions) && Subsequence(c.moderation, permissions) && Subsequence(c.basic, permissions)
  {
    BasicIsComplement(permissions);
    FilterIsSubsequence(permissions, IsAdmin);
    FilterIsSubsequence(permissions, IsModeration);
    FilterIsSubsequence(permissions, IsBasic);
  }

  /** The total shown on the page is the sum of the three list lengths. */
  lemma ClassifyTotal(permissions: seq<string>)
    ensures var c := Classify(permissions);
      |c.admin| + |c.moderation| + |c.basic| == |permissions|
  {
    var c := Classify(permissions);
    ClassifyCovers(permissions);
    assert |multiset(c.admin) + multiset(c.moderation) + multiset(c.basic)| == |multiset(permissions)|;
  }
}
