/**
 * How `user` shows a list that may be long: nothing when empty, every entry
 * up to ten, and past ten the first ten followed by "+N more" for the rest.
 * The role list of `info`, the basic permissions and the mutual servers all
 * follow this rule.
 */
module UserListing {
  import opened Text

  /** The most entries a list shows. */
  const ListLimit: nat := 10

  /** An empty list's placeholder, or the entries shown and the N of "+N more" (0 when no such line is shown). */
  datatype Listing<T> = NoEntries | Shown(entries: seq<T>, more: nat)

  /** `xs.length > 0 ? (xs.length > 10 ? xs.slice(0, 10) … +${xs.length - 10} more : xs) : placeholder`. */
  function Truncate<T>(xs: seq<T>): Listing<T>
  {
    if |xs| == 0 then NoEntries
    else if |xs| > ListLimit then Shown(xs[..ListLimit], |xs| - ListLimit)
    else Shown(xs, 0)
  }

  /**
   * The shown entries are the leading entries of the list: all of them up
   * to ten, and exactly the first ten past that; "+N more" appears exactly
   * when more than ten exist, and N counts exactly the entries left unshown.
   */
  lemma TruncateShowsPrefix<T>(xs: seq<T>)
    ensures Truncate(xs).NoEntries? <==> |xs| == 0
    ensures Truncate(xs).Shown? ==>
      var l := Truncate(xs);
      && |l.entries| <= ListLimit
      && l.entries == xs[..|l.entries|]
      && |l.entries| + l.more == |xs|
      && (l.more > 0 <==> |xs| > ListLimit)
      && (l.more == 0 ==> l.entries == xs)
      && (|xs| > ListLimit ==> l.entries == xs[..ListLimit] && l.more == |xs| - ListLimit)
      && (|xs| <= ListLimit ==> l.entries == xs && l.more == 0)
  {
  }

  /**
   * The mutual-server list: the formatted lines are joined with newlines, and
   * past ten the joined text is split on newlines again and its first ten
   * pieces are kept.
   */
  function MutualsListing(lines: seq<string>): Listing<string>
  {
    if |lines| == 0 then NoEntries
    else if |lines| > ListLimit then
      var pieces := Split(Join(lines, '\n'), '\n');
      Shown(pieces[..if |pieces| < ListLimit then |pieces| else ListLimit], |lines| - ListLimit)
    else Shown(lines, 0)
  }

  /** When no server line holds a newline, the join-then-split detour is the plain rule. */
  lemma MutualsListingIsTruncate(lines: seq<string>)
    requires forall i :: 0 <= i < |lines| ==> '\n' !in lines[i]
    ensures MutualsListing(lines) == Truncate(lines)
  {
    if |lines| > ListLimit {
      SplitJoin(lines, '\n');
    }
  }

  /** The "Network Score" of the mutual-server page. */
  datatype NetworkScore = LowReach | MediumReach | HighReach

  /** `mutuals.size > 10 ? 'High' : mutuals.size > 5 ? 'Medium' : 'Low'`. */
  function NetworkScoreOf(mutualCount: nat): NetworkScore
  {
    if mutualCount > 10 then HighReach else if mutualCount > 5 then MediumReach else LowReach
  }

  /** The score is High exactly when the server list is cut short, and rises with the number of servers. */
  lemma NetworkScoreMatchesListing(lines: seq<string>, fewer: nat, more: nat)
    requires fewer <= more
    ensures NetworkScoreOf(|lines|) == HighReach <==> Truncate(lines).Shown? && Truncate(lines).more > 0
    ensures NetworkScoreOf(|lines|) == MediumReach <==> 5 < |lines| <= ListLimit
    ensures NetworkScoreOf(fewer) == HighReach ==> NetworkScoreOf(more) == HighReach
    ensures NetworkScoreOf(more) == LowReach ==> NetworkScoreOf(fewer) == LowReach
  {
  }
}
