/**
 * How both commands read a prefix message such as `!user permissions <@!42> <#7>`:
 * split the content on single spaces, drop the command name, and take the
 * subcommand, the target mention, and the channel or action argument from
 * the remaining tokens. An empty or missing token counts as absent, as
 * JavaScript's truthiness test does.
 */
module Invocation {
  import opened Optional
  import opened Text

  /** The characters `/[<@!>]/g` removes from a user mention. */
  const UserMentionChars: set<char> := {'<', '@', '!', '>'}
  /** The characters `/[<#>]/g` removes from a channel mention. */
  const ChannelMentionChars: set<char> := {'<', '#', '>'}

  /** `message.content.split(' ')` after `args.shift()`. */
  function Args(content: string): seq<string>
  {
    Split(content, ' ')[1..]
  }

  /** `args[i]` used as a condition: absent when missing or empty. */
  function Arg(args: seq<string>, i: nat): Option<string>
  {
    if i < |args| && args[i] != "" then Some(args[i]) else None
  }

  /** `args[0] || 'help'`. */
  function Subcommand(content: string): (r: string)
    ensures r != ""
  {
    Arg(Args(content), 0).GetOr("help")
  }

  /** Whom `user` inspects: the message author, or the user whose id the stripped mention names. */
  datatype TargetRef = Author | ById(id: string)

  /** Everything `user` takes from a prefix message. */
  datatype UserArgs = UserArgs(subcommand: string, target: TargetRef, channel: Option<string>, action: Option<string>)

  /**
   * The prefix branch of `user`: the target from the second argument with
   * mention characters removed (the author when absent), the channel id from
   * the third argument of `permissions`, the action from the third argument of
   * `nickname`.
   */
  function ParseUserArgs(content: string): UserArgs
  {
    var args := Args(content);
    var sub := Subcommand(content);
    var target := if Arg(args, 1).Some? then ById(Strip(args[1], UserMentionChars)) else Author;
    var channel := if sub == "permissions" && Arg(args, 2).Some? then Some(Strip(args[2], ChannelMentionChars)) else None;
    var action := if sub == "nickname" && Arg(args, 2).Some? then Some(args[2]) else None;
    UserArgs(sub, target, channel, action)
  }

  /**
   * For a message whose tokens are `tokens` (no token holding a space), the
   * subcommand is the second token, or `help` when there is none or it is empty.
   */
  lemma SubcommandOfTokens(tokens: seq<string>)
    requires |tokens| >= 1
    requires forall i :: 0 <= i < |tokens| ==> ' ' !in tokens[i]
    ensures Args(Join(tokens, ' ')) == tokens[1..]
    ensures Subcommand(Join(tokens, ' ')) == if |tokens| > 1 && tokens[1] != "" then tokens[1] else "help"
  {
    SplitJoin(tokens, ' ');
  }

  /**
   * The arguments of a tokenised message: a mention token becomes its
   * stripped id, the channel and action are read only for the subcommand that
   * uses them, and a missing token yields the author, no channel and no action.
   */
  lemma UserArgsOfTokens(tokens: seq<string>)
    requires |tokens| >= 1
    requires forall i :: 0 <= i < |tokens| ==> ' ' !in tokens[i]
    ensures var a := ParseUserArgs(Join(tokens, ' '));
      && (a.target == Author <==> |tokens| < 3 || tokens[2] == "")
      && (a.target.ById? ==> a.target.id == Strip(tokens[2], UserMentionChars))
      && (a.channel.Some? <==> a.subcommand == "permissions" && |tokens| > 3 && tokens[3] != "")
      && (a.channel.Some? ==> a.channel.value == Strip(tokens[3], ChannelMentionChars))
      && (a.action.Some? <==> a.subcommand == "nickname" && |tokens| > 3 && tokens[3] != "")
      && (a.action.Some? ==> a.action.value == tokens[3])
  {
    SplitJoin(tokens, ' ');
  }

  /** The stripped id holds no mention character, and an id that had none comes through unchanged. */
  lemma MentionStripping(arg: string)
    ensures forall c :: c in Strip(arg, UserMentionChars) ==> c in arg && c !in UserMentionChars
    ensures forall c :: c in Strip(arg, ChannelMentionChars) ==> c in arg && c !in ChannelMentionChars
    ensures (forall i :: 0 <= i < |arg| ==> arg[i] !in UserMentionChars) ==> Strip(arg, UserMentionChars) == arg
    ensures (forall i :: 0 <= i < |arg| ==> arg[i] !in ChannelMentionChars) ==> Strip(arg, ChannelMentionChars) == arg
  {
    if forall i :: 0 <= i < |arg| ==> arg[i] !in UserMentionChars {
      StripUntouched(arg, UserMentionChars);
    }
    if forall i :: 0 <= i < |arg| ==> arg[i] !in ChannelMentionChars {
      StripUntouched(arg, ChannelMentionChars);
    }
  }

  /** A mention `open + id + ">"` whose opening characters are all stripped reduces to the bare id. */
  lemma {:induction false} MentionForm(open: string, id: string, chars: set<char>)
    requires forall i :: 0 <= i < |open| ==> open[i] in chars
    requires '>' in chars
    requires forall i :: 0 <= i < |id| ==> id[i] !in chars
    ensures Strip(open + id + ">", chars) == id
  {
    StripAppend(open + id, ">", chars);
    StripAppend(open, id, chars);
    StripUntouched(id, chars);
    StripAll(open, chars);
    assert Strip(">", chars) == "" by { assert ">"[1..] == ""; }
  }

  lemma {:induction false} StripAll(s: string, chars: set<char>)
    requires forall i :: 0 <= i < |s| ==> s[i] in chars
    ensures Strip(s, chars) == ""
    decreases |s|
  {
    if |s| > 0 {
      StripAll(s[1..], chars);
    }
  }

  /** `<@!id>` and `<@id>` user mentions and `<#id>` channel mentions reduce to the bare id. */
  lemma MentionForms(id: string)
    requires forall i :: 0 <= i < |id| ==> id[i] !in UserMentionChars && id[i] !in ChannelMentionChars
    ensures Strip("<@!" + id + ">", UserMentionChars) == id
    ensures Strip("<@" + id + ">", UserMentionChars) == id
    ensures Strip("<#" + id + ">", ChannelMentionChars) == id
  {
    MentionForm("<@!", id, UserMentionChars);
    MentionForm("<@", id, UserMentionChars);
    MentionForm("<#", id, ChannelMentionChars);
  }
}
