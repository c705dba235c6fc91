# Server and user commands: a verified model

This project models in Dafny the decision logic of two chat-bot commands:

- **`server`** (`commands/basic/server.js`). Its `info` subcommand shows a paginated report. There is an overview page, a role page, and one page for each group of 25 custom emojis. The user steps through the pages with "previous" and "next" buttons for five minutes. The other subcommands compute a few small figures: boosts needed for the next level, boosts needed for a banner, feature labels and counts, the verification level shown, and role colours as hex text.
- **`user`** (`commands/basic/user.js`). It reads its arguments from a prefix message (`!user permissions <@!42> <#7>`) or from a slash command. It then shows one of fourteen profile pages. Each page applies a small rule:
  - partitioning permissions into admin, moderation and basic;
  - cutting long lists to ten entries with "+N more";
  - an additive security score with risk levels;
  - day-count status ladders;
  - activity kinds and badge names;
  - the nickname permission and hierarchy checks.

The platform SDK is absent from the model. Anything the SDK supplies is a parameter:

- the channel's permission list;
- whether a channel or member was found;
- day counts, flags and role positions;
- whether a nickname reset is accepted.

Every rule is a function over values, with lemmas that state what it promises. The one exception is the pagination session. The source mutates `currentPage` and the button flags in place, so it is modelled twice:

- the `PaginationSession.Session` class, whose methods update those fields;
- the pure state machine `Pagination`, which specifies them. The methods' postconditions tie each update to `Pagination.Step`.

Shared helpers:

- `Text` models the JavaScript string built-ins the commands use: `split` and `join` on one character, regex character removal, `replaceAll`, ASCII `toLowerCase`/`toUpperCase`, `toString(16)` and `padStart`.
- `Seqs` models `Array.prototype.filter` and the counting and partition facts about it.

The page index is never clamped: the code decrements and increments `currentPage` unconditionally (`commands/basic/server.js:205-206`). The index stays in range only because the button at each end is disabled. The model therefore makes "the clicked button is enabled" a precondition (`Pagination.Clickable`). `Pagination.NextPastLastPage` shows the index leaving the page list when that precondition is dropped.

## Model

| member | source | states |
|---|---|---|
| Chunking.CeilDiv | commands/basic/server.js:12 | `Math.ceil(a / b)` for naturals: zero exactly when `a` is zero |
| Chunking.CeilDivBounds | commands/basic/server.js:12 | the quotient is the least whole number of `b`-sized pieces covering `a`: `q*b >= a` and `(q-1)*b < a` |
| Chunking.ChunkCount | commands/basic/server.js:11-15 | `chunkArray(arr, size)` returns exactly ⌈\|arr\|/size⌉ chunks, which together have room for every element |
| Chunking.ChunkSizes | commands/basic/server.js:12-13 | every chunk holds 1 to `size` elements, every chunk but the last exactly `size`, and the last the remainder |
| Chunking.ChunkUnfold | commands/basic/server.js:11-15 | chunking a non-empty list yields its first `size` elements, then the chunking of the rest |
| Chunking.FlattenChunk | commands/basic/server.js:11-15 | concatenating the chunks gives back the input, in order |
| ServerPages.InfoPagesShape | commands/basic/server.js:124-181 | the page list `[overview, roles, ...emojiPages]` has exactly ⌈n/25⌉+2 pages, the number every footer prints; page i+3 (position i+2) is emoji chunk i, titled (i+1/count) |
| ServerPages.EmojiPageSizes | commands/basic/server.js:155-176 | every emoji page shows between 1 and 25 emojis |
| ServerPages.EmojisShownOfChunks | commands/basic/server.js:157-176 | the emoji pages made from a list of chunks show the chunks' elements in order |
| ServerPages.InfoPagesShowAllEmojis | commands/basic/server.js:155-181 | paging through the report shows every custom emoji exactly once, in the original order |
| Pagination.BeginShape | commands/basic/server.js:183-200 | the first reply shows page 0 with "previous" disabled and "next" disabled iff there is one page; a collector runs iff there is more than one page |
| Pagination.ClickChangesIffAccepted | commands/basic/server.js:201-211 | a click changes the session iff the collector runs and the filter accepts it: the id is `previous` or `next` and the clicker is the invoker |
| Pagination.AcceptedClickMovesOnePage | commands/basic/server.js:205-209 | an accepted `previous` decrements and `next` increments the index; then "previous" is disabled iff index 0 and "next" iff the last index |
| Pagination.AdvancePreserves | commands/basic/server.js:204-222 | one event on an enabled button keeps the index a page and the reply's page and buttons in step with the session, with the corrected teardown on expiry |
| Pagination.ReplayPreserves | commands/basic/server.js:204-222 | any run of enabled clicks and expiries keeps `0 <= currentPage < pages` and, with the corrected teardown, the reply in step |
| Pagination.SessionStaysInRange | commands/basic/server.js:197-211 | from the first reply, `currentPage` stays within the page list if only enabled buttons are clicked |
| Pagination.RejectedClicksChangeNothing | commands/basic/server.js:201 | clicks the filter rejects (other ids, other users) change neither the session nor the reply |
| Pagination.ExpiredIsFinal | commands/basic/server.js:214-222 | after the collector ends no event changes anything |
| Pagination.ExpiryDisablesReply | commands/basic/server.js:214-222 | on expiry the reply keeps its page and has no enabled button: the slash reply loses its row; the prefix reply's buttons are disabled by the corrected teardown only |
| Pagination.NextPastLastPage | commands/basic/server.js:205-209 | the code does not clamp: an accepted "next" on the last page, whose button is disabled, would move the index to the page count |
| Pagination.ThreePageWalk | commands/basic/server.js:183-211 | three pages: "next" twice reaches the last page with "next" disabled; a stranger's click changes nothing; "previous" twice returns to page 0 |
| Pagination.SinglePageIsStatic | commands/basic/server.js:183-200 | with one page both buttons start disabled and no click has an effect |
| Pagination.TeardownAsWrittenKeepsButtons | commands/basic/server.js:219-221 | as written, the prefix teardown edits the invoking message, so the reply keeps an enabled "next" |
| Pagination.TeardownReachesReply | commands/basic/server.js:214-222 | the corrected teardown edits the reply and leaves no enabled button for either invocation kind; it differs from the code only for prefix invocations |
| PaginationSession.Session.constructor | commands/basic/server.js:183-198 | a new session is the start state: page 0, "previous" disabled, "next" disabled iff one page, collecting iff more than one page |
| PaginationSession.Session.Collect | commands/basic/server.js:201-211 | the collect handler updates `currentPage` and both flags exactly as `Pagination.Step` and emits the reply update of `Pagination.Emit`, keeping the index in range |
| PaginationSession.Session.End | commands/basic/server.js:214-222 | the end handler stops collecting, disables both flags for a prefix session, and emits the corrected teardown edit |
| ServerRules.DispatchByName | commands/basic/server.js:85-632 | inside a server each of the eleven pages is selected by exactly its own subcommand name |
| ServerRules.DispatchFallback | commands/basic/server.js:75-668 | outside a server every subcommand gives the error; inside, a page name selects its page and every other string the help page |
| ServerRules.NextLevelTargets | commands/basic/server.js:496 | the next-level targets are 7, 14, 30 for levels 0, 1, 2 and rise with the level; level 3 has none |
| ServerRules.BoostsNeeded | commands/basic/server.js:496-497 | boosts needed is never negative, is 0 at level 3, otherwise tops the count up to the target, and is 0 iff the target is reached |
| ServerRules.BoostsNeededMonotone | commands/basic/server.js:497 | more boosts never need more, and each extra boost lowers the need by at most one |
| ServerRules.BannerBoostsNeeded | commands/basic/server.js:307 | below tier 2 the needed boosts and the count add up to 15; from tier 2 it is 0; it is negative iff tier < 2 and more than 15 boosts |
| ServerRules.FeatureLabelFallback | commands/basic/server.js:594-632 | a listed feature shows its label; any other shows the marker and then the id with `_` as spaces, lower-cased, letter for letter, from which a well-formed id reads back |
| ServerRules.CustomizationCountBound | commands/basic/server.js:638 | the customisation count is the number of BANNER, ANIMATED_ICON, VANITY_URL the server has, at most 3 |
| ServerRules.SecurityCountBound | commands/basic/server.js:639 | the security count is the number of AUTO_MODERATION, MEMBER_VERIFICATION_GATE_ENABLED the server has, at most 2 |
| ServerRules.FeatureCountsDisjoint | commands/basic/server.js:638-639 | no feature is counted under both headings, so the two counts never exceed the feature list |
| ServerRules.LevelShownFallback | commands/basic/server.js:553-561 | codes 0-4 show their own level and each level is shown for its code; every other code falls back to "None" |
| ServerRules.RoleColorHexRoundTrip | commands/basic/server.js:384 | the colour text is `#` and a hex numeral that reads back as the colour; it is seven characters iff the colour fits in 24 bits |
| Text.Split | commands/basic/user.js:55 | `split` on one character: no piece holds the separator and joining the pieces gives back the text |
| Text.SplitJoin | commands/basic/user.js:55 | splitting a join of separator-free pieces gives back those pieces |
| Text.Strip | commands/basic/user.js:61 | removing a character class keeps exactly the characters outside it |
| Text.ParseToHex | commands/basic/server.js:384 | `toString(16)` reads back as the number it wrote |
| Text.ToHexLength | commands/basic/server.js:384 | the hex numeral has at most k digits iff the number is below 16^k |
| Text.PadStart | commands/basic/server.js:384 | `padStart` keeps the text as the suffix, fills the front, and reaches the width |
| Invocation.Subcommand | commands/basic/user.js:57 | the subcommand is never empty: it defaults to `help` |
| Invocation.SubcommandOfTokens | commands/basic/user.js:55-57 | for a message of space-free tokens the arguments are the tokens after the command name, and the subcommand is the second token or `help` |
| Invocation.UserArgsOfTokens | commands/basic/user.js:58-75 | the target is the stripped third token or the author; the channel (for `permissions`) and the action (for `nickname`) come from the fourth token only for that subcommand |
| Invocation.MentionStripping | commands/basic/user.js:61-69 | stripping leaves no mention character and keeps an argument that has none unchanged |
| Invocation.MentionForms | commands/basic/user.js:61-69 | `<@!id>`, `<@id>` and `<#id>` reduce to the bare id |
| UserPermissions.PermissionsPage | commands/basic/user.js:225-250 | the error iff no channel was found; otherwise the total is the number of granted permissions, the three lists' lengths add up to it, their multisets add up to the granted list, and no permission object gives total 0 and three empty lists |
| UserPermissions.BasicIsComplement | commands/basic/user.js:237 | the basic list, filtered by membership in the other two lists, is exactly the permissions outside both name lists |
| UserPermissions.ClassifyMembers | commands/basic/user.js:235-237 | each list holds only permissions passing its own test |
| UserPermissions.ClassifyDisjoint | commands/basic/user.js:235-237 | no permission is in two lists; admin entries are admin names and moderation entries moderation names |
| UserPermissions.ClassifyCovers | commands/basic/user.js:235-237 | the three lists together hold every input entry as often as it occurs |
| UserPermissions.ClassifyKeepsOrder | commands/basic/user.js:235-237 | each list keeps the input order |
| UserPermissions.ClassifyTotal | commands/basic/user.js:250 | the total shown equals the sum of the three list lengths |
| UserListing.TruncateShowsPrefix | commands/basic/user.js:132 | up to ten entries all are shown; past ten exactly the first ten are shown with "+N more", N = length − 10; "+N more" appears iff there are more than ten; an empty list shows the placeholder |
| UserListing.MutualsListingIsTruncate | commands/basic/user.js:446 | the mutual-server list, joined and re-split on newlines, is the plain truncation when no line holds a newline |
| UserListing.NetworkScoreMatchesListing | commands/basic/user.js:446-448 | the network score is High iff the server list is cut short, Medium iff 6-10 servers, and never falls as servers are added |
| UserSecurity.SecurityScore | commands/basic/user.js:558-565 | the score lies in [0, 100] and is 100 iff the account is older than 30 days, has an avatar, and is verified |
| UserSecurity.RiskBands | commands/basic/user.js:568-589 | Low iff score > 70, Medium iff 40 < score <= 70, High iff score <= 40 |
| UserSecurity.VerifiedScoresAtLeast55 | commands/basic/user.js:559-565 | a verified account carries a badge, so it scores at least 55 and is never high risk |
| UserSecurity.BareAccountIsHighRisk | commands/basic/user.js:561-565 | an account without avatar or badges scores only its age points and is high risk |
| UserSecurity.ScoreGrowsWithAge | commands/basic/user.js:562 | an older account never scores lower |
| UserTiers.RungMonotone | commands/basic/user.js:305 | a three-threshold ladder never steps down as days grow |
| UserTiers.JoinStatusLadder | commands/basic/user.js:305 | member status is the number of the thresholds 30, 180, 365 exceeded; monotone in days; each status is reached |
| UserTiers.AccountStatusLadder | commands/basic/user.js:363 | account status is the number of the thresholds 30, 365, 1095 exceeded; monotone in days; each status is reached |
| UserTiers.ExperienceLadder | commands/basic/user.js:383 | experience level is the number of the thresholds 90, 365, 730 exceeded; monotone in days; each level is reached |
| UserProfile.KindOfRoundTrip | commands/basic/user.js:484-489 | type codes 0-5 each name their own activity kind and read back; every other code is Unknown |
| UserProfile.BadgeNameRoundTrip | commands/basic/user.js:349 | a badge name has no leading or trailing space, deleting its spaces gives back the flag, every capital after the first character has a space right before it, and every space has a capital right after it |
| UserProfile.SpaceCapitalsOnlyAddsSpaces | commands/basic/user.js:349 | the capital-letter replacement only inserts spaces |
| UserProfile.SpaceCapitalsBreaksWords | commands/basic/user.js:349 | in a flag without spaces, the replacement puts a space before every capital letter and nowhere else, and never starts with a capital |
| UserProfile.TrimStartKeepsWordBreaks | commands/basic/user.js:349 | `trim` at the front keeps every word break intact |
| UserProfile.TrimEndKeepsWordBreaks | commands/basic/user.js:349 | `trim` at the end keeps every word break intact |
| UserNickname.NicknameAccess | commands/basic/user.js:502-527 | access is denied iff the invoker lacks Manage Nicknames, and then no reset is requested; "reset" reports success iff a reset was requested for a member and accepted, failure otherwise |
| UserNickname.NicknameViewPage | commands/basic/user.js:510-541 | any other action shows the view; "Can Modify" holds iff the target is a member ranked strictly below the invoker; a non-empty nickname is shown, and the placeholder when there is no member or its nickname is missing or empty |
| UserDispatch.DispatchByName | commands/basic/user.js:92-638 | each of the fourteen pages is selected by exactly its own subcommand name |
| UserDispatch.DispatchFallback | commands/basic/user.js:92-694 | a page name selects its page; `help` or no name selects help; every other name gives the unknown-subcommand error naming it |
| UserDispatch.JoinedAtPage | commands/basic/user.js:276-305 | a target outside the server gets the error; otherwise the page shows the days and the member status they rank to |

## Left out

- `commands/basic/bot.js` is not part of this model. It holds static text, process metrics and two latency thresholds.
- Embed text, colours, emoji and layout are left out as presentation. Feature labels keep their words without the leading emoji. The fallback bullet is the constant `FallbackMarker`.
- SDK calls are left out: fetching members, users and owners; sending, editing and updating replies; `setNickname`. Their results are parameters: a found channel or member, a permission list, whether a reset is accepted.
- Collector timing and delivery are not modelled. The 300000 ms timer is the explicit `Expire` event.
- The collector listens on the whole channel. Its filter does not check which message a button belongs to. So the invoker's clicks on another paginated report in the same channel also move this session. The model takes the events of one report only.
- Two clicks delivered before the first update renders are not modelled. They could both act on the same enabled button. This is concurrency.
- The `try`/`catch` around the teardown only logs errors, and is left out.
- Sorting roles by position and computing the join position are left out, as library sorting. So are `toLocaleString`, `moment().fromNow()`, the human/bot ratio `toFixed(1)` and the fractional "Overall Score" of `stats`: floating point and locale output.
- Day counts are inputs: they come from `Date.now()`.
- The slash-command options and the lookup of the mentioned user are left out as SDK calls. `Invocation.ParseUserArgs` yields the stripped id. An id that names no user falls back to the author in the source, through `users.fetch`.
- The years and months of `createdat` are not modelled. They are display-only divisions.
- `Text.Lower`, `Text.Upper`: case mapping covers ASCII letters only. JavaScript's `toLowerCase` also maps other scripts. Feature ids are ASCII.
- `UserProfile.BadgeName`: `trim` is modelled as removing spaces only. Flag names contain no other whitespace.
- `UserListing.MutualsListingIsTruncate` assumes server names without newlines. A name holding one would split into several shown lines.
- `ServerRules.BannerBoostsNeeded` is modelled as written, without a floor at zero. It goes negative only when a server below tier 2 has more than 15 boosts. That cannot happen while the tier follows the boost count.
- `ServerRules.CustomizationCountBound`, `ServerRules.SecurityCountBound`: the bounds of 3 and 2 assume a feature list without repeats, which the platform guarantees.
- `Pagination.Emit`: on expiry it sends the corrected teardown (see Findings) to the reply. For a prefix invocation the code edits the invoking message instead, so the reply keeps its last row.
- `Pagination.AdvancePreserves`: "the reply in step" after an expiry holds of the code only for slash invocations, because the model emits the corrected teardown.
- `Pagination.ReplayPreserves`: the index range holds of the code; "the reply in step" holds of it only for slash invocations, because the model emits the corrected teardown.
- `Pagination.ExpiryDisablesReply`: the disabled prefix reply is the corrected behaviour, not the code's; `Pagination.TeardownAsWrittenKeepsButtons` states what the code does.
- `PaginationSession.Session.End`: emits the corrected teardown to the reply; the code edits the invoking message for a prefix invocation.

## Findings

| source | as written | input that shows it | evidently intended | confidence | as-written member | corrected member |
|---|---|---|---|---|---|---|
| commands/basic/server.js:221 | when a prefix session expires, the code calls `edit` on the invoking message, which is the user's own message, not the bot's reply that carries the buttons | `!server info` on any server (the report always has at least two pages, so "next" starts enabled); wait five minutes without clicking; the reply still shows "next" enabled, and clicks on it no longer do anything | disable both buttons on the bot's reply, as the slash branch does by editing its reply | medium, not executed | Pagination.TeardownAsWritten, Pagination.TeardownAsWrittenKeepsButtons | Pagination.Teardown, Pagination.TeardownReachesReply |
