/**
 * The paginated display of `server info` as a state machine over values:
 * the page index `currentPage`, the "disabled" flags of the two buttons of
 * the action row, and whether the component collector is still running.
 * Events are button clicks, which pass the collector's filter or not, and the
 * collector's expiry (its 300000 ms timer, here an explicit event).
 *
 * The handlers do not clamp the index: a page move stays in range only
 * because a button at the boundary is disabled and cannot be clicked.
 * `Clickable` states that assumption; `NextPastLastPage` shows what it rules out.
 */
module Pagination {
  import opened Optional

  type UserId = string

  const PreviousId: string := "previous"
  const NextId: string := "next"

  /** A click on the component with `customId` by user `userId`, or the end of the collector. */
  datatype Event = Click(customId: string, userId: UserId) | Expire

  /** The session's fixed part: how many pages, who may navigate, and how the command was invoked. */
  datatype Config = Config(pageCount: nat, initiator: UserId, isSlash: bool)

  /** The session's mutable part: `currentPage`, the two `setDisabled` flags, and a running collector. */
  datatype SessionState = SessionState(page: int, previousDisabled: bool, nextDisabled: bool, collecting: bool)

  /** Buttons shown under a message: the action row with its two flags, or no components at all. */
  datatype Buttons = NoButtons | Row(previousDisabled: bool, nextDisabled: bool)

  /** The two messages involved: the command the user sent and the bot's reply that carries the pages. */
  datatype Message = InvokingMessage | Reply

  /** One outbound edit: which message, which page to show (none: keep the page), which buttons. */
  datatype Edit = Edit(target: Message, page: Option<int>, buttons: Buttons)

  /** What the reply currently shows. */
  datatype Screen = Screen(page: int, buttons: Buttons)

  /** The session together with what its reply shows. */
  datatype World = World(session: SessionState, screen: Screen)

  /** Right after the first reply: page 0, "previous" disabled, "next" disabled when there is at most one page, and a collector only when there is more than one. */
  function Start(pageCount: nat): SessionState
  {
    SessionState(0, true, pageCount <= 1, pageCount > 1)
  }

  /** The first reply: page 0 with the freshly built row. */
  function FirstReply(pageCount: nat): Edit
  {
    Edit(Reply, Some(0), Row(true, pageCount <= 1))
  }

  /** The collector's filter: the control is one of the two buttons and the clicker started the command. */
  predicate Accepts(initiator: UserId, customId: string, userId: UserId)
  {
    (customId == PreviousId || customId == NextId) && userId == initiator
  }

  /**
   * One event. An accepted click runs the `collect` handler: decrement on
   * "previous", increment on "next", then recompute both flags. Expiry runs
   * the `end` handler: a slash command drops the components and keeps the row
   * as it was, a prefix command disables both buttons. Anything else, and
   * every event once the collector has stopped, changes nothing.
   */
  function Step(cfg: Config, s: SessionState, e: Event): SessionState
  {
    if !s.collecting then s
    else
      match e
      case Click(customId, userId) =>
        if Accepts(cfg.initiator, customId, userId) then
          var afterPrevious := if customId == PreviousId then s.page - 1 else s.page;
          var afterNext := if customId == NextId then afterPrevious + 1 else afterPrevious;
          SessionState(afterNext, afterNext == 0, afterNext == cfg.pageCount - 1, true)
        else s
      case Expire =>
        if cfg.isSlash then s.(collecting := false) else SessionState(s.page, true, true, false)
  }

  /** The edit of the `end` handler, sent to the reply that carries the buttons. */
  function Teardown(isSlash: bool): Edit
  {
    if isSlash then Edit(Reply, None, NoButtons) else Edit(Reply, None, Row(true, true))
  }

  /**
   * The edit of the `end` handler as the command writes it: for a prefix
   * command it edits the invoking message, which is the user's own message
   * and not the reply that shows the buttons.
   */
  function TeardownAsWritten(isSlash: bool): Edit
  {
    if isSlash then Edit(Reply, None, NoButtons) else Edit(InvokingMessage, None, Row(true, true))
  }

  /** The edits one event sends: `i.update` with the new page and row after an accepted click, the teardown on expiry. */
  function Emit(cfg: Config, s: SessionState, e: Event): seq<Edit>
  {
    var t := Step(cfg, s, e);
    if !s.collecting then []
    else if e.Expire? then [Teardown(cfg.isSlash)]
    else if Accepts(cfg.initiator, e.customId, e.userId) then [Edit(Reply, Some(t.page), Row(t.previousDisabled, t.nextDisabled))]
    else []
  }

  /** The reply after an edit: edits of other messages leave it alone. */
  function ApplyEdit(screen: Screen, edit: Edit): Screen
  {
    if edit.target != Reply then screen
    else Screen(if edit.page.Some? then edit.page.value else screen.page, edit.buttons)
  }

  function ApplyEdits(screen: Screen, edits: seq<Edit>): Screen
    decreases |edits|
  {
    if |edits| == 0 then screen else ApplyEdits(ApplyEdit(screen, edits[0]), edits[1..])
  }

  /** The session and its reply right after the first reply was sent. */
  function Begin(pageCount: nat): World
  {
    World(Start(pageCount), ApplyEdit(Screen(0, NoButtons), FirstReply(pageCount)))
  }

  function Advance(cfg: Config, w: World, e: Event): World
  {
    World(Step(cfg, w.session, e), ApplyEdits(w.screen, Emit(cfg, w.session, e)))
  }

  /** The events delivered in order. */
  function Replay(cfg: Config, w: World, events: seq<Event>): World
    decreases |events|
  {
    if |events| == 0 then w else Replay(cfg, Advance(cfg, w, events[0]), events[1..])
  }

  /** The platform delivers clicks on enabled buttons only. */
  predicate Clickable(s: SessionState, e: Event)
  {
    e.Click? ==>
      (e.customId == PreviousId ==> !s.previousDisabled) && (e.customId == NextId ==> !s.nextDisabled)
  }

  /** Every click of the sequence is on a button that is enabled at the moment it is clicked. */
  predicate AllClickable(cfg: Config, s: SessionState, events: seq<Event>)
    decreases |events|
  {
    |events| == 0 || (Clickable(s, events[0]) && AllClickable(cfg, Step(cfg, s, events[0]), events[1..]))
  }

  /** The index is a page, and while the collector runs the flags are those the handlers compute. */
  predicate Valid(cfg: Config, s: SessionState)
  {
    && cfg.pageCount >= 1
    && 0 <= s.page < cfg.pageCount
    && (s.collecting ==>
          cfg.pageCount > 1 && s.previousDisabled == (s.page == 0) && s.nextDisabled == (s.page == cfg.pageCount - 1))
  }

  predicate NoneEnabled(b: Buttons)
  {
    b.NoButtons? || (b.previousDisabled && b.nextDisabled)
  }

  /** The reply shows the current page; it shows the live row while collecting and no usable button afterwards. */
  predicate ScreenMatches(s: SessionState, screen: Screen)
  {
    && screen.page == s.page
    && (s.collecting ==> screen.buttons == Row(s.previousDisabled, s.nextDisabled))
    && (!s.collecting ==> NoneEnabled(screen.buttons))
  }

  /** The first reply shows page 0 with "previous" disabled and "next" disabled exactly when there is one page. */
  lemma BeginShape(pageCount: nat)
    requires pageCount >= 1
    ensures Valid(Config(pageCount, "", false), Begin(pageCount).session)
    ensures Begin(pageCount).session.page == 0
    ensures Begin(pageCount).screen == Screen(0, Row(true, pageCount == 1))
    ensures Begin(pageCount).session.collecting <==> pageCount > 1
    ensures ScreenMatches(Begin(pageCount).session, Begin(pageCount).screen)
  {
  }

  /** A click changes the state exactly when the collector runs and its filter accepts the click. */
  lemma ClickChangesIffAccepted(cfg: Config, s: SessionState, customId: string, userId: UserId)
    requires Valid(cfg, s)
    ensures Step(cfg, s, Click(customId, userId)) != s <==> s.collecting && Accepts(cfg.initiator, customId, userId)
  {
  }

  /** An accepted "previous" moves one page back and an accepted "next" one page on; the flags follow the new index. */
  lemma AcceptedClickMovesOnePage(cfg: Config, s: SessionState, customId: string, userId: UserId)
    requires s.collecting && Accepts(cfg.initiator, customId, userId)
    ensures var t := Step(cfg, s, Click(customId, userId));
      && t.page == (if customId == PreviousId then s.page - 1 else s.page + 1)
      && (t.previousDisabled <==> t.page == 0)
      && (t.nextDisabled <==> t.page == cfg.pageCount - 1)
      && t.collecting
  {
  }

  /** One event keeps the session valid and the reply in step with it, if the clicked button was enabled. */
  lemma AdvancePreserves(cfg: Config, w: World, e: Event)
    requires Valid(cfg, w.session) && ScreenMatches(w.session, w.screen)
    requires Clickable(w.session, e)
    ensures Valid(cfg, Advance(cfg, w, e).session)
    ensures ScreenMatches(Advance(cfg, w, e).session, Advance(cfg, w, e).screen)
  {
    var s := w.session;
    var t := Step(cfg, s, e);
    var edits := Emit(cfg, s, e);
    if |edits| == 1 {
      assert ApplyEdits(w.screen, edits) == ApplyEdit(w.screen, edits[0]);
    }
  }

  /** Over a whole run of enabled clicks and expiries, the index stays a page and the reply shows it. */
  lemma {:induction false} ReplayPreserves(cfg: Config, w: World, events: seq<Event>)
    requires Valid(cfg, w.session) && ScreenMatches(w.session, w.screen)
    requires AllClickable(cfg, w.session, events)
    ensures Valid(cfg, Replay(cfg, w, events).session)
    ensures 0 <= Replay(cfg, w, events).session.page < cfg.pageCount
    ensures ScreenMatches(Replay(cfg, w, events).session, Replay(cfg, w, events).screen)
    decreases |events|
  {
    if |events| > 0 {
      AdvancePreserves(cfg, w, events[0]);
      ReplayPreserves(cfg, Advance(cfg, w, events[0]), events[1..]);
    }
  }

  /** From the first reply, any run of enabled clicks keeps `0 <= currentPage < pageCount`. */
  lemma SessionStaysInRange(cfg: Config, events: seq<Event>)
    requires cfg.pageCount >= 1
    requires AllClickable(cfg, Start(cfg.pageCount), events)
    ensures 0 <= Replay(cfg, Begin(cfg.pageCount), events).session.page < cfg.pageCount
  {
    ReplayPreserves(cfg, Begin(cfg.pageCount), events);
  }

  /** Clicks the filter rejects never change anything, whoever sends them and whatever they name. */
  lemma {:induction false} RejectedClicksChangeNothing(cfg: Config, w: World, events: seq<Event>)
    requires forall i :: 0 <= i < |events| ==>
      events[i].Click? && !Accepts(cfg.initiator, events[i].customId, events[i].userId)
    ensures Replay(cfg, w, events) == w
    decreases |events|
  {
    if |events| > 0 {
      assert Advance(cfg, w, events[0]) == w;
      RejectedClicksChangeNothing(cfg, w, events[1..]);
    }
  }

  /** After expiry nothing moves any more, not even a click by the initiator. */
  lemma {:induction false} ExpiredIsFinal(cfg: Config, w: World, events: seq<Event>)
    requires !w.session.collecting
    ensures Replay(cfg, w, events) == w
    decreases |events|
  {
    if |events| > 0 {
      ExpiredIsFinal(cfg, w, events[1..]);
    }
  }

  /** Once the collector has ended, the reply offers no enabled button, whichever way the command was invoked. */
  lemma ExpiryDisablesReply(cfg: Config, w: World)
    requires Valid(cfg, w.session) && ScreenMatches(w.session, w.screen)
    ensures !Advance(cfg, w, Expire).session.collecting
    ensures NoneEnabled(Advance(cfg, w, Expire).screen.buttons)
    ensures Advance(cfg, w, Expire).screen.page == w.session.page
  {
    AdvancePreserves(cfg, w, Expire);
  }

  /**
   * Without the enabled-button assumption the index leaves the pages: an
   * accepted "next" on the last page moves `currentPage` to `pageCount`.
   */
  lemma NextPastLastPage(cfg: Config, s: SessionState)
    requires Valid(cfg, s) && s.collecting && s.page == cfg.pageCount - 1
    ensures !Clickable(s, Click(NextId, cfg.initiator))
    ensures Step(cfg, s, Click(NextId, cfg.initiator)).page == cfg.pageCount
  {
  }

  /**
   * Three pages A, B, C started by "U1": "next" twice reaches C with "next"
   * disabled, so a third "next" cannot be clicked; "next" by "U2" changes
   * nothing; "previous" twice returns to A.
   */
  lemma ThreePageWalk()
    ensures var cfg := Config(3, "U1", true);
      var w0 := Begin(3);
      var w2 := Replay(cfg, w0, [Click(NextId, "U1"), Click(NextId, "U1")]);
      && w0.screen == Screen(0, Row(true, false))
      && w2.screen == Screen(2, Row(false, true))
      && !Clickable(w2.session, Click(NextId, "U1"))
      && Replay(cfg, w2, [Click(NextId, "U2")]) == w2
      && Replay(cfg, w2, [Click(PreviousId, "U1"), Click(PreviousId, "U1")]).screen == Screen(0, Row(true, false))
  {
    var cfg := Config(3, "U1", true);
    var w0 := Begin(3);
    var w1 := Advance(cfg, w0, Click(NextId, "U1"));
    var w2 := Advance(cfg, w1, Click(NextId, "U1"));
    assert Replay(cfg, w0, [Click(NextId, "U1"), Click(NextId, "U1")]) == w2 by {
      assert [Click(NextId, "U1"), Click(NextId, "U1")][1..] == [Click(NextId, "U1")];
      assert Replay(cfg, w1, [Click(NextId, "U1")]) == Replay(cfg, w2, []);
    }
    assert w1.screen == Screen(1, Row(false, false));
    assert w2.screen == Screen(2, Row(false, true));
    var w3 := Advance(cfg, w2, Click(PreviousId, "U1"));
    var w4 := Advance(cfg, w3, Click(PreviousId, "U1"));
    assert Replay(cfg, w2, [Click(PreviousId, "U1"), Click(PreviousId, "U1")]) == w4 by {
      assert [Click(PreviousId, "U1"), Click(PreviousId, "U1")][1..] == [Click(PreviousId, "U1")];
      assert Replay(cfg, w3, [Click(PreviousId, "U1")]) == Replay(cfg, w4, []);
    }
    assert w3.screen == Screen(1, Row(false, false));
  }

  /** A single page: both buttons start disabled, no collector runs, and no click has any effect. */
  lemma SinglePageIsStatic(cfg: Config, events: seq<Event>)
    requires cfg.pageCount == 1
    ensures Begin(1).screen == Screen(0, Row(true, true))
    ensures Replay(cfg, Begin(1), events) == Begin(1)
  {
    ExpiredIsFinal(cfg, Begin(1), events);
  }

  /**
   * As written, a prefix session that expires leaves its reply as it was: on a
   * three-page session still at page 0, "next" stays enabled on the reply.
   */
  lemma TeardownAsWrittenKeepsButtons()
    ensures var cfg := Config(3, "U1", false);
      var w := Begin(3);
      && w.screen.buttons == Row(true, false)
      && ApplyEdit(w.screen, TeardownAsWritten(cfg.isSlash)) == w.screen
      && !NoneEnabled(ApplyEdit(w.screen, TeardownAsWritten(cfg.isSlash)).buttons)
  {
  }

  /** The teardown the model uses reaches the reply and leaves no enabled button, for both invocation kinds. */
  lemma TeardownReachesReply(isSlash: bool, screen: Screen)
    ensures Teardown(isSlash).target == FirstReply(1).target
    ensures ApplyEdit(screen, Teardown(isSlash)).page == screen.page
    ensures NoneEnabled(ApplyEdit(screen, Teardown(isSlash)).buttons)
    ensures TeardownAsWritten(isSlash) == Teardown(isSlash) <==> isSlash
  {
  }
}
