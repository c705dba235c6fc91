/**
 * The pagination session of `server info` as the command keeps it: the page
 * list and the sender are fixed, while `currentPage`, the two buttons of the
 * action row and the collector change in place as the `collect` and `end`
 * handlers run. Each handler is proved to do what `Pagination.Step` says and
 * to send what `Pagination.Emit` says.
 */
module PaginationSession {
  import opened Optional
  import opened Pagination

  class Session<P> {
    /** `embeds`: the pages, built before the first reply. */
    const pages: seq<P>
    /** `sender.id`: the only user whose clicks the collector takes. */
    const initiator: UserId
    /** Whether the command came in as a slash command (otherwise as a prefix message). */
    const isSlash: bool

    var currentPage: int
    /** `row.components[0]` disabled. */
    var previousDisabled: bool
    /** `row.components[1]` disabled. */
    var nextDisabled: bool
    /** The component collector is running. */
    var collecting: bool

    function Config(): Pagination.Config
    {
      Pagination.Config(|pages|, initiator, isSlash)
    }

    function State(): SessionState
      reads this
    {
      SessionState(currentPage, previousDisabled, nextDisabled, collecting)
    }

    ghost predicate Valid()
      reads this
    {
      Pagination.Valid(Config(), State())
    }

    /** Builds the row, sets `currentPage = 0`, and starts a collector when there is more than one page. */
    constructor (pages: seq<P>, initiator: UserId, isSlash: bool)
      requires |pages| >= 1
      ensures this.pages == pages && this.initiator == initiator && this.isSlash == isSlash
      ensures State() == Start(|pages|)
      ensures Valid()
    {
      this.pages := pages;
      this.initiator := initiator;
      this.isSlash := isSlash;
      currentPage := 0;
      previousDisabled := true;
      nextDisabled := |pages| <= 1;
      collecting := |pages| > 1;
    }

    /** The page the reply shows. */
    function Shown(): P
      reads this
      requires Valid()
    {
      pages[currentPage]
    }

    /**
     * A click reaches the collector: the filter, then the `collect` handler,
     * which moves the index, recomputes both flags and updates the reply.
     */
    method Collect(customId: string, userId: UserId) returns (edits: seq<Edit>)
      requires Valid()
      requires Clickable(State(), Click(customId, userId))
      modifies this
      ensures State() == Step(Config(), old(State()), Click(customId, userId))
      ensures edits == Emit(Config(), old(State()), Click(customId, userId))
      ensures Valid()
    {
      if !collecting || !((customId == PreviousId || customId == NextId) && userId == initiator) {
        return [];
      }
      if customId == PreviousId {
        currentPage := currentPage - 1;
      }
      if customId == NextId {
        currentPage := currentPage + 1;
      }
      previousDisabled := currentPage == 0;
      nextDisabled := currentPage == |pages| - 1;
      edits := [Edit(Reply, Some(currentPage), Row(previousDisabled, nextDisabled))];
    }

    /** The collector ends: a slash reply loses its components, a prefix reply gets both buttons disabled. */
    method End() returns (edits: seq<Edit>)
      requires Valid()
      modifies this
      ensures State() == Step(Config(), old(State()), Expire)
      ensures edits == Emit(Config(), old(State()), Expire)
      ensures Valid()
      ensures !collecting
    {
      if !collecting {
        return [];
      }
      collecting := false;
      if isSlash {
        edits := [Edit(Reply, None, NoButtons)];
      } else {
        previousDisabled := true;
        nextDisabled := true;
        edits := [Edit(Reply, None, Row(true, true))];
      }
    }
  }

  /** The three-page walk driven through the object: "next" twice, a stranger's "previous", then "previous" twice. */
  method ThreePageSession<P>(a: P, b: P, c: P)
  {
    var s := new Session([a, b, c], "U1", true);
    assert s.Shown() == a && s.previousDisabled && !s.nextDisabled;
    var e := s.Collect(NextId, "U1");
    e := s.Collect(NextId, "U1");
    assert s.Shown() == c && !s.previousDisabled && s.nextDisabled;
    e := s.Collect(PreviousId, "U2");
    assert e == [] && s.Shown() == c;
    e := s.Collect(PreviousId, "U1");
    e := s.Collect(PreviousId, "U1");
    assert s.Shown() == a && s.previousDisabled;
    e := s.End();
    assert e == [Edit(Reply, None, NoButtons)];
  }
}
