/**
 * The page list of `server info`: the overview page, the role page, and one
 * page per group of 25 custom emojis, each footer reading "Page k of N".
 */
module ServerPages {
  import opened Chunking

  /** Emojis shown on one emoji page. */
  const EmojisPerPage: nat := 25

  /** The three kinds of page; an emoji page carries its "(number/total)" title and its emojis. */
  datatype Page<E> =
    | Overview
    | RoleHierarchy
    | EmojiPage(number: nat, total: nat, emojis: seq<E>)

  /** `[baseEmbed, roleEmbed, ...emojiEmbeds]`, the emoji pages built from `chunkArray(emojis, 25)`. */
  function InfoPages<E>(emojis: seq<E>): (pages: seq<Page<E>>)
  {
    var chunks := Chunk(emojis, EmojisPerPage);
    [Overview, RoleHierarchy] + seq(|chunks|, i requires 0 <= i < |chunks| => EmojiPage(i + 1, |chunks|, chunks[i]))
  }

  /** The N of every footer: `Math.ceil(emojis.size / 25) + 2`. */
  function FooterTotal(emojiCount: nat): nat
  {
    CeilDiv(emojiCount, EmojisPerPage) + 2
  }

  /** The k of the footer of the page at (zero-based) position `index`. */
  function FooterNumber(index: nat): nat
  {
    index + 1
  }

  /**
   * The footers agree with the list: there are exactly `FooterTotal` pages, at
   * least two, the first two are the overview and the roles, and the page at
   * position `i + 2` (footer "Page i + 3") is emoji chunk `i`.
   */
  lemma InfoPagesShape<E>(emojis: seq<E>)
    ensures |InfoPages(emojis)| == FooterTotal(|emojis|)
    ensures |InfoPages(emojis)| >= 2
    ensures InfoPages(emojis)[0] == Overview && InfoPages(emojis)[1] == RoleHierarchy
    ensures forall i :: 0 <= i < |InfoPages(emojis)| - 2 ==>
      InfoPages(emojis)[i + 2] == EmojiPage(i + 1, FooterTotal(|emojis|) - 2, Chunk(emojis, EmojisPerPage)[i])
      && FooterNumber(i + 2) == i + 3
  {
    ChunkCount(emojis, EmojisPerPage);
  }

  /** Every emoji page holds between 1 and 25 emojis. */
  lemma EmojiPageSizes<E>(emojis: seq<E>, k: nat)
    requires 2 <= k < |InfoPages(emojis)|
    ensures InfoPages(emojis)[k].EmojiPage?
    ensures 1 <= |InfoPages(emojis)[k].emojis| <= EmojisPerPage
  {
    ChunkSizes(emojis, EmojisPerPage, k - 2);
  }

  /** The emojis of the pages, read page after page. */
  function EmojisShown<E>(pages: seq<Page<E>>): seq<E>
  {
    if |pages| == 0 then []
    else (if pages[0].EmojiPage? then pages[0].emojis else []) + EmojisShown(pages[1..])
  }

  lemma {:induction false} EmojisShownOfChunks<E>(chunks: seq<seq<E>>, total: nat, first: nat)
    ensures EmojisShown(seq(|chunks|, i requires 0 <= i < |chunks| => EmojiPage(first + i, total, chunks[i])))
         == Flatten(chunks)
    decreases |chunks|
  {
    var pages := seq(|chunks|, i requires 0 <= i < |chunks| => EmojiPage(first + i, total, chunks[i]));
    if |chunks| > 0 {
      var tail := seq(|chunks| - 1, i requires 0 <= i < |chunks| - 1 => EmojiPage(first + 1 + i, total, chunks[1..][i]));
      assert pages[1..] == tail;
      EmojisShownOfChunks(chunks[1..], total, first + 1);
    }
  }

  /** Paging through the whole list shows every emoji exactly once, in the original order. */
  lemma InfoPagesShowAllEmojis<E>(emojis: seq<E>)
    ensures EmojisShown(InfoPages(emojis)) == emojis
  {
    var chunks := Chunk(emojis, EmojisPerPage);
    var emojiPages := seq(|chunks|, i requires 0 <= i < |chunks| => EmojiPage(i + 1, |chunks|, chunks[i]));
    var pages := InfoPages(emojis);
    assert pages[1..][1..] == emojiPages;
    EmojisShownOfChunks(chunks, |chunks|, 1);
    assert seq(|chunks|, i requires 0 <= i < |chunks| => EmojiPage(1 + i, |chunks|, chunks[i])) == emojiPages;
    FlattenChunk(emojis, EmojisPerPage);
  }
}
