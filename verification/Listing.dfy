/**
 backends/github.py list_pull_requests and poller.py _close_missing_pull_requests: a listing
 read page by page up to a cap, and the rows closed because they are not in it.
 */
module Listing {
  import opened Wrappers
  import opened PullRequests

  const PAGE_SIZE := 100
  const MAX_LISTED := 1000

  /** How the API answers one page request. */
  datatype Answer = Ok | Denied | Fails

  // ------------------------------------------------------------ the pages

  /** Page k (from 1) of a listing that does not change while it is read. */
  function Page(open: seq<Listed>, size: nat, k: nat): seq<Listed>
    requires k > 0
  {
    var from, to := size * (k - 1), size * k;
    if from > |open| then [] else if to > |open| then open[from..] else open[from..to]
  }

  /** What a listing of at most `cap` entries, read in pages of `size`, shows of the open set. */
  function Shown(open: seq<Listed>, size: nat, cap: nat): seq<Listed>
    requires size > 0
  {
    var most := size * (cap / size);
    if |open| <= most then open else open[..most]
  }

  lemma PageExtends(open: seq<Listed>, size: nat, k: nat)
    requires size > 0 && k > 0 && size * (k - 1) <= |open|
    ensures size * k == size * (k - 1) + size
    ensures open[..size * (k - 1)] + Page(open, size, k) == if size * k <= |open| then open[..size * k] else open
    ensures |Page(open, size, k)| < size <==> |open| < size * k
  {
  }

  /**
   List the open pull requests. An unauthorised answer falls back to `scrape`, any other
   failure raises (None).
   */
  method ListPullRequests(open: seq<Listed>, size: nat, cap: nat, answers: seq<Answer>, scrape: seq<Listed>)
      returns (result: Option<seq<Listed>>)
    requires size > 0 && |answers| == cap / size
    ensures result == Some(Shown(open, size, cap)) || result == Some(scrape) || result == None
    ensures (forall k | 0 <= k < |answers| :: answers[k] == Ok) ==> result == Some(Shown(open, size, cap))
    ensures forall k | 0 <= k < |answers| && answers[k] != Ok && size * k <= |open| &&
      (forall j | 0 <= j < k :: answers[j] == Ok) ::
      result == if answers[k] == Denied then Some(scrape) else None
  {
    hide Page;
    var listed: seq<Listed> := [];
    assert size * 0 == 0;
    for page := 1 to cap / size + 1
      invariant |listed| == size * (page - 1) <= |open|
      invariant listed == open[..|listed|]
      invariant forall k | 0 <= k < page - 1 :: answers[k] == Ok
    {
      match answers[page - 1] {
        case Denied => return Some(scrape);
        case Fails => return None;
        case Ok =>
      }
      PageExtends(open, size, page);
      var data := Page(open, size, page);
      listed := listed + data;
      if |data| < size {
        ShortPageIsLast(open, size, cap, page);
        return Some(listed);
      }
    }
    assert |listed| == |open| ==> listed == open;
    return Some(listed);
  }

  /** Behind a page that came back short there is nothing, and no further page is asked for. */
  lemma ShortPageIsLast(open: seq<Listed>, size: nat, cap: nat, page: nat)
    requires size > 0 && 0 < page <= cap / size && |open| < size * page
    ensures Shown(open, size, cap) == open
    ensures forall k | page <= k :: |open| < size * k
  {
    forall k | page <= k ensures size * page <= size * k {
      PagesGrow(size, page, k);
    }
  }

  lemma PagesGrow(size: nat, a: nat, b: nat)
    requires a <= b
    ensures size * a <= size * b
  {
  }

  /** A result under the cap is the whole open set. */
  ghost predicate UnderCapIsComplete(size: nat, cap: nat)
    requires size > 0
  {
    forall open: seq<Listed> | |Shown(open, size, cap)| < cap :: Shown(open, size, cap) == open
  }

  function AnyEntry(): Listed { Listed(1, false, "", "", "open", false, [], [], [], "", None, "", 0) }

  /** It is, for every open set, exactly when the cap is a whole number of pages. */
  lemma CompleteExactlyWhen(size: nat, cap: nat)
    requires size > 0
    ensures UnderCapIsComplete(size, cap) <==> cap % size == 0
  {
    var most := size * (cap / size);
    assert most + cap % size == cap;
    if cap % size != 0 {
      var open := seq(most + 1, _ => AnyEntry());
      assert |Shown(open, size, cap)| == most < cap;
      assert Shown(open, size, cap) != open;
    }
  }

  // ------------------------------------------------------------ closing what is missing

  function Numbers(listing: seq<Listed>): set<int> {
    set i | 0 <= i < |listing| && listing[i].number != 0 :: listing[i].number
  }

  /** The listing may be trusted to be complete. */
  predicate MayReap(listing: seq<Listed>, listsAll: bool, cap: nat) {
    listsAll && listing != [] && (forall i | 0 <= i < |listing| :: !listing[i].scraped) && |listing| < cap
  }

  function Reap(rows: map<int, Row>, listing: seq<Listed>, listsAll: bool, cap: nat): map<int, Row> {
    if !MayReap(listing, listsAll, cap) then rows
    else
      map n | n in rows ::
        if rows[n].state == "open" && n !in Numbers(listing) then rows[n].(state := "closed") else rows[n]
  }

  /** The forge's own entries: numbered, and not from the scrape. */
  ghost predicate FromForge(open: seq<Listed>) {
    forall i | 0 <= i < |open| :: open[i].number != 0 && !open[i].scraped
  }

  ghost predicate FromScrape(scrape: seq<Listed>) {
    forall i | 0 <= i < |scrape| :: scrape[i].scraped
  }

  /** The reap closes only what is not open on the forge, and afterwards every open row is. */
  ghost predicate ReapIsRight(rows: map<int, Row>, open: seq<Listed>, listing: seq<Listed>, listsAll: bool, cap: nat) {
    var after := Reap(rows, listing, listsAll, cap);
    && (forall n | n in rows && after[n] != rows[n] ::
          rows[n].state == "open" && n !in Numbers(open) && after[n] == rows[n].(state := "closed"))
    && (MayReap(listing, listsAll, cap) ==> forall n | n in after && after[n].state == "open" :: n in Numbers(open))
  }

  /** Every outcome of a listing reaps rightly, if the cap is a whole number of pages. */
  lemma ReapAfterListing(rows: map<int, Row>, open: seq<Listed>, size: nat, cap: nat, scrape: seq<Listed>,
      listsAll: bool)
    requires size > 0 && cap % size == 0 && FromForge(open) && FromScrape(scrape)
    ensures ReapIsRight(rows, open, Shown(open, size, cap), listsAll, cap)
    ensures ReapIsRight(rows, open, scrape, listsAll, cap)
  {
    CompleteExactlyWhen(size, cap);
    if scrape != [] {
      assert scrape[0].scraped;
    }
  }

  ghost predicate AlwaysRight(size: nat, cap: nat)
    requires size > 0
  {
    forall rows: map<int, Row>, open: seq<Listed> | FromForge(open) ::
      ReapIsRight(rows, open, Shown(open, size, cap), true, cap)
  }

  function OpenEntry(n: int): Listed { AnyEntry().(number := n) }

  /**
   For every stored set of rows and every open set, exactly then: with pages that do not
   divide the cap, a listing one entry longer than its pages closes an open pull request.
   (Fewer entries than one page fit under the cap: nothing is ever listed.)
   */
  lemma ReapExactlyWhen(size: nat, cap: nat)
    requires size > 0
    ensures AlwaysRight(size, cap) <==> cap % size == 0 || cap < size
  {
    var most := size * (cap / size);
    assert most + cap % size == cap;
    if cap % size == 0 {
      forall rows: map<int, Row>, open: seq<Listed> | FromForge(open)
        ensures ReapIsRight(rows, open, Shown(open, size, cap), true, cap)
      {
        ReapAfterListing(rows, open, size, cap, [], true);
      }
    } else if cap < size {
      assert cap / size == 0;
    } else {
      var open := seq(most + 1, i => OpenEntry(i + 1));
      var row := Upsert(None, OpenEntry(most + 1), None);
      var rows := map[most + 1 := row];
      var listing := Shown(open, size, cap);
      assert FromForge(open);
      assert open[most].number == most + 1;
      assert listing == open[..most];
      ClosesAnOpenOne(rows, open, listing, most + 1, cap);
    }
  }

  lemma ClosesAnOpenOne(rows: map<int, Row>, open: seq<Listed>, listing: seq<Listed>, n: int, cap: nat)
    requires MayReap(listing, true, cap) && n in rows && rows[n].state == "open"
    requires n in Numbers(open) && n !in Numbers(listing)
    ensures !ReapIsRight(rows, open, listing, true, cap)
  {
    hide Numbers, MayReap;
    assert "open"[0] == 'o' && "closed"[0] == 'c';
    assert Reap(rows, listing, true, cap)[n] != rows[n];
  }

  /** The repository's numbers. */
  lemma ThousandIsTenPages(rows: map<int, Row>, open: seq<Listed>, scrape: seq<Listed>, listsAll: bool)
    requires FromForge(open) && FromScrape(scrape)
    ensures ReapIsRight(rows, open, Shown(open, PAGE_SIZE, MAX_LISTED), listsAll, MAX_LISTED)
    ensures ReapIsRight(rows, open, scrape, listsAll, MAX_LISTED)
  {
    assert MAX_LISTED % PAGE_SIZE == 0;
    ReapAfterListing(rows, open, PAGE_SIZE, MAX_LISTED, scrape, listsAll);
  }
}
