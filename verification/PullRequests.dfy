/**
 backends/poller.py: the stored pull request rows, and the rules that decide whether a row
 is worth a full refresh, write a listing into it, and undo a refresh that failed.
 */
module PullRequests {
  import opened Wrappers

  /** One entry of the open-PR listing; headSha is "" when the listing has no head. */
  datatype Listed = Listed(
    number: int,
    scraped: bool,
    title: string,
    body: string,
    state: string,
    isDraft: bool,
    labels: seq<string>,
    reviewers: seq<string>,
    assignees: seq<string>,
    headSha: string,
    updatedAt: Option<int>,
    author: string,
    githubId: int)

  datatype Row = Row(
    title: string,
    body: string,
    state: string,
    isDraft: bool,
    labels: seq<string>,
    reviewers: seq<string>,
    assignees: seq<string>,
    headSha: string,
    updatedAt: Option<int>,
    author: string,
    githubId: int,
    changedFiles: seq<string>,
    lastPolled: Option<int>,
    baseSha: string,
    scored: bool,
    isOperatorPr: bool,
    verdict: string,
    rebaseRequestedSha: string,
    ciStatus: string)

  /** What the per-PR calls brought back; "" for a sha the detail did not carry. */
  datatype Detail = Detail(
    baseSha: string,
    headSha: string,
    scored: bool,
    isOperatorPr: bool,
    verdict: string,
    rebaseRequestedSha: string,
    ciStatus: string)

  /** Times are in microseconds. */
  const HOUR: int := 3_600_000_000
  const OPERATOR_HOURS := 1
  const CANDIDATE_HOURS := 1
  const CI_PENDING_HOURS := 6

  function Min(a: int, b: int): int { if a < b then a else b }

  // ------------------------------------------------------------ the skip

  predicate Degraded(r: Row) { r.baseSha == "" || !r.scored }

  /** Something the listing shows differs from the row; a listing without a head says nothing about it. */
  predicate ListingDiffers(r: Row, p: Listed) {
    || r.title != p.title || r.body != p.body || r.state != p.state || r.isDraft != p.isDraft
    || r.labels != p.labels || r.reviewers != p.reviewers || r.assignees != p.assignees
    || (p.headSha != "" && r.headSha != p.headSha)
  }

  predicate IsCandidate(r: Row) { r.verdict == "ready" || r.verdict == "flaky-ci" || r.rebaseRequestedSha != "" }

  function Window(r: Row, hours: int): int {
    var window := if r.isOperatorPr then Min(hours, OPERATOR_HOURS) else hours;
    if IsCandidate(r) then Min(window, CANDIDATE_HOURS)
    else if r.ciStatus == "pending" then Min(window, CI_PENDING_HOURS)
    else window
  }

  predicate NeedsRefresh(known: Option<Row>, p: Listed, hours: int, now: int) {
    if hours <= 0 || known == None then true
    else
      var r := known.value;
      if Degraded(r) then true
      else if p.updatedAt == None || r.updatedAt == None then true
      else if p.updatedAt != r.updatedAt then true
      else if ListingDiffers(r, p) then true
      else if r.lastPolled == None then true
      else now - r.lastPolled.value >= Window(r, hours) * HOUR
  }

  /** The timer runs out exactly when one of the clocks the row is under does. */
  lemma DueExactlyWhen(r: Row, hours: int, age: int)
    ensures age >= Window(r, hours) * HOUR <==>
      || age >= hours * HOUR
      || (r.isOperatorPr && age >= OPERATOR_HOURS * HOUR)
      || (IsCandidate(r) && age >= CANDIDATE_HOURS * HOUR)
      || (r.ciStatus == "pending" && age >= CI_PENDING_HOURS * HOUR)
  {
  }

  /** What is due stays due. */
  lemma DueStaysDue(known: Option<Row>, p: Listed, hours: int, now: int, later: int)
    requires now <= later && NeedsRefresh(known, p, hours, now)
    ensures NeedsRefresh(known, p, hours, later)
  {
  }

  // ------------------------------------------------------------ the writes of a refresh

  /** Create or update a row from a listing entry; files is None when their fetch failed. */
  function Upsert(known: Option<Row>, p: Listed, files: Option<seq<string>>): Row {
    match known
    case None =>
      Row(p.title, p.body, p.state, p.isDraft, p.labels, p.reviewers, p.assignees, "", p.updatedAt, p.author,
        p.githubId,
        (match files case Some(f) => f case None => []), None, "", false, false, "", "", "")
    case Some(r) =>
      var t := r.(title := p.title, author := p.author, state := p.state,
        changedFiles := match files case Some(f) => f case None => r.changedFiles);
      if p.scraped then t
      else t.(body := p.body, isDraft := p.isDraft, labels := p.labels, reviewers := p.reviewers,
        assignees := p.assignees,
        updatedAt := p.updatedAt, githubId := if p.githubId == 0 then r.githubId else p.githubId)
  }

  /** The save at the bottom of a refresh. */
  function Complete(r: Row, d: Detail, at: int): Row {
    r.(baseSha := if d.baseSha != "" then d.baseSha else r.baseSha,
      headSha := if d.headSha != "" then d.headSha else r.headSha,
      scored := d.scored, isOperatorPr := d.isOperatorPr, verdict := d.verdict,
      rebaseRequestedSha := d.rebaseRequestedSha, ciStatus := d.ciStatus, lastPolled := Some(at))
  }

  /** Put back everything the skip compares, except the state. */
  function Rewind(r: Row, known: Row): Row {
    r.(updatedAt := known.updatedAt, title := known.title, body := known.body, isDraft := known.isDraft,
      labels := known.labels,
      reviewers := known.reviewers, assignees := known.assignees, headSha := known.headSha)
  }

  /** A scrape record writes no placeholder over good data, and a failed file fetch loses no file list. */
  lemma ScrapePreserves(r: Row, p: Listed, files: Option<seq<string>>)
    requires p.scraped
    ensures var t := Upsert(Some(r), p, files);
      && t.(title := r.title, author := r.author, state := r.state, changedFiles := r.changedFiles) == r
      && (files == None ==> t.changedFiles == r.changedFiles)
  {
  }

  /** An API record's fields go into the row and nothing else of it changes; a missing id leaves the one known. */
  lemma ListingIsTaken(r: Row, p: Listed, files: Option<seq<string>>)
    requires !p.scraped
    ensures var t := Upsert(Some(r), p, files);
      && !ListingDiffers(t.(headSha := p.headSha), p) && t.updatedAt == p.updatedAt && t.author == p.author
      && t.githubId == (if p.githubId == 0 then r.githubId else p.githubId)
      && (match files case None => t.changedFiles == r.changedFiles case Some(now) => t.changedFiles == now)
      && t.headSha == r.headSha && t.lastPolled == r.lastPolled && t.baseSha == r.baseSha && t.scored == r.scored
      && t.isOperatorPr == r.isOperatorPr && t.verdict == r.verdict
      && t.rebaseRequestedSha == r.rebaseRequestedSha && t.ciStatus == r.ciStatus
  {
  }

  /** A new row shows what its listing shows, from either source, and is not yet polled, scored or based. */
  lemma NewRowIsListed(p: Listed, files: Option<seq<string>>)
    ensures var t := Upsert(None, p, files);
      && !ListingDiffers(t.(headSha := p.headSha), p) && t.updatedAt == p.updatedAt && t.author == p.author
      && t.githubId == p.githubId && (files == None ==> t.changedFiles == []) && (files.Some? ==>
        t.changedFiles == files.value)
      && t.headSha == "" && t.lastPolled == None && t.baseSha == "" && !t.scored && !t.isOperatorPr
      && t.verdict == "" && t.rebaseRequestedSha == "" && t.ciStatus == ""
  {
  }

  /** A completed refresh stamps the row, loses no sha the detail did not carry, and leaves what the listing wrote. */
  lemma RefreshIsSaved(r: Row, d: Detail, at: int)
    ensures var t := Complete(r, d, at);
      && t.lastPolled == Some(at) && t.scored == d.scored && t.verdict == d.verdict && t.ciStatus == d.ciStatus
      && t.isOperatorPr == d.isOperatorPr && t.rebaseRequestedSha == d.rebaseRequestedSha
      && (t.baseSha == "" ==> d.baseSha == "" && r.baseSha == "") && t.baseSha in {r.baseSha, d.baseSha}
      && (t.headSha == "" ==> d.headSha == "" && r.headSha == "") && t.headSha in {r.headSha, d.headSha}
      && (d.baseSha != "" ==> t.baseSha == d.baseSha) && (d.headSha != "" ==> t.headSha == d.headSha)
      && (forall p: Listed :: p.headSha == "" ==> (ListingDiffers(t, p) <==> ListingDiffers(r, p)))
      && t.updatedAt == r.updatedAt && t.author == r.author && t.githubId == r.githubId
      && t.changedFiles == r.changedFiles
  {
  }

  /** After the rewind a listing looks to the skip as it did before, but for the present state; the rest is kept. */
  ghost predicate LooksAsKnown(after: Row, before: Row, known: Row) {
    && (forall p :: ListingDiffers(after, p) <==> ListingDiffers(known.(state := before.state), p))
    && (forall p: Listed :: p.updatedAt == after.updatedAt <==> p.updatedAt == known.updatedAt)
    && after.state == before.state && after.author == before.author && after.githubId == before.githubId
    && after.changedFiles == before.changedFiles && after.lastPolled == before.lastPolled &&
      after.baseSha == before.baseSha
    && after.scored == before.scored && after.isOperatorPr == before.isOperatorPr && after.verdict == before.verdict
    && after.rebaseRequestedSha == before.rebaseRequestedSha && after.ciStatus == before.ciStatus
  }

  lemma RewindLooksAsKnown(r: Row, known: Row)
    ensures LooksAsKnown(Rewind(r, known), r, known)
  {
  }

  // ------------------------------------------------------------ after a refresh that failed

  /** The row a failed refresh leaves. committed: the listing was written first; rewound: the rewind went through. */
  function AfterFailure(r: Row, p: Listed, files: Option<seq<string>>, committed: bool, rewound: bool): Row {
    var t := if committed then Upsert(Some(r), p, files) else r;
    if rewound then Rewind(t, r) else t
  }

  /** Nothing but the stored state asked for the refresh. */
  predicate StateOnly(r: Row, p: Listed, hours: int, now: int) {
    && NeedsRefresh(Some(r), p, hours, now)
    && r.state != p.state
    && hours > 0 && !Degraded(r) && p.updatedAt.Some? && p.updatedAt == r.updatedAt
    && r.title == p.title && r.body == p.body && r.isDraft == p.isDraft
    && r.labels == p.labels && r.reviewers == p.reviewers && r.assignees == p.assignees
    && (p.headSha != "" ==> r.headSha == p.headSha)
    && r.lastPolled.Some? && now - r.lastPolled.value < Window(r, hours) * HOUR
  }

  /**
   A failed refresh is repeated by every later poll of the same listing exactly when
   something other than the state had asked for it, or nothing had been committed.
   */
  lemma RetriedExactlyWhen(r: Row, p: Listed, files: Option<seq<string>>, committed: bool, hours: int, now: int)
    requires NeedsRefresh(Some(r), p, hours, now)
    ensures (forall later | later >= now ::
      NeedsRefresh(Some(AfterFailure(r, p, files, committed, true)), p, hours, later))
      <==> !(committed && StateOnly(r, p, hours, now))
  {
    var after := AfterFailure(r, p, files, committed, true);
    if committed {
      if StateOnly(r, p, hours, now) {
        assert !NeedsRefresh(Some(after), p, hours, now);
      }
    }
  }

  /** A reopened pull request, all else unchanged: its refresh fails, and nothing asks again within the window. */
  lemma StateChangeIsForgotten()
    ensures
      var p := Listed(7, false, "t", "b", "open", false, [], [], [], "h", Some(5), "a", 1);
      var r := Row("t", "b", "closed", false, [], [], [], "h", Some(5), "a", 1, [], Some(0), "base", true, false, "",
        "", "");
      && NeedsRefresh(Some(r), p, 24, HOUR)
      && forall later | HOUR <= later < 24 * HOUR ::
        !NeedsRefresh(Some(AfterFailure(r, p, None, true, true)), p, 24, later)
  {
  }

  /** A row created by a refresh that failed is incomplete, so it is refreshed again. */
  lemma NewRowIsRetried(p: Listed, files: Option<seq<string>>, hours: int, later: int)
    ensures NeedsRefresh(Some(Upsert(None, p, files)), p, hours, later)
  {
  }

  // ------------------------------------------------------------ after a refresh that completed

  /** The listing was written whole: an API record, or a scrape of a row that had nothing to lose. */
  predicate WrittenWhole(known: Option<Row>, p: Listed) {
    known == None || !p.scraped ||
      !ListingDiffers(known.value.(title := p.title, state := p.state, headSha := p.headSha), p)
  }

  /**
   A completed refresh is skipped on the same listing exactly until its window lapses: when
   the row got a base and scores, the listing has a timestamp, and its head is the one found.
   */
  lemma SkippedExactlyUntil(known: Option<Row>, p: Listed, files: Option<seq<string>>, d: Detail, hours: int,
      at: int, later: int)
    requires hours > 0
    ensures var t := Complete(Upsert(known, p, files), d, at);
      NeedsRefresh(Some(t), p, hours, later) <==>
        || t.baseSha == "" || !d.scored
        || p.updatedAt == None || t.updatedAt != p.updatedAt
        || !WrittenWhole(known, p)
        || (p.headSha != "" && t.headSha != p.headSha)
        || later - at >= Window(t, hours) * HOUR
  {
  }
}
