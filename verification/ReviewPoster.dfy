/**
 backends/poster.py over a forge that may accept a review and still raise: posting the
 drafts of one pull request, reading the forge back after a failure, recalling a comment.
 */
module ReviewPoster {
  import opened Wrappers
  import opened ReviewComments

  /** Times are in microseconds. */
  const MINUTE: int := 60_000_000
  const CLOCK_SKEW: int := 10 * MINUTE
  const RECALL_WINDOW: int := 24 * 60 * MINUTE

  /** What the forge client reads: five pages of reviews, one page of a review's comments. */
  const MAX_REVIEWS := 500
  const MAX_COMMENTS := 100

  // ------------------------------------------------------------ the forge

  datatype Placed = Placed(id: int, comment: Comment)

  /** A submitted review: its body holds the file-level comments, its diff comments have ids. */
  datatype Review = Review(id: int, submitted: Option<int>, extras: seq<Comment>, comments: seq<Placed>)

  /**
   The drafts and the forge's reviews of one pull request, with the next free id and the
   history the properties speak of: attempts made, drafts whose post ended unverified, and
   drafts whose deletion raised.
   */
  datatype State = State(
    drafts: map<int, Draft>,
    reviews: seq<Review>,
    nextId: int,
    used: set<nat>,
    doubt: set<int>,
    deleting: set<int>)

  function Inline(cs: seq<Comment>): seq<Comment> {
    if cs == [] then []
    else Inline(cs[..|cs| - 1]) + if cs[|cs| - 1].line.Some? then [cs[|cs| - 1]] else []
  }

  function FileLevel(cs: seq<Comment>): seq<Comment> {
    if cs == [] then []
    else FileLevel(cs[..|cs| - 1]) + if cs[|cs| - 1].line == None then [cs[|cs| - 1]] else []
  }

  function Stamped(cs: seq<Comment>, attempt: nat): seq<Comment> {
    seq(|cs|, i requires 0 <= i < |cs| => cs[i].(marker := Some(attempt)))
  }

  /** Ids are given in posting order. */
  function Place(cs: seq<Comment>, id: int): seq<Placed> {
    seq(|cs|, i requires 0 <= i < |cs| => Placed(id + i, cs[i]))
  }

  function NewReview(id: int, submitted: Option<int>, cs: seq<Comment>): Review {
    Review(id, submitted, FileLevel(cs), Place(Inline(cs), id + 1))
  }

  function Front<T>(s: seq<T>, n: nat): seq<T> { if |s| <= n then s else s[..n] }

  // ------------------------------------------------------------ copies of a draft

  function Marked(c: Comment, key: int): nat { if c.marker.Some? && c.key == key then 1 else 0 }

  function CopiesIn(cs: seq<Comment>, key: int): nat {
    if cs == [] then 0 else CopiesIn(cs[..|cs| - 1], key) + Marked(cs[|cs| - 1], key)
  }

  function CopiesPlaced(ps: seq<Placed>, key: int): nat {
    if ps == [] then 0 else CopiesPlaced(ps[..|ps| - 1], key) + Marked(ps[|ps| - 1].comment, key)
  }

  function CopiesOf(r: Review, key: int): nat { CopiesIn(r.extras, key) + CopiesPlaced(r.comments, key) }

  /** How many posted copies of the draft the forge holds. */
  function Copies(reviews: seq<Review>, key: int): nat {
    if reviews == [] then 0 else Copies(reviews[..|reviews| - 1], key) + CopiesOf(reviews[|reviews| - 1], key)
  }

  function Occurs(chosen: seq<int>, key: int): nat {
    if chosen == [] then 0 else Occurs(chosen[..|chosen| - 1], key) + if chosen[|chosen| - 1] == key then 1 else 0
  }

  // ------------------------------------------------------------ comment ids

  /** Ids in order to the inline comments in order, as far as both go. */
  function InOrder(inline: seq<Comment>, ids: seq<int>, n: nat): map<int, int>
    requires n <= |inline| && n <= |ids|
  {
    if n == 0 then map[] else InOrder(inline, ids, n - 1)[inline[n - 1].key := ids[n - 1]]
  }

  function IdsOf(placed: seq<Placed>): seq<int> {
    seq(|placed|, i requires 0 <= i < |placed| => placed[i].id)
  }

  /** The ids of the comments that carry the attempt's marker. */
  function ByMarker(placed: seq<Placed>, attempt: nat): map<int, int> {
    if placed == [] then map[]
    else
      var p := placed[|placed| - 1];
      var m := ByMarker(placed[..|placed| - 1], attempt);
      if p.comment.marker == Some(attempt) then m[p.comment.key := p.id] else m
  }

  // ------------------------------------------------------------ reading back

  datatype Found = Landed(review: int, ids: map<int, int>) | Absent | Unknown

  predicate InBody(r: Review, attempt: nat) {
    exists i :: 0 <= i < |r.extras| && r.extras[i].marker == Some(attempt)
  }

  /** Reviews n-1, n-2, ... : the first that is not too old and carries the attempt's marker. */
  function Find(reviews: seq<Review>, n: nat, attempt: nat, floor: int, unreadable: set<int>): Found
    requires n <= |reviews|
  {
    if n == 0 then Absent
    else
      var r := reviews[n - 1];
      if r.submitted.Some? && r.submitted.value < floor then Find(reviews, n - 1, attempt, floor, unreadable)
      else if r.id in unreadable then Unknown
      else
        var ids := ByMarker(Front(r.comments, MAX_COMMENTS), attempt);
        if InBody(r, attempt) || ids != map[] then Landed(r.id, ids)
        else Find(reviews, n - 1, attempt, floor, unreadable)
  }

  // ------------------------------------------------------------ one post

  /** How the outside answers one post; liveHead "" and diff [] when they cannot be read. */
  datatype Answers = Answers(
    liveHead: string,
    diff: seq<string>,
    attempt: nat,
    started: int,
    lands: bool,
    raises: bool,
    submitted: Option<int>,
    idsReadable: bool,
    meanwhile: seq<Review>,
    nextFree: int,
    listable: bool,
    unreadable: set<int>,
    at: int)

  datatype Outcome =
    | BadMode
    | NothingToPost
    | StaleHead
    | BadRange
    | NotPosted
    | Unverified
    | Done(ids: map<int, int>, folded: nat, verifiedAfterError: bool)

  predicate SameSha(a: string, b: string) { a != "" && b != "" && (a <= b || b <= a) }

  predicate ValidMode(mode: string) { mode == "refuse" || mode == "post" || mode == "body-only" }

  predicate Moved(head: string, live: string) { live != "" && head != "" && !SameSha(live, head) }

  /** The drafts a call without an explicit list posts, in the table's order. */
  function Selected(drafts: map<int, Draft>, order: seq<int>): seq<int>
    requires forall i | 0 <= i < |order| :: order[i] in drafts
  {
    if order == [] then []
    else
      var k := order[|order| - 1];
      Selected(drafts, order[..|order| - 1]) + if drafts[k].status == Accepted ||
        drafts[k].status == Edited then [k] else []
  }

  function MarkPosted(drafts: map<int, Draft>, chosen: seq<int>, at: int, ids: map<int, int>): (r: map<int, Draft>)
    requires forall i | 0 <= i < |chosen| :: chosen[i] in drafts
    ensures r.Keys == drafts.Keys
  {
    if chosen == [] then drafts
    else
      var n := |chosen| - 1;
      var k := chosen[n];
      var before := MarkPosted(drafts, chosen[..n], at, ids);
      before[k := before[k].(status := Posted, postedAt := Some(at),
        commentId := if k in ids then Some(ids[k]) else before[k].commentId)]
  }

  /** The forge after the request: the review if it landed, and what others added. */
  function Received(reviews: seq<Review>, id: int, sent: seq<Comment>, a: Answers): seq<Review> {
    reviews + (if a.lands then [NewReview(id, a.submitted, sent)] else []) + a.meanwhile
  }

  /** What a call that gets as far as sending sends. */
  function Sent(s: State, chosen: seq<int>, mode: string, a: Answers): seq<Comment>
    requires (forall i | 0 <= i < |chosen| :: chosen[i] in s.drafts) && BuildAll(s.drafts, chosen).Some?
  {
    Stamped(Prepared(BuildAll(s.drafts, chosen).value, mode, a.diff), a.attempt)
  }

  /** Why a call sends nothing, if it does not. */
  function Refusal(s: State, head: string, chosen: seq<int>, mode: string, a: Answers): Option<Outcome>
    requires forall i | 0 <= i < |chosen| :: chosen[i] in s.drafts
  {
    if !ValidMode(mode) then Some(BadMode)
    else if chosen == [] then Some(NothingToPost)
    else if Moved(head, a.liveHead) && mode == "refuse" then Some(StaleHead)
    else if BuildAll(s.drafts, chosen) == None then Some(BadRange)
    else None
  }

  /** The comment ids a call without an error brings back. */
  function IdsReturned(inline: seq<Comment>, id: int, a: Answers): map<int, int> {
    var n := |Front(inline, MAX_COMMENTS)|;
    if a.idsReadable && inline != [] then InOrder(inline, IdsOf(Place(inline, id + 1)), n) else map[]
  }

  function FoundAfter(s: State, chosen: seq<int>, mode: string, a: Answers): Found
    requires (forall i | 0 <= i < |chosen| :: chosen[i] in s.drafts) && BuildAll(s.drafts, chosen).Some?
  {
    var listed := Front(Received(s.reviews, s.nextId, Sent(s, chosen, mode, a), a), MAX_REVIEWS);
    if a.listable then Find(listed, |listed|, a.attempt, a.started - CLOCK_SKEW, a.unreadable) else Unknown
  }

  function Post(s: State, head: string, chosen: seq<int>, mode: string, a: Answers): (State, Outcome)
    requires forall i | 0 <= i < |chosen| :: chosen[i] in s.drafts
  {
    match Refusal(s, head, chosen, mode, a)
    case Some(o) => (s, o)
    case None =>
      var cs := BuildAll(s.drafts, chosen).value;
      var sent := Sent(s, chosen, mode, a);
      var folded := if |Prepared(cs, mode, a.diff)| == |cs| then Unpinned(cs, Prepared(cs, mode, a.diff)) else 0;
      var t := s.(reviews := Received(s.reviews, s.nextId, sent, a), nextId := a.nextFree,
        used := s.used + {a.attempt});
      if !a.raises then
        var ids := IdsReturned(Inline(sent), s.nextId, a);
        (t.(drafts := MarkPosted(s.drafts, chosen, a.at, ids)), Done(ids, folded, false))
      else match FoundAfter(s, chosen, mode, a)
        case Absent => (t, NotPosted)
        case Unknown => (t.(doubt := s.doubt + set i | 0 <= i < |chosen| :: chosen[i]), Unverified)
        case Landed(_, ids) => (t.(drafts := MarkPosted(s.drafts, chosen, a.at, ids)), Done(ids, folded, true))
  }

  // ------------------------------------------------------------ one recall

  function Remove(ps: seq<Placed>, id: int): seq<Placed> {
    if ps == [] then []
    else Remove(ps[..|ps| - 1], id) + if ps[|ps| - 1].id == id then [] else [ps[|ps| - 1]]
  }

  function Delete(reviews: seq<Review>, id: int): seq<Review> {
    seq(|reviews|, i requires 0 <= i < |reviews| => reviews[i].(comments := Remove(reviews[i].comments, id)))
  }

  predicate MayRecall(d: Draft, now: int) {
    && d.commentId.Some? && d.commentId.value != 0
    && d.postedAt.Some? && now - d.postedAt.value <= RECALL_WINDOW
  }

  /** deletes: the comment is gone from the forge; raises: the request failed. */
  function Recall(s: State, key: int, now: int, deletes: bool, raises: bool): (State, bool)
    requires key in s.drafts
  {
    var d := s.drafts[key];
    if !MayRecall(d, now) then (s, false)
    else
      var t := if deletes then s.(reviews := Delete(s.reviews, d.commentId.value)) else s;
      if raises then (t.(deleting := s.deleting + {key}), false)
      else (t.(drafts := s.drafts[key := d.(status := Recalled)]), true)
  }
}
