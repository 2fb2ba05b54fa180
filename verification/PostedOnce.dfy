/**
 What posting and recalling promise over any sequence of calls: at most one copy of a draft
 on the forge, drafts marked posted exactly when their review landed, and comment ids that
 name the draft's own comment.
 */
module PostedOnce {
  import opened Wrappers
  import opened ReviewComments
  import opened ReviewPoster

  // ------------------------------------------------------------ counting copies

  lemma CopiesPush(cs: seq<Comment>, c: Comment, key: int)
    ensures CopiesIn(cs + [c], key) == CopiesIn(cs, key) + Marked(c, key)
  {
    assert (cs + [c])[..|cs|] == cs;
  }

  /** Each comment goes either into the diff or into the body, none into both. */
  lemma {:induction false} SplitKeepsCopies(cs: seq<Comment>, key: int)
    ensures CopiesIn(Inline(cs), key) + CopiesIn(FileLevel(cs), key) == CopiesIn(cs, key)
    decreases |cs|
  {
    if cs != [] {
      var front, c := cs[..|cs| - 1], cs[|cs| - 1];
      SplitKeepsCopies(front, key);
      CopiesPush(Inline(front), c, key);
      CopiesPush(FileLevel(front), c, key);
      assert Inline(front) + [] == Inline(front) && FileLevel(front) + [] == FileLevel(front);
    }
  }

  lemma {:induction false} PlaceKeepsCopies(cs: seq<Comment>, id: int, key: int)
    ensures CopiesPlaced(Place(cs, id), key) == CopiesIn(cs, key)
    decreases |cs|
  {
    if cs != [] {
      var n := |cs| - 1;
      PlaceKeepsCopies(cs[..n], id, key);
      assert Place(cs, id)[..n] == Place(cs[..n], id);
    }
  }

  /** Marked comments with these keys are one copy for each time a key is listed. */
  lemma {:induction false} MarkedCopies(cs: seq<Comment>, chosen: seq<int>, key: int)
    requires |cs| == |chosen| && forall i | 0 <= i < |cs| :: cs[i].key == chosen[i] && cs[i].marker.Some?
    ensures CopiesIn(cs, key) == Occurs(chosen, key)
    decreases |cs|
  {
    if cs != [] {
      var n := |cs| - 1;
      MarkedCopies(cs[..n], chosen[..n], key);
    }
  }

  lemma CopiesAppend(reviews: seq<Review>, r: Review, key: int)
    ensures Copies(reviews + [r], key) == Copies(reviews, key) + CopiesOf(r, key)
  {
    assert (reviews + [r])[..|reviews|] == reviews;
  }

  /** Reviews by others: no marker of ours, ids of their own. */
  ghost predicate Stranger(r: Review, from: int, to: int) {
    && (forall i | 0 <= i < |r.extras| :: r.extras[i].marker == None)
    && (forall i | 0 <= i < |r.comments| :: r.comments[i].comment.marker == None && from <= r.comments[i].id < to)
  }

  ghost predicate Strangers(rs: seq<Review>, from: int, to: int) {
    forall i | 0 <= i < |rs| :: Stranger(rs[i], from, to)
  }

  lemma {:induction false} NoCopiesIn(cs: seq<Comment>, key: int)
    requires forall i | 0 <= i < |cs| :: Marked(cs[i], key) == 0
    ensures CopiesIn(cs, key) == 0
    decreases |cs|
  {
    if cs != [] { NoCopiesIn(cs[..|cs| - 1], key); }
  }

  lemma {:induction false} NoCopiesPlaced(ps: seq<Placed>, key: int)
    requires forall i | 0 <= i < |ps| :: Marked(ps[i].comment, key) == 0
    ensures CopiesPlaced(ps, key) == 0
    decreases |ps|
  {
    if ps != [] { NoCopiesPlaced(ps[..|ps| - 1], key); }
  }

  lemma {:induction false} StrangersAddNothing(reviews: seq<Review>, rs: seq<Review>, from: int, to: int, key: int)
    requires Strangers(rs, from, to)
    ensures Copies(reviews + rs, key) == Copies(reviews, key)
    decreases |rs|
  {
    if rs == [] {
      assert reviews + rs == reviews;
    } else {
      var n := |rs| - 1;
      var r := rs[n];
      assert Stranger(r, from, to);
      StrangersAddNothing(reviews, rs[..n], from, to, key);
      NoCopiesIn(r.extras, key);
      NoCopiesPlaced(r.comments, key);
      CopiesAppend(reviews + rs[..n], r, key);
      assert reviews + rs == reviews + rs[..n] + [r];
    }
  }

  // ------------------------------------------------------------ what the sent review holds

  ghost predicate InDrafts(s: State, chosen: seq<int>) { forall i | 0 <= i < |chosen| :: chosen[i] in s.drafts }

  ghost predicate GetsSent(s: State, head: string, chosen: seq<int>, mode: string, a: Answers) {
    InDrafts(s, chosen) && Refusal(s, head, chosen, mode, a) == None
  }

  /**
   The outside keeps to the facts: the attempt is new; a request without an error landed;
   the forge's clock is at most ten minutes behind; ids are handed out upwards; and what
   others add meanwhile is theirs.
   */
  ghost predicate Legal(s: State, chosen: seq<int>, mode: string, a: Answers)
    requires InDrafts(s, chosen) && BuildAll(s.drafts, chosen).Some?
  {
    var mine := s.nextId + 1 + |Inline(Sent(s, chosen, mode, a))|;
    && a.attempt !in s.used
    && (!a.raises ==> a.lands)
    && (a.submitted.Some? ==> a.submitted.value >= a.started - CLOCK_SKEW)
    && mine <= a.nextFree && Strangers(a.meanwhile, mine, a.nextFree)
  }

  lemma SentKeys(s: State, chosen: seq<int>, mode: string, a: Answers)
    requires InDrafts(s, chosen) && BuildAll(s.drafts, chosen).Some?
    ensures var sent := Sent(s, chosen, mode, a);
      |sent| == |chosen| && forall i | 0 <= i < |sent| :: sent[i].key == chosen[i] && sent[i].marker == Some(a.attempt)
  {
    hide Prepared, BuildAll, BodyText, Shows;
    forall i | 0 <= i < |chosen| {
      WhatIsSent(s.drafts, chosen, mode, a.diff, i);
    }
    BuiltInOrder(s.drafts, chosen);
    PreparedLength(BuildAll(s.drafts, chosen).value, mode, a.diff);
  }

  lemma PreparedLength(cs: seq<Comment>, mode: string, diff: seq<string>)
    ensures |Prepared(cs, mode, diff)| == |cs|
  {
    hide Check, Folded;
  }

  /** The review holds one copy of each draft for each time it was listed. */
  lemma SentCopies(s: State, chosen: seq<int>, mode: string, a: Answers, key: int)
    requires InDrafts(s, chosen) && BuildAll(s.drafts, chosen).Some?
    ensures CopiesOf(NewReview(s.nextId, a.submitted, Sent(s, chosen, mode, a)), key) == Occurs(chosen, key)
  {
    hide Prepared, BuildAll, Inline, FileLevel, Place, CopiesIn, CopiesPlaced, Occurs;
    var sent := Sent(s, chosen, mode, a);
    SentKeys(s, chosen, mode, a);
    SplitKeepsCopies(sent, key);
    PlaceKeepsCopies(Inline(sent), s.nextId + 1, key);
    MarkedCopies(sent, chosen, key);
  }

  lemma ReceivedCopies(s: State, chosen: seq<int>, mode: string, a: Answers, key: int)
    requires InDrafts(s, chosen) && BuildAll(s.drafts, chosen).Some? && Legal(s, chosen, mode, a)
    ensures Copies(Received(s.reviews, s.nextId, Sent(s, chosen, mode, a), a), key) ==
      Copies(s.reviews, key) + if a.lands then Occurs(chosen, key) else 0
  {
    hide Sent, BuildAll, NewReview, Copies, CopiesOf;
    var sent := Sent(s, chosen, mode, a);
    var r := NewReview(s.nextId, a.submitted, sent);
    var mine := s.nextId + 1 + |Inline(sent)|;
    SentCopies(s, chosen, mode, a, key);
    CopiesAppend(s.reviews, r, key);
    StrangersAddNothing(s.reviews + [r], a.meanwhile, mine, a.nextFree, key);
    StrangersAddNothing(s.reviews, a.meanwhile, mine, a.nextFree, key);
    assert s.reviews + [] == s.reviews;
  }

  // ------------------------------------------------------------ inline comments and body

  /** Every comment goes into the diff or into the body: none is lost, none goes to both. */
  lemma {:induction false} SplitKeepsAll(cs: seq<Comment>)
    ensures multiset(Inline(cs)) + multiset(FileLevel(cs)) == multiset(cs)
    ensures forall c | c in Inline(cs) :: c.line.Some? && c in cs
    ensures forall c | c in FileLevel(cs) :: c.line == None && c in cs
    decreases |cs|
  {
    hide Inline, FileLevel;
    SplitIsByLine(cs);
    SplitIsABag(cs);
  }

  lemma {:induction false} SplitIsByLine(cs: seq<Comment>)
    ensures forall c | c in Inline(cs) :: c.line.Some? && c in cs
    ensures forall c | c in FileLevel(cs) :: c.line == None && c in cs
    decreases |cs|
  {
    if cs != [] {
      SplitIsByLine(cs[..|cs| - 1]);
    }
  }

  lemma {:induction false} SplitIsABag(cs: seq<Comment>)
    ensures multiset(Inline(cs)) + multiset(FileLevel(cs)) == multiset(cs)
    decreases |cs|
  {
    if cs != [] {
      var front, c := cs[..|cs| - 1], cs[|cs| - 1];
      SplitIsABag(front);
      assert cs == front + [c];
      SplitOneMore(front, c);
      hide Inline, FileLevel;
    }
  }

  lemma SplitOneMore(front: seq<Comment>, c: Comment)
    ensures Inline(front + [c]) == Inline(front) + if c.line.Some? then [c] else []
    ensures FileLevel(front + [c]) == FileLevel(front) + if c.line == None then [c] else []
  {
    assert (front + [c])[..|front|] == front;
  }

  // ------------------------------------------------------------ finding the attempt again

  /** The review carries the attempt where the read-back looks: in its body or on its first page of comments. */
  ghost predicate Carries(r: Review, attempt: nat) {
    InBody(r, attempt) || exists i ::
      0 <= i < |Front(r.comments, MAX_COMMENTS)| && r.comments[i].comment.marker == Some(attempt)
  }

  predicate Names(p: Placed, attempt: nat, key: int, id: int) {
    p.comment.marker == Some(attempt) && p.comment.key == key && p.id == id
  }

  /** Every key gets the id of a comment that carries it, and every comment's key gets one. */
  lemma {:induction false} ByMarkerMeaning(placed: seq<Placed>, attempt: nat)
    ensures forall k | k in ByMarker(placed, attempt) :: exists i ::
      0 <= i < |placed| && Names(placed[i], attempt, k, ByMarker(placed, attempt)[k])
    ensures forall i | 0 <= i < |placed| && placed[i].comment.marker == Some(attempt) ::
      placed[i].comment.key in ByMarker(placed, attempt)
    decreases |placed|
  {
    if placed != [] {
      var n := |placed| - 1;
      var m, front := ByMarker(placed, attempt), placed[..n];
      ByMarkerMeaning(front, attempt);
      forall k | k in m ensures exists i :: 0 <= i < |placed| && Names(placed[i], attempt, k, m[k])
      {
        if Names(placed[n], attempt, k, placed[n].id) {
        } else {
          var f := ByMarker(front, attempt);
          assert k in f && m[k] == f[k];
          var i :| 0 <= i < |front| && Names(front[i], attempt, k, f[k]);
          assert placed[i] == front[i];
        }
      }
    }
  }

  lemma CarriesIff(r: Review, attempt: nat)
    ensures Carries(r, attempt) <==> InBody(r, attempt) || ByMarker(Front(r.comments, MAX_COMMENTS), attempt) != map[]
  {
    var front := Front(r.comments, MAX_COMMENTS);
    ByMarkerMeaning(front, attempt);
    var m := ByMarker(front, attempt);
    assert forall i | 0 <= i < |front| :: front[i] == r.comments[i];
    assert m.Keys == {} ==> m == map[];
    if m.Keys != {} {
      var k :| k in m.Keys;
    }
  }

  ghost predicate TooOld(r: Review, floor: int) { r.submitted.Some? && r.submitted.value < floor }

  /** What the search answers: a review that carries the attempt, nothing that does, or a read that failed. */
  lemma {:induction false} FindMeaning(reviews: seq<Review>, n: nat, attempt: nat, floor: int, unreadable: set<int>)
    requires n <= |reviews|
    ensures match Find(reviews, n, attempt, floor, unreadable)
      case Landed(id, ids) =>
        (exists j :: 0 <= j < n && reviews[j].id == id && Carries(reviews[j], attempt) &&
          ids == ByMarker(Front(reviews[j].comments, MAX_COMMENTS), attempt))
      case Absent => forall j | 0 <= j < n :: TooOld(reviews[j], floor) || !Carries(reviews[j], attempt)
      case Unknown => exists j :: 0 <= j < n && reviews[j].id in unreadable
    decreases n
  {
    hide Carries, InBody, ByMarker;
    if n > 0 {
      FindMeaning(reviews, n - 1, attempt, floor, unreadable);
      CarriesIff(reviews[n - 1], attempt);
    }
  }

  // ------------------------------------------------------------ the invariant

  /** Every comment with this id is a copy of this draft. */
  ghost predicate OwnedBy(reviews: seq<Review>, id: int, key: int) {
    forall r, i | 0 <= r < |reviews| && 0 <= i < |reviews[r].comments| && reviews[r].comments[i].id == id ::
      reviews[r].comments[i].comment.marker.Some? && reviews[r].comments[i].comment.key == key
  }

  ghost predicate NamesItsOwn(s: State) {
    forall k | k in s.drafts && s.drafts[k].commentId.Some? ::
      s.drafts[k].commentId.value < s.nextId && OwnedBy(s.reviews, s.drafts[k].commentId.value, k)
  }

  ghost predicate IdsBelow(reviews: seq<Review>, nextId: int) {
    forall r, i | 0 <= r < |reviews| && 0 <= i < |reviews[r].comments| :: reviews[r].comments[i].id < nextId
  }

  ghost predicate Holds(r: Review, attempt: nat) {
    || (exists i :: 0 <= i < |r.extras| && r.extras[i].marker == Some(attempt))
    || (exists i :: 0 <= i < |r.comments| && r.comments[i].comment.marker == Some(attempt))
  }

  ghost predicate MarksUsed(reviews: seq<Review>, used: set<nat>) {
    forall r, attempt: nat | 0 <= r < |reviews| && Holds(reviews[r], attempt) :: attempt in used
  }

  lemma CarriedIsHeld(r: Review, attempt: nat)
    ensures Carries(r, attempt) ==> Holds(r, attempt)
  {
  }

  /**
   At most one copy; one copy only of what is marked posted, or in doubt; posted drafts have
   theirs, unless a deletion raised.
   */
  ghost predicate Once(s: State, key: int) {
    && Copies(s.reviews, key) <= 1
    && (key !in s.drafts ==> Copies(s.reviews, key) == 0)
    && (key in s.drafts && Copies(s.reviews, key) == 1 ==> key in s.doubt || s.drafts[key].status == Posted)
    && (key in s.drafts && s.drafts[key].status == Posted ==> Copies(s.reviews, key) == 1 || key in s.deleting)
  }

  ghost predicate Inv(s: State) {
    && NamesItsOwn(s) && IdsBelow(s.reviews, s.nextId) && MarksUsed(s.reviews, s.used)
    && forall key: int :: Once(s, key)
  }

  // ------------------------------------------------------------ the read-back decides rightly

  lemma OursCarries(id: int, submitted: Option<int>, sent: seq<Comment>, attempt: nat)
    requires sent != [] && forall i | 0 <= i < |sent| :: sent[i].marker == Some(attempt)
    ensures Carries(NewReview(id, submitted, sent), attempt)
  {
    hide Inline, FileLevel;
    var r := NewReview(id, submitted, sent);
    SplitKeepsAll(sent);
    if FileLevel(sent) != [] {
      assert FileLevel(sent)[0] in sent;
      assert r.extras[0].marker == Some(attempt);
    } else {
      assert |multiset(sent)| == |sent| > 0;
      assert Inline(sent) != [];
      assert Inline(sent)[0] in sent;
      assert r.comments[0].comment.marker == Some(attempt);
    }
  }

  lemma StrangersCarryNothing(r: Review, from: int, to: int, attempt: nat)
    requires Stranger(r, from, to)
    ensures !Carries(r, attempt) && !Holds(r, attempt)
  {
  }

  /** On the forge, the attempt's own review carries it and nothing else does. */
  lemma OnlyOursCarries(s: State, chosen: seq<int>, mode: string, a: Answers, j: nat)
    requires InDrafts(s, chosen) && BuildAll(s.drafts, chosen).Some? && Legal(s, chosen, mode, a) && chosen != []
    requires MarksUsed(s.reviews, s.used)
    requires j < |Received(s.reviews, s.nextId, Sent(s, chosen, mode, a), a)|
    ensures Carries(Received(s.reviews, s.nextId, Sent(s, chosen, mode, a), a)[j], a.attempt) <==>
      a.lands && j == |s.reviews|
  {
    hide Sent, BuildAll, NewReview, Carries, Holds, Inline;
    var sent := Sent(s, chosen, mode, a);
    var n := |s.reviews| + if a.lands then 1 else 0;
    CarriedIsHeld(Received(s.reviews, s.nextId, sent, a)[j], a.attempt);
    if j == |s.reviews| && a.lands {
      SentKeys(s, chosen, mode, a);
      OursCarries(s.nextId, a.submitted, sent, a.attempt);
    } else if j >= n {
      StrangersCarryNothing(a.meanwhile[j - n], s.nextId + 1 + |Inline(sent)|, a.nextFree, a.attempt);
    }
  }

  /** The answer of the read-back after a request that raised. */
  lemma ReadBack(s: State, chosen: seq<int>, mode: string, a: Answers)
    requires InDrafts(s, chosen) && BuildAll(s.drafts, chosen).Some? && Legal(s, chosen, mode, a) && chosen != []
    requires MarksUsed(s.reviews, s.used)
    ensures match FoundAfter(s, chosen, mode, a)
      case Landed(_, ids) =>
        && a.lands && |s.reviews| < MAX_REVIEWS
        && ids == ByMarker(Front(Place(Inline(Sent(s, chosen, mode, a)), s.nextId + 1), MAX_COMMENTS), a.attempt)
      case Absent => a.listable && (!a.lands || |s.reviews| >= MAX_REVIEWS)
      case Unknown => !a.listable || a.unreadable != {}
  {
    hide Sent, BuildAll, Legal, Carries, Inline, Place, ByMarker, Find, MarksUsed;
    var sent := Sent(s, chosen, mode, a);
    var all := Received(s.reviews, s.nextId, sent, a);
    var listed := Front(all, MAX_REVIEWS);
    var floor := a.started - CLOCK_SKEW;
    FindMeaning(listed, |listed|, a.attempt, floor, a.unreadable);
    forall j | 0 <= j < |all| ensures Carries(all[j], a.attempt) <==> a.lands && j == |s.reviews| {
      OnlyOursCarries(s, chosen, mode, a, j);
    }
    assert forall j | 0 <= j < |listed| :: listed[j] == all[j];
    if a.lands {
      NotTooOld(s, chosen, mode, a);
      assert all[|s.reviews|] == NewReview(s.nextId, a.submitted, sent);
    }
  }

  lemma NotTooOld(s: State, chosen: seq<int>, mode: string, a: Answers)
    requires InDrafts(s, chosen) && BuildAll(s.drafts, chosen).Some? && Legal(s, chosen, mode, a)
    ensures !TooOld(NewReview(s.nextId, a.submitted, Sent(s, chosen, mode, a)), a.started - CLOCK_SKEW)
  {
  }

  lemma NoErrorLands(s: State, chosen: seq<int>, mode: string, a: Answers)
    requires InDrafts(s, chosen) && BuildAll(s.drafts, chosen).Some? && Legal(s, chosen, mode, a)
    ensures !a.raises ==> a.lands
  {
  }

  lemma {:induction false} MarkedArePosted(drafts: map<int, Draft>, chosen: seq<int>, at: int, ids: map<int, int>,
      k: int)
    requires (forall i | 0 <= i < |chosen| :: chosen[i] in drafts) && k in drafts
    ensures MarkPosted(drafts, chosen, at, ids)[k] ==
      if k !in chosen then drafts[k]
      else drafts[k].(status := Posted, postedAt := Some(at),
        commentId := if k in ids then Some(ids[k]) else drafts[k].commentId)
    decreases |chosen|
  {
    if chosen != [] {
      var n := |chosen| - 1;
      MarkedArePosted(drafts, chosen[..n], at, ids, k);
      assert chosen == chosen[..n] + [chosen[n]];
    }
  }

  /** Drafts are marked posted exactly when the call reports their review; otherwise no draft changes. */
  ghost predicate Recorded(s: State, t: State, chosen: seq<int>, a: Answers, o: Outcome) {
    && t.drafts.Keys == s.drafts.Keys
    && (forall k | k in s.drafts && !(o.Done? && k in chosen) :: t.drafts[k] == s.drafts[k])
    && (o.Done? ==> forall k | k in s.drafts && k in chosen ::
      t.drafts[k].status == Posted && t.drafts[k].postedAt == Some(a.at))
  }

  /**
   One post. Done: the review landed, and its drafts are recorded. NotPosted: nothing of
   this attempt is on the forge. Unverified: something could not be read. In every case the
   forge holds one more copy of each listed draft if the review landed, and none if not.
   */
  lemma PostOutcome(s: State, head: string, chosen: seq<int>, mode: string, a: Answers)
    requires GetsSent(s, head, chosen, mode, a) && Legal(s, chosen, mode, a) && MarksUsed(s.reviews, s.used) &&
      |s.reviews| < MAX_REVIEWS
    ensures var (t, o) := Post(s, head, chosen, mode, a);
      && (!a.raises ==> o.Done?)
      && (a.raises && a.listable && a.unreadable == {} ==> o == NotPosted || o.Done?)
      && (o.Done? ==> a.lands) && (o == NotPosted ==> !a.lands)
      && (o.Done? || o == NotPosted || o == Unverified)
      && Recorded(s, t, chosen, a, o)
      && forall key: int ::
        Copies(t.reviews, key) == Copies(s.reviews, key) + if a.lands then Occurs(chosen, key) else 0
  {
    hide Sent, BuildAll, Legal, MarksUsed, Refusal, MarkPosted, FoundAfter, Received, Copies, Occurs, Recorded;
    ChosenOfSent(s, head, chosen, mode, a);
    ReadBack(s, chosen, mode, a);
    NoErrorLands(s, chosen, mode, a);
    PostIsRecorded(s, head, chosen, mode, a);
    forall key: int {
      ReceivedCopies(s, chosen, mode, a, key);
    }
  }

  lemma PostIsRecorded(s: State, head: string, chosen: seq<int>, mode: string, a: Answers)
    requires GetsSent(s, head, chosen, mode, a)
    ensures var (t, o) := Post(s, head, chosen, mode, a); Recorded(s, t, chosen, a, o)
  {
    hide Sent, BuildAll, Refusal, MarkPosted, FoundAfter, Received;
    forall k, ids: map<int, int> | k in s.drafts {
      MarkedArePosted(s.drafts, chosen, a.at, ids, k);
    }
  }

  lemma ChosenOfSent(s: State, head: string, chosen: seq<int>, mode: string, a: Answers)
    requires GetsSent(s, head, chosen, mode, a)
    ensures BuildAll(s.drafts, chosen).Some? && chosen != []
    ensures Moved(head, a.liveHead) ==> mode == "post" || mode == "body-only"
  {
    hide BuildAll, Moved;
  }

  /**
   A call that is refused changes nothing; and one that refuses moved heads is refused as stale
   exactly when both heads are known and neither is the other's short form.
   */
  lemma RefusedChangesNothing(s: State, head: string, chosen: seq<int>, mode: string, a: Answers)
    requires InDrafts(s, chosen)
    ensures var (t, o) := Post(s, head, chosen, mode, a);
      && (Refusal(s, head, chosen, mode, a).Some? ==> t == s && !o.Done?)
      && (o == StaleHead <==>
            && mode == "refuse" && chosen != [] && head != "" && a.liveHead != ""
            && !(head <= a.liveHead) && !(a.liveHead <= head))
      && (o == StaleHead ==> t == s)
  {
    hide BuildAll, MarkPosted, FoundAfter, Received, Sent;
  }

  /**
   "Absent" after a failed request is right exactly when the review listing is complete: a
   review that landed as the 501st or later is not found, and the drafts look postable again.
   */
  lemma AbsentIsWrongExactlyWhen(s: State, head: string, chosen: seq<int>, mode: string, a: Answers)
    requires GetsSent(s, head, chosen, mode, a) && Legal(s, chosen, mode, a) && MarksUsed(s.reviews, s.used)
    requires a.lands && a.raises && a.listable && a.unreadable == {}
    ensures Post(s, head, chosen, mode, a).1 == NotPosted <==> |s.reviews| >= MAX_REVIEWS
  {
    hide Sent, BuildAll, Legal, MarksUsed, Refusal, MarkPosted, FoundAfter, Received;
    ChosenOfSent(s, head, chosen, mode, a);
    ReadBack(s, chosen, mode, a);
  }

  // ------------------------------------------------------------ comment ids

  lemma {:induction false} InOrderMeaning(inline: seq<Comment>, ids: seq<int>, n: nat)
    requires n <= |inline| && n <= |ids|
    ensures forall k | k in InOrder(inline, ids, n) :: exists i ::
      0 <= i < n && inline[i].key == k && ids[i] == InOrder(inline, ids, n)[k]
    decreases n
  {
    if n > 0 {
      InOrderMeaning(inline, ids, n - 1);
      var m, f := InOrder(inline, ids, n), InOrder(inline, ids, n - 1);
      forall k | k in m ensures exists i :: 0 <= i < n && inline[i].key == k && ids[i] == m[k] {
        if inline[n - 1].key != k {
          assert k in f && m[k] == f[k];
        }
      }
    }
  }

  /** The ids a call records: each is the id of a diff comment of the new review, of that draft. */
  ghost predicate OwnIds(ids: map<int, int>, inline: seq<Comment>, id: int) {
    forall k | k in ids :: exists i :: 0 <= i < |inline| && inline[i].key == k && ids[k] == id + 1 + i
  }

  lemma ReturnedAreOwn(inline: seq<Comment>, id: int, a: Answers)
    ensures OwnIds(IdsReturned(inline, id, a), inline, id)
  {
    hide InOrder;
    var n := |Front(inline, MAX_COMMENTS)|;
    var ids := IdsOf(Place(inline, id + 1));
    InOrderMeaning(inline, ids, n);
    var m := IdsReturned(inline, id, a);
    forall k | k in m ensures exists i :: 0 <= i < |inline| && inline[i].key == k && m[k] == id + 1 + i {
      var i :| 0 <= i < n && inline[i].key == k && ids[i] == InOrder(inline, ids, n)[k];
    }
  }

  lemma FoundAreOwn(inline: seq<Comment>, id: int, attempt: nat)
    ensures OwnIds(ByMarker(Front(Place(inline, id + 1), MAX_COMMENTS), attempt), inline, id)
  {
    hide ByMarker;
    var placed := Front(Place(inline, id + 1), MAX_COMMENTS);
    ByMarkerMeaning(placed, attempt);
    var m := ByMarker(placed, attempt);
    forall k | k in m ensures exists i :: 0 <= i < |inline| && inline[i].key == k && m[k] == id + 1 + i {
      var i :| 0 <= i < |placed| && Names(placed[i], attempt, k, m[k]);
      assert placed[i] == Place(inline, id + 1)[i];
    }
  }

  /** Both ways of learning the ids agree: by position after a clean answer, by marker after an error. */
  lemma {:induction false} BothWaysAgree(inline: seq<Comment>, id: int, attempt: nat, n: nat)
    requires n <= |inline| && forall i | 0 <= i < |inline| :: inline[i].marker == Some(attempt)
    ensures InOrder(inline, IdsOf(Place(inline, id)), n) == ByMarker(Place(inline, id)[..n], attempt)
    decreases n
  {
    if n > 0 {
      BothWaysAgree(inline, id, attempt, n - 1);
      assert Place(inline, id)[..n][..n - 1] == Place(inline, id)[..n - 1];
    }
  }

  /** With distinct drafts every diff comment among the first hundred is named. */
  lemma {:induction false} EveryInlineIsNamed(inline: seq<Comment>, ids: seq<int>, n: nat, i: nat)
    requires i < n <= |inline| && n <= |ids|
    requires forall p, q | 0 <= p < q < |inline| :: inline[p].key != inline[q].key
    ensures inline[i].key in InOrder(inline, ids, n) && InOrder(inline, ids, n)[inline[i].key] == ids[i]
    decreases n
  {
    if i < n - 1 {
      EveryInlineIsNamed(inline, ids, n - 1, i);
    }
  }

  // ------------------------------------------------------------ a post keeps the invariant

  /** A post the promise covers: distinct drafts, none posted or in doubt, on a PR whose reviews can all be listed. */
  ghost predicate Postable(s: State, chosen: seq<int>) {
    && Distinct(chosen) && InDrafts(s, chosen) && |s.reviews| < MAX_REVIEWS
    && forall i | 0 <= i < |chosen| :: chosen[i] !in s.doubt && s.drafts[chosen[i]].status != Posted
  }

  lemma {:induction false} OccursOnce(chosen: seq<int>, key: int)
    ensures Occurs(chosen, key) > 0 <==> key in chosen
    ensures Distinct(chosen) ==> Occurs(chosen, key) <= 1
    decreases |chosen|
  {
    if chosen != [] {
      var front := chosen[..|chosen| - 1];
      OccursOnce(front, key);
      assert chosen == front + [chosen[|chosen| - 1]];
      assert Distinct(chosen) ==> Distinct(front);
    }
  }

  lemma PostKeepsOnce(s: State, head: string, chosen: seq<int>, mode: string, a: Answers, key: int)
    requires Inv(s) && Postable(s, chosen) && GetsSent(s, head, chosen, mode, a) && Legal(s, chosen, mode, a)
    ensures Once(Post(s, head, chosen, mode, a).0, key)
  {
    hide Legal, MarksUsed, Refusal, MarkPosted, FoundAfter, Received, Copies, Occurs, NamesItsOwn, IdsBelow,
      BuildAll, Sent;
    PostOutcome(s, head, chosen, mode, a);
    OccursOnce(chosen, key);
    DoubtAfter(s, head, chosen, mode, a);
    assert Once(s, key);
  }

  lemma DoubtAfter(s: State, head: string, chosen: seq<int>, mode: string, a: Answers)
    requires GetsSent(s, head, chosen, mode, a)
    ensures var (t, o) := Post(s, head, chosen, mode, a);
      && t.deleting == s.deleting && (forall k | k in s.doubt :: k in t.doubt)
      && (forall k | k in t.doubt :: k in s.doubt || k in chosen)
      && (o == Unverified ==> forall k | k in chosen :: k in t.doubt)
      && (o != Unverified ==> t.doubt == s.doubt)
      && t.used == s.used + {a.attempt} && t.nextId == a.nextFree &&
        t.reviews == Received(s.reviews, s.nextId, Sent(s, chosen, mode, a), a)
  {
    hide Refusal, MarkPosted, FoundAfter, Received, BuildAll, Sent;
  }

  /** Ids handed out before stay with their draft; the new review's comments get ids of their own. */
  lemma ReceivedOwned(s: State, chosen: seq<int>, mode: string, a: Answers, id: int, key: int)
    requires InDrafts(s, chosen) && BuildAll(s.drafts, chosen).Some? && Legal(s, chosen, mode, a) &&
      IdsBelow(s.reviews, s.nextId)
    requires var inline := Inline(Sent(s, chosen, mode, a));
      || (id < s.nextId && OwnedBy(s.reviews, id, key))
      || exists i :: 0 <= i < |inline| && inline[i].key == key && id == s.nextId + 1 + i
    ensures OwnedBy(Received(s.reviews, s.nextId, Sent(s, chosen, mode, a), a), id, key)
  {
    hide Sent, BuildAll, Inline, FileLevel;
    var sent := Sent(s, chosen, mode, a);
    var all := Received(s.reviews, s.nextId, sent, a);
    var n := |s.reviews| + if a.lands then 1 else 0;
    InlineMarked(s, chosen, mode, a);
    forall r, i | n <= r < |all| && 0 <= i < |all[r].comments|
      ensures s.nextId + 1 + |Inline(sent)| <= all[r].comments[i].id
    {
      assert Stranger(a.meanwhile[r - n], s.nextId + 1 + |Inline(sent)|, a.nextFree);
    }
    forall r, i | 0 <= r < |all| && 0 <= i < |all[r].comments| && all[r].comments[i].id == id
      ensures all[r].comments[i].comment.marker.Some? && all[r].comments[i].comment.key == key
    {
      if r < |s.reviews| {
        assert all[r] == s.reviews[r];
      }
    }
  }

  lemma InlineMarked(s: State, chosen: seq<int>, mode: string, a: Answers)
    requires InDrafts(s, chosen) && BuildAll(s.drafts, chosen).Some?
    ensures forall c | c in Inline(Sent(s, chosen, mode, a)) :: c.marker == Some(a.attempt)
  {
    hide Sent, BuildAll;
    SentKeys(s, chosen, mode, a);
    SplitKeepsAll(Sent(s, chosen, mode, a));
  }

  lemma ReceivedIdsBelow(s: State, chosen: seq<int>, mode: string, a: Answers)
    requires InDrafts(s, chosen) && BuildAll(s.drafts, chosen).Some? && Legal(s, chosen, mode, a) &&
      IdsBelow(s.reviews, s.nextId)
    ensures IdsBelow(Received(s.reviews, s.nextId, Sent(s, chosen, mode, a), a), a.nextFree)
  {
    hide Sent, BuildAll, Inline, FileLevel;
    var sent := Sent(s, chosen, mode, a);
    var all := Received(s.reviews, s.nextId, sent, a);
    var n := |s.reviews| + if a.lands then 1 else 0;
    forall r, i | 0 <= r < |all| && 0 <= i < |all[r].comments| ensures all[r].comments[i].id < a.nextFree {
      if r >= n {
        assert Stranger(a.meanwhile[r - n], s.nextId + 1 + |Inline(sent)|, a.nextFree);
      } else if r < |s.reviews| {
        assert all[r] == s.reviews[r];
      }
    }
  }

  lemma ReceivedMarksUsed(s: State, chosen: seq<int>, mode: string, a: Answers)
    requires InDrafts(s, chosen) && BuildAll(s.drafts, chosen).Some? && Legal(s, chosen, mode, a) &&
      MarksUsed(s.reviews, s.used)
    ensures MarksUsed(Received(s.reviews, s.nextId, Sent(s, chosen, mode, a), a), s.used + {a.attempt})
  {
    hide Sent, BuildAll, Holds, NewReview, Inline;
    var sent := Sent(s, chosen, mode, a);
    var all := Received(s.reviews, s.nextId, sent, a);
    var n := |s.reviews| + if a.lands then 1 else 0;
    forall r, attempt: nat | 0 <= r < |all| && Holds(all[r], attempt) ensures attempt in s.used + {a.attempt} {
      if r >= n {
        StrangersCarryNothing(a.meanwhile[r - n], s.nextId + 1 + |Inline(sent)|, a.nextFree, attempt);
      } else if r < |s.reviews| {
        assert all[r] == s.reviews[r];
      } else {
        SentKeys(s, chosen, mode, a);
        OursCarriesOnlyIt(s.nextId, a.submitted, sent, a.attempt, attempt);
      }
    }
  }

  lemma OursCarriesOnlyIt(id: int, submitted: Option<int>, sent: seq<Comment>, mine: nat, attempt: nat)
    requires forall i | 0 <= i < |sent| :: sent[i].marker == Some(mine)
    requires Holds(NewReview(id, submitted, sent), attempt)
    ensures attempt == mine
  {
    hide Inline, FileLevel;
    var r := NewReview(id, submitted, sent);
    SplitKeepsAll(sent);
    if exists i :: 0 <= i < |r.extras| && r.extras[i].marker == Some(attempt) {
      var i :| 0 <= i < |r.extras| && r.extras[i].marker == Some(attempt);
      assert r.extras[i] in FileLevel(sent);
    } else {
      var i :| 0 <= i < |r.comments| && r.comments[i].comment.marker == Some(attempt);
      assert r.comments[i].comment in Inline(sent);
    }
  }

  lemma PostKeepsNames(s: State, head: string, chosen: seq<int>, mode: string, a: Answers)
    requires Inv(s) && GetsSent(s, head, chosen, mode, a) && Legal(s, chosen, mode, a)
    ensures NamesItsOwn(Post(s, head, chosen, mode, a).0)
  {
    hide MarksUsed, Refusal, MarkPosted, FoundAfter, Received, BuildAll, Sent, Once, IdsBelow, OwnedBy, ByMarker,
      Place, Inline, IdsReturned;
    var (t, o) := Post(s, head, chosen, mode, a);
    ChosenOfSent(s, head, chosen, mode, a);
    var inline := Inline(Sent(s, chosen, mode, a));
    DoubtAfter(s, head, chosen, mode, a);
    ReadBack(s, chosen, mode, a);
    ReturnedAreOwn(inline, s.nextId, a);
    FoundAreOwn(inline, s.nextId, a.attempt);
    assert o.Done? ==> OwnIds(o.ids, inline, s.nextId);
    assert t.drafts == if o.Done? then MarkPosted(s.drafts, chosen, a.at, o.ids) else s.drafts;
    forall k | k in t.drafts && t.drafts[k].commentId.Some?
      ensures t.drafts[k].commentId.value < t.nextId && OwnedBy(t.reviews, t.drafts[k].commentId.value, k)
    {
      if o.Done? {
        MarkedArePosted(s.drafts, chosen, a.at, o.ids, k);
      }
      ReceivedOwned(s, chosen, mode, a, t.drafts[k].commentId.value, k);
    }
  }

  lemma PostKeeps(s: State, head: string, chosen: seq<int>, mode: string, a: Answers)
    requires Inv(s) && Postable(s, chosen)
    requires GetsSent(s, head, chosen, mode, a) ==> BuildAll(s.drafts, chosen).Some? && Legal(s, chosen, mode, a)
    ensures Inv(Post(s, head, chosen, mode, a).0)
  {
    hide Legal, MarksUsed, Refusal, MarkPosted, FoundAfter, Received, BuildAll, Sent, Once, IdsBelow, NamesItsOwn;
    if GetsSent(s, head, chosen, mode, a) {
      DoubtAfter(s, head, chosen, mode, a);
      ReceivedIdsBelow(s, chosen, mode, a);
      ReceivedMarksUsed(s, chosen, mode, a);
      PostKeepsNames(s, head, chosen, mode, a);
      forall key: int {
        PostKeepsOnce(s, head, chosen, mode, a, key);
      }
    }
  }

  ghost predicate NoSecondCopy(reviews: seq<Review>) { forall key: int :: Copies(reviews, key) <= 1 }

  /**
   The exact condition on one landing post: no draft gets a second copy iff the listed
   drafts are distinct and none was posted before. (A list given by the caller is not
   checked for drafts already posted.)
   */
  lemma SecondCopyExactlyWhen(s: State, head: string, chosen: seq<int>, mode: string, a: Answers)
    requires Inv(s) && GetsSent(s, head, chosen, mode, a) && Legal(s, chosen, mode, a) && |s.reviews| < MAX_REVIEWS
    requires s.doubt == {} && s.deleting == {} && a.lands
    ensures NoSecondCopy(Post(s, head, chosen, mode, a).0.reviews) <==>
      Distinct(chosen) && forall i | 0 <= i < |chosen| :: s.drafts[chosen[i]].status != Posted
  {
    hide Legal, MarksUsed, Refusal, MarkPosted, FoundAfter, Received, Copies, Occurs, NamesItsOwn, IdsBelow,
      BuildAll, Sent;
    PostOutcome(s, head, chosen, mode, a);
    var t := Post(s, head, chosen, mode, a).0;
    forall key: int ensures Once(s, key) && (key in chosen <==> Occurs(chosen, key) > 0) &&
      (Distinct(chosen) ==> Occurs(chosen, key) <= 1) {
      OccursOnce(chosen, key);
    }
    if !Distinct(chosen) {
      var i, j :| 0 <= i < j < |chosen| && chosen[i] == chosen[j];
      OccursTwice(chosen, i, j);
      assert Copies(t.reviews, chosen[i]) > 1;
    }
    forall i | 0 <= i < |chosen| ensures s.drafts[chosen[i]].status == Posted ==> Copies(t.reviews, chosen[i]) > 1 {
      assert chosen[i] in chosen;
    }
    if Distinct(chosen) && forall i | 0 <= i < |chosen| :: s.drafts[chosen[i]].status != Posted {
      forall key: int ensures Copies(t.reviews, key) <= 1 {
        assert Once(s, key);
      }
    }
  }

  lemma {:induction false} OccursTwice(chosen: seq<int>, i: nat, j: nat)
    requires i < j < |chosen| && chosen[i] == chosen[j]
    ensures Occurs(chosen, chosen[i]) >= 2
    decreases |chosen|
  {
    var front := chosen[..|chosen| - 1];
    if j < |chosen| - 1 {
      OccursTwice(front, i, j);
    } else {
      OccursOnce(front, chosen[i]);
      assert front[i] == chosen[i];
    }
  }

  // ------------------------------------------------------------ a recall

  /** A deletion without an error removed a comment that was there. */
  ghost predicate LegalRecall(s: State, key: int, deletes: bool, raises: bool)
    requires key in s.drafts
  {
    !raises ==> deletes && (s.drafts[key].commentId.Some? ==> HasComment(s.reviews, s.drafts[key].commentId.value))
  }

  ghost predicate HasComment(reviews: seq<Review>, id: int) {
    exists r, i :: 0 <= r < |reviews| && 0 <= i < |reviews[r].comments| && reviews[r].comments[i].id == id
  }

  lemma {:induction false} RemovedAre(ps: seq<Placed>, id: int)
    ensures forall p :: p in Remove(ps, id) <==> p in ps && p.id != id
    decreases |ps|
  {
    if ps != [] {
      RemovedAre(ps[..|ps| - 1], id);
      assert ps == ps[..|ps| - 1] + [ps[|ps| - 1]];
    }
  }

  lemma CopiesPlacedPush(ps: seq<Placed>, p: Placed, key: int)
    ensures CopiesPlaced(ps + [p], key) == CopiesPlaced(ps, key) + Marked(p.comment, key)
  {
    assert (ps + [p])[..|ps|] == ps;
  }

  /** Copies of the draft that have this id. */
  function CopiesWithId(ps: seq<Placed>, id: int, key: int): nat {
    if ps == [] then 0
    else CopiesWithId(ps[..|ps| - 1], id, key) + if ps[|ps| - 1].id == id then Marked(ps[|ps| - 1].comment, key) else 0
  }

  lemma {:induction false} RemovedCopies(ps: seq<Placed>, id: int, key: int)
    ensures CopiesPlaced(Remove(ps, id), key) + CopiesWithId(ps, id, key) == CopiesPlaced(ps, key)
    decreases |ps|
  {
    hide Marked;
    if ps != [] {
      var front, p := ps[..|ps| - 1], ps[|ps| - 1];
      RemovedCopies(front, id, key);
      if p.id == id {
        assert Remove(ps, id) == Remove(front, id);
      } else {
        CopiesPlacedPush(Remove(front, id), p, key);
      }
    }
  }

  lemma {:induction false} NoneWithId(ps: seq<Placed>, id: int, key: int)
    requires forall i | 0 <= i < |ps| && ps[i].id == id :: Marked(ps[i].comment, key) == 0
    ensures CopiesWithId(ps, id, key) == 0
    decreases |ps|
  {
    hide Marked;
    if ps != [] { NoneWithId(ps[..|ps| - 1], id, key); }
  }

  lemma {:induction false} SomeWithId(ps: seq<Placed>, id: int, key: int, i: nat)
    requires i < |ps| && IsCopy(ps[i], id, key)
    ensures CopiesWithId(ps, id, key) > 0
    decreases |ps|
  {
    hide Marked;
    if i < |ps| - 1 { SomeWithId(ps[..|ps| - 1], id, key, i); }
  }

  predicate IsCopy(p: Placed, id: int, key: int) { p.id == id && Marked(p.comment, key) == 1 }

  /** Deleting an id takes away the copies that have it, and no other. */
  lemma {:induction false} DeleteCounts(reviews: seq<Review>, id: int, key: int)
    ensures Copies(Delete(reviews, id), key) <= Copies(reviews, key)
    decreases |reviews|
  {
    hide Marked, Remove, CopiesPlaced, CopiesIn;
    if reviews != [] {
      var n := |reviews| - 1;
      DeleteCounts(reviews[..n], id, key);
      assert Delete(reviews, id)[..n] == Delete(reviews[..n], id);
      RemovedCopies(reviews[n].comments, id, key);
    }
  }

  lemma {:induction false} DeleteSpares(reviews: seq<Review>, id: int, key: int)
    requires forall r, i | 0 <= r < |reviews| && 0 <= i < |reviews[r].comments| && reviews[r].comments[i].id == id ::
      Marked(reviews[r].comments[i].comment, key) == 0
    ensures Copies(Delete(reviews, id), key) == Copies(reviews, key)
    decreases |reviews|
  {
    hide Marked, Remove, CopiesPlaced, CopiesIn;
    if reviews != [] {
      var n := |reviews| - 1;
      DeleteSpares(reviews[..n], id, key);
      assert Delete(reviews, id)[..n] == Delete(reviews[..n], id);
      RemovedCopies(reviews[n].comments, id, key);
      NoneWithId(reviews[n].comments, id, key);
    }
  }

  lemma {:induction false} DeleteTakes(reviews: seq<Review>, id: int, key: int, r: nat, i: nat)
    requires r < |reviews| && i < |reviews[r].comments| && IsCopy(reviews[r].comments[i], id, key)
    ensures Copies(Delete(reviews, id), key) < Copies(reviews, key)
    decreases |reviews|
  {
    hide Marked, Remove, CopiesPlaced, CopiesIn, IsCopy;
    var n := |reviews| - 1;
    assert Delete(reviews, id)[..n] == Delete(reviews[..n], id);
    RemovedCopies(reviews[n].comments, id, key);
    if r < n {
      DeleteTakes(reviews[..n], id, key, r, i);
    } else {
      DeleteCounts(reviews[..n], id, key);
      SomeWithId(reviews[n].comments, id, key, i);
    }
  }

  lemma DeleteKeepsRest(reviews: seq<Review>, id: int)
    ensures forall nextId: int :: IdsBelow(reviews, nextId) ==> IdsBelow(Delete(reviews, id), nextId)
    ensures forall used :: MarksUsed(reviews, used) ==> MarksUsed(Delete(reviews, id), used)
    ensures forall other: int, key: int :: OwnedBy(reviews, other, key) ==> OwnedBy(Delete(reviews, id), other, key)
  {
    var after := Delete(reviews, id);
    forall r, i | 0 <= r < |after| && 0 <= i < |after[r].comments|
      ensures exists j :: 0 <= j < |reviews[r].comments| && reviews[r].comments[j] == after[r].comments[i]
    {
      RemovedAre(reviews[r].comments, id);
      assert after[r].comments[i] in reviews[r].comments;
    }
    forall r, attempt: nat | 0 <= r < |after| && Holds(after[r], attempt) ensures Holds(reviews[r], attempt) {
      if i :| 0 <= i < |after[r].comments| && after[r].comments[i].comment.marker == Some(attempt) {
        var j :| 0 <= j < |reviews[r].comments| && reviews[r].comments[j] == after[r].comments[i];
      } else {
        var i :| 0 <= i < |after[r].extras| && after[r].extras[i].marker == Some(attempt);
        assert reviews[r].extras[i].marker == Some(attempt);
      }
    }
  }

  /** A recall is tried exactly within 24 hours of a post whose comment id is known; otherwise nothing changes. */
  lemma RecalledExactlyWhen(s: State, key: int, now: int, deletes: bool, raises: bool)
    requires key in s.drafts
    ensures
      var d, (t, ok) := s.drafts[key], Recall(s, key, now, deletes, raises);
      var open := d.commentId.Some? && d.commentId.value != 0 && d.postedAt.Some? &&
        now - d.postedAt.value <= 86_400_000_000;
      && (ok <==> open && !raises)
      && (!open ==> t == s)
  {
  }

  /** A recall that succeeds takes the draft's own copy off the forge; no recall touches another draft's. */
  lemma RecallTakesItsOwn(s: State, key: int, now: int, deletes: bool, raises: bool)
    requires Inv(s) && key in s.drafts && LegalRecall(s, key, deletes, raises)
    ensures var (t, ok) := Recall(s, key, now, deletes, raises);
      && (ok ==> Copies(s.reviews, key) == 1 && Copies(t.reviews, key) == 0)
      && (ok ==> t.drafts == s.drafts[key := s.drafts[key].(status := Recalled)])
      && (!ok ==> t.drafts == s.drafts)
      && Copies(t.reviews, key) <= Copies(s.reviews, key)
      && forall other: int | other != key :: Copies(t.reviews, other) == Copies(s.reviews, other)
  {
    hide Copies, IdsBelow, MarksUsed, Delete, Once;
    if MayRecall(s.drafts[key], now) {
      var id := s.drafts[key].commentId.value;
      assert OwnedBy(s.reviews, id, key);
      forall other: int | other != key ensures Copies(Delete(s.reviews, id), other) == Copies(s.reviews, other) {
        DeleteSpares(s.reviews, id, other);
      }
      DeleteCounts(s.reviews, id, key);
      if HasComment(s.reviews, id) {
        var r, i :| 0 <= r < |s.reviews| && 0 <= i < |s.reviews[r].comments| && s.reviews[r].comments[i].id == id;
        DeleteTakes(s.reviews, id, key, r, i);
      }
      assert Copies(s.reviews, key) <= 1 by { OnceCopies(s, key); }
    }
  }

  lemma OnceCopies(s: State, key: int)
    requires Inv(s)
    ensures Copies(s.reviews, key) <= 1
  {
    assert Once(s, key);
  }

  lemma RecallKeeps(s: State, key: int, now: int, deletes: bool, raises: bool)
    requires Inv(s) && key in s.drafts && LegalRecall(s, key, deletes, raises)
    ensures Inv(Recall(s, key, now, deletes, raises).0)
  {
    hide Copies, IdsBelow, MarksUsed, Delete, OwnedBy, LegalRecall, MayRecall;
    var t := Recall(s, key, now, deletes, raises).0;
    if s.drafts[key].commentId.Some? {
      DeleteKeepsRest(s.reviews, s.drafts[key].commentId.value);
    }
    RecallTakesItsOwn(s, key, now, deletes, raises);
    RecallState(s, key, now, deletes, raises);
    forall k: int ensures Once(t, k) {
      assert Once(s, k);
    }
  }

  lemma RecallState(s: State, key: int, now: int, deletes: bool, raises: bool)
    requires key in s.drafts
    ensures var (t, ok) := Recall(s, key, now, deletes, raises);
      && t.nextId == s.nextId && t.used == s.used && t.doubt == s.doubt
      && (t.deleting == s.deleting || t.deleting == s.deleting + {key})
      && (t.reviews == s.reviews ||
        (s.drafts[key].commentId.Some? && t.reviews == Delete(s.reviews, s.drafts[key].commentId.value)))
      && (!ok && t.reviews != s.reviews ==> key in t.deleting)
  {
    hide Delete;
  }

  // ------------------------------------------------------------ over any sequence of calls

  datatype Event =
    | PostDrafts(head: string, chosen: seq<int>, mode: string, answers: Answers)
    | RecallDraft(key: int, now: int, deletes: bool, raises: bool)
    | OthersReview(review: Review, nextFree: int)
    | Revise(key: int, draft: Draft)

  /** What may happen; no draft in doubt is posted again or revised. */
  ghost predicate Enabled(s: State, e: Event) {
    match e
    case PostDrafts(head, chosen, mode, a) =>
      Postable(s, chosen) &&
        (GetsSent(s, head, chosen, mode, a) ==> BuildAll(s.drafts, chosen).Some? && Legal(s, chosen, mode, a))
    case RecallDraft(key, now, deletes, raises) => key in s.drafts && LegalRecall(s, key, deletes, raises)
    case OthersReview(review, nextFree) => s.nextId <= nextFree && Stranger(review, s.nextId, nextFree)
    case Revise(key, draft) =>
      && draft.status != Posted && key !in s.doubt
      && (key in s.drafts ==> s.drafts[key].status != Posted)
      && draft.commentId == if key in s.drafts then s.drafts[key].commentId else None
  }

  function Step(s: State, e: Event): State
    requires Enabled(s, e)
  {
    match e
    case PostDrafts(head, chosen, mode, a) => Post(s, head, chosen, mode, a).0
    case RecallDraft(key, now, deletes, raises) => Recall(s, key, now, deletes, raises).0
    case OthersReview(review, nextFree) => s.(reviews := s.reviews + [review], nextId := nextFree)
    case Revise(key, draft) => s.(drafts := s.drafts[key := draft])
  }

  lemma OthersKeep(s: State, review: Review, nextFree: int)
    requires Inv(s) && s.nextId <= nextFree && Stranger(review, s.nextId, nextFree)
    ensures Inv(s.(reviews := s.reviews + [review], nextId := nextFree))
  {
    hide Copies;
    var t := s.(reviews := s.reviews + [review], nextId := nextFree);
    assert Strangers([review], s.nextId, nextFree);
    forall key: int ensures Once(t, key) {
      StrangersAddNothing(s.reviews, [review], s.nextId, nextFree, key);
      assert Once(s, key);
    }
    forall attempt: nat {
      StrangersCarryNothing(review, s.nextId, nextFree, attempt);
    }
  }

  lemma ReviseKeeps(s: State, key: int, draft: Draft)
    requires Inv(s) && Enabled(s, Revise(key, draft))
    ensures Inv(Step(s, Revise(key, draft)))
  {
    hide Copies, IdsBelow, MarksUsed, OwnedBy;
    var t := Step(s, Revise(key, draft));
    forall k: int ensures Once(t, k) {
      assert Once(s, k);
    }
  }

  lemma StepKeeps(s: State, e: Event)
    requires Inv(s) && Enabled(s, e)
    ensures Inv(Step(s, e))
  {
    hide Inv, Postable, Legal, LegalRecall, Stranger, BuildAll, Post, Recall, GetsSent;
    match e
    case PostDrafts(head, chosen, mode, a) => PostKeeps(s, head, chosen, mode, a);
    case RecallDraft(key, now, deletes, raises) => RecallKeeps(s, key, now, deletes, raises);
    case OthersReview(review, nextFree) => OthersKeep(s, review, nextFree);
    case Revise(key, draft) => ReviseKeeps(s, key, draft);
  }

  ghost predicate Runs(s: State, es: seq<Event>, t: State)
    decreases |es|
  {
    if es == [] then s == t else Enabled(s, es[0]) && Runs(Step(s, es[0]), es[1..], t)
  }

  /** Before anything is posted. */
  ghost predicate Fresh(s: State) {
    && s.reviews == [] && s.doubt == {} && s.deleting == {}
    && forall k | k in s.drafts :: s.drafts[k].status != Posted && s.drafts[k].commentId == None
  }

  /**
   Over any sequence of posts, recalls, reviews by others and edits: each draft has at most
   one copy on the forge; it has one exactly if it is marked posted, unless its post ended
   unverified or its deletion raised; and each recorded id names the draft's own comment.
   */
  lemma {:induction false} AtMostOnce(s: State, es: seq<Event>, t: State)
    requires Inv(s) && Runs(s, es, t)
    ensures Inv(t)
    decreases |es|
  {
    hide Inv, Enabled, Step;
    if es != [] {
      StepKeeps(s, es[0]);
      AtMostOnce(Step(s, es[0]), es[1..], t);
    }
  }

  lemma AtMostOnceFromStart(s: State, es: seq<Event>, t: State, key: int)
    requires Fresh(s) && Runs(s, es, t)
    ensures Copies(t.reviews, key) <= 1
    ensures key in t.drafts && key !in t.doubt && key !in t.deleting ==>
      (t.drafts[key].status == Posted <==> Copies(t.reviews, key) == 1)
    ensures key in t.drafts && t.drafts[key].commentId.Some? ==> OwnedBy(t.reviews, t.drafts[key].commentId.value, key)
  {
    hide Runs;
    assert Inv(s);
    AtMostOnce(s, es, t);
    assert Once(t, key);
  }

  // ------------------------------------------------------------ two posts that go wrong

  function OneDraft(status: Status): Draft { Draft("f", 0, 0, "text", "", "", status, None, None) }

  /** The request raises and the review lands all the same; everything can be read afterwards. */
  function LandsAndRaises(attempt: nat, free: int): Answers {
    Answers("", [], attempt, 0, true, true, None, true, [], free, true, {}, 0)
  }

  lemma OneDraftIsSent(s: State, a: Answers)
    requires 1 in s.drafts && s.drafts[1].lineNumber == 0 && s.drafts[1].lineEnd == 0 && a.liveHead == "" &&
      a.diff == []
    ensures InDrafts(s, [1]) && GetsSent(s, "", [1], "post", a) && BuildAll(s.drafts, [1]).Some?
    ensures Inline(Sent(s, [1], "post", a)) == []
  {
    hide BodyText;
    assert [1][..0] == [] && BuildAll(s.drafts, []) == Some([]);
    var c := Build(1, s.drafts[1]).value;
    assert BuildAll(s.drafts, [1]) == Some([] + [c]);
    var sent := Sent(s, [1], "post", a);
    assert |sent| == 1 && sent[0].line == None && sent[..0] == [];
  }

  lemma OneOccurs()
    ensures Occurs([1], 1) == 1
  {
    assert [1][..0] == [];
  }

  function CrowdedPr(): State {
    State(map[1 := OneDraft(Accepted)], seq(500, _ => Review(0, None, [], [])), 1, {}, {}, {})
  }

  lemma OneDraftIsLegal(s: State, a: Answers)
    requires InDrafts(s, [1]) && BuildAll(s.drafts, [1]).Some? && Inline(Sent(s, [1], "post", a)) == []
    requires a == LandsAndRaises(a.attempt, s.nextId + 1) && a.attempt !in s.used
    ensures Legal(s, [1], "post", a)
  {
    hide BuildAll, Sent, Inline;
  }

  /** Behind 500 reviews a landed review is reported absent: its draft looks postable, and has a copy on the forge. */
  lemma LandedBehindFiveHundred()
    ensures
      var (t, o) := Post(CrowdedPr(), "", [1], "post", LandsAndRaises(0, 2));
      o == NotPosted && t.drafts == CrowdedPr().drafts && Copies(t.reviews, 1) > 0
  {
    hide BuildAll, Sent, Refusal, Inline, FoundAfter, Received, Copies, Legal, Occurs;
    var s, a := CrowdedPr(), LandsAndRaises(0, 2);
    OneDraftIsSent(s, a);
    OneDraftIsLegal(s, a);
    OneOccurs();
    assert MarksUsed(s.reviews, {});
    hide MarksUsed, CrowdedPr;
    AbsentIsWrongExactlyWhen(s, "", [1], "post", a);
    ReceivedCopies(s, [1], "post", a, 1);
  }

  function PostedPr(): State {
    State(map[1 := OneDraft(Posted)], [Review(1, None, [Comment(1, "f", None, None, "text", None, Some(0))], [])], 2,
      {0}, {}, {})
  }

  lemma PostedPrCopies(key: int)
    ensures Copies(PostedPr().reviews, key) == if key == 1 then 1 else 0
  {
    var c := Comment(1, "f", None, None, "text", None, Some(0));
    var r := Review(1, None, [c], []);
    assert [c][..0] == [] && [r][..0] == [];
    assert CopiesIn([c], key) == Marked(c, key);
    assert CopiesOf(r, key) == Marked(c, key);
  }

  lemma PostedPrIsSound()
    ensures Inv(PostedPr()) && MarksUsed(PostedPr().reviews, PostedPr().used) && |PostedPr().reviews| < MAX_REVIEWS
  {
    hide Copies;
    var s := PostedPr();
    forall key: int ensures Once(s, key) {
      PostedPrCopies(key);
    }
    assert MarksUsed(s.reviews, {0});
  }

  lemma PostedPrGetsSent(a: Answers)
    requires a == LandsAndRaises(1, 3)
    ensures GetsSent(PostedPr(), "", [1], "post", a) && Legal(PostedPr(), [1], "post", a)
  {
    hide BuildAll, Sent, Refusal, Inline;
    OneDraftIsSent(PostedPr(), a);
    OneDraftIsLegal(PostedPr(), a);
  }

  /** Posting draft 1 again puts a second copy of it on the forge. */
  ghost predicate GetsASecondCopy(s: State, a: Answers) {
    InDrafts(s, [1]) && Copies(s.reviews, 1) == 1 && Copies(Post(s, "", [1], "post", a).0.reviews, 1) == 2
  }

  lemma CopiesAfter(s: State, a: Answers)
    requires GetsSent(s, "", [1], "post", a) && Legal(s, [1], "post", a) && MarksUsed(s.reviews, s.used)
    requires |s.reviews| < MAX_REVIEWS && a.lands && Copies(s.reviews, 1) == 1
    ensures GetsASecondCopy(s, a)
  {
    hide BuildAll, Sent, Refusal, Inline, FoundAfter, Received, Copies, Legal, Occurs, MarksUsed;
    OneOccurs();
    PostOutcome(s, "", [1], "post", a);
  }

  /** A draft posted before, listed again by the caller: its second copy lands. */
  lemma PostedAgain()
    ensures Inv(PostedPr()) && GetsASecondCopy(PostedPr(), LandsAndRaises(1, 3))
  {
    hide GetsASecondCopy, MarksUsed, Inv, Copies, Legal, GetsSent, PostedPr;
    PostedPrIsSound();
    PostedPrCopies(1);
    PostedPrGetsSent(LandsAndRaises(1, 3));
    CopiesAfter(PostedPr(), LandsAndRaises(1, 3));
  }
}
