/**
 backends/poster.py GitHubPoster and backends/github.py create_review: the calls that build,
 send, read back and record, on the drafts and the forge of one pull request.
 */
module Posting {
  import opened Wrappers
  import opened ReviewComments
  import opened ReviewPoster

  lemma OneMarked(placed: seq<Placed>, i: nat, attempt: nat)
    requires i < |placed|
    ensures ByMarker(placed[..i + 1], attempt) ==
      if placed[i].comment.marker ==
        Some(attempt) then ByMarker(placed[..i],
          attempt)[placed[i].comment.key := placed[i].id] else ByMarker(placed[..i], attempt)
  {
    assert placed[..i + 1][..i] == placed[..i];
  }

  lemma OnePosted(drafts: map<int, Draft>, chosen: seq<int>, i: nat, at: int, ids: map<int, int>)
    requires i < |chosen| && forall j | 0 <= j < |chosen| :: chosen[j] in drafts
    ensures MarkPosted(drafts, chosen[..i + 1], at, ids) ==
      var before := MarkPosted(drafts, chosen[..i], at, ids); var k := chosen[i];
      before[k := before[k].(status := Posted, postedAt := Some(at),
        commentId := if k in ids then Some(ids[k]) else before[k].commentId)]
  {
    assert chosen[..i + 1][..i] == chosen[..i];
  }

  lemma OneSelected(drafts: map<int, Draft>, order: seq<int>, i: nat)
    requires i < |order| && forall j | 0 <= j < |order| :: order[j] in drafts
    ensures Selected(drafts, order[..i + 1]) ==
      Selected(drafts, order[..i]) + if drafts[order[i]].status == Accepted ||
        drafts[order[i]].status == Edited then [order[i]] else []
  {
    assert order[..i + 1][..i] == order[..i];
  }

  /** A selection of a table without repetitions is distinct, and holds only approved drafts. */
  lemma {:induction false} SelectedIsDistinct(drafts: map<int, Draft>, order: seq<int>)
    requires (forall i | 0 <= i < |order| :: order[i] in drafts) && Distinct(order)
    ensures Distinct(Selected(drafts, order))
    ensures forall k :: k in Selected(drafts, order) <==>
      k in order && (drafts[k].status == Accepted || drafts[k].status == Edited)
    decreases |order|
  {
    if order != [] {
      var n := |order| - 1;
      SelectedIsDistinct(drafts, order[..n]);
      assert order == order[..n] + [order[n]];
      var front := Selected(drafts, order[..n]);
      assert forall i | 0 <= i < |front| :: front[i] in front;
    }
  }

  class GitHubPoster {
    var drafts: map<int, Draft>
    var reviews: seq<Review>
    var nextId: int
    var used: set<nat>
    ghost var doubt: set<int>
    ghost var deleting: set<int>

    ghost function W(): State
      reads this
    {
      State(drafts, reviews, nextId, used, doubt, deleting)
    }

    constructor (drafts: map<int, Draft>)
      ensures W() == State(drafts, [], 1, {}, {}, {})
    {
      this.drafts := drafts;
      reviews, nextId, used, doubt, deleting := [], 1, {}, {}, {};
    }

    /** The accepted and edited drafts, in the table's order. */
    method SelectDrafts(order: seq<int>) returns (chosen: seq<int>)
      requires forall i | 0 <= i < |order| :: order[i] in drafts
      ensures chosen == Selected(drafts, order)
    {
      chosen := [];
      assert order[..0] == [];
      for i := 0 to |order|
        invariant chosen == Selected(drafts, order[..i])
      {
        OneSelected(drafts, order, i);
        if drafts[order[i]].status == Accepted || drafts[order[i]].status == Edited {
          chosen := chosen + [order[i]];
        }
      }
      assert order[..|order|] == order;
    }

    /** Send the review; the forge may take it and raise. On success, give each diff comment its id. */
    method CreateReview(sent: seq<Comment>, a: Answers) returns (ids: Option<map<int, int>>)
      requires !a.raises ==> a.lands
      modifies this`reviews, this`nextId
      ensures reviews == Received(old(reviews), old(nextId), sent, a) && nextId == a.nextFree
      ensures ids == if a.raises then None else Some(IdsReturned(Inline(sent), old(nextId), a))
    {
      hide Inline, FileLevel;
      var id := nextId;
      var inline := Inline(sent);
      var landed: seq<Review> := if a.lands then [NewReview(id, a.submitted, sent)] else [];
      reviews := reviews + landed + a.meanwhile;
      nextId := a.nextFree;
      if a.raises { return None; }
      var byKey: map<int, int> := map[];
      if inline != [] && a.idsReadable {
        var fetched := IdsOf(Front(landed[0].comments, MAX_COMMENTS));
        assert forall i | 0 <= i < |fetched| :: fetched[i] == IdsOf(Place(inline, id + 1))[i];
        for i := 0 to |fetched|
          invariant byKey == InOrder(inline, IdsOf(Place(inline, id + 1)), i)
        {
          byKey := byKey[inline[i].key := fetched[i]];
        }
      }
      return Some(byKey);
    }

    /** The ids of one review's comments that carry the attempt's marker. */
    method ReadMarkers(comments: seq<Placed>, attempt: nat) returns (ids: map<int, int>)
      ensures ids == ByMarker(comments, attempt)
    {
      ids := map[];
      assert comments[..0] == [];
      for i := 0 to |comments|
        invariant ids == ByMarker(comments[..i], attempt)
      {
        OneMarked(comments, i, attempt);
        if comments[i].comment.marker == Some(attempt) {
          ids := ids[comments[i].comment.key := comments[i].id];
        }
      }
      assert comments[..|comments|] == comments;
    }

    /** After a failed post: newest first, the review that carries this attempt. */
    method FindLandedReview(attempt: nat, started: int, listable: bool, unreadable: set<int>) returns (found: Found)
      ensures found == if listable then Find(Front(reviews, MAX_REVIEWS), |Front(reviews, MAX_REVIEWS)|, attempt,
        started - CLOCK_SKEW, unreadable) else Unknown
    {
      hide InBody, ByMarker;
      if !listable { return Unknown; }
      var listed := Front(reviews, MAX_REVIEWS);
      var floor := started - CLOCK_SKEW;
      var n := |listed|;
      while n > 0
        invariant 0 <= n <= |listed|
        invariant Find(listed, |listed|, attempt, floor, unreadable) == Find(listed, n, attempt, floor, unreadable)
      {
        n := n - 1;
        var r := listed[n];
        if r.submitted.Some? && r.submitted.value < floor { continue; }
        if r.id in unreadable { return Unknown; }
        var ids := ReadMarkers(Front(r.comments, MAX_COMMENTS), attempt);
        if InBody(r, attempt) || ids != map[] { return Landed(r.id, ids); }
      }
      return Absent;
    }

    method RecordPosted(chosen: seq<int>, at: int, ids: map<int, int>)
      requires forall i | 0 <= i < |chosen| :: chosen[i] in drafts
      modifies this`drafts
      ensures drafts == MarkPosted(old(drafts), chosen, at, ids)
    {
      ghost var was := drafts;
      assert chosen[..0] == [];
      for i := 0 to |chosen|
        invariant drafts == MarkPosted(was, chosen[..i], at, ids)
      {
        OnePosted(was, chosen, i, at, ids);
        var k := chosen[i];
        var d := drafts[k];
        d := d.(status := Posted, postedAt := Some(at));
        if k in ids { d := d.(commentId := Some(ids[k])); }
        drafts := drafts[k := d];
      }
      assert chosen[..|chosen|] == chosen;
    }

    /** Post drafts as one review: the listed ones, or without a list the approved ones. */
    method PostReview(explicit: Option<seq<int>>, order: seq<int>, head: string, mode: string,
        a: Answers) returns (o: Outcome)
      requires forall i | 0 <= i < |order| :: order[i] in drafts
      requires explicit.Some? ==> forall i | 0 <= i < |explicit.value| :: explicit.value[i] in drafts
      requires !a.raises ==> a.lands
      modifies this
      ensures var chosen := (match explicit case Some(c) => c case None => Selected(old(drafts), order));
        && (forall i | 0 <= i < |chosen| :: chosen[i] in old(drafts))
        && (W(), o) == Post(old(W()), head, chosen, mode, a)
    {
      hide Sent, BuildAll, Prepared, Moved, Received, IdsReturned, MarkPosted, Find, Inline, Unpinned;
      ghost var s := W();
      if !ValidMode(mode) {
        InSelected(drafts, order);
        return BadMode;
      }
      var chosen: seq<int>;
      match explicit {
        case Some(c) => chosen := c;
        case None => chosen := SelectDrafts(order);
      }
      InSelected(drafts, order);
      if chosen == [] { return NothingToPost; }
      if Moved(head, a.liveHead) && mode == "refuse" { return StaleHead; }
      var built := BuildAll(drafts, chosen);
      if built == None { return BadRange; }
      assert W() == s && Refusal(s, head, chosen, mode, a) == None;
      o := Send(chosen, built.value, mode, a);
    }

    /** From the built comments on: prepare, send, read back if need be, record. */
    method Send(chosen: seq<int>, cs: seq<Comment>, mode: string, a: Answers) returns (o: Outcome)
      requires (forall i | 0 <= i < |chosen| :: chosen[i] in drafts) && BuildAll(drafts, chosen) == Some(cs)
      requires !a.raises ==> a.lands
      modifies this
      ensures forall head | Refusal(old(W()), head, chosen, mode, a) == None ::
        (W(), o) == Post(old(W()), head, chosen, mode, a)
    {
      hide BuildAll, Prepared, Moved, Received, IdsReturned, MarkPosted, Find, Inline, Unpinned, Refusal;
      var out, folded := Prepare(drafts, chosen, cs, mode, a.diff);
      var sent := Stamped(out, a.attempt);
      used := used + {a.attempt};
      var ids := CreateReview(sent, a);
      if ids.Some? {
        RecordPosted(chosen, a.at, ids.value);
        return Done(ids.value, folded, false);
      }
      var found := FindLandedReview(a.attempt, a.started, a.listable, a.unreadable);
      match found {
        case Absent => return NotPosted;
        case Unknown =>
          doubt := doubt + set i | 0 <= i < |chosen| :: chosen[i];
          return Unverified;
        case Landed(_, landedIds) =>
          RecordPosted(chosen, a.at, landedIds);
          return Done(landedIds, folded, true);
      }
    }

    /** Take a posted comment back within a day. */
    method RecallComment(key: int, now: int, deletes: bool, raises: bool) returns (ok: bool)
      requires key in drafts
      modifies this
      ensures (W(), ok) == Recall(old(W()), key, now, deletes, raises)
    {
      var d := drafts[key];
      if d.commentId == None || d.commentId.value == 0 { return false; }
      if d.postedAt == None { return false; }
      if now - d.postedAt.value > RECALL_WINDOW { return false; }
      if deletes { reviews := Delete(reviews, d.commentId.value); }
      if raises {
        deleting := deleting + {key};
        return false;
      }
      drafts := drafts[key := d.(status := Recalled)];
      return true;
    }
  }

  lemma {:induction false} InSelected(drafts: map<int, Draft>, order: seq<int>)
    requires forall i | 0 <= i < |order| :: order[i] in drafts
    ensures forall i | 0 <= i < |Selected(drafts, order)| :: Selected(drafts, order)[i] in drafts
    decreases |order|
  {
    if order != [] {
      InSelected(drafts, order[..|order| - 1]);
    }
  }
}
