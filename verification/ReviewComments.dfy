/**
 backends/poster.py: from stored drafts to the comments of one review. A comment whose
 line the current diff does not show is folded into the review body.
 */
module ReviewComments {
  import opened Wrappers
  import DiffPosition

  datatype Status = Pending | Accepted | Edited | Rejected | Posted | Recalled

  /** A finding; 0 stands for a missing line, "" for a missing rewrite or suggestion. */
  datatype Draft = Draft(
    path: string,
    lineNumber: int,
    lineEnd: int,
    commentBody: string,
    editedBody: string,
    suggestion: string,
    status: Status,
    postedAt: Option<int>,
    commentId: Option<int>)

  datatype Reason = NewCommits | NotInDiff

  /** Where a folded comment was pinned, and why it no longer is. */
  datatype Note = Note(path: string, line: Option<int>, lineEnd: Option<int>, reason: Reason)

  /** A comment of a review; `marker` is the posting attempt written into its body. */
  datatype Comment = Comment(
    key: int,
    path: string,
    line: Option<int>,
    lineEnd: Option<int>,
    text: string,
    note: Option<Note>,
    marker: Option<nat>)

  const ATTRIBUTION := "Generated with assistance of franktheunicorn"
  const MANAGED_MARKER := "<!-- franktheunicorn-managed -->"

  /** The operator's rewrite if there is one, the suggestion, and the footer. */
  function BodyText(d: Draft): string {
    (if d.editedBody != "" then d.editedBody else d.commentBody)
    + (if d.suggestion != "" then "\n```suggestion\n" + d.suggestion + "\n```\n" else "")
    + "\n\n---\n<sub>" + ATTRIBUTION + "</sub>\n" + MANAGED_MARKER
  }

  /** What a comment says: the operator's rewrite wins over the draft, then the suggestion if any, then the footer. */
  lemma BodyReads(d: Draft)
    ensures
      var said, footer := if d.editedBody == "" then d.commentBody else d.editedBody,
        "\n\n---\n<sub>" + "Generated with assistance of franktheunicorn" + "</sub>\n"
        + "<!-- franktheunicorn-managed -->";
      BodyText(d) == said + (if d.suggestion == "" then "" else "\n```suggestion\n" + d.suggestion + "\n```\n") + footer
  {
    var text := (if d.editedBody != "" then d.editedBody else d.commentBody)
      + if d.suggestion != "" then "\n```suggestion\n" + d.suggestion + "\n```\n" else "";
    Joined(text, "\n\n---\n<sub>", ATTRIBUTION, "</sub>\n", MANAGED_MARKER);
  }

  lemma Joined(text: string, a: string, b: string, c: string, d: string)
    ensures text + a + b + c + d == text + (a + b + c + d)
  {
    assert text + a + b == text + (a + b);
    assert text + (a + b) + c == text + (a + b + c);
  }

  function Truthy(n: int): Option<int> { if n != 0 then Some(n) else None }

  /** None: the comment's range ends before it starts, and building it raises. */
  function Build(key: int, d: Draft): Option<Comment> {
    var line, lineEnd := Truthy(d.lineNumber), Truthy(d.lineEnd);
    if line.Some? && lineEnd.Some? && lineEnd.value < line.value then None
    else Some(Comment(key, d.path, line, lineEnd, BodyText(d), None, None))
  }

  /** One comment per draft, in order, unless one of them cannot be built. */
  function BuildAll(drafts: map<int, Draft>, chosen: seq<int>): Option<seq<Comment>>
    requires forall i | 0 <= i < |chosen| :: chosen[i] in drafts
  {
    if chosen == [] then Some([])
    else
      var n := |chosen| - 1;
      match BuildAll(drafts, chosen[..n])
      case None => None
      case Some(front) =>
        match Build(chosen[n], drafts[chosen[n]])
        case None => None
        case Some(c) => Some(front + [c])
  }

  // ------------------------------------------------------------ folding

  function Shows(diff: seq<string>, path: string, line: int): bool {
    DiffPosition.Position(diff, path, line, DiffPosition.Right).Some?
  }

  predicate IsAnchored(c: Comment, diff: seq<string>) {
    c.line == None || (Shows(diff, c.path, c.line.value) && (c.lineEnd == None || Shows(diff, c.path, c.lineEnd.value)))
  }

  function Folded(c: Comment, reason: Reason): Comment {
    c.(line := None, lineEnd := None,
      note := Some(Note(c.path, c.line,
        if c.line.Some? && c.lineEnd.Some? && c.lineEnd.value > c.line.value then c.lineEnd else None, reason)))
  }

  function FoldAll(cs: seq<Comment>, reason: Reason): seq<Comment> {
    seq(|cs|, i requires 0 <= i < |cs| => Folded(cs[i], reason))
  }

  function Check(c: Comment, diff: seq<string>): Comment {
    if IsAnchored(c, diff) then c else Folded(c, NotInDiff)
  }

  function CheckAll(cs: seq<Comment>, diff: seq<string>): seq<Comment> {
    seq(|cs|, i requires 0 <= i < |cs| => Check(cs[i], diff))
  }

  /** How many of the comments were inline before and are not any more. */
  function Unpinned(before: seq<Comment>, after: seq<Comment>): nat
    requires |before| == |after|
  {
    if before == [] then 0
    else
      var n := |before| - 1;
      Unpinned(before[..n], after[..n]) + if before[n].line.Some? && after[n].line == None then 1 else 0
  }

  method CheckComments(cs: seq<Comment>, diff: seq<string>) returns (checked: seq<Comment>, folded: nat)
    ensures checked == CheckAll(cs, diff)
    ensures folded == Unpinned(cs, checked)
  {
    hide IsAnchored, Folded, Unpinned;
    checked, folded := [], 0;
    NoneUnpinned([]);
    for i := 0 to |cs|
      invariant checked == CheckAll(cs[..i], diff)
      invariant folded == Unpinned(cs[..i], checked)
    {
      var c := cs[i];
      OneMore(cs, checked, i, diff);
      if IsAnchored(c, diff) {
        checked := checked + [c];
      } else {
        folded := folded + 1;
        checked := checked + [Folded(c, NotInDiff)];
      }
    }
    assert cs[..|cs|] == cs;
  }

  lemma OneMore(cs: seq<Comment>, checked: seq<Comment>, i: nat, diff: seq<string>)
    requires i < |cs| && checked == CheckAll(cs[..i], diff)
    ensures CheckAll(cs[..i + 1], diff) == checked + [Check(cs[i], diff)]
    ensures Unpinned(cs[..i + 1], checked + [Check(cs[i], diff)]) ==
      Unpinned(cs[..i], checked) + if IsAnchored(cs[i], diff) then 0 else 1
  {
    hide Shows;
    assert cs[..i + 1][..i] == cs[..i];
    assert (checked + [Check(cs[i], diff)])[..i] == checked;
  }

  /** The comments of a review and the number of folded ones; diff is [] when it cannot be read. */
  function Prepared(cs: seq<Comment>, mode: string, diff: seq<string>): seq<Comment> {
    if mode == "body-only" then FoldAll(cs, NewCommits) else if diff != [] then CheckAll(cs, diff) else cs
  }

  function HasLine(drafts: map<int, Draft>, chosen: seq<int>): nat
    requires forall i | 0 <= i < |chosen| :: chosen[i] in drafts
  {
    if chosen == [] then 0
    else HasLine(drafts, chosen[..|chosen| - 1]) + if drafts[chosen[|chosen| - 1]].lineNumber != 0 then 1 else 0
  }

  method Prepare(drafts: map<int, Draft>, chosen: seq<int>, cs: seq<Comment>, mode: string, diff: seq<string>)
      returns (out: seq<Comment>, folded: nat)
    requires forall i | 0 <= i < |chosen| :: chosen[i] in drafts
    requires BuildAll(drafts, chosen) == Some(cs)
    ensures out == Prepared(cs, mode, diff)
    ensures |out| == |cs| && folded == Unpinned(cs, out)
  {
    hide Shows, Build, BuildAll, Unpinned, HasLine;
    if mode == "body-only" {
      out := FoldAll(cs, NewCommits);
      folded := HasLine(drafts, chosen);
      LinesUnpinned(drafts, chosen, cs);
    } else if diff != [] {
      out, folded := CheckComments(cs, diff);
    } else {
      out, folded := cs, 0;
      NoneUnpinned(cs);
    }
  }

  // ------------------------------------------------------------ what is sent

  lemma {:induction false} BuiltInOrder(drafts: map<int, Draft>, chosen: seq<int>)
    requires forall i | 0 <= i < |chosen| :: chosen[i] in drafts
    ensures match BuildAll(drafts, chosen)
      case None => exists i :: 0 <= i < |chosen| && Build(chosen[i], drafts[chosen[i]]) == None
      case Some(cs) => |cs| == |chosen| && forall i | 0 <= i < |chosen| ::
        Build(chosen[i], drafts[chosen[i]]) == Some(cs[i])
    decreases |chosen|
  {
    hide Build;
    if chosen != [] {
      var n := |chosen| - 1;
      BuiltInOrder(drafts, chosen[..n]);
      if BuildAll(drafts, chosen[..n]) == None {
        var i :| 0 <= i < n && Build(chosen[..n][i], drafts[chosen[..n][i]]) == None;
        assert chosen[..n][i] == chosen[i];
      } else {
        var front := BuildAll(drafts, chosen[..n]).value;
        forall i | 0 <= i < n ensures Build(chosen[i], drafts[chosen[i]]) == Some(front[i]) {
          assert chosen[..n][i] == chosen[i];
        }
        assert Build(chosen[n], drafts[chosen[n]]) == None ==> BuildAll(drafts, chosen) == None;
      }
    }
  }

  lemma {:induction false} LinesUnpinned(drafts: map<int, Draft>, chosen: seq<int>, cs: seq<Comment>)
    requires forall i | 0 <= i < |chosen| :: chosen[i] in drafts
    requires BuildAll(drafts, chosen) == Some(cs)
    ensures HasLine(drafts, chosen) == Unpinned(cs, FoldAll(cs, NewCommits))
    decreases |chosen|
  {
    if chosen != [] {
      var n := |chosen| - 1;
      BuiltInOrder(drafts, chosen);
      BuiltInOrder(drafts, chosen[..n]);
      var front := BuildAll(drafts, chosen[..n]).value;
      assert cs[..n] == front;
      LinesUnpinned(drafts, chosen[..n], front);
      assert FoldAll(cs, NewCommits)[..n] == FoldAll(cs[..n], NewCommits);
    }
  }

  lemma {:induction false} NoneUnpinned(cs: seq<Comment>)
    ensures Unpinned(cs, cs) == 0
    decreases |cs|
  {
    if cs != [] {
      NoneUnpinned(cs[..|cs| - 1]);
    }
  }

  /**
   What goes out: one comment per draft, with its key and its whole text; pinned where the
   draft was, or else folded with a note of where that was; and when the diff could be read,
   nothing is pinned that it does not show, at either end.
   */
  lemma WhatIsSent(drafts: map<int, Draft>, chosen: seq<int>, mode: string, diff: seq<string>, i: nat)
    requires forall j | 0 <= j < |chosen| :: chosen[j] in drafts
    requires BuildAll(drafts, chosen).Some? && i < |chosen|
    ensures var out := Prepared(BuildAll(drafts, chosen).value, mode, diff);
      && |out| == |chosen|
      && var c, d := out[i], drafts[chosen[i]];
         && c.key == chosen[i] && c.path == d.path && c.text == BodyText(d) && c.marker == None
         && (c.line.Some? ==>
           mode != "body-only" && c.note == None && c.line == Truthy(d.lineNumber) && c.lineEnd == Truthy(d.lineEnd))
         && (c.line.Some? && c.lineEnd.Some? ==> c.line.value <= c.lineEnd.value)
         && (c.line.Some? && diff != [] ==>
           Shows(diff, d.path, d.lineNumber) && (d.lineEnd != 0 ==> Shows(diff, d.path, d.lineEnd)))
         && (c.line == None && d.lineNumber != 0 ==>
           c.note == Some(Note(d.path, Some(d.lineNumber),
             if d.lineEnd != 0 && d.lineEnd > d.lineNumber then Some(d.lineEnd) else None,
             if mode == "body-only" then NewCommits else NotInDiff)))
  {
    hide Shows, BodyText, BuildAll;
    BuiltInOrder(drafts, chosen);
  }

  /** A comment is folded only if it has to be: body-only mode, or an end the diff does not show. */
  lemma FoldedExactlyWhen(drafts: map<int, Draft>, chosen: seq<int>, mode: string, diff: seq<string>, i: nat)
    requires forall j | 0 <= j < |chosen| :: chosen[j] in drafts
    requires BuildAll(drafts, chosen).Some? && i < |chosen| && drafts[chosen[i]].lineNumber != 0
    ensures |Prepared(BuildAll(drafts, chosen).value, mode, diff)| == |chosen|
    ensures var d := drafts[chosen[i]];
      Prepared(BuildAll(drafts, chosen).value, mode, diff)[i].line == None <==>
        || mode == "body-only"
        || (diff != [] && !(Shows(diff, d.path, d.lineNumber) && (d.lineEnd != 0 ==> Shows(diff, d.path, d.lineEnd))))
  {
    hide Shows, BodyText, BuildAll;
    BuiltInOrder(drafts, chosen);
  }

  /** An inline comment on an intact file of the diff is on a line that carries its number. */
  lemma InlineIsOnItsLine(diff: seq<string>, path: string, a: nat, f: nat, b: nat, line: int)
    requires DiffPosition.IsSegment(diff, path, DiffPosition.Right, a, f, b) && DiffPosition.StartsTagged(diff, f, b)
    ensures Shows(diff, path, line) <==> exists i ::
      f < i < b && DiffPosition.Carries(diff, f, i, line, DiffPosition.Right)
  {
    hide DiffPosition.StartsTagged, DiffPosition.Carries, DiffPosition.LeadsTo, DiffPosition.HunkStart,
      DiffPosition.IsFileHeader, DiffPosition.Position;
    var at := DiffPosition.Position(diff, path, line, DiffPosition.Right);
    if at.Some? {
      DiffPosition.PositionMeaning(diff, path, DiffPosition.Right, a, f, b, line, at.value);
    } else {
      forall i | f < i < b ensures !DiffPosition.Carries(diff, f, i, line, DiffPosition.Right) {
        NotShownNotCarried(diff, path, a, f, b, line, i);
      }
    }
  }

  lemma {:induction false} NotShownNotCarried(diff: seq<string>, path: string, a: nat, f: nat, b: nat, line: int,
      i: nat)
    requires DiffPosition.IsSegment(diff, path, DiffPosition.Right, a, f, b) && DiffPosition.StartsTagged(diff, f, b)
    requires DiffPosition.Position(diff, path, line, DiffPosition.Right) == None && f < i < b
    ensures !DiffPosition.Carries(diff, f, i, line, DiffPosition.Right)
    decreases i
  {
    hide DiffPosition.StartsTagged, DiffPosition.Carries, DiffPosition.LeadsTo, DiffPosition.HunkStart,
      DiffPosition.IsFileHeader, DiffPosition.Position;
    forall j | f < j < i ensures !DiffPosition.Carries(diff, f, j, line, DiffPosition.Right) {
      NotShownNotCarried(diff, path, a, f, b, line, j);
    }
    DiffPosition.PositionMeaning(diff, path, DiffPosition.Right, a, f, b, line, i - f);
  }
}
