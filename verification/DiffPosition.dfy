/**
 backends/diff_position.py: the offset of a (file, line, side) in a unified diff, counted
 from the line below the file's first "@@" header.
 */
module DiffPosition {
  import opened Wrappers

  datatype Side = Right | Left

  function Upper(c: char): char {
    if 'a' <= c <= 'z' then c - 'a' + 'A' else c
  }

  function ReadSide(text: string): Option<Side> {
    var upper := seq(|text|, i requires 0 <= i < |text| => Upper(text[i]));
    if upper == "RIGHT" then Some(Right) else if upper == "LEFT" then Some(Left) else None
  }

  // ------------------------------------------------------------ reading one line

  predicate IsDigit(c: char) { '0' <= c <= '9' }

  function DigitRun(s: string): (n: nat)
    ensures n <= |s| && forall i | 0 <= i < n :: IsDigit(s[i])
    ensures n < |s| ==> !IsDigit(s[n])
  {
    if s == "" || !IsDigit(s[0]) then 0 else 1 + DigitRun(s[1..])
  }

  function Value(digits: string): nat
    requires forall i | 0 <= i < |digits| :: IsDigit(digits[i])
  {
    if digits == "" then 0
    else
      assert IsDigit(digits[|digits| - 1]);
      10 * Value(digits[..|digits| - 1]) + (digits[|digits| - 1] as int - '0' as int)
  }

  /** One "N" or "N,M" of a hunk header: the N, and what follows. */
  function ReadRange(s: string): Option<(nat, string)> {
    var n := DigitRun(s);
    if n == 0 then None
    else
      var rest := s[n..];
      if rest != "" && rest[0] == ',' &&
        DigitRun(rest[1..]) > 0 then Some((Value(s[..n]), rest[1..][DigitRun(rest[1..])..]))
      else Some((Value(s[..n]), rest))
  }

  /** "@@ -O[,n] +N[,n] @@": the first old and new line of the hunk. */
  function HunkStart(raw: string): Option<(nat, nat)> {
    if !("@@ -" <= raw) then None
    else match ReadRange(raw[4..])
      case None => None
      case Some(removed) =>
        if !(" +" <= removed.1) then None
        else match ReadRange(removed.1[2..])
          case None => None
          case Some(added) => if " @@" <= added.1 then Some((removed.0, added.0)) else None
  }

  predicate IsNewFile(raw: string)
    ensures IsNewFile(raw) ==> |raw| > 6
  {
    "+++ b/" <= raw && |raw| > 6
  }

  predicate IsNewNull(raw: string) { raw == "+++ /dev/null" }
  predicate IsOldFile(raw: string)
    ensures IsOldFile(raw) ==> |raw| > 6
  {
    "--- a/" <= raw && |raw| > 6
  }

  predicate IsGitHeader(raw: string) { "diff --git " <= raw }
  predicate IsFileHeader(raw: string) { IsNewFile(raw) || IsNewNull(raw) || IsOldFile(raw) || IsGitHeader(raw) }

  /** A line a hunk body is made of, by its first character. */
  predicate IsTagged(raw: string) {
    raw != "" && (raw[0] == '+' || raw[0] == '-' || raw[0] == ' ' || raw[0] == '\\')
  }

  /** Lines that exist on the side: its own additions or removals, and context. */
  predicate OnSide(raw: string, side: Side) {
    && !("\\" <= raw)
    && (match side case Right => !("-" <= raw) case Left => !("+" <= raw))
  }

  // ------------------------------------------------------------ the four registers

  datatype Registers = Registers(inFile: bool, position: nat, newLine: nat, oldLine: nat)

  function LineOn(r: Registers, side: Side): nat {
    match side case Right => r.newLine case Left => r.oldLine
  }

  /** A line of the target file that gets a position. */
  predicate Counts(r: Registers, raw: string) {
    r.inFile && !IsFileHeader(raw) && HunkStart(raw) == None && (r.position > 0 || IsTagged(raw))
  }

  function After(r: Registers, raw: string, path: string, side: Side): Registers {
    if IsNewFile(raw) then r.(inFile := raw[6..] == path, position := 0)
    else if IsNewNull(raw) then r.(position := 0)
    else if IsOldFile(raw) then r.(inFile := side == Left && raw[6..] == path, position := 0)
    else if IsGitHeader(raw) then r.(inFile := false, position := 0)
    else if !r.inFile then r
    else match HunkStart(raw)
      case Some(start) =>
        Registers(true, if r.position > 0 then r.position + 1 else 0, start.1, start.0)
      case None =>
        if !Counts(r, raw) then r
        else Registers(true, r.position + 1,
          if OnSide(raw, Right) then r.newLine + 1 else r.newLine,
          if OnSide(raw, Left) then r.oldLine + 1 else r.oldLine)
  }

  /** The registers in front of line i. */
  function Before(lines: seq<string>, i: nat, path: string, side: Side): Registers
    requires i <= |lines|
  {
    if i == 0 then Registers(false, 0, 0, 0) else After(Before(lines, i - 1, path, side), lines[i - 1], path, side)
  }

  /** Line i is where the search stops. */
  predicate Hit(lines: seq<string>, i: nat, path: string, line: int, side: Side)
    requires i < |lines|
  {
    var r := Before(lines, i, path, side);
    Counts(r, lines[i]) && OnSide(lines[i], side) && LineOn(r, side) == line
  }

  function FirstHit(lines: seq<string>, i: nat, path: string, line: int, side: Side): (k: Option<nat>)
    requires i <= |lines|
    ensures k.Some? ==> k.value < |lines|
    decreases |lines| - i
  {
    if i == |lines| then None else if Hit(lines, i, path, line, side) then Some(i) else FirstHit(lines, i + 1, path,
      line, side)
  }

  lemma {:induction false} FirstHitIsFirst(lines: seq<string>, i: nat, path: string, line: int, side: Side)
    requires i <= |lines|
    ensures match FirstHit(lines, i, path, line, side)
      case None => forall j | i <= j < |lines| :: !Hit(lines, j, path, line, side)
      case Some(k) => i <= k && Hit(lines, k, path, line, side) && forall j | i <= j < k ::
        !Hit(lines, j, path, line, side)
    decreases |lines| - i
  {
    hide Hit;
    if i < |lines| && !Hit(lines, i, path, line, side) {
      FirstHitIsFirst(lines, i + 1, path, line, side);
    }
  }

  /** The diff position of a line, if the diff shows it. */
  function Position(lines: seq<string>, path: string, line: int, side: Side): Option<nat> {
    match FirstHit(lines, 0, path, line, side)
    case None => None
    case Some(k) => Some(Before(lines, k, path, side).position + 1)
  }

  datatype Answer = BadSide | NotShown | At(position: nat)

  method TranslateLineToPosition(lines: seq<string>, path: string, line: int, side: string) returns (answer: Answer)
    ensures match ReadSide(side)
      case None => answer == BadSide
      case Some(s) => answer == match Position(lines, path, line, s) case None => NotShown case Some(p) => At(p)
  {
    hide IsNewFile, IsNewNull, IsOldFile, IsGitHeader, HunkStart, ReadSide, Before, FirstHit;
    var which: Side;
    match ReadSide(side) {
      case None => return BadSide;
      case Some(s) => which := s;
    }
    var inFile, position, newLine, oldLine := false, 0, 0, 0;
    NoneBefore(lines, path, line, which);
    for i := 0 to |lines|
      invariant Registers(inFile, position, newLine, oldLine) == Before(lines, i, path, which)
      invariant FirstHit(lines, 0, path, line, which) == FirstHit(lines, i, path, line, which)
    {
      OneLine(lines, i, path, line, which);
      var raw := lines[i];
      if IsNewFile(raw) {
        inFile, position := raw[6..] == path, 0;
        continue;
      }
      if IsNewNull(raw) {
        position := 0;
        continue;
      }
      if IsOldFile(raw) {
        inFile, position := which == Left && raw[6..] == path, 0;
        continue;
      }
      if IsGitHeader(raw) {
        inFile, position := false, 0;
        continue;
      }
      if !inFile { continue; }
      var hunk := HunkStart(raw);
      if hunk.Some? {
        oldLine, newLine := hunk.value.0, hunk.value.1;
        if position > 0 {
          position := position + 1;
        }
        continue;
      }
      if position == 0 && !IsTagged(raw) { continue; }
      position := position + 1;
      if "\\" <= raw { continue; }
      if "+" <= raw {
        if which == Right && newLine == line { return At(position); }
        newLine := newLine + 1;
      } else if "-" <= raw {
        if which == Left && oldLine == line { return At(position); }
        oldLine := oldLine + 1;
      } else {
        if which == Right && newLine == line { return At(position); }
        if which == Left && oldLine == line { return At(position); }
        newLine, oldLine := newLine + 1, oldLine + 1;
      }
    }
    return NotShown;
  }

  lemma NoneBefore(lines: seq<string>, path: string, line: int, side: Side)
    ensures Before(lines, 0, path, side) == Registers(false, 0, 0, 0)
    ensures FirstHit(lines, |lines|, path, line, side) == None
  {
  }

  lemma OneLine(lines: seq<string>, i: nat, path: string, line: int, side: Side)
    requires i < |lines|
    ensures Before(lines, i + 1, path, side) == After(Before(lines, i, path, side), lines[i], path, side)
    ensures FirstHit(lines, i, path, line, side) ==
      if Hit(lines, i, path, line, side) then Some(i) else FirstHit(lines, i + 1, path, line, side)
  {
  }

  // ------------------------------------------------------------ the declarative numbering

  /** Lines a..b of the diff are the one part about `path`, with its first hunk header at f. */
  ghost predicate IsFile(lines: seq<string>, path: string, side: Side, a: nat, f: nat, b: nat) {
    && 0 < a <= f < b <= |lines|
    && LeadsTo(lines, path, side, a, f, b)
    // metadata, then the first "@@"
    && (forall j | a <= j <= f :: !IsFileHeader(lines[j]))
    && HunkStart(lines[f]).Some?
    && (forall j | a <= j < f :: HunkStart(lines[j]) == None && !IsTagged(lines[j]))
    // behind the body, the next file
    && (b < |lines| ==> IsFileHeader(lines[b]) && !IsNewNull(lines[b]))
  }

  /** ... and no line of it reads as a file header. */
  ghost predicate IsSegment(lines: seq<string>, path: string, side: Side, a: nat, f: nat, b: nat) {
    IsFile(lines, path, side, a, f, b) && forall j | f < j < b :: !IsFileHeader(lines[j])
  }

  /** The body starts with a line that reads as one. */
  predicate StartsTagged(lines: seq<string>, f: nat, b: nat)
    requires f < b <= |lines|
  {
    f + 1 < b ==> IsTagged(lines[f + 1])
  }

  lemma TaggedIsNoHunk(raw: string)
    ensures IsTagged(raw) ==> HunkStart(raw) == None
  {
    assert HunkStart(raw).Some? ==> raw[0] == '@';
  }

  /** A header that makes the search enter the file. */
  ghost predicate Enters(raw: string, path: string, side: Side) {
    || (IsNewFile(raw) && raw[6..] == path)
    || (side == Left && IsOldFile(raw) && raw[6..] == path)
  }

  /**
   The header that ends at line a: "+++ b/path", or for a deleted file "--- a/path" and
   "+++ /dev/null". Outside the body f..b only it names the file.
   */
  ghost predicate LeadsTo(lines: seq<string>, path: string, side: Side, a: nat, f: nat, b: nat)
    requires 0 < a <= |lines|
  {
    && (|| (IsNewFile(lines[a - 1]) && lines[a - 1][6..] == path)
        || (side == Left && a >= 2 && IsNewNull(lines[a - 1]) && IsOldFile(lines[a - 2]) && lines[a - 2][6..] == path))
    && (forall j | 0 <= j < |lines| && Enters(lines[j], path, side) ::
      j == a - 1 || (j == a - 2 && IsFileHeader(lines[a - 1])) || f < j < b)
  }

  /** Up to line i the body holds no file header, and starts with a tagged line. */
  predicate AllRead(lines: seq<string>, f: nat, i: nat)
    requires i <= |lines|
  {
    forall j | f < j < i :: !IsFileHeader(lines[j]) && (j == f + 1 ==> IsTagged(lines[j]))
  }

  /** The hunk header line i belongs to: the last one in front of it. */
  function HunkOf(lines: seq<string>, f: nat, i: nat): (h: nat)
    requires f < i <= |lines|
    ensures f <= h < i
    decreases i
  {
    if i - 1 == f || HunkStart(lines[i - 1]).Some? then i - 1 else HunkOf(lines, f, i - 1)
  }

  lemma {:induction false} HunkOfIsTheLast(lines: seq<string>, f: nat, i: nat)
    requires f < i <= |lines| && HunkStart(lines[f]).Some?
    ensures HunkStart(lines[HunkOf(lines, f, i)]).Some?
    ensures forall j | HunkOf(lines, f, i) < j < i :: HunkStart(lines[j]) == None
    decreases i
  {
    hide HunkStart;
    if !(i - 1 == f || HunkStart(lines[i - 1]).Some?) {
      HunkOfIsTheLast(lines, f, i - 1);
    }
  }

  /** How many of lines h..i exist on the side. */
  function CountOn(lines: seq<string>, h: nat, i: nat, side: Side): nat
    requires h <= i <= |lines|
  {
    if h == i then 0 else CountOn(lines, h, i - 1, side) + if OnSide(lines[i - 1], side) then 1 else 0
  }

  function StartOn(start: (nat, nat), side: Side): nat {
    match side case Right => start.1 case Left => start.0
  }

  /** The number line i has, or would have, on the side: the hunk's start plus the side's lines before it. */
  function NumberOn(lines: seq<string>, f: nat, i: nat, side: Side): nat
    requires f < i <= |lines|
  {
    var h := HunkOf(lines, f, i);
    match HunkStart(lines[h])
    case None => 0
    case Some(start) => StartOn(start, side) + CountOn(lines, h + 1, i, side)
  }

  /** Line i of the segment carries this line number on this side. */
  predicate Carries(lines: seq<string>, f: nat, i: nat, line: int, side: Side)
    requires f < i < |lines|
  {
    HunkStart(lines[i]) == None && OnSide(lines[i], side) && NumberOn(lines, f, i, side) == line
  }

  lemma OneKind(raw: string)
    ensures IsNewFile(raw) ==> !IsNewNull(raw) && !IsOldFile(raw) && !IsGitHeader(raw)
    ensures IsNewNull(raw) ==> !IsOldFile(raw) && !IsGitHeader(raw)
    ensures IsOldFile(raw) ==> !IsGitHeader(raw)
  {
    assert IsNewFile(raw) ==> raw[0] == '+' && raw[4] == 'b';
    assert IsNewNull(raw) ==> raw[0] == '+' && raw[4] == '/';
    assert IsOldFile(raw) ==> raw[0] == '-';
    assert IsGitHeader(raw) ==> raw[0] == 'd';
  }

  // ---- what one line does, as facts about After

  lemma HeaderLine(r: Registers, raw: string, path: string, side: Side)
    requires IsFileHeader(raw)
    ensures After(r, raw, path, side).position == 0
    ensures Enters(raw, path, side) ==> After(r, raw, path, side).inFile
    ensures !Enters(raw, path, side) && !IsNewNull(raw) ==> !After(r, raw, path, side).inFile
    ensures IsNewNull(raw) ==> After(r, raw, path, side).inFile == r.inFile
  {
    OneKind(raw);
    hide IsNewFile, IsNewNull, IsOldFile, IsGitHeader, HunkStart, Counts;
  }

  lemma PlainLine(r: Registers, raw: string, path: string, side: Side)
    requires !IsFileHeader(raw)
    ensures After(r, raw, path, side).inFile == r.inFile
    ensures !r.inFile ==> After(r, raw, path, side) == r
    ensures r.inFile && r.position == 0 && HunkStart(raw) == None && !IsTagged(raw) ==> After(r, raw, path, side) == r
    ensures r.inFile && HunkStart(raw).Some? ==>
      After(r, raw, path, side) ==
        Registers(true, if r.position > 0 then r.position + 1 else 0, HunkStart(raw).value.1, HunkStart(raw).value.0)
    ensures Counts(r, raw) ==>
      After(r, raw, path, side) == Registers(true, r.position + 1,
        r.newLine + (if OnSide(raw, Right) then 1 else 0), r.oldLine + (if OnSide(raw, Left) then 1 else 0))
  {
    hide IsNewFile, IsNewNull, IsOldFile, IsGitHeader, HunkStart, IsTagged, OnSide;
  }

  /** Until a header leads to the file, the search is outside it. */
  lemma {:induction false} OutsideUntilRouted(lines: seq<string>, path: string, side: Side, from: nat, i: nat)
    requires from <= i <= |lines| && !Before(lines, from, path, side).inFile
    requires forall j | from <= j < i :: !Enters(lines[j], path, side)
    ensures !Before(lines, i, path, side).inFile
    decreases i
  {
    hide IsFileHeader, Enters, After, IsNewNull;
    if from < i {
      OutsideUntilRouted(lines, path, side, from, i - 1);
      OneLine(lines, i - 1, path, 0, side);
      var r := Before(lines, i - 1, path, side);
      if IsFileHeader(lines[i - 1]) {
        HeaderLine(r, lines[i - 1], path, side);
      } else {
        PlainLine(r, lines[i - 1], path, side);
      }
    }
  }

  /** The registers at the start of the segment. */
  lemma AtSegmentStart(lines: seq<string>, path: string, side: Side, a: nat, f: nat, b: nat)
    requires 0 < a <= |lines| && LeadsTo(lines, path, side, a, f, b)
    ensures Before(lines, a, path, side).inFile && Before(lines, a, path, side).position == 0
  {
    hide IsNewFile, IsNewNull, IsOldFile, IsGitHeader, After, Before;
    OneKind(lines[a - 1]);
    OneLine(lines, a - 1, path, 0, side);
    HeaderLine(Before(lines, a - 1, path, side), lines[a - 1], path, side);
    if !IsNewFile(lines[a - 1]) {
      OneLine(lines, a - 2, path, 0, side);
      HeaderLine(Before(lines, a - 2, path, side), lines[a - 2], path, side);
    }
  }

  /** Through the metadata, nothing is counted. */
  lemma {:induction false} ThroughMetadata(lines: seq<string>, path: string, side: Side, a: nat, f: nat, b: nat, i: nat)
    requires IsFile(lines, path, side, a, f, b) && a <= i <= f
    ensures Before(lines, i, path, side).inFile && Before(lines, i, path, side).position == 0
    decreases i
  {
    hide IsFileHeader, IsNewNull, HunkStart, After, Before, LeadsTo, IsTagged;
    if i == a {
      AtSegmentStart(lines, path, side, a, f, b);
    } else {
      ThroughMetadata(lines, path, side, a, f, b, i - 1);
      OneLine(lines, i - 1, path, 0, side);
      PlainLine(Before(lines, i - 1, path, side), lines[i - 1], path, side);
    }
  }

  /** One more line of a hunk body adds one to the number when the line is on the side. */
  lemma NumberSteps(lines: seq<string>, f: nat, i: nat, side: Side)
    requires f < i < |lines| && HunkStart(lines[f]).Some?
    ensures HunkStart(lines[i]) == None ==>
      NumberOn(lines, f, i + 1, side) == NumberOn(lines, f, i, side) + if OnSide(lines[i], side) then 1 else 0
    ensures HunkStart(lines[i]).Some? ==> NumberOn(lines, f, i + 1, side) == StartOn(HunkStart(lines[i]).value, side)
  {
    hide HunkStart, OnSide, StartOn;
    HunkOfIsTheLast(lines, f, i);
    var h := HunkOf(lines, f, i);
    assert HunkOf(lines, f, i + 1) == if HunkStart(lines[i]).Some? then i else h;
    assert CountOn(lines, h + 1, i + 1, side) ==
      CountOn(lines, h + 1, i, side) + if OnSide(lines[i], side) then 1 else 0;
    assert CountOn(lines, i + 1, i + 1, side) == 0;
  }

  /** In front of line i of the body: every line behind the first "@@" has been counted, and numbered. */
  lemma {:induction false} InBody(lines: seq<string>, path: string, side: Side, a: nat, f: nat, b: nat, i: nat)
    requires IsFile(lines, path, side, a, f, b) && f < i <= b && AllRead(lines, f, i)
    ensures Before(lines, i, path, side) ==
      Registers(true, i - 1 - f, NumberOn(lines, f, i, Right), NumberOn(lines, f, i, Left))
    decreases i
  {
    hide IsFileHeader, IsNewNull, HunkStart, After, Before, LeadsTo, IsTagged, OnSide, HunkOf, CountOn;
    OneLine(lines, i - 1, path, 0, side);
    var r := Before(lines, i - 1, path, side);
    PlainLine(r, lines[i - 1], path, side);
    TaggedIsNoHunk(lines[i - 1]);
    if i == f + 1 {
      ThroughMetadata(lines, path, side, a, f, b, f);
      FirstNumber(lines, f);
    } else {
      InBody(lines, path, side, a, f, b, i - 1);
      NumberSteps(lines, f, i - 1, Right);
      NumberSteps(lines, f, i - 1, Left);
    }
  }

  lemma FirstNumber(lines: seq<string>, f: nat)
    requires f < |lines| && HunkStart(lines[f]).Some?
    ensures NumberOn(lines, f, f + 1, Right) == HunkStart(lines[f]).value.1
    ensures NumberOn(lines, f, f + 1, Left) == HunkStart(lines[f]).value.0
  {
    hide HunkStart;
    assert HunkOf(lines, f, f + 1) == f;
  }

  /** Behind the segment the search never comes back to the file. */
  lemma BehindSegment(lines: seq<string>, path: string, side: Side, a: nat, f: nat, b: nat, i: nat)
    requires IsFile(lines, path, side, a, f, b) && b < i <= |lines|
    ensures !Before(lines, i, path, side).inFile
  {
    hide IsFileHeader, IsNewNull, HunkStart, After, Before, IsTagged, Enters;
    OneLine(lines, b, path, 0, side);
    HeaderLine(Before(lines, b, path, side), lines[b], path, side);
    OutsideUntilRouted(lines, path, side, b + 1, i);
  }

  lemma LastIsHeader(lines: seq<string>, path: string, side: Side, a: nat, f: nat, b: nat)
    requires 0 < a <= |lines| && LeadsTo(lines, path, side, a, f, b)
    ensures IsFileHeader(lines[a - 1])
  {
    hide IsNewFile, IsNewNull, IsOldFile;
  }

  lemma InFrontOfSegment(lines: seq<string>, path: string, side: Side, a: nat, f: nat, b: nat, i: nat)
    requires IsFile(lines, path, side, a, f, b) && i < a
    ensures Before(lines, i, path, side).inFile ==> IsFileHeader(lines[i])
  {
    hide IsFileHeader, IsNewNull, HunkStart, After, Before, IsTagged, Enters;
    NoneBefore(lines, path, 0, side);
    if i < a - 1 {
      OutsideUntilRouted(lines, path, side, 0, i);
    } else {
      assert IsFileHeader(lines[a - 1]) by { LastIsHeader(lines, path, side, a, f, b); }
    }
  }

  /** The search stops exactly at the lines of the segment that carry the number. */
  lemma HitsAreCarriers(lines: seq<string>, path: string, side: Side, a: nat, f: nat, b: nat, line: int, i: nat)
    requires IsSegment(lines, path, side, a, f, b) && StartsTagged(lines, f, b) && i < |lines|
    ensures Hit(lines, i, path, line, side) <==> f < i < b && Carries(lines, f, i, line, side)
  {
    hide IsFileHeader, IsNewNull, HunkStart, After, Before, LeadsTo, IsTagged, OnSide, HunkOf, CountOn, NumberOn;
    if i < a {
      InFrontOfSegment(lines, path, side, a, f, b, i);
    } else if i <= f {
      ThroughMetadata(lines, path, side, a, f, b, i);
    } else if i < b {
      InBody(lines, path, side, a, f, b, i);
    } else if b < i {
      BehindSegment(lines, path, side, a, f, b, i);
    }
  }

  /**
   The refinement: the answer is p exactly when the p-th line below the file's first "@@"
   carries the number on the side and no earlier line does.
   */
  lemma PositionMeaning(lines: seq<string>, path: string, side: Side, a: nat, f: nat, b: nat, line: int, p: nat)
    requires IsSegment(lines, path, side, a, f, b) && StartsTagged(lines, f, b)
    ensures Position(lines, path, line, side) == Some(p) <==>
      && 0 < p < b - f && Carries(lines, f, f + p, line, side)
      && forall i | f < i < f + p :: !Carries(lines, f, i, line, side)
  {
    hide IsFileHeader, IsNewNull, HunkStart, After, Before, LeadsTo, IsTagged, OnSide, HunkOf, CountOn, NumberOn,
      FirstHit, Hit, Carries;
    forall i | 0 <= i < |lines| ensures Hit(lines, i, path, line, side) <==>
      f < i < b && Carries(lines, f, i, line, side) {
      HitsAreCarriers(lines, path, side, a, f, b, line, i);
    }
    FirstHitIsFirst(lines, 0, path, line, side);
    assert 0 < p < b - f ==> (Hit(lines, f + p, path, line, side) <==> Carries(lines, f, f + p, line, side));
    match Position(lines, path, line, side)
    case None =>
    case Some(q) =>
      var k := FirstHit(lines, 0, path, line, side).value;
      InBody(lines, path, side, a, f, b, k);
      assert k == f + q;
  }

  /** Different lines of a file never share a position. */
  lemma DistinctPositions(lines: seq<string>, path: string, side: Side, a: nat, f: nat, b: nat, line: int, other: int)
    requires IsSegment(lines, path, side, a, f, b) && StartsTagged(lines, f, b)
    requires Position(lines, path, line, side).Some? &&
      Position(lines, path, line, side) == Position(lines, path, other, side)
    ensures line == other
  {
    hide IsSegment, StartsTagged, NumberOn, Position, OnSide, HunkStart;
    var p := Position(lines, path, line, side).value;
    PositionMeaning(lines, path, side, a, f, b, line, p);
    PositionMeaning(lines, path, side, a, f, b, other, p);
  }

  // ------------------------------------------------------------ ordered hunks

  /** Each later hunk starts no earlier than where the one before it stopped. */
  ghost predicate OrderedHunks(lines: seq<string>, f: nat, b: nat, side: Side)
    requires f < b <= |lines|
  {
    forall h | f < h < b && HunkStart(lines[h]).Some? ::
      NumberOn(lines, f, h, side) <= StartOn(HunkStart(lines[h]).value, side)
  }

  /** Line i is one the numbering of this side goes through. */
  predicate Numbered(lines: seq<string>, i: nat, side: Side)
    requires i < |lines|
  {
    HunkStart(lines[i]) == None && OnSide(lines[i], side)
  }

  /** Numbers never go down, and go up across every line of the side. */
  lemma {:induction false} NumbersGrow(lines: seq<string>, f: nat, b: nat, side: Side, i: nat, j: nat)
    requires f < i < j < b <= |lines| && HunkStart(lines[f]).Some? && OrderedHunks(lines, f, b, side)
    ensures NumberOn(lines, f, i, side) + (if Numbered(lines, i, side) then 1 else 0) <= NumberOn(lines, f, j, side)
    decreases j
  {
    hide HunkStart, OnSide, NumberOn;
    NumberSteps(lines, f, j - 1, side);
    if i < j - 1 {
      NumbersGrow(lines, f, b, side, i, j - 1);
    }
  }

  /** With ordered hunks no earlier line competes: the answer is p exactly when the p-th line carries the number. */
  lemma OrderedMeaning(lines: seq<string>, path: string, side: Side, a: nat, f: nat, b: nat, line: int, p: nat)
    requires IsSegment(lines, path, side, a, f, b) && StartsTagged(lines, f, b) && OrderedHunks(lines, f, b, side)
    ensures Position(lines, path, line, side) == Some(p) <==> 0 < p < b - f && Carries(lines, f, f + p, line, side)
  {
    hide HunkStart, OnSide, NumberOn, OrderedHunks, Position, StartsTagged, LeadsTo, IsFileHeader;
    PositionMeaning(lines, path, side, a, f, b, line, p);
    if 0 < p < b - f && Carries(lines, f, f + p, line, side) {
      forall i | f < i < f + p ensures !Carries(lines, f, i, line, side) {
        NumbersGrow(lines, f, b, side, i, f + p);
      }
    }
  }

  /** ... and positions are in the order of the lines. */
  lemma PositionsInOrder(lines: seq<string>, path: string, side: Side, a: nat, f: nat, b: nat, line: int, p: nat,
      other: int, q: nat)
    requires IsSegment(lines, path, side, a, f, b) && StartsTagged(lines, f, b) && OrderedHunks(lines, f, b, side)
    requires Position(lines, path, line, side) == Some(p) && Position(lines, path, other, side) == Some(q)
    ensures line < other <==> p < q
  {
    hide StartsTagged, OrderedHunks, Position, HunkStart, OnSide, NumberOn;
    OrderedMeaning(lines, path, side, a, f, b, line, p);
    OrderedMeaning(lines, path, side, a, f, b, other, q);
    if p < q {
      NumbersGrow(lines, f, b, side, f + p, f + q);
    } else if q < p {
      NumbersGrow(lines, f, b, side, f + q, f + p);
    }
  }

  // ------------------------------------------------------------ lines the search does not read

  /** The answers are the declarative numbering, for every line number. */
  ghost predicate Agrees(lines: seq<string>, path: string, side: Side, f: nat, b: nat)
    requires f < b <= |lines|
  {
    forall i, line: int | f < i < b :: Carries(lines, f, i, line, side) <==>
      Position(lines, path, line, side) == Some(i - f)
  }

  lemma Uncounted(r: Registers, raw: string, path: string, side: Side)
    ensures After(r, raw, path, side).position <= r.position + 1
  {
    hide IsNewFile, IsNewNull, IsOldFile, IsGitHeader, HunkStart, IsTagged, OnSide;
  }

  /** Behind a line that was not read, positions are short. */
  lemma {:induction false} ShortPositions(lines: seq<string>, path: string, side: Side, a: nat, f: nat, b: nat, i: nat)
    requires IsFile(lines, path, side, a, f, b) && f < i <= b && !AllRead(lines, f, i)
    ensures Before(lines, i, path, side).position + 2 <= i - f
    decreases i
  {
    hide IsFileHeader, IsNewNull, HunkStart, After, Before, LeadsTo, IsTagged, OnSide;
    OneLine(lines, i - 1, path, 0, side);
    var r := Before(lines, i - 1, path, side);
    if !AllRead(lines, f, i - 1) {
      ShortPositions(lines, path, side, a, f, b, i - 1);
      Uncounted(r, lines[i - 1], path, side);
    } else if IsFileHeader(lines[i - 1]) {
      HeaderLine(r, lines[i - 1], path, side);
    } else {
      ThroughMetadata(lines, path, side, a, f, b, f);
      OneLine(lines, f, path, 0, side);
      PlainLine(Before(lines, f, path, side), lines[f], path, side);
      PlainLine(r, lines[i - 1], path, side);
    }
  }

  /** The last line of the side, if there is one. */
  function LastNumbered(lines: seq<string>, f: nat, b: nat, side: Side): (k: Option<nat>)
    requires f < b <= |lines|
    ensures k.Some? ==> f < k.value < b
    decreases b
  {
    if b - 1 == f then None else if Numbered(lines, b - 1, side) then Some(b - 1) else LastNumbered(lines, f, b - 1,
      side)
  }

  lemma {:induction false} LastNumberedIsLast(lines: seq<string>, f: nat, b: nat, side: Side)
    requires f < b <= |lines|
    ensures match LastNumbered(lines, f, b, side)
      case None => forall i | f < i < b :: !Numbered(lines, i, side)
      case Some(k) => Numbered(lines, k, side) && forall i | k < i < b :: !Numbered(lines, i, side)
    decreases b
  {
    hide Numbered;
    if b - 1 != f && !Numbered(lines, b - 1, side) {
      LastNumberedIsLast(lines, f, b - 1, side);
    }
  }

  /** Where the search can stop: on a line of the side in the body; rightly while all is read, too early behind. */
  lemma HitsInFile(lines: seq<string>, path: string, side: Side, a: nat, f: nat, b: nat, line: int, i: nat)
    requires IsFile(lines, path, side, a, f, b) && i < |lines|
    ensures Hit(lines, i, path, line, side) ==> f < i < b && Numbered(lines, i, side)
    ensures f < i < b && AllRead(lines, f, i + 1) ==>
      && (Hit(lines, i, path, line, side) <==> Carries(lines, f, i, line, side))
      && Before(lines, i, path, side).position + 1 == i - f
    ensures f < i < b && !AllRead(lines, f, i + 1) && Hit(lines, i, path, line, side) ==>
      Before(lines, i, path, side).position + 1 < i - f
  {
    hide IsFileHeader, IsNewNull, HunkStart, After, Before, LeadsTo, IsTagged, OnSide, HunkOf, CountOn, NumberOn;
    if i < a {
      InFrontOfSegment(lines, path, side, a, f, b, i);
    } else if i <= f {
      ThroughMetadata(lines, path, side, a, f, b, i);
    } else if i < b {
      if AllRead(lines, f, i) {
        InBody(lines, path, side, a, f, b, i);
        TaggedIsNoHunk(lines[i]);
      } else {
        ShortPositions(lines, path, side, a, f, b, i);
      }
    } else if b < i {
      BehindSegment(lines, path, side, a, f, b, i);
    }
  }

  /** No line of the side stands at or behind the first line the search does not read. */
  ghost predicate NumberedAreRead(lines: seq<string>, f: nat, b: nat, side: Side)
    requires f < b <= |lines|
  {
    forall i | f < i < b && Numbered(lines, i, side) :: AllRead(lines, f, i + 1)
  }

  lemma ReadSoFar(lines: seq<string>, f: nat, i: nat, j: nat)
    requires i <= j <= |lines| && AllRead(lines, f, j)
    ensures AllRead(lines, f, i)
  {
  }

  /** If every line of the side is read, each answer is the declarative one. */
  lemma ReadAgrees(lines: seq<string>, path: string, side: Side, a: nat, f: nat, b: nat, i: nat, line: int)
    requires IsFile(lines, path, side, a, f, b) && OrderedHunks(lines, f, b, side) && NumberedAreRead(lines, f, b, side)
    requires f < i < b
    ensures Carries(lines, f, i, line, side) <==> Position(lines, path, line, side) == Some(i - f)
  {
    hide AllRead, HunkStart, OnSide, NumberOn, OrderedHunks, LeadsTo, IsFileHeader, Before, Hit;
    FirstHitIsFirst(lines, 0, path, line, side);
    var k := FirstHit(lines, 0, path, line, side);
    forall j | 0 <= j < |lines|
      ensures Hit(lines, j, path, line, side) <==> f < j < b && Carries(lines, f, j, line, side)
    {
      HitsInFile(lines, path, side, a, f, b, line, j);
      assert f < j < b ==> (Carries(lines, f, j, line, side) ==> Numbered(lines, j, side));
      assert f < j < b ==> (Numbered(lines, j, side) ==> AllRead(lines, f, j + 1));
    }
    if k.Some? {
      HitsInFile(lines, path, side, a, f, b, line, k.value);
      if Carries(lines, f, i, line, side) && i != k.value {
        NumbersGrow(lines, f, b, side, k.value, i);
      }
    }
  }

  /** Otherwise the last line of the side is never the answer to its own number. */
  lemma UnreadDisagrees(lines: seq<string>, path: string, side: Side, a: nat, f: nat, b: nat)
    requires IsFile(lines, path, side, a, f, b) && !NumberedAreRead(lines, f, b, side)
    ensures !Agrees(lines, path, side, f, b)
  {
    hide AllRead, HunkStart, OnSide, NumberOn, LeadsTo, IsFileHeader, Before, Hit, FirstHit;
    LastNumberedIsLast(lines, f, b, side);
    var i :| f < i < b && Numbered(lines, i, side) && !AllRead(lines, f, i + 1);
    var last := LastNumbered(lines, f, b, side).value;
    assert !AllRead(lines, f, last + 1) by {
      if AllRead(lines, f, last + 1) { ReadSoFar(lines, f, i + 1, last + 1); }
    }
    var line := NumberOn(lines, f, last, side);
    assert Carries(lines, f, last, line, side);
    FirstHitIsFirst(lines, 0, path, line, side);
    if Position(lines, path, line, side).Some? {
      HitsInFile(lines, path, side, a, f, b, line, FirstHit(lines, 0, path, line, side).value);
    }
  }

  /**
   The exact condition: the search agrees with the numbering, for every line number, iff no line of
   the side stands at or behind the first one that is not read: a line of the body that reads as a
   file header, or an untagged line right below the first "@@". So an added line "++ b/x" breaks it
   for what follows, and a bare empty first context line (an editor trimmed its space) for all.
   */
  lemma AgreesExactlyWhenRead(lines: seq<string>, path: string, side: Side, a: nat, f: nat, b: nat)
    requires IsFile(lines, path, side, a, f, b) && OrderedHunks(lines, f, b, side)
    ensures Agrees(lines, path, side, f, b) <==> NumberedAreRead(lines, f, b, side)
  {
    hide LeadsTo, IsFileHeader, HunkStart, IsTagged, OrderedHunks, NumberedAreRead, Carries, Position;
    if NumberedAreRead(lines, f, b, side) {
      forall i, line: int | f < i < b
        ensures Carries(lines, f, i, line, side) <==> Position(lines, path, line, side) == Some(i - f)
      {
        ReadAgrees(lines, path, side, a, f, b, i, line);
      }
    } else {
      UnreadDisagrees(lines, path, side, a, f, b);
    }
  }

  /** A line inside a hunk that reads as another file's header. */
  lemma {:induction false} NothingBehindForeignHeader(lines: seq<string>, path: string, side: Side, c: nat,
      line: int, i: nat)
    requires c < i <= |lines| && IsFileHeader(lines[c]) && !IsNewNull(lines[c])
    requires forall j | c <= j < |lines| :: !Enters(lines[j], path, side)
    ensures i < |lines| ==> !Hit(lines, i, path, line, side)
  {
    hide IsFileHeader, IsNewNull, HunkStart, After, Before, IsTagged, Enters;
    OneLine(lines, c, path, 0, side);
    HeaderLine(Before(lines, c, path, side), lines[c], path, side);
    OutsideUntilRouted(lines, path, side, c + 1, i);
  }

  /** An added line "++ b/g" reads as the next file's header: the lines of "f" below it are not found. */
  lemma BodyLineReadsAsHeader(line: int)
    ensures Position(["+++ b/f", "@@ -0,0 +1,2 @@", "+++ b/g", "+x"], "f", line, Right) == None
  {
    var lines := ["+++ b/f", "@@ -0,0 +1,2 @@", "+++ b/g", "+x"];
    HeaderLines();
    FirstHitIsFirst(lines, 0, "f", line, Right);
    forall i | 0 <= i < 4 ensures !Hit(lines, i, "f", line, Right) {
      hide HunkStart, IsNewFile, Before;
      if i == 3 {
        NothingBehindForeignHeader(lines, "f", Right, 2, line, 3);
      } else if i == 1 {
        OneLine(lines, 0, "f", 0, Right);
        NoneBefore(lines, "f", 0, Right);
        HeaderLine(Before(lines, 0, "f", Right), lines[0], "f", Right);
      }
    }
  }

  lemma HeaderLines()
    ensures IsNewFile("+++ b/f") && IsNewFile("+++ b/g") && !IsNewNull("+++ b/g")
    ensures "+++ b/f"[6..] == "f" && "+++ b/g"[6..] != "f"
    ensures !IsTagged("@@ -0,0 +1,2 @@") && !IsNewFile("+x")
  {
    assert "+++ b/g"[4] == 'b';
    assert "+++ b/g"[6..][0] == 'g';
  }

  // ------------------------------------------------------------ a small diff

  /** "1,n" in front of something that is no digit. */
  lemma OneRange(s: string, n: char, rest: string)
    requires IsDigit(n) && rest != "" && !IsDigit(rest[0]) && s == "1," + [n] + rest
    ensures ReadRange(s) == Some((1, rest))
  {
    assert s[0] == '1' && s[1] == ',' && s[2] == n && s[3] == rest[0];
    assert DigitRun(s[1..]) == 0;
    assert s[..1] == "1" && "1"[..0] == "" && Value("") == 0;
    var more := s[1..][1..];
    assert more[0] == n && more[1..] == rest && DigitRun(rest) == 0;
    assert DigitRun(more) == 1;
  }

  lemma HunkOfParts(raw: string, removed: string, added: string)
    requires |raw| > 4 && "@@ -" <= raw && raw[4..] == removed
    requires ReadRange(removed) == Some((1, " +" + added)) && ReadRange(added) == Some((1, " @@"))
    ensures HunkStart(raw) == Some((1, 1))
  {
    hide ReadRange;
    assert (" +" + added)[2..] == added;
  }

  lemma OneHunk()
    ensures HunkStart("@@ -1,1 +1,2 @@") == Some((1, 1))
  {
    hide ReadRange, HunkStart;
    var raw, removed, added := "@@ -1,1 +1,2 @@", "1,1 +1,2 @@", "1,2 @@";
    assert " +1,2 @@" == " +" + added;
    assert removed == "1," + ['1'] + " +1,2 @@";
    assert added == "1," + ['2'] + " @@";
    OneRange(removed, '1', " +1,2 @@");
    OneRange(added, '2', " @@");
    HunkOfParts(raw, removed, added);
  }

  /** What the lemmas ask of a diff is met: one file, one hunk, a context line and an added one. */
  lemma SmallDiff()
    ensures var lines := ["+++ b/f", "@@ -1,1 +1,2 @@", " x", "+y"];
      && IsSegment(lines, "f", Right, 1, 1, 4) && StartsTagged(lines, 1, 4) && OrderedHunks(lines, 1, 4, Right)
      && Position(lines, "f", 1, Right) == Some(1) && Position(lines, "f", 2, Right) == Some(2)
  {
    var lines := ["+++ b/f", "@@ -1,1 +1,2 @@", " x", "+y"];
    OneHunk();
    SmallLines();
    SmallSegment(lines);
    hide HunkStart, LeadsTo, IsFileHeader, IsTagged, OnSide, Position;
    FirstNumber(lines, 1);
    NumberSteps(lines, 1, 2, Right);
    OrderedMeaning(lines, "f", Right, 1, 1, 4, 1, 1);
    OrderedMeaning(lines, "f", Right, 1, 1, 4, 2, 2);
  }

  lemma SmallLines()
    ensures IsNewFile("+++ b/f") && "+++ b/f"[6..] == "f"
    ensures !IsFileHeader("@@ -1,1 +1,2 @@") && !IsFileHeader(" x") && !IsFileHeader("+y")
    ensures IsTagged(" x") && IsTagged("+y") && OnSide(" x", Right) && OnSide("+y", Right)
    ensures HunkStart(" x") == None && HunkStart("+y") == None
  {
    HeaderShape("@@ -1,1 +1,2 @@");
    HeaderShape(" x");
    HeaderShape("+y");
    assert "@@ -1,1 +1,2 @@"[0] == '@';
  }

  lemma HeaderShape(raw: string)
    ensures IsFileHeader(raw) ==> |raw| >= 6 && raw[0] != '@'
  {
    assert IsGitHeader(raw) ==> raw[0] == 'd' && |raw| >= 11;
    assert IsNewNull(raw) ==> raw[0] == '+' && |raw| == 13;
  }

  lemma SmallSegment(lines: seq<string>)
    requires lines == ["+++ b/f", "@@ -1,1 +1,2 @@", " x", "+y"] && HunkStart("@@ -1,1 +1,2 @@").Some?
    ensures IsSegment(lines, "f", Right, 1, 1, 4) && StartsTagged(lines, 1, 4) && OrderedHunks(lines, 1, 4, Right)
  {
    hide HunkStart, IsOldFile, IsNewNull, IsGitHeader, IsTagged;
    SmallLines();
    assert LeadsTo(lines, "f", Right, 1, 1, 4) by {
      assert !IsNewFile("@@ -1,1 +1,2 @@") && !IsNewFile(" x") && !IsNewFile("+y");
    }
    hide IsNewFile, LeadsTo;
  }

  /** A bare empty first context line: line 2 of the file is the second one below "@@", and is not found there. */
  lemma BareFirstLine()
    ensures var lines := ["+++ b/f", "@@ -1,1 +1,2 @@", "", "+y"];
      && IsFile(lines, "f", Right, 1, 1, 4) && OrderedHunks(lines, 1, 4, Right) && !NumberedAreRead(lines, 1, 4, Right)
      && Carries(lines, 1, 3, 2, Right) && Position(lines, "f", 2, Right) != Some(2)
  {
    var lines := ["+++ b/f", "@@ -1,1 +1,2 @@", "", "+y"];
    OneHunk();
    SmallLines();
    EmptyLine();
    BareFile(lines);
    hide HunkStart, LeadsTo, IsFileHeader, IsTagged, OnSide, Hit;
    assert !AllRead(lines, 1, 3) && Numbered(lines, 2, Right);
    FirstNumber(lines, 1);
    NumberSteps(lines, 1, 2, Right);
    FirstHitIsFirst(lines, 0, "f", 2, Right);
    forall i | 0 <= i < 4 {
      HitsInFile(lines, "f", Right, 1, 1, 4, 2, i);
    }
  }

  lemma EmptyLine()
    ensures !IsFileHeader("") && !IsTagged("") && OnSide("", Right) && HunkStart("") == None
  {
    HeaderShape("");
  }

  lemma BareFile(lines: seq<string>)
    requires lines == ["+++ b/f", "@@ -1,1 +1,2 @@", "", "+y"] && HunkStart("@@ -1,1 +1,2 @@").Some?
    ensures IsFile(lines, "f", Right, 1, 1, 4) && OrderedHunks(lines, 1, 4, Right)
  {
    hide HunkStart, IsOldFile, IsNewNull, IsGitHeader, IsTagged;
    SmallLines();
    EmptyLine();
    assert LeadsTo(lines, "f", Right, 1, 1, 4) by {
      assert !IsNewFile("@@ -1,1 +1,2 @@") && !IsNewFile("") && !IsNewFile("+y");
    }
    hide IsNewFile, LeadsTo;
  }
}
