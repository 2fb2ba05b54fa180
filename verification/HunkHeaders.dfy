/**
 What the headers of a diff say, against a printer of their own: "@@ -O[,n] +N[,n] @@" for
 all numbers O and N, and the lines that name a file.
 */
module HunkHeaders {
  import opened Wrappers
  import opened DiffPosition

  function Digit(d: nat): (c: char)
    requires d < 10
    ensures IsDigit(c)
  {
    '0' + d as char
  }

  function Decimal(n: nat): string {
    if n < 10 then [Digit(n)] else Decimal(n / 10) + [Digit(n % 10)]
  }

  function Zeros(k: nat): string { seq(k, _ => '0') }

  /** The number, written out in decimal, perhaps with zeros in front. */
  ghost predicate IsNumeral(s: string, n: nat) {
    exists k: nat :: s == Zeros(k) + Decimal(n)
  }

  /** A line count as a hunk header has it: nothing, or a comma and digits. */
  ghost predicate IsCount(c: string) {
    c == "" || (|c| >= 2 && c[0] == ',' && AreDigits(c[1..]))
  }

  ghost predicate AreDigits(s: string) {
    forall i | 0 <= i < |s| :: IsDigit(s[i])
  }

  function HunkLine(os: string, oc: string, ns: string, nc: string, rest: string): string {
    "@@ -" + (os + (oc + (" +" + (ns + (nc + (" @@" + rest))))))
  }

  // ------------------------------------------------------------ numbers

  lemma {:induction false} DecimalIsDigits(n: nat)
    ensures AreDigits(Decimal(n)) && Decimal(n) != ""
  {
    if n >= 10 {
      DecimalIsDigits(n / 10);
    }
  }

  lemma ValueSnoc(s: string, c: char)
    requires AreDigits(s) && IsDigit(c)
    ensures AreDigits(s + [c]) && Value(s + [c]) == 10 * Value(s) + (c as int - '0' as int)
  {
    assert (s + [c])[..|s|] == s;
  }

  /** Zeros in front change nothing, and the printed number is read back. */
  lemma {:induction false} NumeralIsRead(k: nat, n: nat)
    ensures AreDigits(Zeros(k) + Decimal(n)) && Value(Zeros(k) + Decimal(n)) == n
    decreases n
  {
    DecimalIsDigits(n);
    if n < 10 {
      ZerosAreNothing(k);
      ValueSnoc(Zeros(k), Digit(n));
    } else {
      NumeralIsRead(k, n / 10);
      ValueSnoc(Zeros(k) + Decimal(n / 10), Digit(n % 10));
      assert Zeros(k) + Decimal(n) == Zeros(k) + Decimal(n / 10) + [Digit(n % 10)];
    }
  }

  lemma {:induction false} ZerosAreNothing(k: nat)
    ensures AreDigits(Zeros(k)) && Value(Zeros(k)) == 0
  {
    if k > 0 {
      ZerosAreNothing(k - 1);
      assert Zeros(k) == Zeros(k - 1) + ['0'];
      ValueSnoc(Zeros(k - 1), '0');
    }
  }

  /** Digits are their value written out, and of no other number. */
  lemma {:induction false} DigitsAreNumeral(s: string)
    requires s != "" && AreDigits(s)
    ensures IsNumeral(s, Value(s))
    decreases |s|
  {
    var n := |s| - 1;
    var front, c := s[..n], s[n];
    var d := c as int - '0' as int;
    assert s == front + [c] && IsDigit(c) && Digit(d) == c;
    ValueSnoc(front, c);
    if front == "" {
      assert s == Zeros(0) + Decimal(d);
    } else {
      DigitsAreNumeral(front);
      OneMoreDigit(front, Value(front), d);
    }
  }

  lemma OneMoreDigit(s: string, v: nat, d: nat)
    requires IsNumeral(s, v) && d < 10
    ensures IsNumeral(s + [Digit(d)], 10 * v + d)
  {
    hide Digit;
    var k: nat :| s == Zeros(k) + Decimal(v);
    if v == 0 {
      assert Zeros(k + 1) == Zeros(k) + ['0'] && Decimal(0) == ['0'] by { ZeroIsWritten(); }
      assert s + [Digit(d)] == Zeros(k + 1) + Decimal(d);
    } else {
      assert (10 * v + d) / 10 == v && (10 * v + d) % 10 == d;
      assert s + [Digit(d)] == Zeros(k) + (Decimal(v) + [Digit(d)]);
    }
  }

  lemma ZeroIsWritten()
    ensures Decimal(0) == ['0']
  {
  }

  lemma NumeralHasValue(s: string, n: nat)
    requires IsNumeral(s, n)
    ensures s != "" && AreDigits(s) && Value(s) == n
  {
    var k: nat :| s == Zeros(k) + Decimal(n);
    NumeralIsRead(k, n);
    DecimalIsDigits(n);
  }

  // ------------------------------------------------------------ one range

  lemma {:induction false} DigitsRun(s: string, rest: string)
    requires AreDigits(s) && (rest == "" || !IsDigit(rest[0]))
    ensures DigitRun(s + rest) == |s|
  {
    if s == "" {
      assert s + rest == rest;
    } else {
      assert (s + rest)[1..] == s[1..] + rest;
      assert IsDigit(s[0]);
      DigitsRun(s[1..], rest);
    }
  }

  /** Digits, and what stands behind them. */
  lemma DigitsAreRead(digits: string, behind: string)
    requires digits != "" && AreDigits(digits) && behind != "" && !IsDigit(behind[0])
    ensures
      var m := DigitRun(behind[1..]);
      ReadRange(digits + behind) ==
        Some((Value(digits), if behind[0] == ',' && m > 0 then behind[1..][m..] else behind))
  {
    DigitsRun(digits, behind);
    hide DigitRun, Value;
    var s := digits + behind;
    assert s[..|digits|] == digits && s[|digits|..] == behind;
  }

  /** A number, a count, and something behind a blank: the number is read, the count skipped. */
  lemma RangeIsRead(digits: string, count: string, rest: string)
    requires digits != "" && AreDigits(digits) && IsCount(count) && rest != "" && rest[0] == ' '
    ensures ReadRange(digits + (count + rest)) == Some((Value(digits), rest))
  {
    hide ReadRange, DigitRun, Value;
    if count == "" {
      assert count + rest == rest;
      DigitsAreRead(digits, rest);
    } else {
      CountIsSkipped(count[1..], rest);
      var behind := count + rest;
      assert behind[0] == ',' && behind[1..] == count[1..] + rest;
      DigitsAreRead(digits, behind);
    }
  }

  lemma CountIsSkipped(digits: string, rest: string)
    requires AreDigits(digits) && rest != "" && !IsDigit(rest[0])
    ensures DigitRun(digits + rest) == |digits| && (digits + rest)[|digits|..] == rest
  {
    DigitsRun(digits, rest);
  }

  lemma RangeWasThere(s: string)
    returns (digits: string, count: string)
    requires ReadRange(s).Some?
    ensures digits != "" && AreDigits(digits) && IsCount(count)
    ensures s == digits + (count + ReadRange(s).value.1) && ReadRange(s).value.0 == Value(digits)
  {
    hide Value, DigitRun;
    var n := DigitRun(s);
    var after := s[n..];
    digits, count := s[..n], "";
    assert s == digits + after;
    if after != "" && after[0] == ',' && DigitRun(after[1..]) > 0 {
      var m := DigitRun(after[1..]);
      count := after[..m + 1];
      assert count[1..] == after[1..][..m];
      assert after == count + after[1..][m..];
    }
  }

  // ------------------------------------------------------------ the hunk header

  /** The line starts as a hunk header with these two numbers. */
  ghost predicate IsHunkHeader(raw: string, o: nat, n: nat) {
    exists os, oc, ns, nc, rest ::
      && IsNumeral(os, o) && IsCount(oc) && IsNumeral(ns, n) && IsCount(nc)
      && raw == HunkLine(os, oc, ns, nc, rest)
  }

  lemma HunkLineIsRead(os: string, oc: string, ns: string, nc: string, rest: string, o: nat, n: nat)
    requires IsNumeral(os, o) && IsCount(oc) && IsNumeral(ns, n) && IsCount(nc)
    ensures HunkStart(HunkLine(os, oc, ns, nc, rest)) == Some((o, n))
  {
    hide IsNumeral, IsCount, ReadRange;
    NumeralHasValue(os, o);
    NumeralHasValue(ns, n);
    var tail := " @@" + rest;
    var added := ns + (nc + tail);
    var behind := " +" + added;
    var raw := HunkLine(os, oc, ns, nc, rest);
    RangeIsRead(os, oc, behind);
    RangeIsRead(ns, nc, tail);
    assert raw[..4] == "@@ -" && raw[4..] == os + (oc + behind);
    assert behind[..2] == " +" && behind[2..] == added;
    assert tail[..3] == " @@";
  }

  lemma HunkWasThere(raw: string)
    requires HunkStart(raw).Some?
    ensures IsHunkHeader(raw, HunkStart(raw).value.0, HunkStart(raw).value.1)
  {
    hide IsNumeral, IsCount, ReadRange;
    var os, oc := RangeWasThere(raw[4..]);
    var behind := ReadRange(raw[4..]).value.1;
    var ns, nc := RangeWasThere(behind[2..]);
    var tail := ReadRange(behind[2..]).value.1;
    DigitsAreNumeral(os);
    DigitsAreNumeral(ns);
    var rest := tail[3..];
    assert tail == " @@" + rest;
    assert behind == " +" + (ns + (nc + (" @@" + rest)));
    assert raw == "@@ -" + raw[4..];
    assert raw == HunkLine(os, oc, ns, nc, rest);
  }

  /** A line is a hunk header starting at old line o and new line n exactly when it is written as one. */
  lemma HunkStartExactlyWhen(raw: string, o: nat, n: nat)
    ensures HunkStart(raw) == Some((o, n)) <==> IsHunkHeader(raw, o, n)
    ensures HunkStart(raw) == None <==> forall o', n' :: !IsHunkHeader(raw, o', n')
  {
    hide HunkStart, IsHunkHeader;
    if HunkStart(raw).Some? {
      HunkWasThere(raw);
    }
    forall o': nat, n': nat | IsHunkHeader(raw, o', n') ensures HunkStart(raw) == Some((o', n')) {
      HeaderIsRead(raw, o', n');
    }
  }

  lemma HeaderIsRead(raw: string, o: nat, n: nat)
    requires IsHunkHeader(raw, o, n)
    ensures HunkStart(raw) == Some((o, n))
  {
    var os, oc, ns, nc, rest :| IsNumeral(os, o) && IsCount(oc) && IsNumeral(ns, n) && IsCount(nc)
      && raw == HunkLine(os, oc, ns, nc, rest);
    HunkLineIsRead(os, oc, ns, nc, rest, o, n);
  }

  /** Printed and read back, for all numbers, with or without counts, whatever stands behind. */
  lemma HunkRoundTrip(o: nat, n: nat, oc: string, nc: string, rest: string)
    requires IsCount(oc) && IsCount(nc)
    ensures HunkStart("@@ -" + Decimal(o) + oc + " +" + Decimal(n) + nc + " @@" + rest) == Some((o, n))
  {
    hide HunkStart, IsCount, Decimal, HunkLine;
    PlainNumeral(o);
    PlainNumeral(n);
    HunkLineIsRead(Decimal(o), oc, Decimal(n), nc, rest, o, n);
    Regrouped(Decimal(o), oc, Decimal(n), nc, rest);
  }

  lemma PlainNumeral(n: nat)
    ensures IsNumeral(Decimal(n), n)
  {
    assert Decimal(n) == Zeros(0) + Decimal(n);
  }

  lemma Regrouped(os: string, oc: string, ns: string, nc: string, rest: string)
    ensures "@@ -" + os + oc + " +" + ns + nc + " @@" + rest == HunkLine(os, oc, ns, nc, rest)
  {
    var tail := " @@" + rest;
    Grouped("@@ -", os, oc, " +" + (ns + (nc + tail)));
    Grouped("@@ -" + os + oc + " +", ns, nc, tail);
    assert "@@ -" + os + oc + (" +" + (ns + (nc + tail))) == "@@ -" + os + oc + " +" + (ns + (nc + tail));
  }

  lemma Grouped(a: string, b: string, c: string, d: string)
    ensures a + (b + (c + d)) == a + b + c + d
  {
    assert b + (c + d) == b + c + d;
  }

  // ------------------------------------------------------------ the lines that are not

  /** What each kind of line does to the search, wherever the search is. */
  lemma HeaderEffects(r: Registers, name: string, path: string, side: Side)
    ensures name != "" ==> After(r, "+++ b/" + name, path, side) == r.(inFile := name == path, position := 0)
    ensures After(r, "+++ /dev/null", path, side) == r.(position := 0)
    ensures name != "" ==>
      After(r, "--- a/" + name, path, side) == r.(inFile := side == Left && name == path, position := 0)
    ensures After(r, "diff --git " + name, path, side) == r.(inFile := false, position := 0)
  {
    var added, removed, git := "+++ b/" + name, "--- a/" + name, "diff --git " + name;
    assert added[..6] == "+++ b/" && added[6..] == name;
    assert removed[..6] == "--- a/" && removed[6..] == name && removed[0] == '-';
    assert git[..11] == "diff --git " && git[0] == 'd';
    assert "+++ /dev/null"[4] == '/' && "+++ b/"[4] == 'b';
  }

  /** Inside the file a context line moves both sides on, an addition or a removal its own, a remark neither. */
  lemma BodyEffects(r: Registers, tag: char, text: string, path: string, side: Side)
    requires r.inFile && tag in " +-\\" && !IsFileHeader([tag] + text)
    ensures After(r, [tag] + text, path, side) ==
      r.(position := r.position + 1,
         newLine := r.newLine + (if tag == ' ' || tag == '+' then 1 else 0),
         oldLine := r.oldLine + (if tag == ' ' || tag == '-' then 1 else 0))
  {
    hide HunkStart, IsFileHeader;
    var raw := [tag] + text;
    assert raw[0] == tag && IsTagged(raw);
    TaggedIsNoHunk(raw);
    NoHeader(raw);
    assert "\\" <= raw <==> tag == '\\';
    assert "-" <= raw <==> tag == '-';
    assert "+" <= raw <==> tag == '+';
  }

  lemma NoHeader(raw: string)
    ensures IsFileHeader(raw) <==> IsNewFile(raw) || IsNewNull(raw) || IsOldFile(raw) || IsGitHeader(raw)
  {
  }

  /** A line reads as a file header exactly when it is written as one: a named file, none, or git's own line. */
  lemma FileHeaderExactlyWhen(raw: string)
    ensures IsFileHeader(raw) <==>
      || (exists name: string :: name != "" && (raw == "+++ b/" + name || raw == "--- a/" + name))
      || raw == "+++ /dev/null" || exists rest: string :: raw == "diff --git " + rest
  {
    if IsNewFile(raw) {
      assert raw == "+++ b/" + raw[6..];
    }
    if IsOldFile(raw) {
      assert raw == "--- a/" + raw[6..];
    }
    if IsGitHeader(raw) {
      assert raw == "diff --git " + raw[11..];
    }
    forall name: string | name != "" && (raw == "+++ b/" + name || raw == "--- a/" + name) ensures IsFileHeader(raw) {
      assert raw[..6] == "+++ b/" || raw[..6] == "--- a/";
    }
    forall rest: string | raw == "diff --git " + rest ensures IsFileHeader(raw) {
      assert raw[..11] == "diff --git ";
    }
  }

  /** Ahead of the body an untagged line changes nothing; within it, it is context, the empty line too. */
  lemma UntaggedEffects(r: Registers, raw: string, path: string, side: Side)
    requires r.inFile && !IsFileHeader(raw) && HunkStart(raw) == None
    requires raw == "" || raw[0] !in " +-\\"
    ensures After(r, raw, path, side) ==
      if r.position == 0 then r
      else r.(position := r.position + 1, newLine := r.newLine + 1, oldLine := r.oldLine + 1)
  {
    hide HunkStart, IsFileHeader;
    NoHeader(raw);
    assert " +-\\"[0] == ' ' && " +-\\"[1] == '+' && " +-\\"[2] == '-' && " +-\\"[3] == '\\';
  }

  /** A hunk header inside the file sets both numbers, and takes a position of its own behind the first. */
  lemma HunkEffects(r: Registers, o: nat, n: nat, oc: string, nc: string, rest: string, path: string, side: Side)
    requires r.inFile && IsCount(oc) && IsCount(nc)
    ensures
      After(r, "@@ -" + Decimal(o) + oc + " +" + Decimal(n) + nc + " @@" + rest, path, side) ==
        Registers(true, if r.position == 0 then 0 else r.position + 1, n, o)
  {
    hide HunkStart, Decimal;
    var raw := "@@ -" + Decimal(o) + oc + " +" + Decimal(n) + nc + " @@" + rest;
    HunkRoundTrip(o, n, oc, nc, rest);
    assert raw[0] == '@';
  }

  /** The side is named in any case, and by nothing else. */
  lemma SideExactlyWhen(text: string)
    ensures ReadSide(text) == Some(Right) <==>
      && |text| == 5 && text[0] in "rR" && text[1] in "iI" && text[2] in "gG" && text[3] in "hH" && text[4] in "tT"
    ensures ReadSide(text) == Some(Left) <==>
      |text| == 4 && text[0] in "lL" && text[1] in "eE" && text[2] in "fF" && text[3] in "tT"
  {
    var upper := seq(|text|, i requires 0 <= i < |text| => Upper(text[i]));
    if |text| == 5 {
      assert upper == [Upper(text[0]), Upper(text[1]), Upper(text[2]), Upper(text[3]), Upper(text[4])];
    }
    if |text| == 4 {
      assert upper == [Upper(text[0]), Upper(text[1]), Upper(text[2]), Upper(text[3])];
    }
  }
}
