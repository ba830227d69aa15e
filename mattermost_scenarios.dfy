/**
 * The notifier test cases: the formatted durations, the filters, the issue
 * summary and the texts handed to the runner.
 */
module MattermostScenarios {
  import opened Wrappers
  import opened Time
  import opened Text
  import opened Seqs
  import opened IssueTag
  import opened Entries
  import opened Grouping
  import opened Equality
  import opened Mattermost

  /** `formatSeconds` between a minute and an hour once the whole minutes are known. */
  lemma MinutesText(seconds: int, m: nat)
    requires 60 <= seconds < 3600 && seconds / 60 == m
    ensures FormatSeconds(seconds) == NatToString(m) + " m"
  {
  }

  /** `formatSeconds` from an hour on once the nearest hundredths of an hour are known. */
  lemma HoursText(seconds: int, c: nat)
    requires 3600 <= seconds && 36 * c - 18 < seconds < 36 * c + 18
    ensures FormatSeconds(seconds) == FixedCenti(c) + " h"
  {
  }

  /** A single digit written out. */
  lemma OneDigitText(n: nat)
    requires n < 10
    ensures NatToString(n) == [DigitChar(n)]
  {
  }

  /** Whole hours in the summary: one decimal, a zero. */
  lemma ShortWhole(c: nat, whole: string)
    requires c % 100 == 0 && NatToString(c / 100) == whole
    ensures ShortCenti(c) == whole + ".0"
  {
  }

  /** Tenths of an hour in the summary: one decimal. */
  lemma ShortTenths(c: nat, whole: string, a: char)
    requires c % 100 != 0 && c % 10 == 0 && NatToString(c / 100) == whole && DigitChar(c % 100 / 10) == a
    ensures ShortCenti(c) == whole + "." + [a]
  {
  }

  /** Hundredths of an hour in the summary: two decimals. */
  lemma ShortHundredths(c: nat, whole: string, a: char, b: char)
    requires c % 10 != 0 && NatToString(c / 100) == whole && DigitChar(c % 100 / 10) == a && DigitChar(c % 10) == b
    ensures ShortCenti(c) == whole + "." + [a, b]
  {
  }

  /** Two decimals of hundredths once the whole part is written. */
  lemma FixedText(c: nat, whole: string, a: char, b: char)
    requires NatToString(c / 100) == whole && DigitChar(c % 100 / 10) == a && DigitChar(c % 10) == b
    ensures FixedCenti(c) == whole + "." + [a, b]
  {
  }

  /** The decimal form of a two-digit number. */
  lemma TwoDigitText(n: nat)
    requires 10 <= n < 100
    ensures NatToString(n) == [DigitChar(n / 10), DigitChar(n % 10)]
  {
  }

  /** Under a minute in seconds, under an hour in whole minutes. */
  lemma FormatSecondsBands()
    ensures FormatSeconds(45) == "45 s"
    ensures FormatSeconds(5 * 60) == "5 m"
  {
    TwoDigitText(45);
    assert DigitChar(4) == '4' && DigitChar(5) == '5';
    MinutesText(300, 5);
  }

  /** Whole hours with two decimals. */
  lemma FormatSecondsTenHours()
    ensures FormatSeconds(36000) == "10.00 h"
  {
    HoursText(36000, 1000);
    TwoDigitText(10);
    FixedText(1000, "10", '0', '0');
  }

  /** The minutes worked in the summary tests: 1, 2, 3 and 50. */
  lemma FormatSecondsMinutes()
    ensures FormatSeconds(60) == "1 m" && FormatSeconds(120) == "2 m" && FormatSeconds(180) == "3 m"
    ensures FormatSeconds(50 * 60) == "50 m"
  {
    MinutesText(60, 1);
    MinutesText(120, 2);
    MinutesText(180, 3);
    MinutesText(3000, 50);
    TwoDigitText(50);
  }

  /** An hour worked. */
  lemma FormatSecondsOneHour()
    ensures FormatSeconds(3600) == "1.00 h"
  {
    HoursText(3600, 100);
    FixedText(100, "1", '0', '0');
  }

  /** 3.47 and 36 hours worked. */
  lemma FormatSecondsHours()
    ensures FormatSeconds(4 * 3123) == "3.47 h"
    ensures FormatSeconds(9 * 4 * 3600) == "36.00 h"
  {
    HoursText(12492, 347);
    FixedText(347, "3", '4', '7');
    HoursText(129600, 3600);
    TwoDigitText(36);
    FixedText(3600, "36", '0', '0');
  }

  /** One day, two days and no day. */
  lemma DurationLines()
    ensures DurationLine(1) == "Sync: 1 day"
    ensures DurationLine(2) == "Sync: 2 days"
    ensures DurationLine(0) == "Sync: 0 days"
  {
  }

  /** A finished entry of `seconds` with description `test #<issue>`. */
  function Work(id: nat, seconds: int, issue: string): TogglEntry {
    TogglEntry(id, seconds, None, "test #" + issue)
  }

  lemma WorkIssue(id: nat, seconds: int, issue: string)
    requires |issue| >= 1 && AllDigits(issue)
    ensures IssueOf(Work(id, seconds, issue)) == Some(issue)
  {
    IssueIdAtStart(issue, "");
    assert "#" + issue + "" == "#" + issue;
    IssueIdAfter("test ", "#" + issue);
    assert "test #" + issue == "test " + ("#" + issue);
  }

  /** The same for a three-digit issue. */
  lemma WorkIssueOf(id: nat, seconds: int, x: char, y: char, z: char)
    requires IsDigit(x) && IsDigit(y) && IsDigit(z)
    ensures IssueOf(Work(id, seconds, [x, y, z])) == Some([x, y, z])
  {
    WorkIssue(id, seconds, [x, y, z]);
  }

  /** Four entries on #333, then one on #334 and one on #335, group under three issues in that order. */
  lemma GroupSixEntries(a1: TogglEntry, a2: TogglEntry, a3: TogglEntry, a4: TogglEntry, b: TogglEntry, c: TogglEntry)
    requires IssueOf(a1) == Some("333") && IssueOf(a2) == Some("333")
    requires IssueOf(a3) == Some("333") && IssueOf(a4) == Some("333")
    requires IssueOf(b) == Some("334") && IssueOf(c) == Some("335")
    ensures var g := GroupTogglByIssueId([a1, a2, a3, a4, b, c]);
            && g.keys == ["333", "334", "335"]
            && g.groups == map["333" := [a1, a2, a3, a4], "334" := [b], "335" := [c]]
  {
    GroupThreeRuns([a1, a2, a3, a4], [b], [c], IssueOf, "333", "334", "335");
    assert [a1, a2, a3, a4] + [b] + [c] == [a1, a2, a3, a4, b, c];
  }

  /** A summary line once the nearest hundredths of an hour and their text are known. */
  lemma IssueLineOf(issue: string, seconds: int, c: nat, h: string)
    requires 36 * c - 18 < seconds < 36 * c + 18 && ShortCenti(c) == h
    ensures TopIssueLine(IssueTotal(issue, seconds)) == "- #" + issue + ": " + h + " h"
  {
  }

  /** Four hours on #333. */
  lemma FourHoursLine()
    ensures TopIssueLine(IssueTotal("333", 4 * 3600)) == "- #333: 4.0 h"
  {
    OneDigitText(4);
    ShortWhole(400, "4");
    IssueLineOf("333", 14400, 400, "4.0");
    assert "- #" + "333" + ": " + "4.0" + " h" == "- #333: 4.0 h";
  }

  /** Two hours on #335. */
  lemma TwoHoursLine()
    ensures TopIssueLine(IssueTotal("335", 2 * 3600)) == "- #335: 2.0 h"
  {
    OneDigitText(2);
    ShortWhole(200, "2");
    IssueLineOf("335", 7200, 200, "2.0");
    assert "- #" + "335" + ": " + "2.0" + " h" == "- #335: 2.0 h";
  }

  /** Half an hour on #334: one decimal, no trailing zero. */
  lemma HalfHourLine()
    ensures TopIssueLine(IssueTotal("334", 1800)) == "- #334: 0.5 h"
  {
    OneDigitText(0);
    ShortTenths(50, "0", '5');
    IssueLineOf("334", 1800, 50, "0.5");
    assert "- #" + "334" + ": " + "0.5" + " h" == "- #334: 0.5 h";
  }

  /** Ten hours on #400. */
  lemma TenHoursLine()
    ensures TopIssueLine(IssueTotal("400", 10 * 3600)) == "- #400: 10.0 h"
  {
    TwoDigitText(10);
    ShortWhole(1000, "10");
    IssueLineOf("400", 36000, 1000, "10.0");
    assert "- #" + "400" + ": " + "10.0" + " h" == "- #400: 10.0 h";
  }

  /** Four hours of entries on one issue. */
  lemma SumFourHours(a1: TogglEntry, a2: TogglEntry, a3: TogglEntry, a4: TogglEntry)
    requires a1.seconds == 3600 && a2.seconds == 3600 && a3.seconds == 3600 && a4.seconds == 3600
    ensures SumSeconds([a1, a2, a3, a4]) == 4 * 3600
  {
    assert SumSeconds([a4]) == 3600 by {
      assert [a4][1..] == [];
    }
    assert SumSeconds([a3, a4]) == 7200 by {
      assert [a3, a4][1..] == [a4];
    }
    assert SumSeconds([a2, a3, a4]) == 10800 by {
      assert [a2, a3, a4][1..] == [a3, a4];
    }
    assert [a1, a2, a3, a4][1..] == [a2, a3, a4];
  }

  /** Three groups give three totals, in the order of the groups. */
  lemma TotalsOfThreeGroups(es: seq<TogglEntry>, k1: string, k2: string, k3: string, r1: seq<TogglEntry>, r2: seq<TogglEntry>, r3: seq<TogglEntry>)
    requires k1 != k2 && k1 != k3 && k2 != k3
    requires GroupTogglByIssueId(es) == Groups([k1, k2, k3], map[k1 := r1, k2 := r2, k3 := r3])
    ensures IssueTotals(es) == [IssueTotal(k1, SumSeconds(r1)), IssueTotal(k2, SumSeconds(r2)), IssueTotal(k3, SumSeconds(r3))]
  {
    var r := IssueTotals(es);
    assert |r| == 3;
  }

  /** Four groups give four totals, in the order of the groups. */
  lemma TotalsOfFourGroups(es: seq<TogglEntry>, k1: string, k2: string, k3: string, k4: string,
                           r1: seq<TogglEntry>, r2: seq<TogglEntry>, r3: seq<TogglEntry>, r4: seq<TogglEntry>)
    requires k1 != k2 && k1 != k3 && k1 != k4 && k2 != k3 && k2 != k4 && k3 != k4
    requires GroupTogglByIssueId(es) == Groups([k1, k2, k3, k4], map[k1 := r1, k2 := r2, k3 := r3, k4 := r4])
    ensures IssueTotals(es) == [IssueTotal(k1, SumSeconds(r1)), IssueTotal(k2, SumSeconds(r2)),
                                IssueTotal(k3, SumSeconds(r3)), IssueTotal(k4, SumSeconds(r4))]
  {
    var g := GroupTogglByIssueId(es);
    var r := IssueTotals(es);
    assert |r| == 4;
    assert r[0] == IssueTotal(k1, SumSeconds(r1)) by {
      assert g.keys[0] == k1 && g.groups[k1] == r1;
    }
    assert r[1] == IssueTotal(k2, SumSeconds(r2)) by {
      assert g.keys[1] == k2 && g.groups[k2] == r2;
    }
    assert r[2] == IssueTotal(k3, SumSeconds(r3)) by {
      assert g.keys[2] == k3 && g.groups[k3] == r3;
    }
    assert r[3] == IssueTotal(k4, SumSeconds(r4)) by {
      assert g.keys[3] == k4 && g.groups[k4] == r4;
    }
  }

  /** The time of a single entry. */
  lemma SumOne(e: TogglEntry)
    ensures SumSeconds([e]) == e.seconds
  {
    assert [e][1..] == [];
  }

  /** The six entries total 4 h on #333, half an hour on #334 and 2 h on #335, in order of first appearance. */
  lemma TotalsOfSixEntries(a1: TogglEntry, a2: TogglEntry, a3: TogglEntry, a4: TogglEntry, b: TogglEntry, c: TogglEntry)
    requires IssueOf(a1) == Some("333") && IssueOf(a2) == Some("333")
    requires IssueOf(a3) == Some("333") && IssueOf(a4) == Some("333")
    requires IssueOf(b) == Some("334") && IssueOf(c) == Some("335")
    requires a1.seconds == 3600 && a2.seconds == 3600 && a3.seconds == 3600 && a4.seconds == 3600
    requires b.seconds == 1800 && c.seconds == 7200
    ensures IssueTotals([a1, a2, a3, a4, b, c]) ==
            [IssueTotal("333", 4 * 3600), IssueTotal("334", 1800), IssueTotal("335", 2 * 3600)]
  {
    GroupSixEntries(a1, a2, a3, a4, b, c);
    TotalsOfThreeGroups([a1, a2, a3, a4, b, c], "333", "334", "335", [a1, a2, a3, a4], [b], [c]);
    SumFourHours(a1, a2, a3, a4);
    SumOne(b);
    SumOne(c);
  }

  /** Three totals, the first largest and the second smallest, sort as first, third, second. */
  lemma SortThreeTotals(x: IssueTotal, y: IssueTotal, z: IssueTotal)
    requires x.seconds > z.seconds > y.seconds
    ensures SortDesc([x, y, z]) == [x, z, y]
  {
    assert SortDesc([z]) == [z] by {
      assert [z][1..] == [];
      assert Insert(z, []) == [z];
    }
    assert SortDesc([y, z]) == [z, y] by {
      assert [y, z][1..] == [z];
      assert Insert(y, []) == [y];
      assert Insert(y, [z]) == [z, y] by {
        assert [z][1..] == [];
      }
    }
    assert [x, y, z][1..] == [y, z];
    assert Insert(x, [z, y]) == [x, z, y];
  }

  /** With three issues or fewer, the summary lists every one of them, sorted. */
  lemma TopIssuesOfFew(es: seq<TogglEntry>)
    requires |IssueTotals(es)| <= 3
    ensures TopIssues(es) == SortDesc(IssueTotals(es))
  {
    var s := SortDesc(IssueTotals(es));
    assert s[..|s|] == s;
  }

  /** The six entries list all three issues, largest total first. */
  lemma TopOfSixEntries(a1: TogglEntry, a2: TogglEntry, a3: TogglEntry, a4: TogglEntry, b: TogglEntry, c: TogglEntry)
    requires IssueOf(a1) == Some("333") && IssueOf(a2) == Some("333")
    requires IssueOf(a3) == Some("333") && IssueOf(a4) == Some("333")
    requires IssueOf(b) == Some("334") && IssueOf(c) == Some("335")
    requires a1.seconds == 3600 && a2.seconds == 3600 && a3.seconds == 3600 && a4.seconds == 3600
    requires b.seconds == 1800 && c.seconds == 7200
    ensures TopIssues([a1, a2, a3, a4, b, c]) ==
            [IssueTotal("333", 4 * 3600), IssueTotal("335", 2 * 3600), IssueTotal("334", 1800)]
  {
    var es := [a1, a2, a3, a4, b, c];
    TotalsOfSixEntries(a1, a2, a3, a4, b, c);
    TopIssuesOfFew(es);
    SortThreeTotals(IssueTotal("333", 4 * 3600), IssueTotal("334", 1800), IssueTotal("335", 2 * 3600));
  }

  /** A total no smaller than the head goes in front. */
  lemma InsertFront(t: IssueTotal, s: seq<IssueTotal>)
    requires s == [] || s[0].seconds <= t.seconds
    ensures Insert(t, s) == [t] + s
  {
  }

  /** A total smaller than the head goes behind it. */
  lemma InsertBehind(t: IssueTotal, s: seq<IssueTotal>)
    requires s != [] && s[0].seconds > t.seconds
    ensures Insert(t, s) == [s[0]] + Insert(t, s[1..])
  {
  }

  /** Sorting inserts the head into the sorted rest. */
  lemma SortCons(s: seq<IssueTotal>)
    requires s != []
    ensures SortDesc(s) == Insert(s[0], SortDesc(s[1..]))
  {
  }

  /** A head in front of a list of three. */
  lemma ConsThree<T>(h: T, s: seq<T>)
    requires |s| == 3
    ensures [h] + s == [h, s[0], s[1], s[2]]
  {
  }

  /** Four totals sort by time, largest first. */
  lemma SortFourTotals(w: IssueTotal, x: IssueTotal, y: IssueTotal, z: IssueTotal)
    requires z.seconds > w.seconds > y.seconds > x.seconds
    ensures SortDesc([w, x, y, z]) == [z, w, y, x]
  {
    SortRisingTotals(x, y, z);
    assert Insert(w, [y, x]) == [w, y, x] by {
      InsertFront(w, [y, x]);
    }
    assert Insert(w, [z, y, x]) == [z, w, y, x] by {
      InsertBehind(w, [z, y, x]);
      assert [z, y, x][1..] == [y, x];
      ConsThree(z, [w, y, x]);
    }
    SortCons([w, x, y, z]);
    assert [w, x, y, z][1..] == [x, y, z];
  }

  /** Three rising totals come out reversed. */
  lemma SortRisingTotals(x: IssueTotal, y: IssueTotal, z: IssueTotal)
    requires z.seconds > y.seconds > x.seconds
    ensures SortDesc([x, y, z]) == [z, y, x]
  {
    assert SortDesc([z]) == [z] by {
      SortCons([z]);
      assert [z][1..] == [];
      InsertFront(z, []);
    }
    assert Insert(x, [y]) == [y, x] by {
      InsertBehind(x, [y]);
      assert [y][1..] == [];
      InsertFront(x, []);
    }
    assert SortDesc([y, z]) == [z, y] by {
      SortCons([y, z]);
      assert [y, z][1..] == [z];
      InsertBehind(y, [z]);
      assert [z][1..] == [];
      InsertFront(y, []);
    }
    assert SortDesc([x, y, z]) == [z, y, x] by {
      SortCons([x, y, z]);
      assert [x, y, z][1..] == [y, z];
      InsertBehind(x, [z, y]);
      assert [z, y][1..] == [y];
    }
  }

  /** A seventh entry on #400 opens a fourth group at the end. */
  lemma GroupSevenEntries(a1: TogglEntry, a2: TogglEntry, a3: TogglEntry, a4: TogglEntry, b: TogglEntry, c: TogglEntry, d: TogglEntry)
    requires IssueOf(a1) == Some("333") && IssueOf(a2) == Some("333")
    requires IssueOf(a3) == Some("333") && IssueOf(a4) == Some("333")
    requires IssueOf(b) == Some("334") && IssueOf(c) == Some("335") && IssueOf(d) == Some("400")
    ensures var g := GroupTogglByIssueId([a1, a2, a3, a4, b, c, d]);
            && g.keys == ["333", "334", "335", "400"]
            && g.groups == map["333" := [a1, a2, a3, a4], "334" := [b], "335" := [c], "400" := [d]]
  {
    GroupFourRuns([a1, a2, a3, a4], [b], [c], [d], IssueOf, "333", "334", "335", "400");
    assert [a1, a2, a3, a4] + [b] + [c] + [d] == [a1, a2, a3, a4, b, c, d];
  }

  /** The seven entries total 4 h on #333, half an hour on #334, 2 h on #335 and 10 h on #400. */
  lemma TotalsOfSevenEntries(a1: TogglEntry, a2: TogglEntry, a3: TogglEntry, a4: TogglEntry, b: TogglEntry, c: TogglEntry, d: TogglEntry)
    requires IssueOf(a1) == Some("333") && IssueOf(a2) == Some("333")
    requires IssueOf(a3) == Some("333") && IssueOf(a4) == Some("333")
    requires IssueOf(b) == Some("334") && IssueOf(c) == Some("335") && IssueOf(d) == Some("400")
    requires a1.seconds == 3600 && a2.seconds == 3600 && a3.seconds == 3600 && a4.seconds == 3600
    requires b.seconds == 1800 && c.seconds == 7200 && d.seconds == 36000
    ensures IssueTotals([a1, a2, a3, a4, b, c, d]) ==
            [IssueTotal("333", 4 * 3600), IssueTotal("334", 1800), IssueTotal("335", 2 * 3600), IssueTotal("400", 10 * 3600)]
  {
    GroupSevenEntries(a1, a2, a3, a4, b, c, d);
    TotalsOfFourGroups([a1, a2, a3, a4, b, c, d], "333", "334", "335", "400", [a1, a2, a3, a4], [b], [c], [d]);
    SumFourHours(a1, a2, a3, a4);
    SumOne(b);
    SumOne(c);
    SumOne(d);
  }

  /** Only the three largest of the four issues are listed: #400, #333, #335. */
  lemma TopOfSevenEntries(a1: TogglEntry, a2: TogglEntry, a3: TogglEntry, a4: TogglEntry, b: TogglEntry, c: TogglEntry, d: TogglEntry)
    requires IssueOf(a1) == Some("333") && IssueOf(a2) == Some("333")
    requires IssueOf(a3) == Some("333") && IssueOf(a4) == Some("333")
    requires IssueOf(b) == Some("334") && IssueOf(c) == Some("335") && IssueOf(d) == Some("400")
    requires a1.seconds == 3600 && a2.seconds == 3600 && a3.seconds == 3600 && a4.seconds == 3600
    requires b.seconds == 1800 && c.seconds == 7200 && d.seconds == 36000
    ensures TopIssues([a1, a2, a3, a4, b, c, d]) ==
            [IssueTotal("400", 10 * 3600), IssueTotal("333", 4 * 3600), IssueTotal("335", 2 * 3600)]
  {
    TotalsOfSevenEntries(a1, a2, a3, a4, b, c, d);
    var w, x, y, z := IssueTotal("333", 4 * 3600), IssueTotal("334", 1800), IssueTotal("335", 2 * 3600), IssueTotal("400", 10 * 3600);
    SortFourTotals(w, x, y, z);
    assert [z, w, y, x][..3] == [z, w, y];
  }

  /** Three listed issues give three lines, in order. */
  lemma LinesOfThree(t1: IssueTotal, t2: IssueTotal, t3: IssueTotal)
    ensures TopIssueLines([t1, t2, t3]) == [TopIssueLine(t1), TopIssueLine(t2), TopIssueLine(t3)]
  {
  }

  /** Once the listed issues are known, the summary is the header, their lines and an empty line. */
  lemma SummaryOfTop(es: seq<TogglEntry>, top: seq<IssueTotal>)
    requires TopIssues(es) == top && top != []
    ensures IssueSummaryLines(es) == SummaryHeader + TopIssueLines(top) + [""]
  {
  }

  /** The summary of the six entries: header, #333, #335, #334, and an empty line. */
  lemma SummaryOfSixEntries(a1: TogglEntry, a2: TogglEntry, a3: TogglEntry, a4: TogglEntry, b: TogglEntry, c: TogglEntry)
    requires IssueOf(a1) == Some("333") && IssueOf(a2) == Some("333")
    requires IssueOf(a3) == Some("333") && IssueOf(a4) == Some("333")
    requires IssueOf(b) == Some("334") && IssueOf(c) == Some("335")
    requires a1.seconds == 3600 && a2.seconds == 3600 && a3.seconds == 3600 && a4.seconds == 3600
    requires b.seconds == 1800 && c.seconds == 7200
    ensures IssueSummaryLines([a1, a2, a3, a4, b, c]) ==
            SummaryHeader + ["- #333: 4.0 h", "- #335: 2.0 h", "- #334: 0.5 h"] + [""]
  {
    var top := [IssueTotal("333", 4 * 3600), IssueTotal("335", 2 * 3600), IssueTotal("334", 1800)];
    assert TopIssueLines(top) == ["- #333: 4.0 h", "- #335: 2.0 h", "- #334: 0.5 h"] by {
      FourHoursLine();
      TwoHoursLine();
      HalfHourLine();
      LinesOfThree(top[0], top[1], top[2]);
    }
    TopOfSixEntries(a1, a2, a3, a4, b, c);
    SummaryOfTop([a1, a2, a3, a4, b, c], top);
  }

  /** The summary of the seven entries lists only #400, #333 and #335. */
  lemma SummaryOfSevenEntries(a1: TogglEntry, a2: TogglEntry, a3: TogglEntry, a4: TogglEntry, b: TogglEntry, c: TogglEntry, d: TogglEntry)
    requires IssueOf(a1) == Some("333") && IssueOf(a2) == Some("333")
    requires IssueOf(a3) == Some("333") && IssueOf(a4) == Some("333")
    requires IssueOf(b) == Some("334") && IssueOf(c) == Some("335") && IssueOf(d) == Some("400")
    requires a1.seconds == 3600 && a2.seconds == 3600 && a3.seconds == 3600 && a4.seconds == 3600
    requires b.seconds == 1800 && c.seconds == 7200 && d.seconds == 36000
    ensures IssueSummaryLines([a1, a2, a3, a4, b, c, d]) ==
            SummaryHeader + ["- #400: 10.0 h", "- #333: 4.0 h", "- #335: 2.0 h"] + [""]
  {
    var top := [IssueTotal("400", 10 * 3600), IssueTotal("333", 4 * 3600), IssueTotal("335", 2 * 3600)];
    assert TopIssueLines(top) == ["- #400: 10.0 h", "- #333: 4.0 h", "- #335: 2.0 h"] by {
      TenHoursLine();
      FourHoursLine();
      TwoHoursLine();
      LinesOfThree(top[0], top[1], top[2]);
    }
    TopOfSevenEntries(a1, a2, a3, a4, b, c, d);
    SummaryOfTop([a1, a2, a3, a4, b, c, d], top);
  }

  /** No entry names an issue: no summary at all. */
  lemma SummaryWithoutIssues(e: TogglEntry)
    requires IssueOf(e).None?
    ensures IssueSummaryLines([e]) == []
  {
    IssueSummaryEmpty([e]);
  }

  /** The description `test 333` names no issue. */
  lemma PlainNumberIsNoIssue()
    ensures IssueOf(TogglEntry(777, 3600, None, "test 333")).None?
  {
    NoIssueWithoutHash("test 333");
  }

  /** Nothing finished: the fixed line, an empty line, and no issue summary. */
  lemma ReportOfNothing(prose: Prose)
    ensures ReportLines([], prose) == [NoWorkLine, ""]
  {
    IssueSummaryEmpty([]);
    assert IssueSummaryLines([]) == [];
    assert WorkLines([], prose) + [""] == [NoWorkLine, ""];
  }

  /** No entries found, none kept. */
  lemma FoundNothing()
    ensures FoundLine(0, 0) == "Found entries in toggl: **0** (filtered: **0**)"
  {
    FoundLineDigits(0, 0);
    assert DigitChar(0) == '0';
  }

  /** No entries at all: the found line with two zeros, the fixed line, and an empty line. */
  lemma NoEntriesLines(prose: Prose)
    ensures EntriesLines([], prose) ==
            ["Found entries in toggl: **0** (filtered: **0**)", "Altogether you did not work today at all :cry:. Hope you ok?", ""]
  {
    var none: seq<TogglEntry> := [];
    assert Completed(none) == [] && FilterWithIssueId(none) == [];
    ReportOfNothing(prose);
    FoundNothing();
  }

  /** The text for no entries ends with a newline. */
  lemma NoEntriesText(prose: Prose)
    ensures Join(EntriesLines([], prose)) ==
            "Found entries in toggl: **0** (filtered: **0**)" + "\n" +
            "Altogether you did not work today at all :cry:. Hope you ok?" + "\n"
  {
    var found, none := "Found entries in toggl: **0** (filtered: **0**)", "Altogether you did not work today at all :cry:. Hope you ok?";
    NoEntriesLines(prose);
    assert Join([""]) == "";
    assert Join([none, ""]) == none + "\n" by {
      assert [none, ""][1..] == [""];
    }
    assert Join([found, none, ""]) == found + "\n" + (none + "\n") by {
      assert [found, none, ""][1..] == [none, ""];
    }
  }

  /** Each line of a list joined after the ones before it. */
  lemma JoinSnocLines(lines: seq<string>, line: string, text: string)
    requires lines != [] && Join(lines) == text
    ensures Join(lines + [line]) == text + "\n" + line
  {
    JoinSnoc(lines, line);
  }

  /** The text of a three-issue summary: each line followed by a newline. */
  lemma SummaryText(l1: string, l2: string, l3: string)
    ensures Join(SummaryHeader + [l1, l2, l3] + [""]) ==
            "---" + "\n" + "**Redmine summary**" + "\n" + "You spent most time on:" + "\n" +
            l1 + "\n" + l2 + "\n" + l3 + "\n"
  {
    var h0, h1, h2 := "---", "**Redmine summary**", "You spent most time on:";
    assert Join([h0]) == h0;
    JoinSnocLines([h0], h1, h0);
    assert [h0] + [h1] == [h0, h1];
    JoinSnocLines([h0, h1], h2, h0 + "\n" + h1);
    assert [h0, h1] + [h2] == SummaryHeader;
    JoinSnocLines(SummaryHeader, l1, h0 + "\n" + h1 + "\n" + h2);
    assert SummaryHeader + [l1] + [l2] == SummaryHeader + [l1, l2];
    JoinSnocLines(SummaryHeader + [l1], l2, h0 + "\n" + h1 + "\n" + h2 + "\n" + l1);
    JoinSnocLines(SummaryHeader + [l1, l2], l3, h0 + "\n" + h1 + "\n" + h2 + "\n" + l1 + "\n" + l2);
    assert SummaryHeader + [l1, l2] + [l3] == SummaryHeader + [l1, l2, l3];
    JoinSnocLines(SummaryHeader + [l1, l2, l3], "", h0 + "\n" + h1 + "\n" + h2 + "\n" + l1 + "\n" + l2 + "\n" + l3);
  }

  /** One hour on #333. */
  lemma OneHourLine()
    ensures TopIssueLine(IssueTotal("333", 3600)) == "- #333: 1.0 h"
  {
    OneDigitText(1);
    ShortWhole(100, "1");
    IssueLineOf("333", 3600, 100, "1.0");
  }

  /** A minute on #666 is two hundredths of an hour, written with both decimals. */
  lemma OneMinuteLine()
    ensures TopIssueLine(IssueTotal("666", 60)) == "- #666: 0.02 h"
  {
    OneDigitText(0);
    ShortHundredths(2, "0", '0', '2');
    IssueLineOf("666", 60, 2, "0.02");
  }

  /** A single entry on an issue: the summary lists that issue alone, with the entry's time. */
  lemma SummaryOfOneEntry(e: TogglEntry, k: string)
    requires IssueOf(e) == Some(k)
    ensures IssueSummaryLines([e]) == SummaryHeader + [TopIssueLine(IssueTotal(k, e.seconds))] + [""]
  {
    var t := IssueTotal(k, e.seconds);
    var g := Groups([k], map[k := [e]]);
    assert GroupTogglByIssueId([e]) == g by {
      assert [e][1..] == [];
      assert Add(Empty(), k, e) == g;
      assert GroupInto(Empty(), [e], IssueOf) == GroupInto(g, [], IssueOf);
    }
    assert SumSeconds([e]) == e.seconds by {
      assert [e][1..] == [];
    }
    assert IssueTotals([e]) == [t] by {
      var r := IssueTotals([e]);
      assert |r| == 1 && r[0] == t;
    }
    assert SortDesc([t]) == [t] by {
      assert [t][1..] == [];
    }
    TopIssuesOfFew([e]);
    assert TopIssueLines([t]) == [TopIssueLine(t)];
    SummaryOfTop([e], [t]);
  }

  /** The three prose lines of a day with finished entries. */
  lemma WorkLinesOf(done: seq<TogglEntry>, prose: Prose)
    requires done != []
    ensures WorkLines(done, prose) ==
            [prose.worked(SumSeconds(done), FormatSeconds(SumSeconds(done))), prose.count(|done|), prose.share(done)]
  {
  }

  /** A finished entry followed by a running one: only the first has finished. */
  lemma FinishedThenRunning(e1: TogglEntry, e2: TogglEntry)
    requires e1.seconds >= 0 && e2.seconds < 0
    ensures Completed([e1, e2]) == [e1]
  {
    CompletedSkipsRunning([e1], e2, []);
    assert [e1] + [e2] + [] == [e1, e2] && [e1] + [] == [e1];
    assert Completed([e1]) == [e1] by {
      assert [e1][1..] == [];
    }
  }

  /** The found line for counts of one digit each. */
  lemma FoundLineDigits(found: nat, filtered: nat)
    requires found < 10 && filtered < 10
    ensures FoundLine(found, filtered) == "Found entries in toggl: **" + [DigitChar(found)] + "** (filtered: **" + [DigitChar(filtered)] + "**)"
  {
  }

  /** Two entries found, one of them kept. */
  lemma FoundTwoFilteredOne()
    ensures FoundLine(2, 1) == "Found entries in toggl: **2** (filtered: **1**)"
  {
    FoundLineDigits(2, 1);
    assert DigitChar(2) == '2' && DigitChar(1) == '1';
  }

  /** An hour on #333: the prose about one hour and one entry, an empty line, and #333 at 1.0 h. */
  lemma OneHourReport(e: TogglEntry, prose: Prose)
    requires IssueOf(e) == Some("333") && e.seconds == 3600
    ensures ReportLines([e], prose) ==
            [prose.worked(3600, "1.00 h"), prose.count(1), prose.share([e])] + [""] +
            (SummaryHeader + ["- #333: 1.0 h"] + [""])
  {
    assert SumSeconds([e]) == 3600 by {
      assert [e][1..] == [];
    }
    assert WorkLines([e], prose) == [prose.worked(3600, "1.00 h"), prose.count(1), prose.share([e])] by {
      FormatSecondsOneHour();
      WorkLinesOf([e], prose);
    }
    assert IssueSummaryLines([e]) == SummaryHeader + ["- #333: 1.0 h"] + [""] by {
      SummaryOfOneEntry(e, "333");
      OneHourLine();
    }
  }

  /** `test #333` for an hour and a running `test #334`: only the hour is reported and summarised. */
  lemma EntriesWithRunning(e1: TogglEntry, e2: TogglEntry, prose: Prose)
    requires IssueOf(e1) == Some("333") && e1.seconds == 3600 && e2.seconds == -300
    ensures EntriesLines([e1, e2], prose) ==
            ["Found entries in toggl: **2** (filtered: **1**)"] +
            ([prose.worked(3600, "1.00 h"), prose.count(1), prose.share([e1])] + [""] +
             (SummaryHeader + ["- #333: 1.0 h"] + [""]))
  {
    FinishedThenRunning(e1, e2);
    assert FilterWithIssueId([e1]) == [e1] by {
      assert [e1][1..] == [];
    }
    FoundTwoFilteredOne();
    OneHourReport(e1, prose);
  }

  /** The descriptions `Hardwork` and the empty one name no issue. */
  lemma PlainDescriptions()
    ensures FindIssueId("").None?
    ensures FindIssueId("Hardwork").None?
  {
    NoIssueWithoutHash("Hardwork");
  }

  /** The description `#666 Hardwork` names issue 666. */
  lemma HardworkIssue()
    ensures FindIssueId("#666 Hardwork") == Some("666")
  {
    IssueIdAtStart("666", " Hardwork");
    assert "#" + "666" + " Hardwork" == "#666 Hardwork";
  }

  /** One entry found, none kept. */
  lemma FoundOneFilteredNone()
    ensures FoundLine(1, 0) == "Found entries in toggl: **1** (filtered: **0**)"
  {
    FoundLineDigits(1, 0);
    assert DigitChar(1) == '1' && DigitChar(0) == '0';
  }

  /** A minute without an issue: the prose about one minute and one entry, an empty line, and no issue summary. */
  lemma EntriesOneWithoutIssue(e: TogglEntry, prose: Prose)
    requires IssueOf(e).None? && e.seconds == 60
    ensures EntriesLines([e], prose) ==
            ["Found entries in toggl: **1** (filtered: **0**)"] +
            ([prose.worked(60, "1 m"), prose.count(1), prose.share([e])] + [""] + [])
  {
    assert Completed([e]) == [e] by {
      assert [e][1..] == [];
    }
    assert FilterWithIssueId([e]) == [] by {
      assert [e][1..] == [];
    }
    FoundOneFilteredNone();
    assert SumSeconds([e]) == 60 by {
      assert [e][1..] == [];
    }
    assert WorkLines([e], prose) == [prose.worked(60, "1 m"), prose.count(1), prose.share([e])] by {
      FormatSecondsMinutes();
      WorkLinesOf([e], prose);
    }
    SummaryWithoutIssues(e);
  }

  /** An entry without an issue is left out of the issue summary wherever it stands. */
  lemma SummarySkipsUnkeyed(e1: TogglEntry, e2: TogglEntry)
    requires IssueOf(e1).None?
    ensures IssueSummaryLines([e1, e2]) == IssueSummaryLines([e2])
  {
    GroupBySkipsUnkeyed([], e1, [e2], IssueOf);
    assert [] + [e1] + [e2] == [e1, e2] && [] + [e2] == [e2];
    assert GroupTogglByIssueId([e1, e2]) == GroupTogglByIssueId([e2]);
    assert IssueTotals([e1, e2]) == IssueTotals([e2]);
  }

  /** A minute on #666 after a minute without an issue: the summary lists #666 at 0.02 h. */
  lemma TwoMinutesReport(e1: TogglEntry, e2: TogglEntry, prose: Prose)
    requires IssueOf(e1).None? && IssueOf(e2) == Some("666") && e1.seconds == 60 && e2.seconds == 60
    ensures ReportLines([e1, e2], prose) ==
            [prose.worked(120, "2 m"), prose.count(2), prose.share([e1, e2])] + [""] +
            (SummaryHeader + ["- #666: 0.02 h"] + [""])
  {
    assert SumSeconds([e1, e2]) == 120 by {
      assert SumSeconds([e2]) == 60 by {
        assert [e2][1..] == [];
      }
      assert [e1, e2][1..] == [e2];
    }
    assert WorkLines([e1, e2], prose) == [prose.worked(120, "2 m"), prose.count(2), prose.share([e1, e2])] by {
      FormatSecondsMinutes();
      WorkLinesOf([e1, e2], prose);
    }
    assert IssueSummaryLines([e1, e2]) == SummaryHeader + ["- #666: 0.02 h"] + [""] by {
      SummarySkipsUnkeyed(e1, e2);
      SummaryOfOneEntry(e2, "666");
      OneMinuteLine();
    }
  }

  /** Two finished entries, one naming #666: two found, one kept, and #666 summarised. */
  lemma EntriesOneWithIssue(e1: TogglEntry, e2: TogglEntry, prose: Prose)
    requires IssueOf(e1).None? && IssueOf(e2) == Some("666") && e1.seconds == 60 && e2.seconds == 60
    ensures EntriesLines([e1, e2], prose) ==
            ["Found entries in toggl: **2** (filtered: **1**)"] +
            ([prose.worked(120, "2 m"), prose.count(2), prose.share([e1, e2])] + [""] +
             (SummaryHeader + ["- #666: 0.02 h"] + [""]))
  {
    assert Completed([e1, e2]) == [e1, e2] by {
      assert Filter([e2], IsCompleted) == [e2] by {
        assert [e2][1..] == [];
      }
      assert [e1, e2][1..] == [e2];
    }
    assert FilterWithIssueId([e1, e2]) == [e2] by {
      assert Filter([e2], HasIssue) == [e2] by {
        assert [e2][1..] == [];
      }
      assert [e1, e2][1..] == [e2];
    }
    FoundTwoFilteredOne();
    TwoMinutesReport(e1, e2, prose);
  }

  /** `filterToday`: the entry started today stays, the one without a start goes. */
  lemma FilterTodayKeepsStarted(e1: TogglEntry, e2: TogglEntry, today: Date)
    requires e1.start.Some? && e1.start.value.date == today && e2.start.None?
    ensures FilterToday(Some([e1, e2]), today) == [e1]
  {
    var p := (e: TogglEntry) => e.start.Some? && e.start.value.date == today;
    assert Filter([e2], p) == [] by {
      assert [e2][1..] == [];
    }
    assert [e1, e2][1..] == [e2];
    assert Filter([e1, e2], p) == [e1] + Filter([e2], p);
  }

  /** `filterToday` of an empty list and of no list at all. */
  lemma FilterTodayNothing(today: Date)
    ensures FilterToday(Some([]), today) == []
    ensures FilterToday(None, today) == []
  {
  }

  /** `filterWithRedmineId`: the first and third entries name an issue and are kept, in order. */
  lemma FilterWithIssueIdKeepsOrder(e1: TogglEntry, e2: TogglEntry, e3: TogglEntry)
    requires IssueOf(e1).Some? && IssueOf(e2).None? && IssueOf(e3).Some?
    ensures FilterWithIssueId([e1, e2, e3]) == [e1, e3]
  {
    assert [e1, e2, e3] == [e1] + ([e2] + ([e3] + []));
    FilterCons(e3, [], HasIssue);
    FilterCons(e2, [e3] + [], HasIssue);
    FilterCons(e1, [e2] + ([e3] + []), HasIssue);
  }

  /** `append("test")` and `send()`: the runner is handed exactly `test`. */
  method SendAppended(prose: Prose) returns (sent: seq<string>)
    ensures sent == ["test"]
  {
    var runner := new Runner();
    var notifier := new Notifier(runner, prose);
    notifier.Append("test");
    assert notifier.lines == ["test"];
    notifier.Send();
    sent := runner.sent;
  }

  /** `appendEntries([])` and `send()`: the found line with two zeros and the fixed line, each ending a line. */
  method SendNoEntries(prose: Prose) returns (sent: seq<string>)
    ensures sent == ["Found entries in toggl: **0** (filtered: **0**)" + "\n" +
                     "Altogether you did not work today at all :cry:. Hope you ok?" + "\n"]
  {
    var runner := new Runner();
    var notifier := new Notifier(runner, prose);
    notifier.AppendEntries([]);
    assert notifier.lines == EntriesLines([], prose);
    NoEntriesText(prose);
    notifier.Send();
    sent := runner.sent;
  }

  /** `appendDuration(n)` and `send()` for one, two and no days. */
  method SendDuration(prose: Prose, days: int) returns (sent: seq<string>)
    ensures days == 1 ==> sent == ["Sync: 1 day"]
    ensures days == 2 ==> sent == ["Sync: 2 days"]
    ensures days == 0 ==> sent == ["Sync: 0 days"]
  {
    var runner := new Runner();
    var notifier := new Notifier(runner, prose);
    notifier.AppendDuration(days);
    assert notifier.lines == [DurationLine(days)];
    DurationLines();
    notifier.Send();
    sent := runner.sent;
  }

  /** The entries of the summary test: four hours on #333, half an hour on #334, two hours on #335. */
  function SixWork(): seq<TogglEntry> {
    [Work(777, 3600, "333"), Work(777, 3600, "333"), Work(777, 3600, "333"), Work(777, 3600, "333"),
     Work(778, 1800, "334"), Work(778, 7200, "335")]
  }

  /** The same and ten hours on #400. */
  function SevenWork(): seq<TogglEntry> {
    [Work(777, 3600, "333"), Work(777, 3600, "333"), Work(777, 3600, "333"), Work(777, 3600, "333"),
     Work(778, 1800, "334"), Work(778, 7200, "335"), Work(778, 36000, "400")]
  }

  /** The summary lines of the six entries. */
  lemma SixWorkSummary()
    ensures IssueSummaryLines(SixWork()) == SummaryHeader + ["- #333: 4.0 h", "- #335: 2.0 h", "- #334: 0.5 h"] + [""]
  {
    var a, b, c := Work(777, 3600, "333"), Work(778, 1800, "334"), Work(778, 7200, "335");
    WorkIssueOf(777, 3600, '3', '3', '3');
    WorkIssueOf(778, 1800, '3', '3', '4');
    WorkIssueOf(778, 7200, '3', '3', '5');
    SummaryOfSixEntries(a, a, a, a, b, c);
  }

  /** The summary text of the six entries. */
  lemma SixWorkText()
    ensures Join(IssueSummaryLines(SixWork())) ==
            "---" + "\n" + "**Redmine summary**" + "\n" + "You spent most time on:" + "\n" +
            "- #333: 4.0 h" + "\n" + "- #335: 2.0 h" + "\n" + "- #334: 0.5 h" + "\n"
  {
    SixWorkSummary();
    SummaryText("- #333: 4.0 h", "- #335: 2.0 h", "- #334: 0.5 h");
  }

  /** The summary lines of the seven entries. */
  lemma SevenWorkSummary()
    ensures IssueSummaryLines(SevenWork()) == SummaryHeader + ["- #400: 10.0 h", "- #333: 4.0 h", "- #335: 2.0 h"] + [""]
  {
    var a, b, c, d := Work(777, 3600, "333"), Work(778, 1800, "334"), Work(778, 7200, "335"), Work(778, 36000, "400");
    WorkIssueOf(777, 3600, '3', '3', '3');
    WorkIssueOf(778, 1800, '3', '3', '4');
    WorkIssueOf(778, 7200, '3', '3', '5');
    WorkIssueOf(778, 36000, '4', '0', '0');
    SummaryOfSevenEntries(a, a, a, a, b, c, d);
  }

  /** The summary text of the seven entries: #400, #333 and #335 only. */
  lemma SevenWorkText()
    ensures Join(IssueSummaryLines(SevenWork())) ==
            "---" + "\n" + "**Redmine summary**" + "\n" + "You spent most time on:" + "\n" +
            "- #400: 10.0 h" + "\n" + "- #333: 4.0 h" + "\n" + "- #335: 2.0 h" + "\n"
  {
    SevenWorkSummary();
    SummaryText("- #400: 10.0 h", "- #333: 4.0 h", "- #335: 2.0 h");
  }

  /** `__append_redmine_summary` of the six entries and `send()`. */
  method SendSummaryOfSix(prose: Prose) returns (sent: seq<string>)
    ensures sent == ["---" + "\n" + "**Redmine summary**" + "\n" + "You spent most time on:" + "\n" +
                     "- #333: 4.0 h" + "\n" + "- #335: 2.0 h" + "\n" + "- #334: 0.5 h" + "\n"]
  {
    var runner := new Runner();
    var notifier := new Notifier(runner, prose);
    notifier.AppendIssueSummary(SixWork());
    assert notifier.lines == IssueSummaryLines(SixWork());
    SixWorkText();
    notifier.Send();
    sent := runner.sent;
  }

  /** `__append_redmine_summary` of the seven entries and `send()`. */
  method SendSummaryOfSeven(prose: Prose) returns (sent: seq<string>)
    ensures sent == ["---" + "\n" + "**Redmine summary**" + "\n" + "You spent most time on:" + "\n" +
                     "- #400: 10.0 h" + "\n" + "- #333: 4.0 h" + "\n" + "- #335: 2.0 h" + "\n"]
  {
    var runner := new Runner();
    var notifier := new Notifier(runner, prose);
    notifier.AppendIssueSummary(SevenWork());
    assert notifier.lines == IssueSummaryLines(SevenWork());
    SevenWorkText();
    notifier.Send();
    sent := runner.sent;
  }

  /** `__append_redmine_summary` of an entry whose description names no issue, and `send()`: an empty text. */
  method SendNoSummary(prose: Prose) returns (sent: seq<string>)
    ensures sent == [""]
  {
    var e := TogglEntry(777, 3600, None, "test 333");
    PlainNumberIsNoIssue();
    SummaryWithoutIssues(e);
    var runner := new Runner();
    var notifier := new Notifier(runner, prose);
    notifier.AppendIssueSummary([e]);
    assert notifier.lines == [];
    notifier.Send();
    sent := runner.sent;
  }

}
