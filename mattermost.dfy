/**
 * The chat notifier that reports a synchronization run: a buffer of lines
 * that the `append*` operations extend and `send` hands, joined by newlines,
 * to a runner. It reports the number of days synchronized, how many Toggl
 * entries were found, the time worked, and the three issues with the most time.
 */
module Mattermost {
  import opened Wrappers
  import opened Time
  import opened Text
  import opened Seqs
  import opened Entries
  import opened Grouping
  import opened Equality

  /**
   * The nearest whole number of hundredths of an hour to `seconds` (a
   * hundredth is 36 seconds), a tie going to the even one.
   */
  function CentiHours(seconds: int): (c: int)
    ensures -18 <= seconds - 36 * c <= 18
    ensures (seconds - 36 * c == 18 || seconds - 36 * c == -18) ==> c % 2 == 0
  {
    var q, r := seconds / 36, seconds % 36;
    if r < 18 then q else if r > 18 then q + 1 else if q % 2 == 0 then q else q + 1
  }

  /** It is Python's `round(seconds / 3600, 2)` in hundredths, taken on the exact quotient. */
  lemma CentiHoursRounds(seconds: int)
    ensures CentiHours(seconds) == RoundHalfEven(seconds as real / 36.0)
  {
    var c := CentiHours(seconds);
    assert seconds as real / 36.0 - c as real == (seconds - 36 * c) as real / 36.0;
    RoundHalfEvenUnique(seconds as real / 36.0, c);
  }

  /** `"%.2f"` of `c / 100`: the hundredths written with exactly two decimals. */
  function FixedCenti(c: nat): (t: string)
    ensures |t| >= 4 && t[|t| - 3] == '.'
  {
    NatToString(c / 100) + "." + [DigitChar(c % 100 / 10), DigitChar(c % 10)]
  }

  /**
   * Python's `str()` of `c / 100` once rounded to two places: one decimal at
   * least, and no trailing zero after it.
   */
  function ShortCenti(c: nat): (t: string)
    ensures |t| >= 3 && IsDigit(t[0])
    ensures t[|t| - 1] == '0' ==> c % 100 == 0
  {
    var f := c % 100;
    NatToString(c / 100) + "." +
      (if f == 0 then "0" else if f % 10 == 0 then [DigitChar(f / 10)] else [DigitChar(f / 10), DigitChar(f % 10)])
  }

  /** A signed amount of hundredths as Python writes the rounded float. */
  function SignedCenti(c: int): string {
    if c < 0 then "-" + ShortCenti(-c) else ShortCenti(c)
  }

  /** The amount starts with a minus sign exactly when it is negative. */
  lemma SignedCentiSign(c: int)
    ensures |SignedCenti(c)| >= 1 && (c < 0 <==> SignedCenti(c)[0] == '-')
  {
  }

  /** Reads a decimal with one or two places (`4.0`, `0.02`, `10.00`) back as hundredths. */
  function ReadCenti(t: string): Option<nat> {
    if |t| >= 4 && t[|t| - 3] == '.' && AllDigits(t[..|t| - 3]) && AllDigits(t[|t| - 2..]) then
      Some(ParseNat(t[..|t| - 3]) * 100 + ParseNat(t[|t| - 2..]))
    else if |t| >= 3 && t[|t| - 2] == '.' && AllDigits(t[..|t| - 2]) && IsDigit(t[|t| - 1]) then
      Some(ParseNat(t[..|t| - 2]) * 100 + DigitValue(t[|t| - 1]) * 10)
    else None
  }

  /** Appending a digit to a string of digits shifts its value one place. */
  lemma ParseNatSnoc(s: string, c: char)
    requires AllDigits(s) && IsDigit(c)
    ensures AllDigits(s + [c]) && ParseNat(s + [c]) == ParseNat(s) * 10 + DigitValue(c)
  {
    assert (s + [c])[..|s|] == s;
  }

  lemma DigitValueChar(d: nat)
    requires d < 10
    ensures DigitValue(DigitChar(d)) == d
  {
  }

  /** A number with two decimals reads back as its hundredths. */
  lemma ReadTwoPlaces(q: nat, a: char, b: char)
    requires IsDigit(a) && IsDigit(b)
    ensures ReadCenti(NatToString(q) + "." + [a, b]) == Some(q * 100 + DigitValue(a) * 10 + DigitValue(b))
  {
    var n := NatToString(q);
    var t := n + "." + [a, b];
    assert t[|t| - 3] == '.';
    assert t[..|t| - 3] == n;
    assert t[|t| - 2..] == [a, b];
    ReadCentiTwoPlaces(t);
    ParseTwoDigits(a, b);
    ParseNatToString(q);
  }

  lemma ReadCentiTwoPlaces(t: string)
    requires |t| >= 4 && t[|t| - 3] == '.' && AllDigits(t[..|t| - 3]) && AllDigits(t[|t| - 2..])
    ensures ReadCenti(t) == Some(ParseNat(t[..|t| - 3]) * 100 + ParseNat(t[|t| - 2..]))
  {
  }

  lemma ParseTwoDigits(a: char, b: char)
    requires IsDigit(a) && IsDigit(b)
    ensures ParseNat([a, b]) == DigitValue(a) * 10 + DigitValue(b)
  {
    assert ParseNat([a]) == DigitValue(a) by {
      assert [a][..0] == [];
    }
    assert [a, b][..1] == [a];
  }

  /** A number with one decimal reads back as its hundredths. */
  lemma ReadOnePlace(q: nat, d: char)
    requires IsDigit(d)
    ensures ReadCenti(NatToString(q) + "." + [d]) == Some(q * 100 + DigitValue(d) * 10)
  {
    var n := NatToString(q);
    var t := n + "." + [d];
    assert t[|t| - 3] == n[|n| - 1];
    assert t[|t| - 2] == '.';
    assert t[..|t| - 2] == n;
    ReadCentiOnePlace(t);
    ParseNatToString(q);
  }

  lemma ReadCentiOnePlace(t: string)
    requires |t| >= 3 && t[|t| - 2] == '.' && AllDigits(t[..|t| - 2]) && IsDigit(t[|t| - 1])
    ensures ReadCenti(t) == Some(ParseNat(t[..|t| - 2]) * 100 + DigitValue(t[|t| - 1]) * 10)
  {
    if |t| >= 4 {
      assert t[|t| - 3] in t[..|t| - 2];
    }
  }

  /** Two decimals read back as the hundredths they were written from. */
  lemma FixedCentiRoundTrip(c: nat)
    ensures ReadCenti(FixedCenti(c)) == Some(c)
  {
    var a, b := DigitChar(c % 100 / 10), DigitChar(c % 10);
    ReadTwoPlaces(c / 100, a, b);
    DigitValueChar(c % 100 / 10);
    DigitValueChar(c % 10);
  }

  /** A whole number of tenths is written with one decimal, which reads back. */
  lemma OneDecimalRoundTrip(c: nat)
    requires c % 10 == 0
    ensures ReadCenti(ShortCenti(c)) == Some(c)
  {
    var n := NatToString(c / 100);
    var f := c % 100;
    var d := DigitChar(f / 10);
    assert ShortCenti(c) == n + "." + [d] by {
      if f == 0 {
        assert d == '0';
      }
    }
    ReadOnePlace(c / 100, d);
    DigitValueChar(f / 10);
  }

  /** The short form reads back as the same hundredths. */
  lemma ShortCentiRoundTrip(c: nat)
    ensures ReadCenti(ShortCenti(c)) == Some(c)
  {
    if c % 10 == 0 {
      OneDecimalRoundTrip(c);
    } else {
      assert ShortCenti(c) == FixedCenti(c);
      FixedCentiRoundTrip(c);
    }
  }

  /**
   * `formatSeconds`: under a minute in seconds (`"45 s"`), under an hour in
   * whole minutes (`"5 m"`), otherwise in hours with two decimals (`"10.00 h"`).
   */
  function FormatSeconds(seconds: int): (r: string)
    ensures |r| >= 3 && r[|r| - 2] == ' '
    ensures r[|r| - 1] == if seconds < 60 then 's' else if seconds < 3600 then 'm' else 'h'
  {
    if seconds < 60 then IntToString(seconds) + " s"
    else if seconds < 3600 then NatToString(seconds / 60) + " m"
    else FixedCenti(CentiHours(seconds)) + " h"
  }

  /**
   * The amount in front of the unit reads back as the seconds, as the whole
   * minutes they contain, or as the hundredths of an hour nearest to them.
   */
  lemma FormatSecondsReadBack(seconds: int)
    ensures var r := FormatSeconds(seconds);
            var amount := r[..|r| - 2];
            && (0 <= seconds < 60 ==> AllDigits(amount) && ParseNat(amount) == seconds)
            && (60 <= seconds < 3600 ==> AllDigits(amount) && 60 * ParseNat(amount) <= seconds < 60 * ParseNat(amount) + 60)
            && (3600 <= seconds ==> ReadCenti(amount).Some? &&
                                    -0.5 <= seconds as real / 36.0 - ReadCenti(amount).value as real <= 0.5)
  {
    var r := FormatSeconds(seconds);
    if 0 <= seconds < 60 {
      assert r[..|r| - 2] == NatToString(seconds);
      ParseNatToString(seconds);
    } else if 60 <= seconds < 3600 {
      assert r[..|r| - 2] == NatToString(seconds / 60);
      ParseNatToString(seconds / 60);
    } else if 3600 <= seconds {
      var c := CentiHours(seconds);
      assert r[..|r| - 2] == FixedCenti(c);
      FixedCentiRoundTrip(c);
    }
  }

  /** `appendDuration(days)`: `"Sync: 1 day"`, and `"Sync: <n> days"` for every other count, 0 included. */
  function DurationLine(days: int): (r: string)
    ensures |r| > 6 && r[..6] == "Sync: "
    ensures r[|r| - 1] == 's' <==> days != 1
  {
    "Sync: " + IntToString(days) + (if days == 1 then " day" else " days")
  }

  /** The number after `"Sync: "` reads back as the days. */
  lemma DurationLineReadBack(days: nat)
    ensures var r := DurationLine(days); ParseNat(DigitRun(r[6..])) == days
  {
    var unit := if days == 1 then " day" else " days";
    NumberAfter("Sync: ", days, unit);
  }

  const FoundPrefix: string := "Found entries in toggl: **"

  /**
   * The first line of `appendEntries`: how many entries were found, and how
   * many of them count, in bold.
   */
  function FoundLine(found: nat, filtered: nat): (r: string)
    ensures |r| > |FoundPrefix| + |FilteredPart(filtered)| && r[..|FoundPrefix|] == FoundPrefix
    ensures r[|r| - |FilteredPart(filtered)|..] == FilteredPart(filtered)
  {
    FoundPrefix + NatToString(found) + FilteredPart(filtered)
  }

  const FilteredPrefix: string := "** (filtered: **"

  function FilteredPart(filtered: nat): string {
    FilteredPrefix + NatToString(filtered) + "**)"
  }

  /** The number after the prefix reads back as the count of entries found. */
  lemma FoundLineReadBack(found: nat, filtered: nat)
    ensures var r := FoundLine(found, filtered);
            ParseNat(DigitRun(r[|FoundPrefix|..])) == found
  {
    assert FilteredPart(filtered)[0] == '*';
    NumberAfter(FoundPrefix, found, FilteredPart(filtered));
  }

  /** The part after the count found reads back as the filtered count. */
  lemma FilteredPartReadBack(filtered: nat)
    ensures var p := FilteredPart(filtered);
            |p| > |FilteredPrefix| && ParseNat(DigitRun(p[|FilteredPrefix|..])) == filtered
  {
    NumberAfter(FilteredPrefix, filtered, "**)");
  }

  /** The summary of a day without finished entries. */
  const NoWorkLine: string := "Altogether you did not work today at all :cry:. Hope you ok?"

  /**
   * The wording of the three summary lines, which depends on bands of worked
   * time, entry count and share of entries with an issue: the line about the
   * worked time (given the seconds and their `formatSeconds` text), the line
   * about the number of entries, and the line about the share with an issue.
   */
  datatype Prose = Prose(
    worked: (int, string) -> string,
    count: nat -> string,
    share: seq<TogglEntry> -> string)

  /** `__append_summary`: the fixed line for no entries, otherwise the three prose lines. */
  function WorkLines(es: seq<TogglEntry>, prose: Prose): (r: seq<string>)
    ensures es == [] ==> r == [NoWorkLine]
    ensures es != [] ==> |r| == 3 && r[0] == prose.worked(SumSeconds(es), FormatSeconds(SumSeconds(es)))
  {
    if es == [] then [NoWorkLine]
    else
      var total := SumSeconds(es);
      [prose.worked(total, FormatSeconds(total)), prose.count(|es|), prose.share(es)]
  }

  /** `filterToday`: the entries that started on `today`; no list at all gives none. */
  function FilterToday(es: Option<seq<TogglEntry>>, today: Date): (r: seq<TogglEntry>)
    ensures forall e :: e in r <==> es.Some? && e in es.value && e.start.Some? && e.start.value.date == today
    ensures es.Some? ==> |r| <= |es.value|
  {
    match es
    case None => []
    case Some(xs) => Filter(xs, (e: TogglEntry) => e.start.Some? && e.start.value.date == today)
  }

  /** `filterWithRedmineId`: the entries whose description names an issue. */
  function FilterWithIssueId(es: seq<TogglEntry>): (r: seq<TogglEntry>)
    ensures forall e :: e in r <==> e in es && HasIssue(e)
  {
    Filter(es, HasIssue)
  }

  /** Each entry that names an issue is kept as often as it occurs; the others are dropped. */
  lemma FilterWithIssueIdCounts(es: seq<TogglEntry>, e: TogglEntry)
    ensures multiset(FilterWithIssueId(es))[e] == if HasIssue(e) then multiset(es)[e] else 0
  {
    FilterCount(es, HasIssue, e);
  }

  /** The time spent on one issue. */
  datatype IssueTotal = IssueTotal(issue: string, seconds: int)

  /** The issues of the entries, in order of first appearance, each with its summed time. */
  function IssueTotals(es: seq<TogglEntry>): (r: seq<IssueTotal>)
    ensures |r| == |FirstKeys(es, IssueOf)|
    ensures forall i :: 0 <= i < |r| ==> r[i].issue == FirstKeys(es, IssueOf)[i]
  {
    GroupTogglPartition(es);
    var g := GroupTogglByIssueId(es);
    seq(|g.keys|, i requires 0 <= i < |g.keys| => IssueTotal(g.keys[i], SumSeconds(g.groups[g.keys[i]])))
  }

  /** Each issue is listed once, with the summed time of exactly the entries that name it. */
  lemma IssueTotalsSums(es: seq<TogglEntry>)
    ensures var r := IssueTotals(es);
            && (forall i :: 0 <= i < |r| ==> r[i].seconds == SumSeconds(KeyedBy(es, IssueOf, r[i].issue)))
            && (forall i, j :: 0 <= i < j < |r| ==> r[i].issue != r[j].issue)
  {
    GroupTogglPartition(es);
  }

  /** Every issue named by an entry has a total, and only those. */
  lemma IssueTotalsCover(es: seq<TogglEntry>, k: string)
    ensures (exists e :: e in es && IssueOf(e) == Some(k)) <==> exists i :: 0 <= i < |IssueTotals(es)| && IssueTotals(es)[i].issue == k
  {
    var g := GroupTogglByIssueId(es);
    GroupTogglPartition(es);
    var r := IssueTotals(es);
    if k in g.groups {
      var i :| 0 <= i < |g.keys| && g.keys[i] == k;
      assert r[i].issue == k;
    }
    if exists i :: 0 <= i < |r| && r[i].issue == k {
      var i :| 0 <= i < |r| && r[i].issue == k;
      assert g.keys[i] in g.groups;
    }
  }

  ghost predicate SortedDesc(s: seq<IssueTotal>) {
    forall i, j :: 0 <= i < j < |s| ==> s[i].seconds >= s[j].seconds
  }

  /** Puts `t` in front of the first total that is not larger, so ties keep their order. */
  function Insert(t: IssueTotal, s: seq<IssueTotal>): (r: seq<IssueTotal>)
    ensures |r| == |s| + 1
    decreases |s|
  {
    if s == [] || s[0].seconds <= t.seconds then [t] + s
    else [s[0]] + Insert(t, s[1..])
  }

  /** Inserting adds exactly `t`. */
  lemma {:induction false} InsertCount(t: IssueTotal, s: seq<IssueTotal>)
    ensures multiset(Insert(t, s)) == multiset(s) + multiset{t}
    decreases |s|
  {
    if s != [] && s[0].seconds > t.seconds {
      InsertCount(t, s[1..]);
      assert s == [s[0]] + s[1..];
    }
  }

  lemma InsertMembers(t: IssueTotal, s: seq<IssueTotal>)
    ensures forall x :: x in Insert(t, s) ==> x == t || x in s
  {
    InsertCount(t, s);
    forall x | x in Insert(t, s)
      ensures x == t || x in s
    {
      assert x in multiset(Insert(t, s));
    }
  }

  lemma SortedTail(s: seq<IssueTotal>)
    requires s != [] && SortedDesc(s)
    ensures SortedDesc(s[1..])
  {
    forall i, j | 0 <= i < j < |s[1..]|
      ensures s[1..][i].seconds >= s[1..][j].seconds
    {
      assert s[1..][i] == s[i + 1] && s[1..][j] == s[j + 1];
    }
  }

  /** Inserting keeps a list sorted largest first sorted. */
  lemma {:induction false} InsertSorted(t: IssueTotal, s: seq<IssueTotal>)
    requires SortedDesc(s)
    ensures SortedDesc(Insert(t, s))
    decreases |s|
  {
    if s != [] && s[0].seconds > t.seconds {
      var tail := Insert(t, s[1..]);
      var r := [s[0]] + tail;
      SortedTail(s);
      InsertSorted(t, s[1..]);
      InsertMembers(t, s[1..]);
      forall i, j | 0 <= i < j < |r|
        ensures r[i].seconds >= r[j].seconds
      {
        if i == 0 {
          assert r[j] in tail;
          if r[j] != t {
            var m :| 0 <= m < |s[1..]| && s[1..][m] == r[j];
            assert s[m + 1] == r[j];
          }
        } else {
          assert r[i] == tail[i - 1] && r[j] == tail[j - 1];
        }
      }
    }
  }

  /** Python's stable `sorted(..., reverse=True)` on the totals: largest first. */
  function SortDesc(s: seq<IssueTotal>): (r: seq<IssueTotal>)
    ensures |r| == |s|
    decreases |s|
  {
    if s == [] then [] else Insert(s[0], SortDesc(s[1..]))
  }

  /** The sorted totals are largest first and are the same totals. */
  lemma {:induction false} SortDescSorted(s: seq<IssueTotal>)
    ensures SortedDesc(SortDesc(s))
    ensures multiset(SortDesc(s)) == multiset(s)
    decreases |s|
  {
    if s != [] {
      SortDescSorted(s[1..]);
      InsertSorted(s[0], SortDesc(s[1..]));
      InsertCount(s[0], SortDesc(s[1..]));
      assert s == [s[0]] + s[1..];
    }
  }

  /** Totals that tie are inserted behind none of the larger and in front of the rest. */
  lemma {:induction false} InsertTies(t: IssueTotal, s: seq<IssueTotal>, v: int)
    ensures Filter(Insert(t, s), (u: IssueTotal) => u.seconds == v) == (if t.seconds == v then [t] else []) + Filter(s, (u: IssueTotal) => u.seconds == v)
    decreases |s|
  {
    var p := (u: IssueTotal) => u.seconds == v;
    if s == [] || s[0].seconds <= t.seconds {
      FilterCons(t, s, p);
    } else {
      InsertTies(t, s[1..], v);
      FilterPast(t, s[0], Insert(t, s[1..]), s[1..], p);
      assert [s[0]] + s[1..] == s;
    }
  }

  /** The sort is stable: totals with the same time stay in their input order. */
  lemma {:induction false} SortDescStable(s: seq<IssueTotal>, v: int)
    ensures Filter(SortDesc(s), (u: IssueTotal) => u.seconds == v) == Filter(s, (u: IssueTotal) => u.seconds == v)
    decreases |s|
  {
    if s != [] {
      SortDescStable(s[1..], v);
      InsertTies(s[0], SortDesc(s[1..]), v);
    }
  }

  /** The issues the summary lists: at most three, largest total first. */
  function TopIssues(es: seq<TogglEntry>): (r: seq<IssueTotal>)
    ensures |r| == if |IssueTotals(es)| < 3 then |IssueTotals(es)| else 3
    ensures SortedDesc(r)
    ensures multiset(r) <= multiset(IssueTotals(es))
  {
    var s := SortDesc(IssueTotals(es));
    SortDescSorted(IssueTotals(es));
    var n := if |s| < 3 then |s| else 3;
    assert s == s[..n] + s[n..];
    assert multiset(s) == multiset(s[..n]) + multiset(s[n..]);
    s[..n]
  }

  /** No issue left out of the summary has more time than one listed in it. */
  lemma TopIssuesDominate(es: seq<TogglEntry>, t: IssueTotal, u: IssueTotal)
    requires t in IssueTotals(es) && t !in TopIssues(es)
    requires u in TopIssues(es)
    ensures u.seconds >= t.seconds
  {
    var s := SortDesc(IssueTotals(es));
    SortDescSorted(IssueTotals(es));
    var n := if |s| < 3 then |s| else 3;
    assert TopIssues(es) == s[..n];
    assert t in multiset(s);
    var k :| 0 <= k < |s| && s[k] == t;
    var m :| 0 <= m < n && s[m] == u;
  }

  /** One line of the issue summary: `- #<issue>: <hours> h`. */
  function TopIssueLine(t: IssueTotal): (r: string)
    ensures var n := |t.issue|;
            && |r| >= n + 7
            && r[..3] == "- #" && r[3..3 + n] == t.issue && r[3 + n..5 + n] == ": " && r[|r| - 2..] == " h"
  {
    "- #" + t.issue + ": " + SignedCenti(CentiHours(t.seconds)) + " h"
  }

  /** A line names its issue and reads back as the hundredths of an hour nearest to the issue's time. */
  lemma TopIssueLineReadBack(t: IssueTotal)
    requires t.seconds >= 0
    ensures var r := TopIssueLine(t);
            var n := |t.issue|;
            && |r| >= n + 7
            && r[..3] == "- #" && r[3..3 + n] == t.issue && r[3 + n..5 + n] == ": " && r[|r| - 2..] == " h"
            && ReadCenti(r[5 + n..|r| - 2]) == Some(CentiHours(t.seconds))
  {
    var c := CentiHours(t.seconds);
    assert c >= 0;
    var h := ShortCenti(c);
    var r := TopIssueLine(t);
    assert r == "- #" + t.issue + ": " + h + " h";
    var n := |t.issue|;
    assert r[5 + n..|r| - 2] == h;
    ShortCentiRoundTrip(c);
  }

  const SummaryHeader: seq<string> := ["---", "**Redmine summary**", "You spent most time on:"]

  /** The lines for the listed issues, one each, in the order given. */
  function TopIssueLines(top: seq<IssueTotal>): (r: seq<string>)
    ensures |r| == |top|
  {
    seq(|top|, i requires 0 <= i < |top| => TopIssueLine(top[i]))
  }

  /** One more listed issue adds its line at the end. */
  lemma TopIssueLinesSnoc(top: seq<IssueTotal>, t: IssueTotal)
    ensures TopIssueLines(top + [t]) == TopIssueLines(top) + [TopIssueLine(t)]
  {
  }

  /** Appending the line of the next listed issue extends the lines of those before it. */
  lemma TopIssueLinesStep(start: seq<string>, top: seq<IssueTotal>, i: int)
    requires 0 <= i < |top|
    ensures start + TopIssueLines(top[..i]) + [TopIssueLine(top[i])] == start + TopIssueLines(top[..i + 1])
  {
    TopIssueLinesSnoc(top[..i], top[i]);
    assert top[..i + 1] == top[..i] + [top[i]];
  }

  /** Appending piece by piece appends the whole. */
  lemma Regroup<T>(a: seq<T>, b: seq<T>, c: seq<T>, d: seq<T>)
    ensures a + b + c + d == a + (b + c + d)
  {
  }

  /** The same, for five pieces. */
  lemma Regroup5<T>(a: seq<T>, b: seq<T>, c: seq<T>, d: seq<T>, e: seq<T>)
    ensures a + b + c + d + e == a + (b + (c + d + e))
  {
  }

  /**
   * `__append_redmine_summary`: nothing when no entry names an issue; otherwise
   * a header, one line per listed issue and an empty line.
   */
  function IssueSummaryLines(es: seq<TogglEntry>): (r: seq<string>)
    ensures r == [] || (5 <= |r| <= 7 && r[..3] == SummaryHeader && r[|r| - 1] == "")
  {
    var top := TopIssues(es);
    if top == [] then [] else SummaryHeader + TopIssueLines(top) + [""]
  }

  /** The line of a listed issue sits at the issue's place. */
  lemma TopIssueLineAt(top: seq<IssueTotal>, i: int)
    requires 0 <= i < |top|
    ensures TopIssueLines(top)[i] == TopIssueLine(top[i])
  {
  }

  /**
   * A non-empty summary is the header, the lines of the listed issues in order
   * (see `TopIssueLineAt`), and an empty line.
   */
  lemma IssueSummaryContent(es: seq<TogglEntry>)
    ensures var r := IssueSummaryLines(es);
            r != [] ==> && |r| == |TopIssues(es)| + 4 && r[..3] == SummaryHeader && r[|r| - 1] == ""
                        && r[3..|r| - 1] == TopIssueLines(TopIssues(es))
  {
    var top := TopIssues(es);
    if top != [] {
      Framed(SummaryHeader, TopIssueLines(top), "");
    }
  }

  /** A middle part between a head and a last element: where each piece sits. */
  lemma Framed<T>(head: seq<T>, middle: seq<T>, last: T)
    ensures var r := head + middle + [last];
            && |r| == |head| + |middle| + 1 && r[..|head|] == head && r[|r| - 1] == last
            && r[|head|..|r| - 1] == middle
  {
    var r := head + middle + [last];
    assert r[|head|..|r| - 1] == middle;
  }

  /** The issue summary is left out exactly when no entry names an issue. */
  lemma IssueSummaryEmpty(es: seq<TogglEntry>)
    ensures IssueSummaryLines(es) == [] <==> forall e :: e in es ==> IssueOf(e).None?
  {
    if IssueSummaryLines(es) == [] {
      forall e | e in es && IssueOf(e).Some? ensures false {
        IssueTotalsCover(es, IssueOf(e).value);
      }
    } else {
      var t := IssueTotals(es)[0];
      IssueTotalsCover(es, t.issue);
    }
  }

  /**
   * `appendEntries`: the found line (all entries, and the finished ones that
   * name an issue), the summary of the finished entries, an empty line, and
   * the issue summary of the finished entries.
   */
  function EntriesLines(es: seq<TogglEntry>, prose: Prose): (r: seq<string>)
    ensures |r| >= 3 && r[0] == FoundLine(|es|, |FilterWithIssueId(Completed(es))|)
  {
    var done := Completed(es);
    [FoundLine(|es|, |FilterWithIssueId(done)|)] + ReportLines(done, prose)
  }

  /** What follows the found line: the summary, an empty line, the issue summary. */
  function ReportLines(done: seq<TogglEntry>, prose: Prose): (r: seq<string>)
    ensures |r| >= 2
    ensures var w := WorkLines(done, prose);
            && |r| == |w| + 1 + |IssueSummaryLines(done)|
            && r[..|w|] == w && r[|w|] == "" && r[|w| + 1..] == IssueSummaryLines(done)
  {
    WorkLines(done, prose) + [""] + IssueSummaryLines(done)
  }

  /** A running entry changes nothing but the found count. */
  lemma EntriesIgnoreRunning(xs: seq<TogglEntry>, e: TogglEntry, ys: seq<TogglEntry>, prose: Prose)
    requires !IsCompleted(e)
    ensures EntriesLines(xs + [e] + ys, prose)[1..] == EntriesLines(xs + ys, prose)[1..]
    ensures EntriesLines(xs + [e] + ys, prose)[0] == FoundLine(|xs + ys| + 1, |FilterWithIssueId(Completed(xs + ys))|)
  {
    CompletedSkipsRunning(xs, e, ys);
    var done := Completed(xs + ys);
    var rest := ReportLines(done, prose);
    assert ([FoundLine(|xs + [e] + ys|, |FilterWithIssueId(done)|)] + rest)[1..] == rest;
    assert ([FoundLine(|xs + ys|, |FilterWithIssueId(done)|)] + rest)[1..] == rest;
  }

  /** The chat endpoint: records every text it is handed. */
  class Runner {
    var sent: seq<string>

    constructor ()
      ensures sent == []
    {
      sent := [];
    }

    method Send(text: string)
      modifies this
      ensures sent == old(sent) + [text]
    {
      sent := sent + [text];
    }
  }

  /** `MattermostNotifier`: a buffer of lines and the runner they go to. */
  class Notifier {
    const runner: Runner
    const prose: Prose
    var lines: seq<string>

    constructor (runner: Runner, prose: Prose)
      ensures this.runner == runner && this.prose == prose && lines == []
    {
      this.runner := runner;
      this.prose := prose;
      lines := [];
    }

    /** The text `send` hands over: the lines joined by newlines. */
    function Joined(): string
      reads this
    {
      Join(lines)
    }

    /** `append(text)`: one more line. */
    method Append(text: string)
      modifies this`lines
      ensures lines == old(lines) + [text]
    {
      lines := lines + [text];
    }

    /** Appends the lines one by one. */
    method AppendAll(ls: seq<string>)
      modifies this`lines
      ensures lines == old(lines) + ls
    {
      for i := 0 to |ls|
        invariant lines == old(lines) + ls[..i]
      {
        assert ls[..i + 1] == ls[..i] + [ls[i]];
        Append(ls[i]);
      }
      assert ls[..|ls|] == ls;
    }

    /** `appendDuration(days)`. */
    method AppendDuration(days: int)
      modifies this`lines
      ensures lines == old(lines) + [DurationLine(days)]
    {
      Append(DurationLine(days));
    }

    /** `appendEntries(entries)`. */
    method AppendEntries(es: seq<TogglEntry>)
      modifies this`lines
      ensures lines == old(lines) + EntriesLines(es, prose)
    {
      var done := Completed(es);
      var found := FoundLine(|es|, |FilterWithIssueId(done)|);
      ghost var start := lines;
      Append(found);
      ghost var work := WorkLines(done, prose);
      ghost var issues := IssueSummaryLines(done);
      AppendSummary(done);
      Append("");
      AppendIssueSummary(done);
      Regroup5(start, [found], work, [""], issues);
    }

    /** `__append_summary(entries)`. */
    method AppendSummary(es: seq<TogglEntry>)
      modifies this`lines
      ensures lines == old(lines) + WorkLines(es, prose)
    {
      if es == [] {
        Append(NoWorkLine);
      } else {
        var total := SumSeconds(es);
        Append(prose.worked(total, FormatSeconds(total)));
        Append(prose.count(|es|));
        Append(prose.share(es));
      }
    }

    /** `__append_redmine_summary(entries)`: the header, then one line per listed issue. */
    method AppendIssueSummary(es: seq<TogglEntry>)
      modifies this`lines
      ensures lines == old(lines) + IssueSummaryLines(es)
    {
      var top := TopIssues(es);
      if top != [] {
        ghost var start := lines;
        ghost var issueLines := TopIssueLines(top);
        AppendAll(SummaryHeader);
        AppendTopLines(top);
        Append("");
        Regroup(start, SummaryHeader, issueLines, [""]);
      }
    }

    /** The line of each listed issue, in order. */
    method AppendTopLines(top: seq<IssueTotal>)
      modifies this`lines
      ensures lines == old(lines) + TopIssueLines(top)
    {
      for i := 0 to |top|
        invariant lines == old(lines) + TopIssueLines(top[..i])
      {
        TopIssueLinesStep(old(lines), top, i);
        Append(TopIssueLine(top[i]));
      }
      assert top[..|top|] == top;
    }

    /** `send()`: hands the joined lines to the runner; the buffer is kept. */
    method Send()
      modifies runner
      ensures runner.sent == old(runner.sent) + [old(Joined())]
      ensures lines == old(lines)
    {
      runner.Send(Join(lines));
    }
  }

}
