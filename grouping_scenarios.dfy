/**
 * The grouping test cases: Toggl entries grouped by the issue in their
 * description, tracker entries by their issue, each group in input order.
 */
module GroupingScenarios {
  import opened Wrappers
  import opened Time
  import opened Text
  import opened IssueTag
  import opened Entries
  import opened Grouping

  /** A finished, start-less Toggl entry `id` with description `#<issue>`. */
  function Tagged(id: nat, issue: string): TogglEntry {
    TogglEntry(id, 3600, None, "#" + issue)
  }

  lemma TaggedIssue(id: nat, issue: string)
    requires |issue| >= 1 && AllDigits(issue)
    ensures IssueOf(Tagged(id, issue)) == Some(issue)
  {
    IssueIdAtStart(issue, "");
    assert "#" + issue + "" == "#" + issue;
  }

  /** Five entries on issues 15, 16, 16, 16, 17 make three groups, "16" holding the middle three in order. */
  lemma GroupFiveEntries(e1: TogglEntry, e2: TogglEntry, e3: TogglEntry, e4: TogglEntry, e5: TogglEntry)
    requires IssueOf(e1) == Some("15") && IssueOf(e5) == Some("17")
    requires IssueOf(e2) == Some("16") && IssueOf(e3) == Some("16") && IssueOf(e4) == Some("16")
    ensures var g := GroupTogglByIssueId([e1, e2, e3, e4, e5]);
            && g.keys == ["15", "16", "17"]
            && g.groups == map["15" := [e1], "16" := [e2, e3, e4], "17" := [e5]]
  {
    GroupThreeRuns([e1], [e2, e3, e4], [e5], IssueOf, "15", "16", "17");
    assert [e1] + [e2, e3, e4] + [e5] == [e1, e2, e3, e4, e5];
  }

  /** Entries 1..5 on issues #15, #16, #16, #16, #17: group "16" holds entries 2, 3 and 4 in that order. */
  lemma GroupTogglEntries()
    ensures var g := GroupTogglByIssueId([Tagged(1, "15"), Tagged(2, "16"), Tagged(3, "16"), Tagged(4, "16"), Tagged(5, "17")]);
            && g.keys == ["15", "16", "17"]
            && g.groups == map["15" := [Tagged(1, "15")],
                               "16" := [Tagged(2, "16"), Tagged(3, "16"), Tagged(4, "16")],
                               "17" := [Tagged(5, "17")]]
  {
    TaggedIssue(1, "15");
    TaggedIssue(2, "16");
    TaggedIssue(3, "16");
    TaggedIssue(4, "16");
    TaggedIssue(5, "17");
    GroupFiveEntries(Tagged(1, "15"), Tagged(2, "16"), Tagged(3, "16"), Tagged(4, "16"), Tagged(5, "17"));
  }

  /** A tracker entry `id` of the integer issue `issue` whose comment is only the tag of Toggl entry `tag`. */
  function Logged(id: int, issue: int, tag: nat, w: When, a: Amount): DestEntry {
    DestEntry(IntKey(id), None, IntKey(issue), w, a, TogglTag(tag))
  }

  lemma LoggedTag(id: int, issue: int, tag: nat, w: When, a: Amount)
    ensures TogglIdOf(Logged(id, issue, tag, w, a)) == Some(tag)
  {
    TagHereTogglTag(tag);
  }

  /** Four tracker entries on issues 1, 2, 2, 2 grouped by issue: the string keys "1" and "2", in input order. */
  lemma GroupFourByIssueKey(d1: DestEntry, d2: DestEntry, d3: DestEntry, d4: DestEntry)
    requires IssueKeyOf(d1) == Some("1")
    requires IssueKeyOf(d2) == Some("2") && IssueKeyOf(d3) == Some("2") && IssueKeyOf(d4) == Some("2")
    ensures var g := GroupDestinationByIssueId([d1, d2, d3, d4]);
            && g.keys == ["1", "2"]
            && g.groups == map["1" := [d1], "2" := [d2, d3, d4]]
  {
    GroupTwoRuns([d1], [d2, d3, d4], IssueKeyOf, "1", "2");
    assert [d1] + [d2, d3, d4] == [d1, d2, d3, d4];
  }

  /** The same four entries grouped by the issue as the tracker gives it: the integer keys 1 and 2. */
  lemma GroupFourByRawIssue(d1: DestEntry, d2: DestEntry, d3: DestEntry, d4: DestEntry)
    requires d1.issue == IntKey(1)
    requires d2.issue == IntKey(2) && d3.issue == IntKey(2) && d4.issue == IntKey(2)
    ensures var g := GroupRedmineByIssueId([d1, d2, d3, d4]);
            && g.keys == [IntKey(1), IntKey(2)]
            && g.groups == map[IntKey(1) := [d1], IntKey(2) := [d2, d3, d4]]
  {
    GroupTwoRuns([d1], [d2, d3, d4], RawIssueOf, IntKey(1), IntKey(2));
    assert [d1] + [d2, d3, d4] == [d1, d2, d3, d4];
  }

  /**
   * Redmine entries 66..69 on issues 1, 2, 2, 2 tagged with Toggl entries 21..24,
   * grouped by string issue: group "2" carries the tags 22, 23 and 24 in that order.
   */
  lemma GroupDestinationEntries(w: When, a: Amount)
    ensures var ds := [Logged(66, 1, 21, w, a), Logged(67, 2, 22, w, a), Logged(68, 2, 23, w, a), Logged(69, 2, 24, w, a)];
            var g := GroupDestinationByIssueId(ds);
            && g.keys == ["1", "2"]
            && g.groups == map["1" := [ds[0]], "2" := ds[1..]]
            && TogglIdOf(ds[1]) == Some(22) && TogglIdOf(ds[2]) == Some(23) && TogglIdOf(ds[3]) == Some(24)
  {
    var ds := [Logged(66, 1, 21, w, a), Logged(67, 2, 22, w, a), Logged(68, 2, 23, w, a), Logged(69, 2, 24, w, a)];
    assert KeyToString(IntKey(1)) == "1" && KeyToString(IntKey(2)) == "2";
    GroupFourByIssueKey(ds[0], ds[1], ds[2], ds[3]);
    assert [ds[0], ds[1], ds[2], ds[3]] == ds && ds[1..] == [ds[1], ds[2], ds[3]];
    LoggedTag(67, 2, 22, w, a);
    LoggedTag(68, 2, 23, w, a);
    LoggedTag(69, 2, 24, w, a);
  }

  /** Jira worklogs 66..69 grouped by the raw issue: the integer keys 1 and 2, tags 22, 23, 24 under 2. */
  lemma GroupWorklogEntries(w: When, a: Amount)
    ensures var ds := [Logged(66, 1, 21, w, a), Logged(67, 2, 22, w, a), Logged(68, 2, 23, w, a), Logged(69, 2, 24, w, a)];
            var g := GroupRedmineByIssueId(ds);
            && g.keys == [IntKey(1), IntKey(2)]
            && g.groups == map[IntKey(1) := [ds[0]], IntKey(2) := ds[1..]]
            && TogglIdOf(ds[1]) == Some(22) && TogglIdOf(ds[2]) == Some(23) && TogglIdOf(ds[3]) == Some(24)
  {
    var ds := [Logged(66, 1, 21, w, a), Logged(67, 2, 22, w, a), Logged(68, 2, 23, w, a), Logged(69, 2, 24, w, a)];
    GroupFourByRawIssue(ds[0], ds[1], ds[2], ds[3]);
    assert [ds[0], ds[1], ds[2], ds[3]] == ds && ds[1..] == [ds[1], ds[2], ds[3]];
    LoggedTag(67, 2, 22, w, a);
    LoggedTag(68, 2, 23, w, a);
    LoggedTag(69, 2, 24, w, a);
  }

}
