/**
 * The synchronizer's test cases for Redmine and Jira, as statements about the
 * model: which calls a run makes on the tracker for the given Toggl entries.
 */
module SyncScenarios {
  import opened Wrappers
  import opened Time
  import opened Text
  import opened IssueTag
  import opened Entries
  import opened Grouping
  import opened Equality
  import opened Destination
  import opened Synchronizer
  import opened SyncProperties

  const Jan1: Date := Date(2016, 1, 1)
  const Jan1At: Timestamp := Timestamp(Jan1, 1, 1, 1)

  /** Toggl entry 17, one hour from 2016-01-01T01:01:01, on issue #987. */
  const HardWork: TogglEntry := TogglEntry(17, 3600, Some(Jan1At), "#987 hard work")

  lemma HardWorkIssue()
    ensures IssueOf(HardWork) == Some("987")
  {
    IssueIdAtStart("987", " hard work");
    assert "#" + "987" + " hard work" == HardWork.description;
  }

  lemma HardWorkComment()
    ensures CommentOf(HardWork) == "#987 hard work [toggl#17]"
  {
    assert NatToString(17) == "17";
  }

  /** No tracker entry for the issue yet: one `get`, then one `put` of one hour on the day of the start. */
  lemma RedmineCreatesMissingEntry()
    ensures var r := SyncRun(Redmine, true, TrackerState([], 0, []), [HardWork]);
            && r.failed == []
            && r.state.log == [Call.Get("987"),
                               Call.Put(Payload("987", SpentOn(Jan1), Hours(1.0), "#987 hard work [toggl#17]"))]
  {
    var st := TrackerState([], 0, []);
    HardWorkIssue();
    HardWorkComment();
    SingleEntryRun(Redmine, true, st, HardWork, "987");
    assert OfIssue(st.store, "987") == [];
    assert PayloadOf(Redmine, "987", HardWork) == Payload("987", SpentOn(Jan1), Hours(1.0), "#987 hard work [toggl#17]");
    assert SyncEntry(Redmine, AfterGet(st, "987"), "987", [], HardWork)
        == Step(AfterPut(AfterGet(st, "987"), PayloadOf(Redmine, "987", HardWork)), true);
  }

  /** Toggl entry 777, one hour from 2016-01-01T01:01:01, on issue #333. */
  const TestWork: TogglEntry := TogglEntry(777, 3600, Some(Jan1At), "test #333")

  lemma TestWorkIssue()
    ensures IssueOf(TestWork) == Some("333")
  {
    IssueIdAtStart("333", "");
    assert "#" + "333" + "" == "#333";
    IssueIdAfter("test ", "#333");
    assert "test " + "#333" == TestWork.description;
  }

  lemma TestWorkComment()
    ensures CommentOf(TestWork) == "test #333 [toggl#777]"
  {
    assert NatToString(777) == "777";
  }

  /** The Redmine entry 222 of issue "987" that already records one hour of Toggl entry 17. */
  const Recorded222: DestEntry :=
    RedmineTimeEntry(IntKey(222), Some(Timestamp(Date(2016, 5, 1), 4, 2, 22)), 1.0, Jan1, StrKey("987"), "#987 hard work [toggl#17]")

  lemma Recorded222Tag()
    ensures TogglIdOf(Recorded222) == Some(17)
  {
    HardWorkComment();
    assert '[' !in "#987 hard work";
    CommentTagRoundTrip("#987 hard work", 17);
  }

  /** A run over no Toggl entries leaves the tracker alone. */
  lemma NothingToSync(kind: TrackerKind, strict: bool, st: TrackerState)
    ensures SyncRun(kind, strict, st, []) == Outcome(st, [])
  {
    assert Completed([]) == [];
  }

  /** Entry 222 records Toggl entry 17 as it is. */
  lemma Recorded222Equal()
    ensures Equal(HardWork, Recorded222)
  {
    HardWorkComment();
    SourceMinutesBucket(60, 0);
    HoursMinutes(3600);
    assert 3600 as real / 3600.0 == 1.0;
  }

  /** A run over a single finished entry of issue `k` is the processing of that one issue. */
  lemma SingleEntryRun(kind: TrackerKind, strict: bool, st: TrackerState, e: TogglEntry, k: string)
    requires IsCompleted(e) && IssueOf(e) == Some(k)
    ensures var s := SyncEntry(kind, AfterGet(st, k), k, OfIssue(st.store, k), e);
            SyncRun(kind, strict, st, [e]) == Outcome(s.state, if s.ok then [] else [k])
  {
    var g := IssueGroups([e]);
    assert Completed([e]) == [e];
    assert [e][1..] == [];
    assert GroupBy([e], IssueOf) == GroupInto(Add(Empty(), k, e), [], IssueOf);
    assert g == Groups([k], map[k := [e]]);
    SyncEntriesUnfold(kind, AfterGet(st, k), k, OfIssue(st.store, k), [e]);
    assert [e][1..] == [];
    SyncIssuesUnfold(kind, strict, st, g, g.keys);
    assert g.keys[1..] == [];
  }

  /** The entry is already recorded: one `get`, no `put` and no `update`. */
  lemma RedmineLeavesRecordedEntry()
    ensures var st := TrackerState([Recorded222], 0, []);
            SyncRun(Redmine, true, st, [HardWork]) == Outcome(st.(log := [Call.Get("987")]), [])
  {
    var st := TrackerState([Recorded222], 0, []);
    HardWorkIssue();
    Recorded222Tag();
    Recorded222Equal();
    SingleEntryRun(Redmine, true, st, HardWork, "987");
    assert OfIssue([Recorded222], "987") == [Recorded222];
    assert FirstTagged([Recorded222], 17) == Some(Recorded222);
  }

  /** Entry 222 is the only entry of issue "987" and the first to carry tag 17, and it no longer matches. */
  lemma Recorded222Stale()
    ensures OfIssue([Recorded222], "987") == [Recorded222]
    ensures FirstTagged([Recorded222], 17) == Some(Recorded222)
    ensures !Equal(HardWork.(seconds := 7200), Recorded222)
  {
    Recorded222Tag();
    assert OfIssue([Recorded222], "987") == [Recorded222];
    assert !Equal(HardWork.(seconds := 7200), Recorded222) by {
      HardWorkTwoHours();
      Recorded222Equal();
      SourceMinutesBucket(120, 0);
    }
  }

  /** Two hours against the recorded one: one `update` of entry 222 to two hours. */
  lemma RedmineUpdatesModifiedEntry()
    ensures var st := TrackerState([Recorded222], 0, []);
            var r := SyncRun(Redmine, true, st, [HardWork.(seconds := 7200)]);
            && r.failed == []
            && r.state.log == [Call.Get("987"),
                               Call.Update(IntKey(222), Payload("987", SpentOn(Jan1), Hours(2.0), "#987 hard work [toggl#17]"))]
  {
    var st := TrackerState([Recorded222], 0, []);
    HardWorkTwoHours();
    Recorded222Stale();
    SingleEntryRun(Redmine, true, st, HardWork.(seconds := 7200), "987");
    assert 7200 as real / 3600.0 == 2.0;
  }

  /** Entry 777 alone on an empty Redmine tracker: one `get` of "333", then one `put` of one hour. */
  lemma RedmineCreatesTestWork()
    ensures var r := SyncRun(Redmine, true, TrackerState([], 0, []), [TestWork]);
            && r.failed == []
            && r.state.log == [Call.Get("333"),
                               Call.Put(Payload("333", SpentOn(Jan1), Hours(1.0), "test #333 [toggl#777]"))]
  {
    var st := TrackerState([], 0, []);
    TestWorkIssue();
    TestWorkComment();
    SingleEntryRun(Redmine, true, st, TestWork, "333");
    assert 3600 as real / 3600.0 == 1.0;
    assert OfIssue(st.store, "333") == [];
    assert PayloadOf(Redmine, "333", TestWork) == Payload("333", SpentOn(Jan1), Hours(1.0), "test #333 [toggl#777]");
    assert SyncEntry(Redmine, AfterGet(st, "333"), "333", [], TestWork)
        == Step(AfterPut(AfterGet(st, "333"), PayloadOf(Redmine, "333", TestWork)), true);
  }

  /** The running entry 778 of issue #334 is skipped: issue "333" alone is fetched and written. */
  lemma RedmineIgnoresRunningEntry()
    ensures var r := SyncRun(Redmine, true, TrackerState([], 0, []), [TestWork, TogglEntry(778, -3600, Some(Jan1At), "test #334")]);
            && r.failed == []
            && r.state.log == [Call.Get("333"),
                               Call.Put(Payload("333", SpentOn(Jan1), Hours(1.0), "test #333 [toggl#777]"))]
  {
    var st := TrackerState([], 0, []);
    var running := TogglEntry(778, -3600, Some(Jan1At), "test #334");
    PendingEntryIgnored(Redmine, true, st, [TestWork], running, []);
    assert [TestWork] + [running] + [] == [TestWork, running];
    assert [TestWork] + [] == [TestWork];
    RedmineCreatesTestWork();
  }

  /** Redmine's integer issue 333 reads as the string "333". */
  lemma Issue333Key()
    ensures KeyToString(IntKey(333)) == "333"
  {
    assert NatToString(333) == "333";
  }

  const Mar2: Date := Date(2016, 3, 2)

  /** Toggl entry 777, one hour from 2016-03-02T01:01:01, on issue #333. */
  const Mar2Work: TogglEntry := TogglEntry(777, 3600, Some(Timestamp(Mar2, 1, 1, 1)), "test #333")

  /** The Redmine entry 777 of the integer issue 333 that records `Mar2Work`. */
  const Recorded777: DestEntry :=
    RedmineTimeEntry(IntKey(777), Some(Timestamp(Jan1, 1, 2, 3)), 1.0, Mar2, IntKey(333), "test #333 [toggl#777]")

  lemma Recorded777Equal()
    ensures TogglIdOf(Recorded777) == Some(777)
    ensures Equal(Mar2Work, Recorded777)
  {
    TestWorkComment();
    assert CommentOf(Mar2Work) == CommentOf(TestWork);
    assert '[' !in "test #333";
    CommentTagRoundTrip("test #333", 777);
    SourceMinutesBucket(60, 0);
    HoursMinutes(3600);
    assert 3600 as real / 3600.0 == 1.0;
  }

  /**
   * One day with an entry of issue #333 that Redmine already records (the
   * tracker gives the issue as the integer 333): one `get` of "333", no `update`.
   */
  lemma RedmineSingleDayRecorded()
    ensures var st := TrackerState([Recorded777], 0, []);
            SyncRun(Redmine, true, st, [Mar2Work]) == Outcome(st.(log := [Call.Get("333")]), [])
  {
    var st := TrackerState([Recorded777], 0, []);
    TestWorkIssue();
    assert IssueOf(Mar2Work) == IssueOf(TestWork);
    SingleEntryRun(Redmine, true, st, Mar2Work, "333");
    Recorded777Equal();
    Issue333Key();
    assert OfIssue([Recorded777], "333") == [Recorded777];
    assert FirstTagged([Recorded777], 777) == Some(Recorded777);
  }

  /** No Jira worklog for the issue yet: one `put` of 3600 seconds started at the Toggl start. */
  lemma JiraCreatesMissingEntry()
    ensures var r := SyncRun(Jira, false, TrackerState([], 0, []), [HardWork]);
            && r.failed == []
            && r.state.log == [Call.Get("987"),
                               Call.Put(Payload("987", Started(Jan1At), Seconds(3600), "#987 hard work [toggl#17]"))]
  {
    var st := TrackerState([], 0, []);
    HardWorkIssue();
    HardWorkComment();
    SingleEntryRun(Jira, false, st, HardWork, "987");
    assert OfIssue(st.store, "987") == [];
    assert PayloadOf(Jira, "987", HardWork) == Payload("987", Started(Jan1At), Seconds(3600), "#987 hard work [toggl#17]");
    assert SyncEntry(Jira, AfterGet(st, "987"), "987", [], HardWork)
        == Step(AfterPut(AfterGet(st, "987"), PayloadOf(Jira, "987", HardWork)), true);
  }

  /** The Jira worklog 222 of issue "987" that records one second of Toggl entry 17. */
  const Worklog222: DestEntry :=
    JiraTimeEntry(IntKey(222), Some(Timestamp(Date(2016, 5, 1), 4, 2, 22)), 1, Jan1At, StrKey("987"), "#987 hard work [toggl#17]")

  lemma Worklog222Tag()
    ensures TogglIdOf(Worklog222) == Some(17)
  {
    HardWorkComment();
    assert '[' !in "#987 hard work";
    CommentTagRoundTrip("#987 hard work", 17);
  }

  /** Toggl entry 17 at two hours names the same issue and has the same comment. */
  lemma HardWorkTwoHours()
    ensures var e := HardWork.(seconds := 7200);
            IsCompleted(e) && IssueOf(e) == Some("987") && CommentOf(e) == "#987 hard work [toggl#17]"
  {
    HardWorkIssue();
    HardWorkComment();
    var e := HardWork.(seconds := 7200);
    assert IssueOf(e) == IssueOf(HardWork) && CommentOf(e) == CommentOf(HardWork);
  }

  /** Worklog 222 is the only entry of issue "987" and the first to carry tag 17, and it no longer matches. */
  lemma Worklog222Stale()
    ensures OfIssue([Worklog222], "987") == [Worklog222]
    ensures FirstTagged([Worklog222], 17) == Some(Worklog222)
    ensures !Equal(HardWork.(seconds := 7200), Worklog222)
  {
    Worklog222Tag();
    assert OfIssue([Worklog222], "987") == [Worklog222];
    assert !Equal(HardWork.(seconds := 7200), Worklog222) by {
      SourceMinutesBucket(0, 1);
      SourceMinutesBucket(120, 0);
    }
  }

  /** Two hours against the recorded worklog: one `update` of worklog 222 to 7200 seconds. */
  lemma JiraUpdatesModifiedEntry()
    ensures var st := TrackerState([Worklog222], 0, []);
            var r := SyncRun(Jira, false, st, [HardWork.(seconds := 7200)]);
            && r.failed == []
            && r.state.log == [Call.Get("987"),
                               Call.Update(IntKey(222), Payload("987", Started(Jan1At), Seconds(7200), "#987 hard work [toggl#17]"))]
  {
    var st := TrackerState([Worklog222], 0, []);
    HardWorkTwoHours();
    Worklog222Stale();
    SingleEntryRun(Jira, false, st, HardWork.(seconds := 7200), "987");
  }

  /** The running entry 778 is skipped: issue "333" alone is fetched and written. */
  lemma JiraIgnoresRunningEntry()
    ensures var r := SyncRun(Jira, false, TrackerState([], 0, []), [TestWork, TogglEntry(778, -3600, Some(Jan1At), "test #334")]);
            && r.failed == []
            && r.state.log == [Call.Get("333"),
                               Call.Put(Payload("333", Started(Jan1At), Seconds(3600), "test #333 [toggl#777]"))]
  {
    var st := TrackerState([], 0, []);
    var running := TogglEntry(778, -3600, Some(Jan1At), "test #334");
    PendingEntryIgnored(Jira, false, st, [TestWork], running, []);
    assert [TestWork] + [running] + [] == [TestWork, running];
    assert [TestWork] + [] == [TestWork];
    TestWorkIssue();
    TestWorkComment();
    SingleEntryRun(Jira, false, st, TestWork, "333");
  }

  const Jan13At: Timestamp := Timestamp(Date(2020, 1, 13), 8, 11, 4)

  /** Toggl entry 777 of one hour on issue #333, as compared with `PairedWorklog`. */
  const PairedEntry: TogglEntry := TogglEntry(777, 3600, Some(Jan13At), "test #333")

  /** The Jira worklog that records `PairedEntry`. */
  const PairedWorklog: DestEntry :=
    JiraTimeEntry(StrKey("987654321"), Some(Jan13At), 3600, Jan13At, StrKey("333"), "test #333 [toggl#777]")

  lemma PairedComment()
    ensures CommentOf(PairedEntry) == "test #333 [toggl#777]"
  {
    TestWorkComment();
    assert CommentOf(PairedEntry) == CommentOf(TestWork);
  }

  /** `_equal` holds for the pair as it is. */
  lemma PairEqual()
    ensures Equal(PairedEntry, PairedWorklog)
  {
    PairedComment();
    SourceMinutesBucket(60, 0);
  }

  /** 30 more seconds make 60.5 minutes, which rounds to the even 60: still equal. */
  lemma PairEqualWithinRounding()
    ensures Equal(PairedEntry.(seconds := 3630), PairedWorklog)
  {
    PairedComment();
    assert CommentOf(PairedEntry.(seconds := 3630)) == CommentOf(PairedEntry);
    SourceMinutesBucket(60, 0);
    SourceMinutesBucket(60, 30);
  }

  /** Two minutes against an hour: not equal. */
  lemma PairDiffersInDuration()
    ensures !Equal(PairedEntry.(seconds := 120), PairedWorklog)
  {
    SourceMinutesBucket(60, 0);
    SourceMinutesBucket(2, 0);
  }

  /** Another start: not equal. */
  lemma PairDiffersInStart()
    ensures !Equal(PairedEntry.(start := Some(Timestamp(Date(2016, 12, 25), 1, 1, 1))), PairedWorklog)
  {
  }

  /** A start later in the same minute still matches; one a minute later does not. */
  lemma PairStartToTheMinute()
    ensures Equal(PairedEntry.(start := Some(Jan13At.(second := 59))), PairedWorklog)
    ensures !Equal(PairedEntry.(start := Some(Jan13At.(minute := 12))), PairedWorklog)
  {
    PairEqual();
    assert CommentOf(PairedEntry.(start := Some(Jan13At.(second := 59)))) == CommentOf(PairedEntry);
  }

  /** Another description, hence another comment: not equal. */
  lemma PairDiffersInComment()
    ensures !Equal(PairedEntry.(description := "changed #333"), PairedWorklog)
  {
    var e := PairedEntry.(description := "changed #333");
    assert CommentOf(e)[0] == 'c';
    assert PairedWorklog.comments[0] == 't';
  }

}
