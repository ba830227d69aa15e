/**
 * What a run of the synchronizer does and does not do: running entries and
 * entries without an issue play no part, every `put` and `update` carries the
 * fields of a finished Toggl entry of its issue, and each issue is fetched once.
 */
module SyncProperties {
  import opened Wrappers
  import opened Seqs
  import opened Entries
  import opened Grouping
  import opened Destination
  import opened Synchronizer

  /** A running entry (negative duration) leaves the whole run as it would be without it. */
  lemma PendingEntryIgnored(kind: TrackerKind, strict: bool, st: TrackerState, xs: seq<TogglEntry>, e: TogglEntry, ys: seq<TogglEntry>)
    requires !IsCompleted(e)
    ensures SyncRun(kind, strict, st, xs + [e] + ys) == SyncRun(kind, strict, st, xs + ys)
  {
    CompletedSkipsRunning(xs, e, ys);
  }

  /** An entry whose description names no issue leaves the whole run as it would be without it. */
  lemma UnkeyedEntryIgnored(kind: TrackerKind, strict: bool, st: TrackerState, xs: seq<TogglEntry>, e: TogglEntry, ys: seq<TogglEntry>)
    requires IssueOf(e).None?
    ensures SyncRun(kind, strict, st, xs + [e] + ys) == SyncRun(kind, strict, st, xs + ys)
  {
    if !IsCompleted(e) {
      PendingEntryIgnored(kind, strict, st, xs, e, ys);
    } else {
      CompletedAround(xs, e, ys);
      GroupBySkipsUnkeyed(Completed(xs), e, Completed(ys), IssueOf);
      assert IssueGroups(xs + [e] + ys) == IssueGroups(xs + ys);
    }
  }

  lemma CompletedAround(xs: seq<TogglEntry>, e: TogglEntry, ys: seq<TogglEntry>)
    requires IsCompleted(e)
    ensures Completed(xs + [e] + ys) == Completed(xs) + [e] + Completed(ys)
    ensures Completed(xs + ys) == Completed(xs) + Completed(ys)
  {
    FilterAppend(xs + [e], ys, IsCompleted);
    FilterAppend(xs, [e], IsCompleted);
    FilterAppend(xs, ys, IsCompleted);
    assert Filter([e], IsCompleted) == [e] by {
      assert [e][1..] == [];
    }
  }

  /** A `put` or `update` of issue `issueId` whose fields are those of one of the entries `es`. */
  ghost predicate Written(kind: TrackerKind, c: Call, issueId: string, es: seq<TogglEntry>) {
    && (c.Put? || c.Update?)
    && exists e :: e in es && e.start.Some? && c.payload == PayloadOf(kind, issueId, e)
  }

  /** The issues of the `get` calls, in order. */
  function IssuesFetched(calls: seq<Call>): (r: seq<string>)
    ensures |r| <= |calls|
    ensures forall k :: k in r <==> Call.Get(k) in calls
    decreases |calls|
  {
    if calls == [] then []
    else (if calls[0].Get? then [calls[0].issueId] else []) + IssuesFetched(calls[1..])
  }

  lemma {:induction false} IssuesFetchedAppend(a: seq<Call>, b: seq<Call>)
    ensures IssuesFetched(a + b) == IssuesFetched(a) + IssuesFetched(b)
    decreases |a|
  {
    if a == [] {
      assert a + b == b;
    } else {
      assert (a + b)[0] == a[0];
      assert (a + b)[1..] == a[1..] + b;
      IssuesFetchedAppend(a[1..], b);
    }
  }

  lemma {:induction false} IssuesFetchedNone(calls: seq<Call>)
    requires forall c :: c in calls ==> !c.Get?
    ensures IssuesFetched(calls) == []
    decreases |calls|
  {
    if calls != [] {
      assert calls[0] in calls;
      IssuesFetchedNone(calls[1..]);
    }
  }

  /** The entries of one issue only write: they add `put` and `update` calls built from those entries. */
  lemma {:induction false} SyncEntriesCalls(kind: TrackerKind, st: TrackerState, issueId: string, fetched: seq<DestEntry>, es: seq<TogglEntry>)
    ensures var r := SyncEntries(kind, st, issueId, fetched, es);
            && st.log <= r.state.log
            && forall i :: |st.log| <= i < |r.state.log| ==> Written(kind, r.state.log[i], issueId, es)
    decreases |es|
  {
    if es != [] {
      var e := es[0];
      var s := SyncEntry(kind, st, issueId, fetched, e);
      if |s.state.log| > |st.log| {
        assert Written(kind, s.state.log[|st.log|], issueId, es) by {
          assert e in es;
        }
      }
      SyncEntriesUnfold(kind, st, issueId, fetched, es);
      if s.ok {
        SyncEntriesCalls(kind, s.state, issueId, fetched, es[1..]);
        var r := SyncEntries(kind, s.state, issueId, fetched, es[1..]);
        WrittenWider(kind, issueId, es, r.state.log, |s.state.log|);
        assert SyncEntries(kind, st, issueId, fetched, es) == r;
        forall i | |st.log| <= i < |s.state.log|
          ensures Written(kind, r.state.log[i], issueId, es)
        {
          assert r.state.log[i] == s.state.log[i];
        }
      }
    }
  }

  /** Writes built from the entries after the first are built from the entries. */
  lemma WrittenWider(kind: TrackerKind, issueId: string, es: seq<TogglEntry>, log: seq<Call>, from: nat)
    requires es != []
    requires forall i :: from <= i < |log| ==> Written(kind, log[i], issueId, es[1..])
    ensures forall i :: from <= i < |log| ==> Written(kind, log[i], issueId, es)
  {
    forall i | from <= i < |log|
      ensures Written(kind, log[i], issueId, es)
    {
      assert Written(kind, log[i], issueId, es[1..]);
      var x :| x in es[1..] && x.start.Some? && log[i].payload == PayloadOf(kind, issueId, x);
      assert x in es;
    }
  }

  /** A log that gained one `get` of `issueId` and then only writes has fetched `issueId` once. */
  lemma GetThenWrites(kind: TrackerKind, before: seq<Call>, log: seq<Call>, issueId: string, es: seq<TogglEntry>)
    requires before + [Call.Get(issueId)] <= log
    requires forall i :: |before| + 1 <= i < |log| ==> Written(kind, log[i], issueId, es)
    ensures before <= log && log[|before|] == Call.Get(issueId)
    ensures IssuesFetched(log[|before|..]) == [issueId]
  {
    var writes := log[|before| + 1..];
    assert log[|before|..] == [Call.Get(issueId)] + writes;
    forall c | c in writes
      ensures !c.Get?
    {
      var m :| 0 <= m < |writes| && writes[m] == c;
      assert Written(kind, log[|before| + 1 + m], issueId, es);
    }
    IssuesFetchedNone(writes);
    IssuesFetchedAppend([Call.Get(issueId)], writes);
  }

  /** One issue adds one `get` of the issue, then its writes. */
  lemma SyncIssueCalls(kind: TrackerKind, st: TrackerState, issueId: string, es: seq<TogglEntry>)
    ensures var s := SyncIssue(kind, st, issueId, es);
            && st.log <= s.state.log
            && IssuesFetched(s.state.log[|st.log|..]) == [issueId]
            && s.state.log[|st.log|] == Call.Get(issueId)
            && forall i :: |st.log| < i < |s.state.log| ==> Written(kind, s.state.log[i], issueId, es)
  {
    var st1 := AfterGet(st, issueId);
    SyncEntriesCalls(kind, st1, issueId, OfIssue(st.store, issueId), es);
    var s := SyncIssue(kind, st, issueId, es);
    GetThenWrites(kind, st.log, s.state.log, issueId, es);
  }

  lemma SyncIssueFetches(kind: TrackerKind, st: TrackerState, issueId: string, es: seq<TogglEntry>)
    ensures var s := SyncIssue(kind, st, issueId, es);
            st.log <= s.state.log && IssuesFetched(s.state.log[|st.log|..]) == [issueId]
  {
    SyncIssueCalls(kind, st, issueId, es);
  }

  lemma FetchedAfter(a: seq<Call>, b: seq<Call>, c: seq<Call>, issueId: string)
    requires a <= b <= c
    requires IssuesFetched(b[|a|..]) == [issueId]
    ensures IssuesFetched(c[|a|..]) == [issueId] + IssuesFetched(c[|b|..])
  {
    assert c[|a|..] == b[|a|..] + c[|b|..];
    IssuesFetchedAppend(b[|a|..], c[|b|..]);
  }

  /** A call added by a run over the issues `keys`. */
  ghost predicate FromIssues(kind: TrackerKind, c: Call, g: Groups<string, TogglEntry>, keys: seq<string>)
    requires forall k :: k in keys ==> k in g.groups
  {
    if c.Get? then c.issueId in keys else exists k :: k in keys && Written(kind, c, k, g.groups[k])
  }

  /** The issues in order: every added call is a `get` of one of them or a write built from one of its entries. */
  lemma {:induction false} SyncIssuesCallOrigins(kind: TrackerKind, strict: bool, st: TrackerState, g: Groups<string, TogglEntry>, keys: seq<string>)
    requires forall k :: k in keys ==> k in g.groups
    ensures var r := SyncIssues(kind, strict, st, g, keys);
            && st.log <= r.state.log
            && (forall i :: |st.log| <= i < |r.state.log| ==> FromIssues(kind, r.state.log[i], g, keys))
    decreases |keys|
  {
    if keys != [] {
      var k := keys[0];
      var s := SyncIssue(kind, st, k, g.groups[k]);
      FirstIssueOrigins(kind, st, g, keys);
      SyncIssuesUnfold(kind, strict, st, g, keys);
      if !(!s.ok && strict) {
        SyncIssuesCallOrigins(kind, strict, s.state, g, keys[1..]);
        var r := SyncIssues(kind, strict, s.state, g, keys[1..]);
        LaterIssuesOrigins(kind, g, keys, r.state.log, |s.state.log|);
      }
    }
  }

  /** The calls of the first issue come from that issue. */
  lemma FirstIssueOrigins(kind: TrackerKind, st: TrackerState, g: Groups<string, TogglEntry>, keys: seq<string>)
    requires forall k :: k in keys ==> k in g.groups
    requires keys != []
    ensures var s := SyncIssue(kind, st, keys[0], g.groups[keys[0]]);
            && st.log <= s.state.log
            && forall i :: |st.log| <= i < |s.state.log| ==> FromIssues(kind, s.state.log[i], g, keys)
  {
    SyncIssueCalls(kind, st, keys[0], g.groups[keys[0]]);
  }

  /** Calls that come from the issues after the first come from the issues. */
  lemma LaterIssuesOrigins(kind: TrackerKind, g: Groups<string, TogglEntry>, keys: seq<string>, log: seq<Call>, from: nat)
    requires forall k :: k in keys ==> k in g.groups
    requires keys != []
    requires forall i :: from <= i < |log| ==> FromIssues(kind, log[i], g, keys[1..])
    ensures forall i :: from <= i < |log| ==> FromIssues(kind, log[i], g, keys)
  {
    forall i | from <= i < |log|
      ensures FromIssues(kind, log[i], g, keys)
    {
      assert FromIssues(kind, log[i], g, keys[1..]);
      if !log[i].Get? {
        var k' :| k' in keys[1..] && Written(kind, log[i], k', g.groups[k']);
        assert k' in keys;
      }
    }
  }

  /** The issues are fetched once each and in order; all of them unless a strict run stopped at a failure. */
  lemma {:induction false} SyncIssuesFetchOrder(kind: TrackerKind, strict: bool, st: TrackerState, g: Groups<string, TogglEntry>, keys: seq<string>)
    requires forall k :: k in keys ==> k in g.groups
    ensures var r := SyncIssues(kind, strict, st, g, keys);
            && st.log <= r.state.log
            && IssuesFetched(r.state.log[|st.log|..]) <= keys
            && (!strict || r.failed == [] ==> IssuesFetched(r.state.log[|st.log|..]) == keys)
    decreases |keys|
  {
    if keys != [] {
      var k := keys[0];
      var s := SyncIssue(kind, st, k, g.groups[k]);
      var whole := SyncIssues(kind, strict, st, g, keys);
      SyncIssueFetches(kind, st, k, g.groups[k]);
      SyncIssuesUnfold(kind, strict, st, g, keys);
      if !(!s.ok && strict) {
        SyncIssuesFetchOrder(kind, strict, s.state, g, keys[1..]);
        var r := SyncIssues(kind, strict, s.state, g, keys[1..]);
        FetchOrderStep(st.log, s.state.log, r.state.log, keys, !strict || whole.failed == []);
      } else {
        assert [k] <= keys;
      }
    }
  }

  /** The fetches of the first issue followed by those of the rest. */
  lemma FetchOrderStep(a: seq<Call>, b: seq<Call>, c: seq<Call>, keys: seq<string>, full: bool)
    requires keys != []
    requires a <= b && IssuesFetched(b[|a|..]) == [keys[0]]
    requires b <= c && IssuesFetched(c[|b|..]) <= keys[1..]
    requires full ==> IssuesFetched(c[|b|..]) == keys[1..]
    ensures a <= c && IssuesFetched(c[|a|..]) <= keys
    ensures full ==> IssuesFetched(c[|a|..]) == keys
  {
    FetchedAfter(a, b, c, keys[0]);
    assert keys == [keys[0]] + keys[1..];
  }

  /**
   * A call that comes from a finished entry of `fetched`: a `get` of its issue,
   * or a `put` or `update` carrying its fields.
   */
  ghost predicate FromFinished(kind: TrackerKind, fetched: seq<TogglEntry>, c: Call) {
    if c.Get? then exists e :: e in fetched && IsCompleted(e) && IssueOf(e) == Some(c.issueId)
    else exists e :: && e in fetched && IsCompleted(e) && IssueOf(e) == Some(c.payload.issueId)
                     && e.start.Some? && c.payload == PayloadOf(kind, c.payload.issueId, e)
  }

  /**
   * A whole run: every `get` is of the issue of a finished entry; every `put`
   * and `update` carries the fields of a finished entry of that issue (so a
   * running entry is never written); and the issues are fetched once each, in
   * the order in which a finished entry first names them, unless a strict run
   * stopped at a failure.
   */
  lemma SyncRunCalls(kind: TrackerKind, strict: bool, st: TrackerState, fetched: seq<TogglEntry>)
    ensures var r := SyncRun(kind, strict, st, fetched);
            && st.log <= r.state.log
            && (forall i :: |st.log| <= i < |r.state.log| ==> FromFinished(kind, fetched, r.state.log[i]))
            && (!strict || r.failed == [] ==> IssuesFetched(r.state.log[|st.log|..]) == FirstKeys(Completed(fetched), IssueOf))
  {
    var g := IssueGroups(fetched);
    IssueGroupsPartition(fetched);
    SyncIssuesCallOrigins(kind, strict, st, g, g.keys);
    SyncIssuesFetchOrder(kind, strict, st, g, g.keys);
    var r := SyncRun(kind, strict, st, fetched);
    CallsFromFinished(kind, fetched, r.state.log, |st.log|);
  }

  /** The calls of a run over the issue groups of `fetched` come from its finished entries. */
  lemma CallsFromFinished(kind: TrackerKind, fetched: seq<TogglEntry>, log: seq<Call>, from: nat)
    requires forall i :: from <= i < |log| ==> FromIssues(kind, log[i], IssueGroups(fetched), IssueGroups(fetched).keys)
    ensures forall i :: from <= i < |log| ==> FromFinished(kind, fetched, log[i])
  {
    var g := IssueGroups(fetched);
    IssueGroupsPartition(fetched);
    forall i | from <= i < |log|
      ensures FromFinished(kind, fetched, log[i])
    {
      var c := log[i];
      assert FromIssues(kind, c, g, g.keys);
      if !c.Get? {
        var k :| k in g.keys && Written(kind, c, k, g.groups[k]);
        var e :| e in g.groups[k] && e.start.Some? && c.payload == PayloadOf(kind, k, e);
        assert e in Completed(fetched) && IssueOf(e) == Some(k);
      }
    }
  }

}
