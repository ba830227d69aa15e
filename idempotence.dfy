/**
 * Running the synchronizer twice over the same Toggl entries: the second run
 * only fetches, it neither creates nor updates anything.
 *
 * The argument: after a run every processed Toggl entry is "in sync", i.e. the
 * tracker entry the engine would compare it with is equal to it; and a run over
 * entries that are all in sync changes nothing.
 */
module Idempotence {
  import opened Wrappers
  import opened Seqs
  import opened IssueTag
  import opened Entries
  import opened Grouping
  import opened Equality
  import opened Destination
  import opened Synchronizer

  /** A `put` never moves an existing match; it can only give an unmatched Toggl id its match. */
  lemma {:induction false} FirstTaggedAppend(ds: seq<DestEntry>, x: DestEntry, togglId: nat)
    ensures FirstTagged(ds + [x], togglId)
         == if FirstTagged(ds, togglId).Some? then FirstTagged(ds, togglId)
            else if TogglIdOf(x) == Some(togglId) then Some(x) else None
    decreases |ds|
  {
    if ds == [] {
      assert ds + [x] == [x];
    } else {
      assert (ds + [x])[0] == ds[0];
      assert (ds + [x])[1..] == ds[1..] + [x];
      FirstTaggedAppend(ds[1..], x, togglId);
    }
  }

  /** An `update` that keeps the tag of the entry it revises leaves every match where it was. */
  lemma {:induction false} FirstTaggedRevise(ds: seq<DestEntry>, id: RawKey, p: Payload, togglId: nat)
    requires forall x :: x in ds && x.id == id ==> TogglIdOf(Revised(x, p)) == TogglIdOf(x)
    ensures FirstTagged(ReviseById(ds, id, p), togglId)
         == match FirstTagged(ds, togglId)
            case None => None
            case Some(y) => Some(if y.id == id then Revised(y, p) else y)
    decreases |ds|
  {
    if ds != [] {
      var x := ds[0];
      var x' := if x.id == id then Revised(x, p) else x;
      assert ReviseById(ds, id, p) == [x'] + ReviseById(ds[1..], id, p);
      assert TogglIdOf(x') == TogglIdOf(x);
      FirstTaggedRevise(ds[1..], id, p, togglId);
    }
  }

  lemma UniqueIdsSame(ds: seq<DestEntry>, x: DestEntry, y: DestEntry)
    requires UniqueIds(ds) && x in ds && y in ds
    ensures x.id == y.id ==> x == y
  {
    var i :| 0 <= i < |ds| && ds[i] == x;
    var j :| 0 <= j < |ds| && ds[j] == y;
  }

  /** A Toggl entry of issue `issueId` is in sync when the entry the engine would compare it with is equal to it. */
  ghost predicate InSync(store: seq<DestEntry>, issueId: string, e: TogglEntry) {
    var m := FirstTagged(OfIssue(store, issueId), e.id);
    m.Some? && Equal(e, m.value)
  }

  /** Entries the engine can write and recognise again: they have a start and carry no tag of their own. */
  ghost predicate Writable(e: TogglEntry) {
    e.start.Some? && ParseTogglTag(e.description).None?
  }

  /** The payload written for `e` on issue `issueId`: what `PayloadOf` guarantees about its result. */
  ghost predicate Carries(p: Payload, issueId: string, e: TogglEntry) {
    && e.start.Some?
    && p.issueId == issueId && p.comment == CommentOf(e)
    && StartMatches(e.start.value, p.when) && DestMinutes(p.amount) == SourceMinutes(e.seconds)
  }

  /** A `put` of the payload for an unmatched entry brings it in sync and disturbs nothing else. */
  lemma PutEstablishes(st: TrackerState, issueId: string, e: TogglEntry, p: Payload, others: seq<TogglEntry>)
    requires FreshIds(st) && Carries(p, issueId, e)
    requires ParseTogglTag(CommentOf(e)) == Some(e.id)
    requires FirstTagged(OfIssue(st.store, issueId), e.id).None?
    requires forall o :: o in others ==> o.id != e.id
    ensures var s := AfterPut(st, p);
            && FreshIds(s) && InSync(s.store, issueId, e)
            && (forall o :: o in others ==>
                  FirstTagged(OfIssue(s.store, issueId), o.id) == FirstTagged(OfIssue(st.store, issueId), o.id))
            && (forall j :: j != issueId ==> OfIssue(s.store, j) == OfIssue(st.store, j))
  {
    var x := Recorded(p, IntKey(st.nextId));
    var v := OfIssue(st.store, issueId);
    PutFreshIds(st, p);
    forall j
      ensures OfIssue(st.store + [x], j) == OfIssue(st.store, j) + (if OnIssue(j, x) then [x] else [])
    {
      OfIssueAppend(st.store, x, j);
    }
    FirstTaggedAppend(v, x, e.id);
    forall o | o in others
      ensures FirstTagged(v + [x], o.id) == FirstTagged(v, o.id)
    {
      FirstTaggedAppend(v, x, o.id);
    }
  }

  /** An `update` of the matched entry that differs brings the Toggl entry in sync and disturbs nothing else. */
  lemma UpdateEstablishes(st: TrackerState, issueId: string, e: TogglEntry, d: DestEntry, p: Payload, others: seq<TogglEntry>)
    requires FreshIds(st) && Carries(p, issueId, e)
    requires ParseTogglTag(CommentOf(e)) == Some(e.id)
    requires FirstTagged(OfIssue(st.store, issueId), e.id) == Some(d)
    requires forall o :: o in others ==> o.id != e.id
    ensures var s := AfterUpdate(st, d.id, p);
            && FreshIds(s) && InSync(s.store, issueId, e)
            && (forall o :: o in others ==>
                  FirstTagged(OfIssue(s.store, issueId), o.id) == FirstTagged(OfIssue(st.store, issueId), o.id))
            && (forall j :: j != issueId ==> OfIssue(s.store, j) == OfIssue(st.store, j))
  {
    var v := OfIssue(st.store, issueId);
    assert d in v && d in st.store;
    forall y | y in st.store && y.id == d.id
      ensures OnIssue(p.issueId, y)
    {
      UniqueIdsSame(st.store, y, d);
    }
    forall j
      ensures OfIssue(ReviseById(st.store, d.id, p), j) == if j == issueId then ReviseById(v, d.id, p) else OfIssue(st.store, j)
    {
      OfIssueRevise(st.store, d.id, p, j);
    }
    forall y | y in v && y.id == d.id
      ensures TogglIdOf(Revised(y, p)) == TogglIdOf(y)
    {
      UniqueIdsSame(st.store, y, d);
    }
    FirstTaggedRevise(v, d.id, p, e.id);
    forall o | o in others
      ensures FirstTagged(ReviseById(v, d.id, p), o.id) == FirstTagged(v, o.id)
    {
      FirstTaggedRevise(v, d.id, p, o.id);
      var m := FirstTagged(v, o.id);
      if m.Some? {
        UniqueIdsSame(st.store, m.value, d);
        assert m.value.id != d.id;
      }
    }
    UpdateFreshIds(st, d.id, p);
  }

  /**
   * One entry: the engine brings it in sync, keeps ids fresh, moves no other
   * Toggl id's match in its issue and touches no other issue.
   */
  lemma SyncEntryEstablishes(kind: TrackerKind, st: TrackerState, issueId: string, fetched: seq<DestEntry>,
                             e: TogglEntry, others: seq<TogglEntry>)
    requires FreshIds(st) && Writable(e)
    requires FirstTagged(OfIssue(st.store, issueId), e.id) == FirstTagged(fetched, e.id)
    requires forall o :: o in others ==> o.id != e.id
    ensures var s := SyncEntry(kind, st, issueId, fetched, e);
            && s.ok && FreshIds(s.state) && InSync(s.state.store, issueId, e)
            && (forall o :: o in others ==>
                  FirstTagged(OfIssue(s.state.store, issueId), o.id) == FirstTagged(OfIssue(st.store, issueId), o.id))
            && (forall j :: j != issueId ==> OfIssue(s.state.store, j) == OfIssue(st.store, j))
  {
    var p := PayloadOf(kind, issueId, e);
    CommentTagRoundTrip(e.description, e.id);
    match FirstTagged(fetched, e.id)
    case None =>
      PutEstablishes(st, issueId, e, p, others);
    case Some(d) =>
      if !Equal(e, d) {
        UpdateEstablishes(st, issueId, e, d, p, others);
      }
  }

  /** In a list of distinct ids, the id of the first element of `es` is nobody else's. */
  lemma InjectiveSplit(done: seq<TogglEntry>, es: seq<TogglEntry>)
    requires es != [] && Injective(done + es, EntryId)
    ensures forall o :: o in done + es[1..] ==> o.id != es[0].id
  {
    var all := done + es;
    forall o | o in done + es[1..]
      ensures o.id != es[0].id
    {
      assert all[|done|] == es[0];
      if o in done {
        var m :| 0 <= m < |done| && done[m] == o;
        assert all[m] == o;
      } else {
        var m :| 0 <= m < |es| - 1 && es[1..][m] == o;
        assert all[|done| + 1 + m] == o;
      }
    }
  }

  /**
   * Before the entries `es` of one issue: the ids are fresh, the Toggl ids of
   * `done` and `es` are distinct, the entries of `es` are writable and the
   * engine's fetched list agrees with the store about their matches, and the
   * entries of `done` are in sync.
   */
  ghost predicate EntriesReady(st: TrackerState, issueId: string, fetched: seq<DestEntry>, done: seq<TogglEntry>, es: seq<TogglEntry>) {
    && FreshIds(st)
    && Injective(done + es, EntryId)
    && (forall e :: e in es ==> Writable(e))
    && (forall e :: e in es ==> FirstTagged(OfIssue(st.store, issueId), e.id) == FirstTagged(fetched, e.id))
    && (forall e :: e in done ==> InSync(st.store, issueId, e))
  }

  /** After them: nothing failed, ids are still fresh, `done` and `es` are all in sync and no other issue moved. */
  ghost predicate EntriesDone(st: TrackerState, r: Step, issueId: string, done: seq<TogglEntry>, es: seq<TogglEntry>) {
    && r.ok && FreshIds(r.state)
    && (forall e :: e in done + es ==> InSync(r.state.store, issueId, e))
    && (forall j :: j != issueId ==> OfIssue(r.state.store, j) == OfIssue(st.store, j))
  }

  /** The first entry of `es`: afterwards the rest of `es` is ready, with `es[0]` done. */
  lemma SyncEntriesStep(kind: TrackerKind, st: TrackerState, issueId: string, fetched: seq<DestEntry>,
                        done: seq<TogglEntry>, es: seq<TogglEntry>)
    requires es != [] && EntriesReady(st, issueId, fetched, done, es)
    ensures var s := SyncEntry(kind, st, issueId, fetched, es[0]);
            && s.ok && EntriesReady(s.state, issueId, fetched, done + [es[0]], es[1..])
            && (forall j :: j != issueId ==> OfIssue(s.state.store, j) == OfIssue(st.store, j))
  {
    var e := es[0];
    var others := done + es[1..];
    InjectiveSplit(done, es);
    SyncEntryEstablishes(kind, st, issueId, fetched, e, others);
    var s := SyncEntry(kind, st, issueId, fetched, e);
    assert done + [e] + es[1..] == done + es;
    forall o | o in es[1..]
      ensures FirstTagged(OfIssue(s.state.store, issueId), o.id) == FirstTagged(fetched, o.id)
    {
      assert o in others && o in es;
    }
    forall o | o in done + [e]
      ensures InSync(s.state.store, issueId, o)
    {
      if o != e {
        assert o in others && o in done;
      }
    }
  }

  /** What holds after the rest of `es` from the state after `es[0]` holds after all of `es`. */
  lemma SyncEntriesTransfer(st: TrackerState, next: TrackerState, r: Step, issueId: string, done: seq<TogglEntry>, es: seq<TogglEntry>)
    requires es != []
    requires forall j :: j != issueId ==> OfIssue(next.store, j) == OfIssue(st.store, j)
    requires EntriesDone(next, r, issueId, done + [es[0]], es[1..])
    ensures EntriesDone(st, r, issueId, done, es)
  {
    assert done + [es[0]] + es[1..] == done + es;
  }

  /**
   * The entries of one issue: after the engine has gone through them (with the
   * entries `done` already in sync), all of them are in sync and no other
   * issue is touched.
   */
  lemma {:induction false} SyncEntriesEstablish(kind: TrackerKind, st: TrackerState, issueId: string, fetched: seq<DestEntry>,
                                                done: seq<TogglEntry>, es: seq<TogglEntry>)
    requires EntriesReady(st, issueId, fetched, done, es)
    ensures EntriesDone(st, SyncEntries(kind, st, issueId, fetched, es), issueId, done, es)
    decreases |es|
  {
    if es == [] {
      assert done + es == done;
    } else {
      var s := SyncEntry(kind, st, issueId, fetched, es[0]);
      var r := SyncEntries(kind, s.state, issueId, fetched, es[1..]);
      SyncEntriesStep(kind, st, issueId, fetched, done, es);
      SyncEntriesEstablish(kind, s.state, issueId, fetched, done + [es[0]], es[1..]);
      SyncEntriesTransfer(st, s.state, r, issueId, done, es);
      SyncEntriesUnfold(kind, st, issueId, fetched, es);
    }
  }

  /** Toggl entries of one issue the engine can bring in sync: distinct ids, each writable. */
  ghost predicate Ready(es: seq<TogglEntry>) {
    Injective(es, EntryId) && forall e :: e in es ==> Writable(e)
  }

  /** The issues of a run: afterwards every entry of every processed issue is in sync, and nothing failed. */
  lemma {:induction false} SyncIssuesEstablish(kind: TrackerKind, strict: bool, st: TrackerState, g: Groups<string, TogglEntry>,
                                               done: seq<string>, keys: seq<string>)
    requires forall k :: k in done ==> k in g.groups
    requires forall k :: k in keys ==> k in g.groups && Ready(g.groups[k])
    requires FreshIds(st)
    requires forall k, e :: k in done && e in g.groups[k] ==> InSync(st.store, k, e)
    ensures var r := SyncIssues(kind, strict, st, g, keys);
            && r.failed == [] && FreshIds(r.state)
            && (forall k, e :: (k in done || k in keys) && e in g.groups[k] ==> InSync(r.state.store, k, e))
    decreases |keys|
  {
    if keys != [] {
      var k := keys[0];
      var es := g.groups[k];
      var st1 := AfterGet(st, k);
      assert [] + es == es;
      SyncEntriesEstablish(kind, st1, k, OfIssue(st.store, k), [], es);
      var s := SyncIssue(kind, st, k, es);
      forall j, e | j in done + [k] && e in g.groups[j]
        ensures InSync(s.state.store, j, e)
      {
        if j != k {
          assert OfIssue(s.state.store, j) == OfIssue(st.store, j);
        }
      }
      SyncIssuesEstablish(kind, strict, s.state, g, done + [k], keys[1..]);
    }
  }

  /** The `get` calls for the issues, in order. */
  function Fetches(keys: seq<string>): (calls: seq<Call>)
    ensures |calls| == |keys|
    ensures forall i :: 0 <= i < |keys| ==> calls[i] == Call.Get(keys[i])
    decreases |keys|
  {
    if keys == [] then [] else [Call.Get(keys[0])] + Fetches(keys[1..])
  }

  /** A run over entries that are all in sync only fetches: the store stays as it is. */
  lemma {:induction false} SyncEntriesInSync(kind: TrackerKind, st: TrackerState, issueId: string, store: seq<DestEntry>, es: seq<TogglEntry>)
    requires forall e :: e in es ==> InSync(store, issueId, e)
    ensures SyncEntries(kind, st, issueId, OfIssue(store, issueId), es) == Step(st, true)
    decreases |es|
  {
    if es != [] {
      assert InSync(store, issueId, es[0]);
      SyncEntriesInSync(kind, st, issueId, store, es[1..]);
    }
  }

  /** Every entry of every issue in `keys` is in sync with `store`. */
  ghost predicate KeysInSync(store: seq<DestEntry>, g: Groups<string, TogglEntry>, keys: seq<string>) {
    forall k, e :: k in keys && k in g.groups && e in g.groups[k] ==> InSync(store, k, e)
  }

  lemma KeysInSyncTail(store: seq<DestEntry>, g: Groups<string, TogglEntry>, keys: seq<string>)
    requires keys != [] && keys[0] in g.groups && KeysInSync(store, g, keys)
    ensures KeysInSync(store, g, keys[1..])
    ensures forall e :: e in g.groups[keys[0]] ==> InSync(store, keys[0], e)
  {
  }

  lemma FetchesCons(log: seq<Call>, keys: seq<string>)
    requires keys != []
    ensures log + [Call.Get(keys[0])] + Fetches(keys[1..]) == log + Fetches(keys)
  {
    assert Fetches(keys) == [Call.Get(keys[0])] + Fetches(keys[1..]);
  }

  lemma {:induction false} SyncIssuesInSync(kind: TrackerKind, strict: bool, st: TrackerState, g: Groups<string, TogglEntry>, keys: seq<string>)
    requires forall k :: k in keys ==> k in g.groups
    requires KeysInSync(st.store, g, keys)
    ensures SyncIssues(kind, strict, st, g, keys) == Outcome(st.(log := st.log + Fetches(keys)), [])
    decreases |keys|
  {
    if keys != [] {
      var k := keys[0];
      var s := AfterGet(st, k);
      KeysInSyncTail(st.store, g, keys);
      SyncEntriesInSync(kind, s, k, st.store, g.groups[k]);
      SyncIssuesInSync(kind, strict, s, g, keys[1..]);
      SyncIssuesUnfold(kind, strict, st, g, keys);
      FetchesCons(st.log, keys);
    }
  }

  /**
   * Idempotence. When the tracker hands out fresh ids, the Toggl ids are
   * distinct, and every finished entry with an issue has a start and no tag of
   * its own in its description, a first run fails nowhere, and a second run
   * over the same entries makes exactly one `get` per issue and nothing else.
   */
  lemma Idempotent(kind: TrackerKind, strict: bool, st: TrackerState, fetched: seq<TogglEntry>)
    requires FreshIds(st)
    requires Injective(fetched, EntryId)
    requires forall e :: e in fetched && IsCompleted(e) && HasIssue(e) ==> Writable(e)
    ensures var first := SyncRun(kind, strict, st, fetched);
            var second := SyncRun(kind, strict, first.state, fetched);
            && first.failed == []
            && second == Outcome(first.state.(log := first.state.log + Fetches(FirstKeys(Completed(fetched), IssueOf))), [])
  {
    var g := IssueGroups(fetched);
    IssueGroupsPartition(fetched);
    FilterInjective(fetched, IsCompleted, EntryId);
    forall k | k in g.keys
      ensures k in g.groups && Ready(g.groups[k])
    {
      KeyedByInjective(Completed(fetched), IssueOf, k, EntryId);
    }
    SyncIssuesEstablish(kind, strict, st, g, [], g.keys);
    var first := SyncRun(kind, strict, st, fetched);
    SyncIssuesInSync(kind, strict, first.state, g, g.keys);
  }

}
