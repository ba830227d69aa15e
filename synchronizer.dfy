/**
 * The reconciliation engine. `start(days)` fetches the Toggl entries once,
 * drops running entries, groups the rest by issue and, issue by issue, fetches
 * the tracker's entries of that issue and creates, updates or leaves alone the
 * entry tagged with each Toggl id.
 *
 * The pure functions below say what a run does to the tracker; the
 * `Synchronizer` class performs it step by step and is proved to agree with them.
 */
module Synchronizer {
  import opened Wrappers
  import opened Seqs
  import opened IssueTag
  import opened Entries
  import opened Grouping
  import opened Equality
  import opened Destination
  import opened Toggl

  /**
   * The fields sent to `put` or `update` for a Toggl entry of issue `issueId`.
   * Redmine gets the day of the start and the duration in hours (`seconds / 3600`),
   * Jira the start itself and the duration in seconds; both get the tagged comment.
   */
  function PayloadOf(kind: TrackerKind, issueId: string, e: TogglEntry): (p: Payload)
    requires e.start.Some?
    ensures p.issueId == issueId && p.comment == CommentOf(e)
    ensures StartMatches(e.start.value, p.when)
    ensures DestMinutes(p.amount) == SourceMinutes(e.seconds)
    ensures kind == Redmine ==> p.when.SpentOn? && p.amount.Hours? && p.amount.hours * 3600.0 == e.seconds as real
    ensures kind == Jira ==> p.when.Started? && p.amount == Seconds(e.seconds)
  {
    HoursMinutes(e.seconds);
    match kind
    case Redmine => Payload(issueId, SpentOn(e.start.value.date), Hours(e.seconds as real / 3600.0), CommentOf(e))
    case Jira => Payload(issueId, Started(e.start.value), Seconds(e.seconds), CommentOf(e))
  }

  /**
   * The fetched tracker entry the engine compares a Toggl entry with: the
   * first one whose comment carries the Toggl id's tag.
   */
  function FirstTagged(ds: seq<DestEntry>, togglId: nat): (r: Option<DestEntry>)
    ensures r.None? <==> forall d :: d in ds ==> TogglIdOf(d) != Some(togglId)
    ensures r.Some? ==> r.value in ds && TogglIdOf(r.value) == Some(togglId)
    decreases |ds|
  {
    if ds == [] then None
    else if TogglIdOf(ds[0]) == Some(togglId) then Some(ds[0])
    else FirstTagged(ds[1..], togglId)
  }

  /** The tracker after a step, and whether the step went through. */
  datatype Step = Step(state: TrackerState, ok: bool)

  /** The tracker after a run, and the issues whose processing failed. */
  datatype Outcome = Outcome(state: TrackerState, failed: seq<string>)

  /**
   * One Toggl entry of issue `issueId`, given the entries `fetched` for the
   * issue: created when no fetched entry carries its tag, updated when the
   * tagged one differs from it, left alone when they are equal. An entry
   * without a start cannot be written and fails the issue.
   */
  function SyncEntry(kind: TrackerKind, st: TrackerState, issueId: string, fetched: seq<DestEntry>, e: TogglEntry): (s: Step)
    ensures s.ok <==> e.start.Some?
    ensures !s.ok ==> s.state == st
    ensures st.log <= s.state.log && |s.state.log| <= |st.log| + 1
    ensures s.state.log == st.log <==> !s.ok || (FirstTagged(fetched, e.id).Some? && Equal(e, FirstTagged(fetched, e.id).value))
    ensures e.start.Some? && s.state.log != st.log ==>
              && !s.state.log[|st.log|].Get? && s.state.log[|st.log|].payload == PayloadOf(kind, issueId, e)
              && (s.state.log[|st.log|].Put? <==> FirstTagged(fetched, e.id).None?)
              && (s.state.log[|st.log|].Update? ==> s.state.log[|st.log|].id == FirstTagged(fetched, e.id).value.id)
  {
    if e.start.None? then Step(st, false)
    else
      var p := PayloadOf(kind, issueId, e);
      match FirstTagged(fetched, e.id)
      case None => Step(AfterPut(st, p), true)
      case Some(d) => if Equal(e, d) then Step(st, true) else Step(AfterUpdate(st, d.id, p), true)
  }

  /** The entries of one issue in order, stopping at the first that fails. */
  function SyncEntries(kind: TrackerKind, st: TrackerState, issueId: string, fetched: seq<DestEntry>, es: seq<TogglEntry>): (r: Step)
    ensures r.ok <==> forall e :: e in es ==> e.start.Some?
    ensures st.log <= r.state.log && |r.state.log| <= |st.log| + |es|
    decreases |es|
  {
    if es == [] then Step(st, true)
    else
      var s := SyncEntry(kind, st, issueId, fetched, es[0]);
      assert forall e :: e in es <==> e == es[0] || e in es[1..] by {
        assert es == [es[0]] + es[1..];
      }
      if !s.ok then s else SyncEntries(kind, s.state, issueId, fetched, es[1..])
  }

  /** One issue: fetch its tracker entries once, then go through its Toggl entries. */
  function SyncIssue(kind: TrackerKind, st: TrackerState, issueId: string, es: seq<TogglEntry>): (s: Step)
    ensures s.ok <==> forall e :: e in es ==> e.start.Some?
    ensures |st.log| < |s.state.log| <= |st.log| + 1 + |es|
    ensures s.state.log[..|st.log| + 1] == st.log + [Get(issueId)]
  {
    SyncEntries(kind, AfterGet(st, issueId), issueId, OfIssue(st.store, issueId), es)
  }

  /**
   * The issues in order. A failed issue is recorded; in strict mode
   * (`raise_errors`) the run stops there, otherwise it goes on with the next.
   */
  function SyncIssues(kind: TrackerKind, strict: bool, st: TrackerState, g: Groups<string, TogglEntry>, keys: seq<string>): (r: Outcome)
    requires forall k :: k in keys ==> k in g.groups
    ensures strict ==> |r.failed| <= 1
    decreases |keys|
  {
    if keys == [] then Outcome(st, [])
    else
      var s := SyncIssue(kind, st, keys[0], g.groups[keys[0]]);
      if !s.ok && strict then Outcome(s.state, [keys[0]])
      else
        var rest := SyncIssues(kind, strict, s.state, g, keys[1..]);
        Outcome(rest.state, (if s.ok then [] else [keys[0]]) + rest.failed)
  }

  /**
   * The issues a run reports as failed are those of `keys` whose group holds an
   * entry without a start: only such issues in any run, and all of them in a
   * lenient one.
   */
  lemma {:induction false} SyncIssuesFailures(kind: TrackerKind, strict: bool, st: TrackerState, g: Groups<string, TogglEntry>, keys: seq<string>)
    requires forall k :: k in keys ==> k in g.groups
    ensures var r := SyncIssues(kind, strict, st, g, keys);
            && (forall k :: k in r.failed ==> k in keys && exists e :: e in g.groups[k] && e.start.None?)
            && (!strict ==> forall k :: k in keys && (exists e :: e in g.groups[k] && e.start.None?) ==> k in r.failed)
    decreases |keys|
  {
    if keys != [] {
      var s := SyncIssue(kind, st, keys[0], g.groups[keys[0]]);
      assert forall k :: k in keys <==> k == keys[0] || k in keys[1..] by {
        assert keys == [keys[0]] + keys[1..];
      }
      SyncIssuesFailures(kind, strict, s.state, g, keys[1..]);
    }
  }

  /** The issue groups a run works through: the finished entries grouped by issue. */
  function IssueGroups(fetched: seq<TogglEntry>): (g: Groups<string, TogglEntry>)
    ensures WellFormed(g)
  {
    GroupTogglPartition(Completed(fetched));
    GroupTogglByIssueId(Completed(fetched))
  }

  /**
   * The issues of a run are exactly those of the finished entries, and each
   * issue's group lists its finished entries in fetch order.
   */
  lemma IssueGroupsPartition(fetched: seq<TogglEntry>)
    ensures forall k :: k in IssueGroups(fetched).groups <==> exists e :: e in fetched && IsCompleted(e) && IssueOf(e) == Some(k)
    ensures forall k :: k in IssueGroups(fetched).groups ==> IssueGroups(fetched).groups[k] == KeyedBy(Completed(fetched), IssueOf, k)
    ensures IssueGroups(fetched).keys == FirstKeys(Completed(fetched), IssueOf)
  {
    var g := GroupTogglByIssueId(Completed(fetched));
    GroupTogglPartition(Completed(fetched));
    forall k
      ensures k in g.groups <==> exists e :: e in fetched && IsCompleted(e) && IssueOf(e) == Some(k)
    {
      if k in g.groups {
        var e :| e in Completed(fetched) && IssueOf(e) == Some(k);
        assert e in fetched && IsCompleted(e);
      }
    }
  }

  /**
   * A whole run over the Toggl entries `fetched`. An issue fails exactly when
   * one of its finished entries has no start; a strict run reports the first
   * such issue only, a lenient run all of them.
   */
  function SyncRun(kind: TrackerKind, strict: bool, st: TrackerState, fetched: seq<TogglEntry>): (r: Outcome)
    ensures forall k :: k in r.failed ==> Unstartable(fetched, k)
    ensures strict ==> |r.failed| <= 1
    ensures !strict ==> forall k :: Unstartable(fetched, k) ==> k in r.failed
  {
    var g := IssueGroups(fetched);
    IssueGroupsFailures(fetched);
    SyncIssuesFailures(kind, strict, st, g, g.keys);
    SyncIssues(kind, strict, st, g, g.keys)
  }

  /** Some finished entry of `fetched` names issue `k` and has no start, so the issue cannot be written. */
  ghost predicate Unstartable(fetched: seq<TogglEntry>, k: string) {
    exists e :: e in fetched && IsCompleted(e) && IssueOf(e) == Some(k) && e.start.None?
  }

  /** The issues with an entry lacking a start are the listed issues whose group holds such an entry. */
  lemma IssueGroupsFailures(fetched: seq<TogglEntry>)
    ensures forall k :: Unstartable(fetched, k) <==> k in IssueGroups(fetched).keys && exists e :: e in IssueGroups(fetched).groups[k] && e.start.None?
  {
    var g := IssueGroups(fetched);
    IssueGroupsPartition(fetched);
    forall k
      ensures Unstartable(fetched, k) <==> k in g.keys && exists e :: e in g.groups[k] && e.start.None?
    {
      if Unstartable(fetched, k) {
        var e :| e in fetched && IsCompleted(e) && IssueOf(e) == Some(k) && e.start.None?;
        assert e in Completed(fetched);
        assert e in KeyedBy(Completed(fetched), IssueOf, k);
      }
      if k in g.keys && exists e :: e in g.groups[k] && e.start.None? {
        var e :| e in g.groups[k] && e.start.None?;
        assert e in KeyedBy(Completed(fetched), IssueOf, k);
        assert e in Completed(fetched);
      }
    }
  }

  lemma SyncEntriesUnfold(kind: TrackerKind, st: TrackerState, issueId: string, fetched: seq<DestEntry>, es: seq<TogglEntry>)
    requires es != []
    ensures var s := SyncEntry(kind, st, issueId, fetched, es[0]);
            SyncEntries(kind, st, issueId, fetched, es) == if !s.ok then s else SyncEntries(kind, s.state, issueId, fetched, es[1..])
  {
  }

  lemma SyncIssuesUnfold(kind: TrackerKind, strict: bool, st: TrackerState, g: Groups<string, TogglEntry>, keys: seq<string>)
    requires forall k :: k in keys ==> k in g.groups
    requires keys != []
    ensures var s := SyncIssue(kind, st, keys[0], g.groups[keys[0]]);
            var rest := SyncIssues(kind, strict, s.state, g, keys[1..]);
            SyncIssues(kind, strict, st, g, keys)
              == if !s.ok && strict then Outcome(s.state, [keys[0]])
                 else Outcome(rest.state, (if s.ok then [] else [keys[0]]) + rest.failed)
  {
  }

  /** What is left of a run: the outcome of `keys` from `st`, after the issues in `failed` already failed. */
  ghost function Resume(kind: TrackerKind, strict: bool, st: TrackerState, g: Groups<string, TogglEntry>, keys: seq<string>, failed: seq<string>): Outcome
    requires forall k :: k in keys ==> k in g.groups
  {
    var r := SyncIssues(kind, strict, st, g, keys);
    Outcome(r.state, failed + r.failed)
  }

  /** One issue of a run: after it has been processed into `next`, the rest of the run resumes from there. */
  lemma ResumeStep(kind: TrackerKind, strict: bool, st: TrackerState, g: Groups<string, TogglEntry>, keys: seq<string>, failed: seq<string>,
                   next: TrackerState, ok: bool)
    requires forall k :: k in keys ==> k in g.groups
    requires keys != []
    requires Step(next, ok) == SyncIssue(kind, st, keys[0], g.groups[keys[0]])
    ensures !ok && strict ==> Resume(kind, strict, st, g, keys, failed) == Outcome(next, failed + [keys[0]])
    ensures !ok && !strict ==> Resume(kind, strict, st, g, keys, failed) == Resume(kind, strict, next, g, keys[1..], failed + [keys[0]])
    ensures ok ==> Resume(kind, strict, st, g, keys, failed) == Resume(kind, strict, next, g, keys[1..], failed)
  {
    SyncIssuesUnfold(kind, strict, st, g, keys);
    ResumeOutcome(SyncIssues(kind, strict, st, g, keys), Step(next, ok), SyncIssues(kind, strict, next, g, keys[1..]),
                  keys[0], strict, failed);
  }

  /** How the outcome of a run after one issue combines with the issues that failed before it. */
  lemma ResumeOutcome(r: Outcome, s: Step, rest: Outcome, k: string, strict: bool, failed: seq<string>)
    requires r == if !s.ok && strict then Outcome(s.state, [k])
                  else Outcome(rest.state, (if s.ok then [] else [k]) + rest.failed)
    ensures !s.ok && strict ==> Outcome(r.state, failed + r.failed) == Outcome(s.state, failed + [k])
    ensures !s.ok && !strict ==> Outcome(r.state, failed + r.failed) == Outcome(rest.state, (failed + [k]) + rest.failed)
    ensures s.ok ==> Outcome(r.state, failed + r.failed) == Outcome(rest.state, failed + rest.failed)
  {
    if s.ok {
      assert failed + ([] + rest.failed) == failed + rest.failed;
    } else if !strict {
      assert failed + ([k] + rest.failed) == (failed + [k]) + rest.failed;
    }
  }

  /** The engine, wired to a tracker and a Toggl source. */
  class Synchronizer {
    const tracker: Tracker
    const toggl: TogglSource
    const strict: bool

    constructor (tracker: Tracker, toggl: TogglSource, strict: bool)
      ensures this.tracker == tracker && this.toggl == toggl && this.strict == strict
    {
      this.tracker := tracker;
      this.toggl := toggl;
      this.strict := strict;
    }

    /** `start(days)`: one run; returns the issues that failed. */
    method Start(days: int) returns (failed: seq<string>)
      modifies tracker, toggl
      ensures toggl.entries == old(toggl.entries)
      ensures toggl.requests == old(toggl.requests) + [days]
      ensures Outcome(tracker.State(), failed) == SyncRun(tracker.kind, strict, old(tracker.State()), old(toggl.entries))
    {
      var fetched := toggl.Get(days);
      var groups := IssueGroups(fetched);
      ghost var whole := SyncIssues(tracker.kind, strict, tracker.State(), groups, groups.keys);
      failed := [];
      var stop := false;
      var todo := groups.keys;
      while todo != [] && !stop
        invariant forall k :: k in todo ==> k in groups.groups
        invariant toggl.entries == old(toggl.entries)
        invariant toggl.requests == old(toggl.requests) + [days]
        invariant !stop ==> whole == Resume(tracker.kind, strict, tracker.State(), groups, todo, failed)
        invariant stop ==> whole == Outcome(tracker.State(), failed)
        decreases |todo|
      {
        var k := todo[0];
        ghost var before := tracker.State();
        var ok := ProcessIssue(k, groups.groups[k]);
        ResumeStep(tracker.kind, strict, before, groups, todo, failed, tracker.State(), ok);
        if !ok {
          failed := failed + [k];
          if strict {
            stop := true;
          }
        }
        todo := todo[1..];
      }
    }

    /** One issue group: fetch the tracker's entries of the issue, then create or update. */
    method ProcessIssue(issueId: string, es: seq<TogglEntry>) returns (ok: bool)
      modifies tracker
      ensures Step(tracker.State(), ok) == SyncIssue(tracker.kind, old(tracker.State()), issueId, es)
    {
      ghost var whole := SyncIssue(tracker.kind, tracker.State(), issueId, es);
      var fetched := tracker.Get(issueId);
      ok := true;
      var j := 0;
      while j < |es| && ok
        invariant 0 <= j <= |es|
        invariant ok ==> whole == SyncEntries(tracker.kind, tracker.State(), issueId, fetched, es[j..])
        invariant !ok ==> whole == Step(tracker.State(), false)
        decreases |es| - j, if ok then 1 else 0
      {
        var e := es[j];
        ghost var s := SyncEntry(tracker.kind, tracker.State(), issueId, fetched, e);
        SyncEntriesUnfold(tracker.kind, tracker.State(), issueId, fetched, es[j..]);
        assert es[j..][0] == e && es[j..][1..] == es[j + 1..];
        if e.start.None? {
          ok := false;
        } else {
          var p := PayloadOf(tracker.kind, issueId, e);
          var tagged := FirstTagged(fetched, e.id);
          if tagged.None? {
            tracker.Put(p);
          } else if !Equal(e, tagged.value) {
            tracker.Update(tagged.value.id, p);
          }
          assert tracker.State() == s.state && s.ok;
          j := j + 1;
        }
      }
      if ok {
        assert es[j..] == [];
      }
    }
  }

}
