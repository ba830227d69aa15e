/**
 * The records the engine works on: Toggl time entries (the source) and time-log
 * entries of the destination tracker (Redmine or Jira).
 */
module Entries {
  import opened Wrappers
  import opened Time
  import opened Text
  import opened IssueTag
  import opened Seqs

  /**
   * A Toggl time entry. `seconds` is negative while the entry is still running;
   * `start` is missing on entries built without one.
   */
  datatype TogglEntry = TogglEntry(id: nat, seconds: int, start: Option<Timestamp>, description: string)

  /** A tracker-native value that is either an integer (`333`) or a string (`"987"`). */
  datatype RawKey = IntKey(n: int) | StrKey(s: string)

  /** When the time was spent: Redmine records the day, Jira the start instant. */
  datatype When = SpentOn(day: Date) | Started(instant: Timestamp)

  /** How much time was spent: Redmine records decimal hours, Jira whole seconds. */
  datatype Amount = Hours(hours: real) | Seconds(seconds: int)

  /** A time-log entry of the destination tracker. */
  datatype DestEntry = DestEntry(
    id: RawKey,
    createdOn: Option<Timestamp>,
    issue: RawKey,
    when: When,
    amount: Amount,
    comments: string)

  /** A Redmine time entry, in the field order of its constructor (the author is not kept). */
  function RedmineTimeEntry(id: RawKey, createdOn: Option<Timestamp>, hours: real, spentOn: Date,
                            issue: RawKey, comments: string): DestEntry
  {
    DestEntry(id, createdOn, issue, SpentOn(spentOn), Hours(hours), comments)
  }

  /** A Jira worklog, in the field order of its constructor (author and internal issue id are not kept). */
  function JiraTimeEntry(id: RawKey, createdOn: Option<Timestamp>, seconds: int, started: Timestamp,
                         issue: RawKey, comments: string): DestEntry
  {
    DestEntry(id, createdOn, issue, Started(started), Seconds(seconds), comments)
  }

  function EntryId(e: TogglEntry): nat {
    e.id
  }

  /** A finished entry; running entries carry a negative duration. */
  predicate IsCompleted(e: TogglEntry) {
    e.seconds >= 0
  }

  /** The entries that have finished, in order; running ones carry a negative duration. */
  function Completed(es: seq<TogglEntry>): (r: seq<TogglEntry>)
    ensures forall e :: e in r <==> e in es && e.seconds >= 0
    ensures |r| <= |es|
    ensures (forall e :: e in es ==> e.seconds >= 0) ==> r == es
  {
    FilterAll(es, IsCompleted);
    Filter(es, IsCompleted)
  }

  /** A running entry is not among the finished ones, wherever it stands. */
  lemma CompletedSkipsRunning(xs: seq<TogglEntry>, e: TogglEntry, ys: seq<TogglEntry>)
    requires !IsCompleted(e)
    ensures Completed(xs + [e] + ys) == Completed(xs + ys)
  {
    FilterAppend(xs + [e], ys, IsCompleted);
    FilterAppend(xs, [e], IsCompleted);
    FilterAppend(xs, ys, IsCompleted);
    assert Filter([e], IsCompleted) == [];
  }

  /** The issue id a Toggl entry refers to (its `taskId`). */
  function IssueOf(e: TogglEntry): Option<string> {
    FindIssueId(e.description)
  }

  predicate HasIssue(e: TogglEntry) {
    IssueOf(e).Some?
  }

  /** The destination comment written for a Toggl entry. */
  function CommentOf(e: TogglEntry): string {
    Comment(e.description, e.id)
  }

  /** Python's `str()` of a raw key. */
  function KeyToString(k: RawKey): string {
    match k
    case IntKey(n) => IntToString(n)
    case StrKey(s) => s
  }

  /**
   * The `toggl_id` of a destination entry: the id in the first complete tag of
   * its comment. A comment the engine wrote for a Toggl entry whose description
   * has no tag of its own gives back that entry's id.
   */
  function TogglIdOf(d: DestEntry): (r: Option<nat>)
    ensures '[' !in d.comments ==> r.None?
    ensures forall desc: string, id: nat :: d.comments == Comment(desc, id) && ParseTogglTag(desc).None? ==> r == Some(id)
  {
    TaggedCommentsReadBack(d.comments);
    ParseTogglTag(d.comments)
  }

  /** The destination entry's issue, normalised to a string. */
  function IssueKeyOf(d: DestEntry): Option<string> {
    Some(KeyToString(d.issue))
  }

  /** The destination entry's issue as the tracker gives it. */
  function RawIssueOf(d: DestEntry): Option<RawKey> {
    Some(d.issue)
  }

  /** Total duration of a list of entries, in seconds. */
  function SumSeconds(es: seq<TogglEntry>): int
    decreases |es|
  {
    if es == [] then 0 else es[0].seconds + SumSeconds(es[1..])
  }

}
