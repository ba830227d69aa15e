/**
 * The destination tracker as the engine sees it: `get` (the time entries of an
 * issue), `put` (a new entry) and `update` (an existing entry, by its id).
 * It is modelled as a store of entries with a log of the calls it received.
 */
module Destination {
  import opened Wrappers
  import opened Entries

  /** Which tracker the engine writes to; it decides the fields of `put` and `update`. */
  datatype TrackerKind = Redmine | Jira

  /**
   * The arguments of `put` and `update` besides the entry id: Redmine takes
   * `issueId, spentOn, hours, comment`, Jira `issueId, started, seconds, comment`.
   */
  datatype Payload = Payload(issueId: string, when: When, amount: Amount, comment: string)

  /** One call made to the tracker. */
  datatype Call = Get(issueId: string) | Put(payload: Payload) | Update(id: RawKey, payload: Payload)

  /** The tracker's entries, the id its next new entry gets, and the calls it has received. */
  datatype TrackerState = TrackerState(store: seq<DestEntry>, nextId: nat, log: seq<Call>)

  predicate OnIssue(issueId: string, d: DestEntry) {
    KeyToString(d.issue) == issueId
  }

  /** What `get(issueId)` returns: the stored entries of that issue, in store order. */
  function OfIssue(store: seq<DestEntry>, issueId: string): (r: seq<DestEntry>)
    ensures |r| <= |store|
    ensures forall d :: d in r <==> d in store && OnIssue(issueId, d)
    decreases |store|
  {
    if store == [] then []
    else (if OnIssue(issueId, store[0]) then [store[0]] else []) + OfIssue(store[1..], issueId)
  }

  /** The entry a `put` creates. */
  function Recorded(p: Payload, id: RawKey): DestEntry {
    DestEntry(id, None, StrKey(p.issueId), p.when, p.amount, p.comment)
  }

  /** An entry after an `update` with `p`: same id and creation time, new fields. */
  function Revised(d: DestEntry, p: Payload): DestEntry {
    d.(issue := StrKey(p.issueId), when := p.when, amount := p.amount, comments := p.comment)
  }

  /** The store after `update(id, p)`: every entry with that id is revised, the others are left alone. */
  function ReviseById(store: seq<DestEntry>, id: RawKey, p: Payload): (r: seq<DestEntry>)
    ensures |r| == |store|
    ensures forall i :: 0 <= i < |store| ==> r[i] == if store[i].id == id then Revised(store[i], p) else store[i]
    decreases |store|
  {
    if store == [] then []
    else [if store[0].id == id then Revised(store[0], p) else store[0]] + ReviseById(store[1..], id, p)
  }

  function AfterGet(st: TrackerState, issueId: string): TrackerState {
    st.(log := st.log + [Get(issueId)])
  }

  function AfterPut(st: TrackerState, p: Payload): TrackerState {
    TrackerState(st.store + [Recorded(p, IntKey(st.nextId))], st.nextId + 1, st.log + [Put(p)])
  }

  function AfterUpdate(st: TrackerState, id: RawKey, p: Payload): TrackerState {
    st.(store := ReviseById(st.store, id, p), log := st.log + [Update(id, p)])
  }

  /** Entry ids are distinct within a list of entries. */
  ghost predicate UniqueIds(ds: seq<DestEntry>) {
    forall i, j :: 0 <= i < j < |ds| ==> ds[i].id != ds[j].id
  }

  /** The tracker hands out fresh ids: stored ids are distinct and the integer ones lie below the next id. */
  ghost predicate FreshIds(st: TrackerState) {
    && UniqueIds(st.store)
    && forall i :: 0 <= i < |st.store| && st.store[i].id.IntKey? ==> st.store[i].id.n < st.nextId
  }

  /** A `put` adds its entry to the `get` of its own issue only, at the end. */
  lemma {:induction false} OfIssueAppend(store: seq<DestEntry>, x: DestEntry, issueId: string)
    ensures OfIssue(store + [x], issueId) == OfIssue(store, issueId) + (if OnIssue(issueId, x) then [x] else [])
    decreases |store|
  {
    if store == [] {
      assert store + [x] == [x];
      assert OfIssue([x], issueId) == (if OnIssue(issueId, x) then [x] else []) + OfIssue([], issueId);
    } else {
      assert (store + [x])[0] == store[0];
      assert (store + [x])[1..] == store[1..] + [x];
      OfIssueAppend(store[1..], x, issueId);
    }
  }

  /**
   * An `update` whose entry is on the issue it names changes the `get` of that
   * issue by the same revision, and the `get` of every other issue not at all.
   */
  lemma {:induction false} OfIssueRevise(store: seq<DestEntry>, id: RawKey, p: Payload, issueId: string)
    requires forall d :: d in store && d.id == id ==> OnIssue(p.issueId, d)
    ensures OfIssue(ReviseById(store, id, p), issueId)
         == if issueId == p.issueId then ReviseById(OfIssue(store, issueId), id, p) else OfIssue(store, issueId)
    decreases |store|
  {
    if store != [] {
      var x := store[0];
      var x' := if x.id == id then Revised(x, p) else x;
      assert ReviseById(store, id, p) == [x'] + ReviseById(store[1..], id, p);
      assert OnIssue(issueId, x') == OnIssue(issueId, x);
      OfIssueRevise(store[1..], id, p, issueId);
      if issueId == p.issueId {
        ReviseByIdConcat(if OnIssue(issueId, x) then [x] else [], OfIssue(store[1..], issueId), id, p);
      } else if OnIssue(issueId, x) {
        assert x' == x;
      }
    }
  }

  lemma ReviseByIdConcat(a: seq<DestEntry>, b: seq<DestEntry>, id: RawKey, p: Payload)
    ensures ReviseById(a + b, id, p) == ReviseById(a, id, p) + ReviseById(b, id, p)
  {
    var l, r := ReviseById(a + b, id, p), ReviseById(a, id, p) + ReviseById(b, id, p);
    forall i | 0 <= i < |l|
      ensures l[i] == r[i]
    {
      if i >= |a| {
        assert (a + b)[i] == b[i - |a|];
      }
    }
  }

  /** A `put` keeps the ids fresh. */
  lemma PutFreshIds(st: TrackerState, p: Payload)
    requires FreshIds(st)
    ensures FreshIds(AfterPut(st, p))
  {
    var s := AfterPut(st, p).store;
    forall i, j | 0 <= i < j < |s|
      ensures s[i].id != s[j].id
    {
      if j == |st.store| {
        assert s[i] == st.store[i];
      }
    }
  }

  /** An `update` keeps the ids fresh: it never changes an id. */
  lemma UpdateFreshIds(st: TrackerState, id: RawKey, p: Payload)
    requires FreshIds(st)
    ensures FreshIds(AfterUpdate(st, id, p))
  {
  }

  /** A destination tracker (a Redmine or Jira helper) that records every call made to it. */
  class Tracker {
    const kind: TrackerKind
    var store: seq<DestEntry>
    var nextId: nat
    var log: seq<Call>

    function State(): TrackerState
      reads this
    {
      TrackerState(store, nextId, log)
    }

    constructor (kind: TrackerKind, store: seq<DestEntry>, nextId: nat)
      ensures this.kind == kind
      ensures State() == TrackerState(store, nextId, [])
    {
      this.kind := kind;
      this.store := store;
      this.nextId := nextId;
      this.log := [];
    }

    /** `get(issueId)`: the entries logged against the issue. */
    method Get(issueId: string) returns (entries: seq<DestEntry>)
      modifies this`log
      ensures entries == OfIssue(store, issueId)
      ensures State() == AfterGet(old(State()), issueId)
    {
      entries := OfIssue(store, issueId);
      log := log + [Call.Get(issueId)];
    }

    /** `put(...)`: a new entry with a fresh id. */
    method Put(p: Payload)
      modifies this
      ensures State() == AfterPut(old(State()), p)
    {
      store := store + [Recorded(p, IntKey(nextId))];
      nextId := nextId + 1;
      log := log + [Call.Put(p)];
    }

    /** `update(id, ...)`: the entry with that id takes the new fields. */
    method Update(id: RawKey, p: Payload)
      modifies this
      ensures State() == AfterUpdate(old(State()), id, p)
    {
      store := ReviseById(store, id, p);
      log := log + [Call.Update(id, p)];
    }
  }

}
