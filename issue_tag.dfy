/**
 * The two pieces of text the engine reads and writes: the issue reference
 * `#<digits>` in a Toggl description, and the correlation tag `[toggl#<id>]`
 * that a destination comment carries back to its source entry.
 */
module IssueTag {
  import opened Text
  import opened Wrappers

  /** Position `i` of `s` starts the issue pattern: a '#' followed by a digit. */
  predicate IssueAt(s: string, i: int) {
    0 <= i && i + 1 < |s| && s[i] == '#' && IsDigit(s[i + 1])
  }

  /**
   * The digits of the leftmost `#<digits>` in a description, without the '#'
   * (the second group of a search for the task pattern `(#)([0-9]{1,})`).
   */
  function FindIssueId(s: string): (r: Option<string>)
    ensures r.Some? ==> |r.value| >= 1 && AllDigits(r.value)
    decreases |s|
  {
    if |s| < 2 then None
    else if s[0] == '#' && IsDigit(s[1]) then Some(DigitRun(s[1..]))
    else FindIssueId(s[1..])
  }

  /**
   * A description has an issue id exactly when the pattern occurs in it, and the
   * id is the whole digit run after the leftmost occurrence.
   */
  lemma {:induction false} FindIssueIdSpec(s: string)
    ensures FindIssueId(s).None? <==> forall i :: 0 <= i < |s| ==> !IssueAt(s, i)
    ensures FindIssueId(s).Some? ==>
      exists i :: IssueAt(s, i) && (forall j :: 0 <= j < i ==> !IssueAt(s, j)) &&
        FindIssueId(s).value == DigitRun(s[i + 1..])
    decreases |s|
  {
    if |s| < 2 {
    } else if s[0] == '#' && IsDigit(s[1]) {
      assert IssueAt(s, 0);
    } else {
      var t := s[1..];
      FindIssueIdSpec(t);
      assert !IssueAt(s, 0);
      forall i | 1 <= i < |s| ensures IssueAt(s, i) <==> IssueAt(t, i - 1) {
      }
      if FindIssueId(t).Some? {
        var i :| IssueAt(t, i) && (forall j :: 0 <= j < i ==> !IssueAt(t, j)) &&
          FindIssueId(t).value == DigitRun(t[i + 1..]);
        assert t[i + 1..] == s[i + 2..];
        assert IssueAt(s, i + 1);
        forall j | 0 <= j < i + 1 ensures !IssueAt(s, j) {
          if j > 0 {
            assert !IssueAt(t, j - 1);
          }
        }
      }
    }
  }

  /** A description that starts with `#<digits>` followed by a non-digit refers to those digits. */
  lemma IssueIdAtStart(digits: string, rest: string)
    requires |digits| >= 1 && AllDigits(digits)
    requires rest == [] || !IsDigit(rest[0])
    ensures FindIssueId("#" + digits + rest) == Some(digits)
  {
    var s := "#" + digits + rest;
    assert s[1..] == digits + rest;
    DigitRunAppend(digits, rest);
    DigitRunAllDigits(digits);
  }

  /** Text without a '#' in front of the rest of a description does not change its issue id. */
  lemma {:induction false} IssueIdAfter(prefix: string, s: string)
    requires '#' !in prefix && |s| >= 2
    ensures FindIssueId(prefix + s) == FindIssueId(s)
    decreases |prefix|
  {
    if prefix == [] {
      assert prefix + s == s;
    } else {
      assert (prefix + s)[0] == prefix[0] && prefix[0] in prefix;
      assert (prefix + s)[1..] == prefix[1..] + s;
      assert forall c :: c in prefix[1..] ==> c in prefix;
      IssueIdAfter(prefix[1..], s);
    }
  }

  /** A description without a '#' refers to no issue. */
  lemma {:induction false} NoIssueWithoutHash(s: string)
    requires '#' !in s
    ensures FindIssueId(s).None?
    decreases |s|
  {
    if |s| >= 2 {
      assert s[0] in s;
      assert forall c :: c in s[1..] ==> c in s;
      NoIssueWithoutHash(s[1..]);
    }
  }

  const TagPrefix: string := "[toggl#"

  /** The correlation tag `[toggl#<id>]`. */
  function TogglTag(id: nat): string {
    TagPrefix + NatToString(id) + "]"
  }

  /** The destination comment the engine writes for a source entry: `<description> [toggl#<id>]`. */
  function Comment(description: string, id: nat): string {
    description + " " + TogglTag(id)
  }

  /** The id of a complete tag that starts at the first character of `s`, if any. */
  function TagHere(s: string): Option<nat> {
    if |s| >= 7 && s[..7] == TagPrefix then
      var d := DigitRun(s[7..]);
      if |d| > 0 && 7 + |d| < |s| && s[7 + |d|] == ']' then Some(ParseNat(d)) else None
    else None
  }

  /**
   * The id in the leftmost complete `[toggl#<digits>]` of a comment. Reading
   * one needs a '[' and at least the nine characters of `[toggl#<digit>]`.
   */
  function ParseTogglTag(s: string): (r: Option<nat>)
    ensures r.Some? ==> '[' in s && |s| >= 9
    decreases |s|
  {
    if s == [] then None
    else if TagHere(s).Some? then
      assert s[..7][0] == s[0];
      TagHere(s)
    else
      var r := ParseTogglTag(s[1..]);
      assert r.Some? ==> '[' in s by {
        if r.Some? {
          var k :| 0 <= k < |s[1..]| && s[1..][k] == '[';
          assert s[k + 1] == '[';
        }
      }
      r
  }

  /** There is a tag to read exactly when a complete tag starts somewhere in `s`. */
  lemma {:induction false} ParseTogglTagFinds(s: string)
    ensures ParseTogglTag(s).None? <==> forall i :: 0 <= i < |s| ==> TagHere(s[i..]).None?
    decreases |s|
  {
    if s != [] {
      assert s[0..] == s;
      if TagHere(s).None? {
        ParseTogglTagFinds(s[1..]);
        assert forall i :: 1 <= i < |s| ==> s[1..][i - 1..] == s[i..];
      }
    }
  }

  /** The tag read is the one that starts leftmost. */
  lemma {:induction false} ParseTogglTagLeftmost(s: string)
    requires ParseTogglTag(s).Some?
    ensures exists i :: 0 <= i < |s| && TagHere(s[i..]) == ParseTogglTag(s) && forall j :: 0 <= j < i ==> TagHere(s[j..]).None?
    decreases |s|
  {
    if TagHere(s).Some? {
      assert s[0..] == s;
    } else {
      ParseTogglTagLeftmost(s[1..]);
      var i :| 0 <= i < |s[1..]| && TagHere(s[1..][i..]) == ParseTogglTag(s[1..]) && forall j :: 0 <= j < i ==> TagHere(s[1..][j..]).None?;
      assert s[1..][i..] == s[i + 1..];
      assert s[0..] == s;
      forall j | 0 <= j < i + 1
        ensures TagHere(s[j..]).None?
      {
        if j > 0 {
          assert s[1..][j - 1..] == s[j..];
        }
      }
    }
  }

  /** A tag on its own reads back as its id. */
  lemma TagHereTogglTag(id: nat)
    ensures TagHere(TogglTag(id)) == Some(id)
  {
    var s := TogglTag(id);
    var n := NatToString(id);
    assert s[..7] == TagPrefix;
    assert s[7..] == n + "]";
    DigitRunAppend(n, "]");
    assert DigitRun(n) == n;
    ParseNatToString(id);
  }

  /**
   * A complete tag that starts inside `desc` cannot run into a suffix that
   * begins with a space, so it is already a complete tag of `desc`.
   */
  lemma TagHereExtend(desc: string, tail: string)
    requires tail != [] && tail[0] == ' '
    requires TagHere(desc + tail).Some?
    ensures TagHere(desc) == TagHere(desc + tail)
  {
    var s := desc + tail;
    assert s[..7] == TagPrefix;
    assert s[|desc|] == ' ';
    assert forall i :: 0 <= i < 7 ==> s[i] == TagPrefix[i] && TagPrefix[i] != ' ';
    assert |desc| >= 7;
    assert s[..7] == desc[..7];
    assert s[7..] == desc[7..] + tail;
    DigitRunAppend(desc[7..], tail);
    var d := DigitRun(desc[7..]);
    assert d <= desc[7..];
    assert 7 + |d| < |desc|;
    assert s[7 + |d|] == desc[7 + |d|];
  }

  /**
   * The comment written for a source entry reads back as that entry's id, as
   * long as the description does not itself contain a tag.
   */
  lemma {:induction false} CommentTagRoundTrip(desc: string, id: nat)
    requires ParseTogglTag(desc).None?
    ensures ParseTogglTag(Comment(desc, id)) == Some(id)
    decreases |desc|
  {
    var tail := " " + TogglTag(id);
    var s := Comment(desc, id);
    assert s == desc + tail;
    if desc == [] {
      assert s[..7] != TagPrefix by { assert s[0] == ' '; }
      assert s[1..] == TogglTag(id);
      TagHereTogglTag(id);
    } else {
      if TagHere(s).Some? {
        TagHereExtend(desc, tail);
        assert false;
      }
      assert s[1..] == Comment(desc[1..], id);
      CommentTagRoundTrip(desc[1..], id);
    }
  }

  /** A comment written for an entry reads back as the entry's id, whatever the description without a tag. */
  lemma TaggedCommentsReadBack(s: string)
    ensures forall desc: string, id: nat :: s == Comment(desc, id) && ParseTogglTag(desc).None? ==> ParseTogglTag(s) == Some(id)
  {
    forall desc: string, id: nat | s == Comment(desc, id) && ParseTogglTag(desc).None?
      ensures ParseTogglTag(s) == Some(id)
    {
      CommentTagRoundTrip(desc, id);
    }
  }

}
