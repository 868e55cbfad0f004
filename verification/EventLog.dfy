/** The append-only orchestration event log. */
module EventLog {
  import opened WorkQueue

  datatype Event = Event(occurredAt: Time, issueKey: string, issueID: string, attempt: int, runID: string,
                         source: string, kind: string, payload: string)

  /** The hashed fields of an event; the hash is taken to be injective in them. The
      issue ID is not one of them. */
  datatype EventID = EventID(occurredAt: Time, source: string, kind: string, issueKey: string, attempt: int,
                             runID: string, payload: string)

  function IDOf(e: Event): EventID {
    EventID(e.occurredAt, e.source, e.kind, e.issueKey, e.attempt, e.runID, e.payload)
  }

  /** The first of January of year 1, Go's unset time. */
  const ZERO_TIME := -62_135_596_800 * SECOND

  predicate Known(rows: seq<Event>, e: Event) {
    exists k :: 0 <= k < |rows| && IDOf(rows[k]) == IDOf(e)
  }

  /** INSERT OR IGNORE by event ID. */
  function AppendTo(rows: seq<Event>, e: Event): seq<Event> {
    if Known(rows, e) then rows else rows + [e]
  }

  ghost predicate DistinctIDs(rows: seq<Event>) {
    forall j, k :: 0 <= j < k < |rows| ==> IDOf(rows[j]) != IDOf(rows[k])
  }

  datatype Filter = Filter(issueKey: string, issueID: string, attempt: int, kind: string, limit: int)

  predicate Matches(f: Filter, e: Event) {
    && (f.issueKey != "" ==> e.issueKey == f.issueKey)
    && (f.issueID != "" ==> e.issueID == f.issueID)
    && (f.attempt > 0 ==> e.attempt == f.attempt)
    && (f.kind != "" ==> e.kind == f.kind)
  }

  function LimitOf(f: Filter): nat {
    if f.limit <= 0 then 10 else f.limit
  }

  /** The matching events in append order. */
  function Matching(rows: seq<Event>, f: Filter): seq<Event> {
    if rows == [] then []
    else Matching(rows[..|rows| - 1], f) + if Matches(f, rows[|rows| - 1]) then [rows[|rows| - 1]] else []
  }

  function LastOf<T>(s: seq<T>, limit: nat): seq<T> {
    if |s| <= limit then s else s[|s| - limit..]
  }

  function Reversed<T>(s: seq<T>): (r: seq<T>)
    ensures |r| == |s|
  {
    seq(|s|, k requires 0 <= k < |s| => s[|s| - 1 - k])
  }

  /** Swaps the ends inwards until they meet. */
  method ReverseInPlace(events: array<Event>)
    modifies events
    ensures events[..] == Reversed(old(events[..]))
  {
    ghost var was := events[..];
    var i, j := 0, events.Length - 1;
    while i < j
      invariant 0 <= i <= j + 2 && j == events.Length - 1 - i
      invariant forall k :: i <= k <= j ==> events[k] == was[k]
      invariant forall k :: 0 <= k < i ==> events[k] == was[|was| - 1 - k]
      invariant forall k :: j < k < |was| ==> events[k] == was[|was| - 1 - k]
    {
      events[i], events[j] := events[j], events[i];
      i, j := i + 1, j - 1;
    }
  }

  class Log {
    var rows: seq<Event>

    constructor ()
      ensures rows == []
    {
      rows := [];
    }

    /** `validJSON` says whether the payload could be encoded, `clock` what the time is. */
    method Append(e: Event, validJSON: bool, clock: Time) returns (ok: bool)
      modifies this
      ensures ok <==> validJSON && e.source != "" && e.kind != "" && 0 <= e.attempt
      ensures !ok ==> rows == old(rows)
      ensures ok && e.occurredAt != ZERO_TIME ==> rows == AppendTo(old(rows), e)
      ensures ok && e.occurredAt == ZERO_TIME ==> rows == AppendTo(old(rows), e.(occurredAt := clock))
    {
      if !validJSON || e.source == "" || e.kind == "" || e.attempt < 0 { return false; }
      var dated := if e.occurredAt == ZERO_TIME then e.(occurredAt := clock) else e;
      if !Known(rows, dated) { rows := rows + [dated]; }
      return true;
    }

    /** The rows the query selects: newest first, at most `limit` of them. */
    method Newest(f: Filter, limit: nat) returns (picked: seq<Event>)
      ensures picked == Reversed(LastOf(Matching(rows, f), limit))
    {
      picked := [];
      var k := |rows|;
      assert rows[..k] == rows;
      while k > 0 && |picked| < limit
        invariant 0 <= k <= |rows| && |picked| <= limit
        invariant Matching(rows, f) == Matching(rows[..k], f) + Reversed(picked)
      {
        k := k - 1;
        assert rows[..k + 1][..k] == rows[..k];
        if Matches(f, rows[k]) {
          ReversedSnoc(picked, rows[k]);
          picked := picked + [rows[k]];
        }
      }
      if k == 0 { assert rows[..k] == []; }
      assert LastOf(Matching(rows, f), limit) == Reversed(picked);
      ReversedTwice(picked);
    }

    /** Exactly the last events that match, at most as many as the limit, in append
        order. */
    method Events(f: Filter) returns (events: seq<Event>)
      ensures events == LastOf(Matching(rows, f), LimitOf(f))
    {
      var limit := if f.limit <= 0 then 10 else f.limit;
      var picked := Newest(f, limit);
      var buffer := new Event[|picked|](k requires 0 <= k < |picked| => picked[k]);
      assert buffer[..] == picked;
      ReverseInPlace(buffer);
      ReversedTwice(LastOf(Matching(rows, f), limit));
      return buffer[..];
    }
  }

  lemma ReversedTwice<T>(s: seq<T>)
    ensures Reversed(Reversed(s)) == s
  {
  }

  lemma ReversedSnoc<T>(s: seq<T>, x: T)
    ensures Reversed(s + [x]) == [x] + Reversed(s)
  {
  }

  // ----- properties -----

  /** Appending the same event again changes nothing, and IDs stay unique. */
  lemma AppendIsIdempotent(rows: seq<Event>, e: Event)
    ensures AppendTo(AppendTo(rows, e), e) == AppendTo(rows, e)
    ensures DistinctIDs(rows) ==> DistinctIDs(AppendTo(rows, e))
    ensures rows <= AppendTo(rows, e) && Known(AppendTo(rows, e), e)
  {
    if !Known(rows, e) { assert AppendTo(rows, e)[|rows|] == e; }
  }

  /** The issue ID is not hashed: an event that differs in nothing else is dropped. */
  lemma IssueIDIsNotDistinguished(rows: seq<Event>, e: Event, otherID: string)
    ensures AppendTo(AppendTo(rows, e), e.(issueID := otherID)) == AppendTo(rows, e)
  {
    AppendIsIdempotent(rows, e);
    var r := AppendTo(rows, e);
    var k :| 0 <= k < |r| && IDOf(r[k]) == IDOf(e);
    assert IDOf(r[k]) == IDOf(e.(issueID := otherID));
  }

  lemma {:induction false} MatchingIsASubsequence(rows: seq<Event>, f: Filter, e: Event)
    ensures e in Matching(rows, f) <==> e in rows && Matches(f, e)
  {
    if rows != [] {
      MatchingIsASubsequence(rows[..|rows| - 1], f, e);
      assert rows == rows[..|rows| - 1] + [rows[|rows| - 1]];
    }
  }

  /** The query in the words of its filter: an event is found if and only if it is in the
      log and agrees with every field the filter sets. */
  lemma FoundExactly(rows: seq<Event>, f: Filter, e: Event)
    ensures e in Matching(rows, f) <==>
      && e in rows
      && (f.issueKey == "" || f.issueKey == e.issueKey) && (f.issueID == "" || f.issueID == e.issueID)
      && (f.attempt <= 0 || f.attempt == e.attempt) && (f.kind == "" || f.kind == e.kind)
  {
    MatchingIsASubsequence(rows, f, e);
  }

  /** The answer is the end of what was found: all of it if it is no more than asked for,
      and as much as asked for otherwise, which is ten unless the filter says. */
  lemma AnswersAreLimited(found: seq<Event>, f: Filter)
    ensures var asked := if f.limit > 0 then f.limit else 10;
      var answer := LastOf(found, LimitOf(f));
      && |answer| == (if |found| < asked then |found| else asked)
      && found == found[..|found| - |answer|] + answer
  {
  }

  /** An event is known if and only if some row agrees with it in everything but the
      issue ID. */
  lemma KnownExactly(rows: seq<Event>, e: Event)
    ensures Known(rows, e) <==> exists k :: 0 <= k < |rows| && rows[k] == e.(issueID := rows[k].issueID)
  {
    if k :| 0 <= k < |rows| && IDOf(rows[k]) == IDOf(e) { assert rows[k] == e.(issueID := rows[k].issueID); }
    if k :| 0 <= k < |rows| && rows[k] == e.(issueID := rows[k].issueID) { assert IDOf(rows[k]) == IDOf(e); }
  }

  lemma LastOfSnoc<T>(s: seq<T>, x: T, limit: nat)
    requires limit > 0
    ensures LastOf(s + [x], limit) == LastOf(s, limit - 1) + [x]
  {
  }

  /** Querying after an append: a new matching event comes last and pushes out at most
      the oldest; any other append leaves the answer alone. */
  lemma QueryAfterAppend(rows: seq<Event>, e: Event, f: Filter)
    ensures var limit := LimitOf(f);
      LastOf(Matching(AppendTo(rows, e), f), limit) ==
        if Known(rows, e) || !Matches(f, e) then LastOf(Matching(rows, f), limit)
        else LastOf(Matching(rows, f), limit - 1) + [e]
  {
    if !Known(rows, e) {
      assert (rows + [e])[..|rows|] == rows;
      if Matches(f, e) {
        assert Matching(rows + [e], f) == Matching(rows, f) + [e];
        LastOfSnoc(Matching(rows, f), e, LimitOf(f));
      } else {
        assert Matching(rows + [e], f) == Matching(rows, f) + [] == Matching(rows, f);
      }
    }
  }
}
