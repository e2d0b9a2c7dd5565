/**
 * Notes and the final `notes.sort(key=lambda x: x[0])` of converter.py: a stable
 * sort of the collected notes by start time.
 */
module Notes {

  /** The tuple (start_time, midi_note, duration, velocity) a transform appends. */
  datatype Note = Note(start: real, pitch: int, duration: real, velocity: int)

  ghost predicate SortedByStart(s: seq<Note>)
  {
    forall a, b :: 0 <= a < b < |s| ==> s[a].start <= s[b].start
  }

  /** [n] when n starts at t, else []. */
  function IfStartsAt(n: Note, t: real): seq<Note>
  {
    if n.start == t then [n] else []
  }

  /** The notes of s that start at time t, in their order in s. */
  function StartingAt(s: seq<Note>, t: real): (r: seq<Note>)
    ensures forall k :: 0 <= k < |r| ==> r[k].start == t
  {
    if s == [] then [] else IfStartsAt(s[0], t) + StartingAt(s[1..], t)
  }

  lemma StartingAtSingleton(n: Note, t: real)
    ensures StartingAt([n], t) == IfStartsAt(n, t)
  {
    assert StartingAt([n], t) == IfStartsAt(n, t) + StartingAt([], t);
  }

  lemma {:induction false} StartingAtAppend(s: seq<Note>, u: seq<Note>, t: real)
    ensures StartingAt(s + u, t) == StartingAt(s, t) + StartingAt(u, t)
  {
    if s == [] {
      assert s + u == u;
    } else {
      assert (s + u)[1..] == s[1..] + u;
      StartingAtAppend(s[1..], u, t);
    }
  }

  lemma {:induction false} StartingAtNone(s: seq<Note>, t: real)
    requires forall k :: 0 <= k < |s| ==> s[k].start != t
    ensures StartingAt(s, t) == []
  {
    if s != [] {
      StartingAtNone(s[1..], t);
    }
  }

  /** Put n before the first note that starts strictly later. */
  function InsertByStart(n: Note, sorted: seq<Note>): (r: seq<Note>)
    ensures |r| == |sorted| + 1
  {
    if sorted == [] then [n]
    else if n.start < sorted[0].start then [n] + sorted
    else [sorted[0]] + InsertByStart(n, sorted[1..])
  }

  lemma {:induction false} InsertByStartPermutes(n: Note, sorted: seq<Note>)
    ensures multiset(InsertByStart(n, sorted)) == multiset(sorted) + multiset{n}
  {
    if sorted != [] && n.start >= sorted[0].start {
      InsertByStartPermutes(n, sorted[1..]);
      assert sorted == [sorted[0]] + sorted[1..];
    }
  }

  /** No note of s starts before t. */
  ghost predicate StartsNoEarlier(s: seq<Note>, t: real)
  {
    forall k :: 0 <= k < |s| ==> t <= s[k].start
  }

  lemma ConsSorted(head: Note, s: seq<Note>)
    requires SortedByStart(s) && StartsNoEarlier(s, head.start)
    ensures SortedByStart([head] + s)
  {
    var r := [head] + s;
    forall a, b | 0 <= a < b < |r| ensures r[a].start <= r[b].start {
      assert r[b] == s[b - 1];
      if a > 0 {
        assert r[a] == s[a - 1];
      }
    }
  }

  /** A sorted list followed by notes that all start at t, no earlier than the list's notes, is sorted. */
  lemma AppendSameStart(front: seq<Note>, tail: seq<Note>, t: real)
    requires SortedByStart(front)
    requires forall k :: 0 <= k < |front| ==> front[k].start <= t
    requires forall k :: 0 <= k < |tail| ==> tail[k].start == t
    ensures SortedByStart(front + tail)
  {
    var all := front + tail;
    forall a, b | 0 <= a < b < |all| ensures all[a].start <= all[b].start {
      if b < |front| {
        assert all[a] == front[a] && all[b] == front[b];
      } else if a < |front| {
        assert all[a] == front[a] && all[b] == tail[b - |front|];
      } else {
        assert all[a] == tail[a - |front|] && all[b] == tail[b - |front|];
      }
    }
  }

  /** Two lists whose notes all start by t concatenate to one whose notes all start by t. */
  lemma AppendStartsBy(front: seq<Note>, tail: seq<Note>, t: real)
    requires forall k :: 0 <= k < |front| ==> front[k].start <= t
    requires forall k :: 0 <= k < |tail| ==> tail[k].start <= t
    ensures forall k :: 0 <= k < |front + tail| ==> (front + tail)[k].start <= t
  {
    forall k | 0 <= k < |front + tail| ensures (front + tail)[k].start <= t {
      if k >= |front| {
        assert (front + tail)[k] == tail[k - |front|];
      }
    }
  }

  /** The lists joined end to end, in order. */
  function Concat(lists: seq<seq<Note>>): seq<Note>
  {
    if lists == [] then [] else Concat(lists[..|lists| - 1]) + lists[|lists| - 1]
  }

  /** One more list appends its notes. */
  lemma ConcatStep(lists: seq<seq<Note>>, n: nat)
    requires n < |lists|
    ensures Concat(lists[..n + 1]) == Concat(lists[..n]) + lists[n]
  {
    assert lists[..n + 1][..n] == lists[..n];
  }

  /** A note is in the joined list exactly when it is in one of the lists. */
  lemma {:induction false} ConcatMembers(lists: seq<seq<Note>>)
    ensures forall n :: n in Concat(lists) <==> exists i :: 0 <= i < |lists| && n in lists[i]
  {
    if lists != [] {
      var last := |lists| - 1;
      var front := lists[..last];
      ConcatMembers(front);
      forall n | n in Concat(lists) ensures exists i :: 0 <= i < |lists| && n in lists[i] {
        if n in Concat(front) {
          var i :| 0 <= i < |front| && n in front[i];
          assert front[i] == lists[i];
        } else {
          assert n in lists[last];
        }
      }
      forall n, i | 0 <= i < |lists| && n in lists[i] ensures n in Concat(lists) {
        if i < last {
          assert front[i] == lists[i];
        }
      }
    }
  }

  /**
   * Lists whose notes all start at the list's own time, with the times in
   * non-decreasing order, join into a list sorted by start time whose notes all
   * start by the last time. The second requires is Segments.NonDecreasingTimes
   * written out, since this module does not depend on Segments.
   */
  lemma {:induction false} ConcatSorted(lists: seq<seq<Note>>, times: seq<real>)
    requires |times| == |lists|
    requires forall a, b :: 0 <= a < b < |times| ==> times[a] <= times[b]
    requires forall i, k :: 0 <= i < |lists| && 0 <= k < |lists[i]| ==> lists[i][k].start == times[i]
    ensures SortedByStart(Concat(lists))
    ensures |lists| > 0 ==> forall k :: 0 <= k < |Concat(lists)| ==> Concat(lists)[k].start <= times[|times| - 1]
  {
    if lists != [] {
      var last := |lists| - 1;
      var front := lists[..last];
      var t := times[last];
      ConcatSorted(front, times[..last]);
      var joined := Concat(front);
      assert forall k :: 0 <= k < |joined| ==> joined[k].start <= t by {
        if last > 0 {
          assert times[last - 1] <= t;
        }
      }
      assert forall k :: 0 <= k < |lists[last]| ==> lists[last][k].start == t;
      AppendSameStart(joined, lists[last], t);
      AppendStartsBy(joined, lists[last], t);
    }
  }

  lemma {:induction false} InsertStartsNoEarlier(n: Note, sorted: seq<Note>, t: real)
    requires StartsNoEarlier(sorted, t) && t <= n.start
    ensures StartsNoEarlier(InsertByStart(n, sorted), t)
  {
    if sorted != [] && n.start >= sorted[0].start {
      InsertStartsNoEarlier(n, sorted[1..], t);
      assert InsertByStart(n, sorted) == [sorted[0]] + InsertByStart(n, sorted[1..]);
    }
  }

  lemma {:induction false} InsertByStartSorted(n: Note, sorted: seq<Note>)
    requires SortedByStart(sorted)
    ensures SortedByStart(InsertByStart(n, sorted))
  {
    if sorted == [] {
    } else if n.start < sorted[0].start {
      ConsSorted(n, sorted);
    } else {
      var rest := sorted[1..];
      InsertByStartSorted(n, rest);
      InsertStartsNoEarlier(n, rest, sorted[0].start);
      ConsSorted(sorted[0], InsertByStart(n, rest));
    }
  }

  /** A note that starts before every note of a sorted list can go in front: no note of the list shares its start. */
  lemma InsertInFrontStable(n: Note, sorted: seq<Note>, t: real)
    requires SortedByStart(sorted)
    requires sorted != [] && n.start < sorted[0].start
    ensures StartingAt([n] + sorted, t) == StartingAt(sorted, t) + IfStartsAt(n, t)
  {
    StartingAtAppend([n], sorted, t);
    StartingAtSingleton(n, t);
    if n.start == t {
      assert forall k :: 0 <= k < |sorted| ==> sorted[0].start <= sorted[k].start;
      StartingAtNone(sorted, t);
    }
  }

  /** Inserting into a sorted list keeps the relative order of each start time, n last among its equals. */
  lemma {:induction false} InsertByStartStable(n: Note, sorted: seq<Note>, t: real)
    requires SortedByStart(sorted)
    ensures StartingAt(InsertByStart(n, sorted), t) == StartingAt(sorted, t) + IfStartsAt(n, t)
  {
    if sorted == [] {
      StartingAtSingleton(n, t);
    } else if n.start < sorted[0].start {
      InsertInFrontStable(n, sorted, t);
    } else {
      var rest := sorted[1..];
      var inserted := InsertByStart(n, rest);
      assert InsertByStart(n, sorted) == [sorted[0]] + inserted;
      assert ([sorted[0]] + inserted)[1..] == inserted;
      assert SortedByStart(rest) by {
        forall a, b | 0 <= a < b < |rest| ensures rest[a].start <= rest[b].start {
          assert rest[a] == sorted[a + 1] && rest[b] == sorted[b + 1];
        }
      }
      InsertByStartStable(n, rest, t);
      var head := IfStartsAt(sorted[0], t);
      calc {
        StartingAt(InsertByStart(n, sorted), t);
        head + StartingAt(inserted, t);
        head + (StartingAt(rest, t) + IfStartsAt(n, t));
        (head + StartingAt(rest, t)) + IfStartsAt(n, t);
        StartingAt(sorted, t) + IfStartsAt(n, t);
      }
    }
  }

  lemma {:induction false} InsertAtEnd(n: Note, sorted: seq<Note>)
    requires forall k :: 0 <= k < |sorted| ==> sorted[k].start <= n.start
    ensures InsertByStart(n, sorted) == sorted + [n]
  {
    if sorted != [] {
      InsertAtEnd(n, sorted[1..]);
      assert sorted == [sorted[0]] + sorted[1..];
    }
  }

  /** list.sort(key=start): insertion of each note, in list order, into the sorted prefix. */
  function SortByStart(s: seq<Note>): (r: seq<Note>)
    ensures |r| == |s|
  {
    if s == [] then [] else InsertByStart(s[|s| - 1], SortByStart(s[..|s| - 1]))
  }

  /** The sorted list is ordered by start time and is a permutation of its input. */
  lemma {:induction false} SortByStartSorted(s: seq<Note>)
    ensures SortedByStart(SortByStart(s))
    ensures multiset(SortByStart(s)) == multiset(s)
  {
    if s != [] {
      var last := |s| - 1;
      SortByStartSorted(s[..last]);
      InsertByStartSorted(s[last], SortByStart(s[..last]));
      InsertByStartPermutes(s[last], SortByStart(s[..last]));
      assert s == s[..last] + [s[last]];
    }
  }

  /** Stability: notes with equal start times keep the order in which they were emitted. */
  lemma {:induction false} SortByStartStable(s: seq<Note>, t: real)
    ensures StartingAt(SortByStart(s), t) == StartingAt(s, t)
  {
    if s != [] {
      var last := |s| - 1;
      SortByStartSorted(s[..last]);
      SortByStartStable(s[..last], t);
      InsertByStartStable(s[last], SortByStart(s[..last]), t);
      assert s == s[..last] + [s[last]];
      StartingAtAppend(s[..last], [s[last]], t);
      StartingAtSingleton(s[last], t);
    }
  }

  /** Sorting a list already in start order changes nothing. */
  lemma {:induction false} SortByStartKeepsSorted(s: seq<Note>)
    requires SortedByStart(s)
    ensures SortByStart(s) == s
  {
    if s != [] {
      var last := |s| - 1;
      SortByStartKeepsSorted(s[..last]);
      InsertAtEnd(s[last], s[..last]);
      assert s == s[..last] + [s[last]];
    }
  }
}
