/**
 * Zap events as the view caches hold them, the duplicate gate, and the order the
 * caches keep: `created_at` descending, ties in arrival order (the result of the
 * stable `Array.prototype.sort` with comparator `b.created_at - a.created_at`).
 */
module ZapEvents {
  import opened Wrappers

  /** A relay event; `reference` is the event its `e` tag points to, once resolved. */
  datatype Event = Event(
    id: string,
    kind: int,
    pubkey: string,
    content: string,
    createdAt: int,
    tags: seq<seq<string>>,
    reference: Option<Event>)

  /** `a` may stand before `b` in a cache: it is at least as recent. */
  predicate AtLeastAsRecent(a: Event, b: Event)
  {
    a.createdAt >= b.createdAt
  }

  predicate DifferentIds(a: Event, b: Event)
  {
    a.id != b.id
  }

  predicate SortedByTimeDesc(s: seq<Event>)
  {
    forall i, j {:trigger AtLeastAsRecent(s[i], s[j])} :: 0 <= i < j < |s| ==> AtLeastAsRecent(s[i], s[j])
  }

  predicate UniqueIds(s: seq<Event>)
  {
    forall i, j {:trigger DifferentIds(s[i], s[j])} :: 0 <= i < j < |s| ==> DifferentIds(s[i], s[j])
  }

  predicate HasId(s: seq<Event>, id: string)
  {
    exists i :: 0 <= i < |s| && s[i].id == id
  }

  /** Same kind, author, content and timestamp: a re-signed copy of the same zap. */
  predicate SameTuple(a: Event, b: Event)
  {
    a.kind == b.kind && a.pubkey == b.pubkey && a.content == b.content && a.createdAt == b.createdAt
  }

  /** The duplicate gate of `handleZapEvent`: some cached event has the id, or the tuple. */
  predicate IsDuplicate(cache: seq<Event>, e: Event)
  {
    exists i :: 0 <= i < |cache| && (cache[i].id == e.id || SameTuple(cache[i], e))
  }

  // ---------------------------------------------------------------------------
  // Stable insertion by created_at, descending
  // ---------------------------------------------------------------------------

  /** Places `e` behind every leading element at least as recent as it. */
  function InsertByTime(s: seq<Event>, e: Event): (r: seq<Event>)
    ensures |r| == |s| + 1
    ensures multiset(r) == multiset(s) + multiset{e}
  {
    if s == [] then [e]
    else if s[0].createdAt >= e.createdAt then
      assert s == [s[0]] + s[1..];
      [s[0]] + InsertByTime(s[1..], e)
    else [e] + s
  }

  /** The stable sort of `s` by `created_at`, most recent first. */
  function SortByTimeDesc(s: seq<Event>): (r: seq<Event>)
    ensures SortedByTimeDesc(r)
    ensures multiset(r) == multiset(s)
    decreases |s|
  {
    if s == [] then []
    else
      var front := SortByTimeDesc(s[..|s| - 1]);
      InsertKeepsSorted(front, s[|s| - 1]);
      MultisetOfLast(s);
      InsertByTime(front, s[|s| - 1])
  }

  /** A non-empty sequence holds its front and its last element. */
  lemma MultisetOfLast(s: seq<Event>)
    requires s != []
    ensures multiset(s) == multiset(s[..|s| - 1]) + multiset{s[|s| - 1]}
  {
    assert s == s[..|s| - 1] + [s[|s| - 1]];
  }

  /** A suffix of an ordered cache is ordered. */
  lemma SortedSuffix(s: seq<Event>, k: nat)
    requires SortedByTimeDesc(s) && k <= |s|
    ensures SortedByTimeDesc(s[k..])
  {
    forall i, j | 0 <= i < j < |s[k..]| ensures AtLeastAsRecent(s[k..][i], s[k..][j]) {
      assert AtLeastAsRecent(s[i + k], s[j + k]);
    }
  }

  /** Putting an event at least as recent as everything in an ordered cache in front keeps it ordered. */
  lemma SortedCons(x: Event, s: seq<Event>)
    requires SortedByTimeDesc(s)
    requires forall j :: 0 <= j < |s| ==> AtLeastAsRecent(x, s[j])
    ensures SortedByTimeDesc([x] + s)
  {
    var r := [x] + s;
    forall i, j | 0 <= i < j < |r| ensures AtLeastAsRecent(r[i], r[j]) {
      assert r[j] == s[j - 1];
      if i > 0 {
        assert r[i] == s[i - 1];
        assert AtLeastAsRecent(s[i - 1], s[j - 1]);
      }
    }
  }

  lemma {:induction false} InsertKeepsSorted(s: seq<Event>, e: Event)
    requires SortedByTimeDesc(s)
    ensures SortedByTimeDesc(InsertByTime(s, e))
  {
    if s == [] {
    } else if s[0].createdAt >= e.createdAt {
      var rest := InsertByTime(s[1..], e);
      SortedSuffix(s, 1);
      InsertKeepsSorted(s[1..], e);
      forall j | 0 <= j < |rest| ensures AtLeastAsRecent(s[0], rest[j]) {
        assert rest[j] in multiset(rest);
        if rest[j] != e {
          assert rest[j] in multiset(s[1..]);
          var k :| 0 <= k < |s[1..]| && s[1..][k] == rest[j];
          assert AtLeastAsRecent(s[0], s[k + 1]);
        }
      }
      SortedCons(s[0], rest);
    } else {
      forall j | 0 <= j < |s| ensures AtLeastAsRecent(e, s[j]) {
        if j > 0 { assert AtLeastAsRecent(s[0], s[j]); }
      }
      SortedCons(e, s);
    }
  }

  /** Where `InsertByTime` puts `e`: behind the leading run of elements at least as recent. */
  function InsertPos(s: seq<Event>, e: Event): (k: nat)
    ensures k <= |s|
  {
    if s == [] || s[0].createdAt < e.createdAt then 0 else 1 + InsertPos(s[1..], e)
  }

  /** Everything before the insertion point is at least as recent as `e`, the element at it is older. */
  lemma {:induction false} InsertPosBounds(s: seq<Event>, e: Event)
    ensures forall i :: 0 <= i < InsertPos(s, e) ==> s[i].createdAt >= e.createdAt
    ensures InsertPos(s, e) < |s| ==> s[InsertPos(s, e)].createdAt < e.createdAt
  {
    if s != [] && s[0].createdAt >= e.createdAt {
      InsertPosBounds(s[1..], e);
      forall i | 0 < i < InsertPos(s, e) ensures s[i].createdAt >= e.createdAt {
        assert s[i] == s[1..][i - 1];
      }
    }
  }

  /** Inserting is splitting at the insertion point and putting `e` between the halves. */
  lemma {:induction false} InsertByTimeSplits(s: seq<Event>, e: Event)
    ensures InsertByTime(s, e) == s[..InsertPos(s, e)] + [e] + s[InsertPos(s, e)..]
  {
    if s != [] && s[0].createdAt >= e.createdAt {
      var k' := InsertPos(s[1..], e);
      InsertByTimeSplits(s[1..], e);
      assert s[..k' + 1] == [s[0]] + s[1..][..k'];
      assert s[k' + 1..] == s[1..][k'..];
    }
  }

  /** Inserting `e` keeps every other element in place: `e` lands at `k`, the rest keep their order. */
  lemma InsertByTimeAt(s: seq<Event>, e: Event) returns (k: nat)
    ensures k <= |s|
    ensures InsertByTime(s, e)[k] == e
    ensures forall i :: 0 <= i < k ==> InsertByTime(s, e)[i] == s[i] && s[i].createdAt >= e.createdAt
    ensures forall i :: k <= i < |s| ==> InsertByTime(s, e)[i + 1] == s[i]
    ensures k < |s| ==> s[k].createdAt < e.createdAt
  {
    k := InsertPos(s, e);
    InsertByTimeSplits(s, e);
    InsertPosBounds(s, e);
  }

  /** In an ordered cache, `e` goes in front of every strictly older zap and behind all others. */
  lemma InsertByTimePlace(s: seq<Event>, e: Event) returns (k: nat)
    requires SortedByTimeDesc(s)
    ensures k <= |s|
    ensures InsertByTime(s, e)[k] == e
    ensures forall i :: 0 <= i < k ==> InsertByTime(s, e)[i] == s[i] && s[i].createdAt >= e.createdAt
    ensures forall i :: k <= i < |s| ==> InsertByTime(s, e)[i + 1] == s[i] && s[i].createdAt < e.createdAt
  {
    k := InsertByTimeAt(s, e);
    forall i | k < i < |s| ensures s[i].createdAt < e.createdAt {
      assert AtLeastAsRecent(s[k], s[i]);
    }
  }

  /** An element no more recent than everything before it is appended at the end. */
  lemma {:induction false} InsertOldestAppends(s: seq<Event>, e: Event)
    requires forall i :: 0 <= i < |s| ==> s[i].createdAt >= e.createdAt
    ensures InsertByTime(s, e) == s + [e]
  {
    if s != [] {
      InsertOldestAppends(s[1..], e);
      assert s == [s[0]] + s[1..];
    }
  }

  /** Sorting an already ordered cache changes nothing (the sort is stable). */
  lemma {:induction false} SortSortedIsIdentity(s: seq<Event>)
    requires SortedByTimeDesc(s)
    ensures SortByTimeDesc(s) == s
    decreases |s|
  {
    if s != [] {
      var front, last := s[..|s| - 1], s[|s| - 1];
      SortedPrefix(s);
      SortSortedIsIdentity(front);
      InsertOldestAppends(front, last);
      assert front + [last] == s;
    }
  }

  /** Dropping the oldest zap of an ordered cache leaves it ordered, with every zap at least as recent. */
  lemma SortedPrefix(s: seq<Event>)
    requires SortedByTimeDesc(s) && s != []
    ensures SortedByTimeDesc(s[..|s| - 1])
    ensures forall i :: 0 <= i < |s| - 1 ==> s[i].createdAt >= s[|s| - 1].createdAt
  {
    var front := s[..|s| - 1];
    forall i, j | 0 <= i < j < |front| ensures AtLeastAsRecent(front[i], front[j]) {
      assert AtLeastAsRecent(s[i], s[j]);
    }
    forall i | 0 <= i < |front| ensures front[i].createdAt >= s[|s| - 1].createdAt {
      assert AtLeastAsRecent(s[i], s[|s| - 1]);
    }
  }

  /** Appending an event to an ordered cache and sorting is inserting it at its place. */
  lemma AppendThenSortIsInsert(s: seq<Event>, e: Event)
    requires SortedByTimeDesc(s)
    ensures SortByTimeDesc(s + [e]) == InsertByTime(s, e)
  {
    assert (s + [e])[..|s + [e]| - 1] == s;
    SortSortedIsIdentity(s);
  }

  /** Inserting an event whose id is new keeps ids unique. */
  lemma InsertKeepsUniqueIds(s: seq<Event>, e: Event)
    requires UniqueIds(s)
    requires !HasId(s, e.id)
    ensures UniqueIds(InsertByTime(s, e))
  {
    var k := InsertByTimeAt(s, e);
    var r := InsertByTime(s, e);
    forall i, j | 0 <= i < j < |r| ensures DifferentIds(r[i], r[j]) {
      if i < k {
        assert r[i] == s[i];
        if j == k { assert r[j] == e; }
        else if j < k { assert r[j] == s[j]; assert DifferentIds(s[i], s[j]); }
        else { assert r[j] == s[j - 1]; if i < j - 1 { assert DifferentIds(s[i], s[j - 1]); } }
      } else if i == k {
        assert r[i] == e && r[j] == s[j - 1];
      } else {
        assert r[i] == s[i - 1] && r[j] == s[j - 1];
        assert DifferentIds(s[i - 1], s[j - 1]);
      }
    }
  }

  // ---------------------------------------------------------------------------
  // The `e` tag
  // ---------------------------------------------------------------------------

  /** A tag whose first entry is the name "e". */
  predicate IsETag(tag: seq<string>)
  {
    |tag| >= 1 && tag[0] == "e"
  }

  /** The first tag named "e", as the event's `find` over its tags returns it. */
  function FindETag(tags: seq<seq<string>>): (r: Option<seq<string>>)
    ensures r.Some? ==> exists i :: 0 <= i < |tags| && tags[i] == r.value && IsETag(tags[i])
                                   && forall j :: 0 <= j < i ==> !IsETag(tags[j])
    ensures r.None? <==> forall i :: 0 <= i < |tags| ==> !IsETag(tags[i])
  {
    if tags == [] then None
    else if IsETag(tags[0]) then Some(tags[0])
    else
      assert forall i :: 1 <= i < |tags| ==> tags[i] == tags[1..][i - 1];
      FindETag(tags[1..])
  }

  /** `eTag[1]`, with the empty string for an absent entry (both are falsy). */
  function TagValue(tag: seq<string>): string
  {
    if |tag| >= 2 then tag[1] else ""
  }
}
