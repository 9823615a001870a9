/** The history reconciler: the functional updater handed to `setPedestrianHistory`.
    It collects the ids already in the history and appends every incoming record whose
    id is not among them, in incoming order. It does not compare incoming records with
    each other, so two records of one batch that share an id are both appended. */
module History {
  import opened Records

  /** `new Set(prev.map((ped) => ped.id))` */
  function Ids(h: seq<Pedestrian>): (ids: set<string>)
    ensures forall k :: 0 <= k < |h| ==> h[k].id in ids
    ensures forall id :: id in ids ==> exists k :: 0 <= k < |h| && h[k].id == id
  {
    set k | 0 <= k < |h| :: h[k].id
  }

  /** `incoming.filter((ped) => !existingIds.has(ped.id))` */
  function Unseen(existing: set<string>, incoming: seq<Pedestrian>): (u: seq<Pedestrian>)
    ensures |u| <= |incoming|
    ensures forall r :: r in u ==> r in incoming && r.id !in existing
  {
    if incoming == [] then []
    else (if incoming[0].id in existing then [] else [incoming[0]]) + Unseen(existing, incoming[1..])
  }

  /** `[...prev, ...uniqueNew]` */
  function Merge(h: seq<Pedestrian>, incoming: seq<Pedestrian>): (m: seq<Pedestrian>)
    ensures |h| <= |m| <= |h| + |incoming|
    ensures m[..|h|] == h
  {
    h + Unseen(Ids(h), incoming)
  }

  /** No two records share an id. */
  predicate DistinctIds(h: seq<Pedestrian>) {
    forall i, j :: 0 <= i < j < |h| ==> h[i].id != h[j].id
  }

  /** The filter keeps exactly the incoming records whose id is not already known. */
  lemma {:induction false} UnseenExactly(existing: set<string>, incoming: seq<Pedestrian>)
    ensures forall r :: r in Unseen(existing, incoming) <==> r in incoming && r.id !in existing
  {
    if incoming != [] {
      UnseenExactly(existing, incoming[1..]);
      assert incoming == [incoming[0]] + incoming[1..];
    }
  }

  /** The filter keeps nothing when every incoming id is already known. */
  lemma {:induction false} UnseenNone(existing: set<string>, incoming: seq<Pedestrian>)
    requires forall k :: 0 <= k < |incoming| ==> incoming[k].id in existing
    ensures Unseen(existing, incoming) == []
  {
    if incoming != [] {
      UnseenNone(existing, incoming[1..]);
    }
  }

  /** When no incoming id is known, the filter keeps the whole batch, records that share
      an id included. */
  lemma {:induction false} UnseenAll(existing: set<string>, incoming: seq<Pedestrian>)
    requires forall k :: 0 <= k < |incoming| ==> incoming[k].id !in existing
    ensures Unseen(existing, incoming) == incoming
  {
    if incoming != [] {
      UnseenAll(existing, incoming[1..]);
      assert incoming == [incoming[0]] + incoming[1..];
    }
  }

  /** The positions, from `from` on, of the incoming records whose id is not known, in
      increasing order: an index-level description of what the filter keeps. */
  function NewPositions(existing: set<string>, incoming: seq<Pedestrian>, from: nat): (ps: seq<nat>)
    requires from <= |incoming|
    decreases |incoming| - from
    ensures forall j :: 0 <= j < |ps| ==> from <= ps[j] < |incoming| && incoming[ps[j]].id !in existing
    ensures forall i, j :: 0 <= i < j < |ps| ==> ps[i] < ps[j]
  {
    if from == |incoming| then []
    else (if incoming[from].id in existing then [] else [from]) + NewPositions(existing, incoming, from + 1)
  }

  /** No position with an unknown id is missed. */
  lemma {:induction false} NewPositionsComplete(existing: set<string>, incoming: seq<Pedestrian>, from: nat)
    requires from <= |incoming|
    decreases |incoming| - from
    ensures forall k :: from <= k < |incoming| && incoming[k].id !in existing ==>
      k in NewPositions(existing, incoming, from)
  {
    if from < |incoming| {
      NewPositionsComplete(existing, incoming, from + 1);
      var later := NewPositions(existing, incoming, from + 1);
      var head: seq<nat> := if incoming[from].id in existing then [] else [from];
      assert NewPositions(existing, incoming, from) == head + later;
      forall k | from <= k < |incoming| && incoming[k].id !in existing
        ensures k in head + later
      {
        if k == from { assert head == [from]; } else { assert k in later; }
      }
    }
  }

  /** The filter keeps the incoming records in incoming order: its j-th record is the
      one at the j-th position whose id is not known. */
  lemma {:induction false} UnseenInOrder(existing: set<string>, incoming: seq<Pedestrian>, from: nat)
    requires from <= |incoming|
    decreases |incoming| - from
    ensures var u := Unseen(existing, incoming[from..]);
      var ps := NewPositions(existing, incoming, from);
      |u| == |ps| && forall j :: 0 <= j < |ps| ==> u[j] == incoming[ps[j]]
  {
    if from < |incoming| {
      var rest := incoming[from..];
      assert rest[0] == incoming[from];
      assert rest[1..] == incoming[from + 1..];
      UnseenInOrder(existing, incoming, from + 1);
      var tail := Unseen(existing, incoming[from + 1..]);
      var later := NewPositions(existing, incoming, from + 1);
      var u := Unseen(existing, rest);
      var ps := NewPositions(existing, incoming, from);
      if incoming[from].id in existing {
        assert u == tail;
        assert ps == later;
      } else {
        assert u == [incoming[from]] + tail;
        assert ps == [from] + later;
        forall j | 0 <= j < |ps| ensures u[j] == incoming[ps[j]] {
          if j > 0 {
            assert u[j] == tail[j - 1] && ps[j] == later[j - 1];
          }
        }
      }
    }
  }

  /** Ids of a concatenation. */
  lemma IdsAppend(a: seq<Pedestrian>, b: seq<Pedestrian>)
    ensures Ids(a + b) == Ids(a) + Ids(b)
  {
    forall id | id in Ids(a + b) ensures id in Ids(a) + Ids(b) {
      var k :| 0 <= k < |a + b| && (a + b)[k].id == id;
      if k >= |a| { assert b[k - |a|].id == id; }
    }
    forall id | id in Ids(a) + Ids(b) ensures id in Ids(a + b) {
      if id in Ids(a) {
        var k :| 0 <= k < |a| && a[k].id == id;
        assert (a + b)[k].id == id;
      } else {
        var k :| 0 <= k < |b| && b[k].id == id;
        assert (a + b)[|a| + k].id == id;
      }
    }
  }

  /** Merging never removes or alters a record already in the history: the old history
      is a prefix of the new one, and the appended tail holds exactly the incoming
      records whose id is not in the history. */
  lemma {:induction false} MergeKeepsHistory(h: seq<Pedestrian>, incoming: seq<Pedestrian>)
    ensures var m := Merge(h, incoming);
      && |h| <= |m| <= |h| + |incoming|
      && m[..|h|] == h
      && (forall r :: r in m[|h|..] <==> r in incoming && r.id !in Ids(h))
  {
    var m := Merge(h, incoming);
    assert m[..|h|] == h;
    assert m[|h|..] == Unseen(Ids(h), incoming);
    UnseenExactly(Ids(h), incoming);
  }

  /** The appended tail lists the new incoming records in incoming order, skipping
      none of them. */
  lemma {:induction false} MergeAppendsInOrder(h: seq<Pedestrian>, incoming: seq<Pedestrian>)
    ensures var m := Merge(h, incoming);
      var ps := NewPositions(Ids(h), incoming, 0);
      && |m| == |h| + |ps|
      && (forall j :: 0 <= j < |ps| ==> m[|h| + j] == incoming[ps[j]])
      && (forall k :: 0 <= k < |incoming| && incoming[k].id !in Ids(h) ==> k in ps)
  {
    UnseenInOrder(Ids(h), incoming, 0);
    NewPositionsComplete(Ids(h), incoming, 0);
    assert incoming[0..] == incoming;
  }

  /** No incoming id is lost: the ids after a merge are those of the history and of the
      batch together. */
  lemma {:induction false} MergeIds(h: seq<Pedestrian>, incoming: seq<Pedestrian>)
    ensures Ids(Merge(h, incoming)) == Ids(h) + Ids(incoming)
  {
    var u := Unseen(Ids(h), incoming);
    IdsAppend(h, u);
    UnseenIds(Ids(h), incoming);
  }

  /** The filter's ids are the batch's ids that are not already known. */
  lemma UnseenIds(existing: set<string>, incoming: seq<Pedestrian>)
    ensures Ids(Unseen(existing, incoming)) == Ids(incoming) - existing
  {
    var u := Unseen(existing, incoming);
    UnseenExactly(existing, incoming);
    forall id | id in Ids(incoming) - existing ensures id in Ids(u) {
      var k :| 0 <= k < |incoming| && incoming[k].id == id;
      assert incoming[k] in u;
      var j :| 0 <= j < |u| && u[j] == incoming[k];
    }
    forall id | id in Ids(u) ensures id in Ids(incoming) - existing {
      var j :| 0 <= j < |u| && u[j].id == id;
      assert u[j] in u;
      var k :| 0 <= k < |incoming| && incoming[k] == u[j];
    }
  }

  /** Merging the same batch a second time changes nothing. */
  lemma {:induction false} MergeIdempotent(h: seq<Pedestrian>, incoming: seq<Pedestrian>)
    ensures Merge(Merge(h, incoming), incoming) == Merge(h, incoming)
  {
    var m := Merge(h, incoming);
    MergeIds(h, incoming);
    forall k | 0 <= k < |incoming| ensures incoming[k].id in Ids(m) {
      assert incoming[k].id in Ids(incoming);
    }
    UnseenNone(Ids(m), incoming);
  }

  /** The merge keeps ids distinct when the history and the batch each have distinct ids. */
  lemma {:induction false} MergeDistinct(h: seq<Pedestrian>, incoming: seq<Pedestrian>)
    requires DistinctIds(h)
    requires DistinctIds(incoming)
    ensures DistinctIds(Merge(h, incoming))
  {
    var m := Merge(h, incoming);
    var u := Unseen(Ids(h), incoming);
    UnseenDistinct(Ids(h), incoming);
    forall i, j | 0 <= i < j < |m| ensures m[i].id != m[j].id {
      if j >= |h| {
        assert m[j] == u[j - |h|];
        if i < |h| {
          assert m[j] in u;
          assert m[i].id in Ids(h);
        } else {
          assert m[i] == u[i - |h|];
        }
      }
    }
  }

  /** The filter keeps the relative order of the batch, so distinct ids stay distinct. */
  lemma {:induction false} UnseenDistinct(existing: set<string>, incoming: seq<Pedestrian>)
    requires DistinctIds(incoming)
    ensures DistinctIds(Unseen(existing, incoming))
  {
    if incoming != [] {
      var rest := incoming[1..];
      DistinctTail(incoming);
      UnseenDistinct(existing, rest);
      if incoming[0].id !in existing {
        var tail := Unseen(existing, rest);
        forall r | r in tail ensures r.id != incoming[0].id {
          var q :| 0 <= q < |rest| && rest[q] == r;
          assert incoming[q + 1] == r;
        }
        DistinctCons(incoming[0], tail);
      }
    }
  }

  lemma DistinctTail(s: seq<Pedestrian>)
    requires s != [] && DistinctIds(s)
    ensures DistinctIds(s[1..])
  {
    var rest := s[1..];
    forall i, j | 0 <= i < j < |rest| ensures rest[i].id != rest[j].id {
      assert rest[i] == s[i + 1] && rest[j] == s[j + 1];
    }
  }

  lemma DistinctCons(a: Pedestrian, s: seq<Pedestrian>)
    requires DistinctIds(s)
    requires forall r :: r in s ==> r.id != a.id
    ensures DistinctIds([a] + s)
  {
    var u := [a] + s;
    forall i, j | 0 <= i < j < |u| ensures u[i].id != u[j].id {
      assert u[j] == s[j - 1];
      if i > 0 { assert u[i] == s[i - 1]; }
      else { assert u[j] in s; }
    }
  }

  /** Two records of one batch that share an id are both kept: the merge deduplicates
      only against the history, never within the batch. */
  lemma BatchDuplicatesKept(a: Pedestrian, b: Pedestrian)
    requires a.id == b.id
    ensures Merge([], [a, b]) == [a, b]
    ensures !DistinctIds(Merge([], [a, b]))
  {
    assert Ids([]) == {};
    UnseenAll({}, [a, b]);
  }
}
