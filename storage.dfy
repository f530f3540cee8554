/**
 * `MemStorage` (server/storage.ts): a map from id to stored analysis plus a counter that
 * issues ids 1, 2, 3, … and a listing sorted newest first.
 */
module Storage {
  import opened Wrappers
  import opened Schema

  /**
   * The listing order: later `createdAt` first; equal timestamps keep the order of the map,
   * which is insertion order and hence increasing id (the sort the source uses is stable).
   */
  predicate Before(a: MatchAnalysis, b: MatchAnalysis) {
    a.createdAt > b.createdAt || (a.createdAt == b.createdAt && a.id < b.id)
  }

  predicate NewestFirst(s: seq<MatchAnalysis>) {
    forall i, j :: 0 <= i < j < |s| ==> Before(s[i], s[j])
  }

  predicate DistinctIds(s: seq<MatchAnalysis>) {
    forall i, j :: 0 <= i < j < |s| ==> s[i].id != s[j].id
  }

  /** Places `x` in front of the first element it comes before. */
  function Insert(x: MatchAnalysis, s: seq<MatchAnalysis>): (r: seq<MatchAnalysis>)
    ensures multiset(r) == multiset(s) + multiset{x}
    ensures |r| == |s| + 1
  {
    if s == [] then [x]
    else if Before(x, s[0]) then [x] + s
    else
      assert s == [s[0]] + s[1..];
      [s[0]] + Insert(x, s[1..])
  }

  /** Inserting into a sorted listing an analysis whose id is new keeps it sorted. */
  lemma {:induction false} InsertSorted(x: MatchAnalysis, s: seq<MatchAnalysis>)
    requires NewestFirst(s)
    requires forall k :: 0 <= k < |s| ==> s[k].id != x.id
    ensures NewestFirst(Insert(x, s))
    decreases |s|
  {
    if s != [] && !Before(x, s[0]) {
      InsertSorted(x, s[1..]);
      var r := Insert(x, s);
      var tail := Insert(x, s[1..]);
      assert r == [s[0]] + tail;
      forall k | 0 <= k < |tail| ensures Before(s[0], tail[k]) {
        assert tail[k] in multiset(s[1..]) + multiset{x};
        if tail[k] == x {
          assert Before(s[0], x);
        } else {
          assert tail[k] in s[1..];
          var m :| 0 <= m < |s[1..]| && s[1..][m] == tail[k];
          assert s[m + 1] == tail[k];
        }
      }
    }
  }

  /** The listing of `s` as the sort produces it, by inserting one element after another. */
  function SortNewestFirst(s: seq<MatchAnalysis>): (r: seq<MatchAnalysis>)
    ensures multiset(r) == multiset(s)
  {
    if s == [] then []
    else
      assert s == s[..|s| - 1] + [s[|s| - 1]];
      Insert(s[|s| - 1], SortNewestFirst(s[..|s| - 1]))
  }

  /** Over distinct ids the sort yields a listing ordered newest first. */
  lemma {:induction false} SortNewestFirstSorted(s: seq<MatchAnalysis>)
    requires DistinctIds(s)
    ensures NewestFirst(SortNewestFirst(s))
    decreases |s|
  {
    if s != [] {
      var init := s[..|s| - 1];
      var x := s[|s| - 1];
      SortNewestFirstSorted(init);
      var sorted := SortNewestFirst(init);
      forall k | 0 <= k < |sorted| ensures sorted[k].id != x.id {
        assert sorted[k] in multiset(init);
        var m :| 0 <= m < |init| && init[m] == sorted[k];
        assert s[m] == sorted[k];
      }
      InsertSorted(x, sorted);
    }
  }

  class MemStorage {
    var analyses: map<int, MatchAnalysis>
    var currentId: int

    /** Ids issued so far are exactly 1 .. currentId - 1, and each record carries its own id. */
    ghost predicate Valid()
      reads this
    {
      currentId >= 1
      && (forall id :: id in analyses <==> 1 <= id < currentId)
      && (forall id :: id in analyses ==> analyses[id].id == id)
    }

    constructor()
      ensures Valid()
      ensures analyses == map[] && currentId == 1
    {
      analyses := map[];
      currentId := 1;
    }

    /**
     * Stores the insert under the next id, with `isAiGenerated` defaulting to true and the
     * given clock reading as `createdAt`, and returns the stored record.
     */
    method CreateMatchAnalysis(insert: InsertMatchAnalysis, now: int) returns (a: MatchAnalysis)
      requires Valid()
      modifies this
      ensures Valid()
      ensures a == MatchAnalysis(old(currentId), insert.jobDescription, insert.resumeText, insert.result,
                                 IsAiGeneratedOrDefault(insert), now)
      ensures a.id !in old(analyses)
      ensures currentId == old(currentId) + 1
      ensures analyses == old(analyses)[a.id := a]
    {
      var id := currentId;
      currentId := currentId + 1;
      a := MatchAnalysis(id, insert.jobDescription, insert.resumeText, insert.result,
                         insert.isAiGenerated.GetOr(true), now);
      analyses := analyses[id := a];
    }

    /** `analyses.get(id)`: the record stored under an issued id, nothing otherwise. */
    function GetMatchAnalysis(id: int): (r: Option<MatchAnalysis>)
      requires Valid()
      reads this
      ensures r.Some? <==> 1 <= id < currentId
      ensures r.Some? ==> r.value.id == id && r.value == analyses[id]
    {
      if id in analyses then Some(analyses[id]) else None
    }

    /** `Array.from(analyses.values())`: the records in insertion order, which is id order. */
    function Values(): (s: seq<MatchAnalysis>)
      requires Valid()
      reads this
      ensures |s| == currentId - 1
      ensures forall k :: 0 <= k < |s| ==> s[k] == analyses[k + 1] && s[k].id == k + 1
      ensures DistinctIds(s)
    {
      seq(currentId - 1, k requires 0 <= k < currentId - 1 && k + 1 in analyses reads this => analyses[k + 1])
    }

    /**
     * The copied values sorted newest first: a permutation of the stored records, ordered by
     * `createdAt` non-increasing, ties by increasing id.
     */
    method GetAllMatchAnalyses() returns (r: seq<MatchAnalysis>)
      requires Valid()
      ensures r == SortNewestFirst(Values())
      ensures multiset(r) == multiset(Values())
      ensures NewestFirst(r)
    {
      var values := Values();
      r := [];
      var i := 0;
      while i < |values|
        invariant 0 <= i <= |values|
        invariant r == SortNewestFirst(values[..i])
      {
        assert values[..i + 1][..i] == values[..i];
        r := Insert(values[i], r);
        i := i + 1;
      }
      assert values[..i] == values;
      SortNewestFirstSorted(values);
    }
  }

  /** A fresh store hands out id 1, then 2: each create issues the id after the previous one. */
  method FirstTwoIds(first: InsertMatchAnalysis, second: InsertMatchAnalysis, now1: int, now2: int)
    returns (a: MatchAnalysis, b: MatchAnalysis)
    ensures a.id == 1 && b.id == 2
    ensures a.createdAt == now1 && b.createdAt == now2
  {
    var store := new MemStorage();
    a := store.CreateMatchAnalysis(first, now1);
    b := store.CreateMatchAnalysis(second, now2);
  }
}
