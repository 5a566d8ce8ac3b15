/** src/models/analysisModel.js: the table of saved chart analyses. The
    JSON file the source reads and rewrites on every call is the sequence
    field `analyses`; identifiers and clock readings are parameters.
    Timestamps are milliseconds since the epoch (the source stores them as
    ISO strings and compares them through `new Date`). */
module AnalysisStore {
  import opened Wrappers
  import opened Seqs
  import Trading

  /** What a caller hands to `saveAnalysis`. `None` stands for a missing
      field; of `trading`, the record keeps the entry zone, stop loss,
      targets and risk/reward, and not the order blocks. */
  datatype AnalysisInput = AnalysisInput(
    userId: string,
    chatId: string,
    userName: Option<string>,
    imageHash: string,
    analysis: string,
    trading: Trading.Analysis,
    confidence: Option<string>)

  /** A stored analysis. */
  datatype AnalysisRecord = AnalysisRecord(
    id: string,
    timestamp: int,
    userId: string,
    chatId: string,
    userName: string,
    imageHash: string,
    analysis: string,
    trading: Trading.Analysis,
    confidence: string,
    status: string,
    updatedAt: Option<int>,
    result: Option<string>)

  /** The number of analyses the file keeps. */
  const MaxStored: nat := 1000

  /** One day in milliseconds. */
  const Day: int := 86400000

  /** `x || fallback` for an optional string: missing and empty strings are
      falsy. */
  function OrDefault(x: Option<string>, fallback: string): (r: string)
    ensures x.Some? && x.value != "" ==> r == x.value
    ensures x.None? || x.value == "" ==> r == fallback
  {
    if x.Some? && x.value != "" then x.value else fallback
  }

  /** The record `saveAnalysis` builds. */
  function NewRecord(input: AnalysisInput, id: string, now: int): (r: AnalysisRecord)
    ensures r.id == id && r.timestamp == now && r.status == "active"
    ensures r.userId == input.userId && r.chatId == input.chatId && r.imageHash == input.imageHash
    ensures r.analysis == input.analysis && r.trading == input.trading.(orderBlocks := [])
    ensures r.userName == OrDefault(input.userName, "Unknown")
    ensures r.confidence == OrDefault(input.confidence, "medium")
    ensures r.updatedAt.None? && r.result.None?
  {
    AnalysisRecord(id, now, input.userId, input.chatId, OrDefault(input.userName, "Unknown"),
      input.imageHash, input.analysis, input.trading.(orderBlocks := []), OrDefault(input.confidence, "medium"),
      "active", None, None)
  }

  /** `s.slice(-n)` once `s` is longer than `n`: the last `n` elements. */
  function KeepLast<T>(s: seq<T>, n: nat): (r: seq<T>)
    ensures |r| <= n && |r| <= |s|
    ensures |s| <= n ==> r == s
    ensures |s| > n ==> |r| == n
    ensures forall i :: 0 <= i < |r| ==> r[i] == s[|s| - |r| + i]
  {
    if |s| > n then s[|s| - n..] else s
  }

  // ---------------------------------------------------------------------
  // Queries

  /** `s.slice(0, end)`: a negative end counts from the back. */
  function SliceTo<T>(s: seq<T>, end: int): (r: seq<T>)
    ensures end >= 0 ==> |r| == if end < |s| then end else |s|
    ensures end < 0 ==> |r| == if |s| + end > 0 then |s| + end else 0
    ensures forall i :: 0 <= i < |r| ==> r[i] == s[i]
  {
    var stop := if end < 0 then (if |s| + end > 0 then |s| + end else 0)
                else if end < |s| then end else |s|;
    s[..stop]
  }

  /** Newest first: no record is newer than the one before it. */
  predicate NewestFirst(s: seq<AnalysisRecord>) {
    forall i :: 0 < i < |s| ==> s[i - 1].timestamp >= s[i].timestamp
  }

  /** Newest first compares every pair, not only neighbours. */
  lemma {:induction false} NewestFirstPairwise(s: seq<AnalysisRecord>, i: nat, j: nat)
    requires NewestFirst(s) && i <= j < |s|
    ensures s[i].timestamp >= s[j].timestamp
    decreases j - i
  {
    if i < j {
      NewestFirstPairwise(s, i, j - 1);
    }
  }

  /** The first `n` records of a newest-first sequence are at least as new
      as every record left out. */
  lemma PrefixNewest(s: seq<AnalysisRecord>, n: nat, a: AnalysisRecord, b: AnalysisRecord)
    requires NewestFirst(s) && n <= |s| && a in s && a !in s[..n] && b in s[..n]
    ensures a.timestamp <= b.timestamp
  {
    var j :| 0 <= j < |s| && s[j] == a;
    var i :| 0 <= i < n && s[..n][i] == b;
    assert forall k :: 0 <= k < n ==> s[k] == s[..n][k];
    assert j >= n;
    NewestFirstPairwise(s, i, j);
  }

  /** Sorting newest first and keeping the first `limit` keeps the
      `limit` newest records. */
  lemma NewestPrefix(s: seq<AnalysisRecord>, limit: int)
    ensures multiset(SliceTo(SortNewestFirst(s), limit)) <= multiset(s)
    ensures limit >= 0 ==> |SliceTo(SortNewestFirst(s), limit)| == if limit < |s| then limit else |s|
    ensures limit >= |s| ==> multiset(SliceTo(SortNewestFirst(s), limit)) == multiset(s)
    ensures forall a, b :: a in s && a !in SliceTo(SortNewestFirst(s), limit) && b in SliceTo(SortNewestFirst(s), limit)
              ==> a.timestamp <= b.timestamp
  {
    var sorted := SortNewestFirst(s);
    var r := SliceTo(sorted, limit);
    assert r == sorted[..|r|];
    assert sorted == r + sorted[|r|..];
    assert multiset(sorted) == multiset(r) + multiset(sorted[|r|..]);
    assert |sorted| == |multiset(sorted)| == |multiset(s)| == |s|;
    forall a, b | a in s && a !in r && b in r
      ensures a.timestamp <= b.timestamp
    {
      assert a in multiset(sorted);
      PrefixNewest(sorted, |r|, a, b);
    }
  }

  /** Inserts `x` into a newest-first sequence after every record at least
      as new, so records of equal age keep their order. */
  function InsertByAge(x: AnalysisRecord, s: seq<AnalysisRecord>): (r: seq<AnalysisRecord>)
    requires NewestFirst(s)
    ensures NewestFirst(r)
    ensures multiset(r) == multiset(s) + multiset{x}
    ensures r[0] == x || (s != [] && r[0] == s[0])
    decreases |s|
  {
    if s == [] then [x]
    else if s[0].timestamp >= x.timestamp then
      assert s == [s[0]] + s[1..];
      [s[0]] + InsertByAge(x, s[1..])
    else [x] + s
  }

  /** The stable sort of `sort((a, b) => b.timestamp - a.timestamp)`. */
  function SortNewestFirst(s: seq<AnalysisRecord>): (r: seq<AnalysisRecord>)
    ensures NewestFirst(r)
    ensures multiset(r) == multiset(s)
    decreases |s|
  {
    if s == [] then []
    else
      assert s == s[..|s| - 1] + [s[|s| - 1]];
      InsertByAge(s[|s| - 1], SortNewestFirst(s[..|s| - 1]))
  }

  function OfUser(userId: string): AnalysisRecord -> bool {
    (a: AnalysisRecord) => a.userId == userId
  }

  function WithStatus(status: string): AnalysisRecord -> bool {
    (a: AnalysisRecord) => a.status == status
  }

  /** Saved at most `span` milliseconds before `now`. */
  function Within(now: int, span: int): AnalysisRecord -> bool {
    (a: AnalysisRecord) => now - a.timestamp <= span
  }

  /** Saved after `cutoff`. */
  function NewerThan(cutoff: int): AnalysisRecord -> bool {
    (a: AnalysisRecord) => a.timestamp > cutoff
  }

  /** `findIndex` by id. */
  function FindIndex(s: seq<AnalysisRecord>, id: string): (k: Option<nat>)
    ensures k.None? <==> forall i :: 0 <= i < |s| ==> s[i].id != id
    ensures k.Some? ==> k.value < |s| && s[k.value].id == id
    ensures k.Some? ==> forall i :: 0 <= i < k.value ==> s[i].id != id
    decreases |s|
  {
    if s == [] then None
    else if s[0].id == id then Some(0)
    else
      var k := FindIndex(s[1..], id);
      if k.None? then None else Some(k.value + 1)
  }

  datatype Stats = Stats(
    total: nat, active: nat, completed: nat, failed: nat,
    last24h: nat, last7days: nat, last30days: nat)

  /** The counts of `getAnalysisStats` over `analyses` at time `now`. */
  function StatsOf(analyses: seq<AnalysisRecord>, now: int): (st: Stats)
    ensures st.last24h <= st.last7days <= st.last30days <= st.total
    ensures st.active + st.completed + st.failed <= st.total
    ensures st.total == |analyses|
  {
    CountMonotone(analyses, Within(now, Day), Within(now, 7 * Day));
    CountMonotone(analyses, Within(now, 7 * Day), Within(now, 30 * Day));
    CountDisjoint3(analyses, WithStatus("active"), WithStatus("completed"), WithStatus("failed"));
    Stats(|analyses|,
      Count(analyses, WithStatus("active")),
      Count(analyses, WithStatus("completed")),
      Count(analyses, WithStatus("failed")),
      Count(analyses, Within(now, Day)),
      Count(analyses, Within(now, 7 * Day)),
      Count(analyses, Within(now, 30 * Day)))
  }

  class AnalysisModel {
    var analyses: seq<AnalysisRecord>

    /** The file starts as `{ analyses: [] }`. */
    constructor()
      ensures analyses == []
    {
      analyses := [];
    }

    /** `saveAnalysis`: appends the new record, then keeps only the last
        1000; `id` and `now` are the generated identifier and the clock. */
    method SaveAnalysis(input: AnalysisInput, id: string, now: int) returns (r: AnalysisRecord)
      modifies this
      ensures r == NewRecord(input, id, now)
      ensures analyses == KeepLast(old(analyses) + [r], MaxStored)
      ensures |analyses| <= MaxStored
      ensures analyses != [] && analyses[|analyses| - 1] == r
    {
      r := NewRecord(input, id, now);
      analyses := analyses + [r];
      if |analyses| > MaxStored {
        analyses := analyses[|analyses| - MaxStored..];
      }
    }

    /** `getAnalysesByUser`: the user's analyses, newest first, cut at
        `limit` with `slice(0, limit)`: the `limit` newest of them. The
        source's default `limit` of 10 is passed by the caller. */
    function GetAnalysesByUser(userId: string, limit: int): (r: seq<AnalysisRecord>)
      reads this
      ensures forall a :: a in r ==> a in analyses && a.userId == userId
      ensures multiset(r) <= multiset(Filter(analyses, OfUser(userId)))
      ensures limit >= 0 ==>
        |r| == if limit < Count(analyses, OfUser(userId)) then limit else Count(analyses, OfUser(userId))
      ensures NewestFirst(r)
      ensures forall a, b :: a in analyses && a.userId == userId && a !in r && b in r ==> a.timestamp <= b.timestamp
      ensures limit >= Count(analyses, OfUser(userId)) ==> multiset(r) == multiset(Filter(analyses, OfUser(userId)))
    {
      var mine := Filter(analyses, OfUser(userId));
      var r := SliceTo(SortNewestFirst(mine), limit);
      NewestPrefix(mine, limit);
      forall a | a in r
        ensures a in analyses && a.userId == userId
      {
        assert a in multiset(mine);
        FilterMember(analyses, OfUser(userId), a);
      }
      forall a | a in analyses && a.userId == userId
        ensures a in mine
      {
        var j :| 0 <= j < |analyses| && analyses[j] == a;
        FilterKeeps(analyses, OfUser(userId), j);
      }
      r
    }

    /** `getAnalysisById`: the first record with the id. */
    function GetAnalysisById(id: string): (r: Option<AnalysisRecord>)
      reads this
      ensures r.None? <==> forall i :: 0 <= i < |analyses| ==> analyses[i].id != id
      ensures r.Some? ==> r.value.id == id
      ensures r.Some? ==> exists k :: 0 <= k < |analyses| && analyses[k] == r.value && forall i :: 0 <= i < k ==> analyses[i].id != id
    {
      var k := FindIndex(analyses, id);
      if k.None? then None else Some(analyses[k.value])
    }

    /** `updateAnalysisStatus`: changes the status and `updatedAt` of the
        first record with the id, and its result when a truthy one is given;
        false, and nothing written, when there is no such record. */
    method UpdateAnalysisStatus(id: string, status: string, result: Option<string>, now: int) returns (ok: bool)
      modifies this
      ensures ok <==> exists i :: 0 <= i < |old(analyses)| && old(analyses)[i].id == id
      ensures !ok ==> analyses == old(analyses)
      ensures ok ==>
        var k := FindIndex(old(analyses), id).value;
        var before := old(analyses)[k];
        && |analyses| == |old(analyses)|
        && (forall i :: 0 <= i < |analyses| && i != k ==> analyses[i] == old(analyses)[i])
        && analyses[k] == before.(status := status, updatedAt := Some(now),
                                  result := if result.Some? && result.value != "" then result else before.result)
    {
      var k := FindIndex(analyses, id);
      if k.None? {
        ok := false;
      } else {
        var before := analyses[k.value];
        var after := before.(status := status, updatedAt := Some(now));
        if result.Some? && result.value != "" {
          after := after.(result := result);
        }
        analyses := analyses[k.value := after];
        ok := true;
      }
    }

    /** `getAnalysisStats`: the counts over the user's analyses, or over all
        of them when no (or an empty) user id is given. */
    function GetAnalysisStats(userId: Option<string>, now: int): (st: Stats)
      reads this
      ensures st.last24h <= st.last7days <= st.last30days <= st.total
      ensures st.active + st.completed + st.failed <= st.total
      ensures userId.Some? && userId.value != "" ==> st.total == Count(analyses, OfUser(userId.value))
      ensures userId.None? || userId.value == "" ==> st.total == |analyses|
    {
      var scope := if userId.Some? && userId.value != "" then Filter(analyses, OfUser(userId.value)) else analyses;
      StatsOf(scope, now)
    }

    /** `deleteOldAnalyses`: keeps the analyses newer than `daysOld` days
        before `now`, in order, and returns how many went; the file is
        written only when some did. The source's default `daysOld` of 30
        is passed by the caller. */
    method DeleteOldAnalyses(daysOld: int, now: int) returns (deleted: nat)
      modifies this
      ensures analyses == Filter(old(analyses), NewerThan(now - daysOld * Day))
      ensures deleted == |old(analyses)| - |analyses|
      ensures deleted == 0 ==> analyses == old(analyses)
    {
      var survivors := Filter(analyses, NewerThan(now - daysOld * Day));
      deleted := |analyses| - |survivors|;
      if deleted > 0 {
        analyses := survivors;
      } else {
        FilterFull(analyses, NewerThan(now - daysOld * Day));
      }
    }
  }

  /** After deletion every survivor is newer than the cutoff, the survivors
      keep their relative order, and every newer record survives. */
  lemma DeletionSurvivors(analyses: seq<AnalysisRecord>, cutoff: int)
    ensures forall a :: a in Filter(analyses, NewerThan(cutoff)) ==> a.timestamp > cutoff
    ensures forall i :: 0 <= i < |analyses| && analyses[i].timestamp > cutoff ==> analyses[i] in Filter(analyses, NewerThan(cutoff))
  {
    forall a | a in Filter(analyses, NewerThan(cutoff))
      ensures a.timestamp > cutoff
    {
      FilterMember(analyses, NewerThan(cutoff), a);
    }
    forall i | 0 <= i < |analyses| && analyses[i].timestamp > cutoff
      ensures analyses[i] in Filter(analyses, NewerThan(cutoff))
    {
      FilterKeeps(analyses, NewerThan(cutoff), i);
    }
  }

  /** When the cap trims the list, what remains is the newest 1000 saves
      in insertion order: the old list minus its oldest entries, then the
      new record. */
  lemma CapKeepsNewest(analyses: seq<AnalysisRecord>, r: AnalysisRecord)
    requires |analyses| >= MaxStored
    ensures KeepLast(analyses + [r], MaxStored) == analyses[|analyses| - MaxStored + 1..] + [r]
  {
    var s := analyses + [r];
    assert s[|s| - MaxStored..] == analyses[|analyses| - MaxStored + 1..] + [r];
  }
}
