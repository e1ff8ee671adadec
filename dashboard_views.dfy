/**
 * The views the dashboard derives from its records: the records newest first,
 * the five most recent ones, the date behind the "last updated" label, the
 * fallbacks shown for missing values, and which page is shown.
 */
module DashboardViews {
  import opened Wrappers
  import opened Types
  import opened StringOrder
  import LivingAppsService

  // ---------------------------------------------------------------------------
  // Sorted records
  // ---------------------------------------------------------------------------

  /** The sort key: `createdat ?? ''`. */
  function CreatedKey(r: Record): string
  {
    r.createdAt.GetOr("")
  }

  /** Newest first: the key never increases along the sequence. */
  predicate NewestFirst(s: seq<Record>)
  {
    forall i, j :: 0 <= i < j < |s| ==> LexLe(CreatedKey(s[j]), CreatedKey(s[i]))
  }

  /**
   * Places `x` before the first element that it is not older than, so that
   * `x`, which came earlier in the input, stays before records of equal key.
   */
  function Insert(x: Record, s: seq<Record>): (r: seq<Record>)
    ensures multiset(r) == multiset(s) + multiset{x}
    ensures |r| == |s| + 1
  {
    if s == [] then [x]
    else if LexLe(CreatedKey(s[0]), CreatedKey(x)) then [x] + s
    else
      assert s == [s[0]] + s[1..];
      [s[0]] + Insert(x, s[1..])
  }

  /**
   * A copy of the records sorted newest first by creation date, a missing
   * date counting as the empty string; the sort is stable.
   */
  function SortedRecords(records: seq<Record>): seq<Record>
  {
    if records == [] then [] else Insert(records[0], SortedRecords(records[1..]))
  }

  lemma {:induction false} InsertNewestFirst(x: Record, s: seq<Record>)
    requires NewestFirst(s)
    ensures NewestFirst(Insert(x, s))
  {
    if s == [] {
    } else if LexLe(CreatedKey(s[0]), CreatedKey(x)) {
      var r := [x] + s;
      forall i, j | 0 <= i < j < |r| ensures LexLe(CreatedKey(r[j]), CreatedKey(r[i])) {
        if i == 0 {
          if j > 1 {
            LexLeTransitive(CreatedKey(s[j - 1]), CreatedKey(s[0]), CreatedKey(x));
          }
        }
      }
    } else {
      LexLeTotal(CreatedKey(s[0]), CreatedKey(x));
      var tail := Insert(x, s[1..]);
      InsertNewestFirst(x, s[1..]);
      var r := [s[0]] + tail;
      forall e | e in tail ensures LexLe(CreatedKey(e), CreatedKey(s[0])) {
        assert e in multiset(tail);
        if e != x {
          assert e in multiset(s[1..]);
          var k :| 0 <= k < |s[1..]| && s[1..][k] == e;
          assert s[k + 1] == e;
        }
      }
      forall i, j | 0 <= i < j < |r| ensures LexLe(CreatedKey(r[j]), CreatedKey(r[i])) {
        if i == 0 {
          assert r[j] == tail[j - 1];
          assert r[j] in tail;
        } else {
          assert r[i] == tail[i - 1] && r[j] == tail[j - 1];
        }
      }
    }
  }

  /** The sorted view is newest first and holds exactly the records, each as often. */
  lemma {:induction false} SortedRecordsCorrect(records: seq<Record>)
    ensures NewestFirst(SortedRecords(records))
    ensures multiset(SortedRecords(records)) == multiset(records)
    ensures |SortedRecords(records)| == |records|
  {
    if records != [] {
      SortedRecordsCorrect(records[1..]);
      InsertNewestFirst(records[0], SortedRecords(records[1..]));
      assert records == [records[0]] + records[1..];
    }
  }

  /** The records whose key is `k`, in their order. */
  function WithKey(s: seq<Record>, k: string): seq<Record>
  {
    if s == [] then []
    else (if CreatedKey(s[0]) == k then [s[0]] else []) + WithKey(s[1..], k)
  }

  /** The records with key `k` in a sequence that starts with `y`. */
  function Tie(y: Record, k: string): seq<Record>
  {
    if CreatedKey(y) == k then [y] else []
  }

  lemma WithKeyCons(y: Record, t: seq<Record>, k: string)
    ensures WithKey([y] + t, k) == Tie(y, k) + WithKey(t, k)
  {
    assert ([y] + t)[1..] == t;
  }

  /** Records of different keys never both reach the same filter. */
  lemma TiesCommute(y: Record, x: Record, rest: seq<Record>, k: string)
    requires CreatedKey(y) != CreatedKey(x)
    ensures Tie(y, k) + (Tie(x, k) + rest) == Tie(x, k) + (Tie(y, k) + rest)
  {
    if CreatedKey(y) == k {
      assert Tie(x, k) == [];
    } else {
      assert Tie(y, k) == [];
    }
  }

  lemma {:induction false} InsertKeepsTies(x: Record, s: seq<Record>, k: string)
    ensures WithKey(Insert(x, s), k) == Tie(x, k) + WithKey(s, k)
  {
    if s == [] {
      WithKeyCons(x, [], k);
      assert [x] + [] == [x];
    } else if LexLe(CreatedKey(s[0]), CreatedKey(x)) {
      WithKeyCons(x, s, k);
    } else {
      LexLeReflexive(CreatedKey(x));
      var y, t := s[0], s[1..];
      assert s == [y] + t;
      var tail := Insert(x, t);
      InsertKeepsTies(x, t, k);
      WithKeyCons(y, tail, k);
      WithKeyCons(y, t, k);
      TiesCommute(y, x, WithKey(t, k), k);
    }
  }

  /**
   * The sort is stable: records with the same key keep the order they have
   * in `records`.
   */
  lemma {:induction false} SortedRecordsStable(records: seq<Record>, k: string)
    ensures WithKey(SortedRecords(records), k) == WithKey(records, k)
  {
    if records != [] {
      SortedRecordsStable(records[1..], k);
      InsertKeepsTies(records[0], SortedRecords(records[1..]), k);
    }
  }

  // ---------------------------------------------------------------------------
  // Recent entries and the last-updated date
  // ---------------------------------------------------------------------------

  const RecentCount: nat := 5

  /** `sortedRecords.slice(0, 5)`. */
  function RecentEntries(sorted: seq<Record>): (r: seq<Record>)
    ensures |r| == if |sorted| < RecentCount then |sorted| else RecentCount
    ensures r <= sorted
  {
    if |sorted| < RecentCount then sorted else sorted[..RecentCount]
  }

  /**
   * The recent entries are the newest records: no record left out of them is
   * newer than any record in them.
   */
  lemma {:induction false} RecentEntriesAreNewest(records: seq<Record>)
    ensures var sorted := SortedRecords(records);
            var recent := RecentEntries(sorted);
            forall i, j :: 0 <= i < |recent| <= j < |sorted| ==>
              LexLe(CreatedKey(sorted[j]), CreatedKey(recent[i]))
  {
    SortedRecordsCorrect(records);
  }

  /**
   * The date string the "last updated" label is computed from: none without
   * records; otherwise the newest record's `updatedat ?? createdat`, and none
   * when that is missing or empty.
   */
  function LastUpdatedSource(sorted: seq<Record>): (r: Option<string>)
    ensures sorted == [] ==> r == None
    ensures sorted != [] && sorted[0].updatedAt.Some? ==>
              r == if sorted[0].updatedAt.value == "" then None else sorted[0].updatedAt
    ensures sorted != [] && sorted[0].updatedAt.None? ==>
              r == if sorted[0].createdAt == Some("") then None else sorted[0].createdAt
    ensures r.Some? ==> r.value != ""
  {
    if |sorted| == 0 then None
    else
      var newest := sorted[0];
      var dateStr := if newest.updatedAt.Some? then newest.updatedAt else newest.createdAt;
      if dateStr.None? || dateStr.value == "" then None else dateStr
  }

  /**
   * The record the label describes is the newest of all records, and an
   * empty `updatedat` is not replaced by `createdat`: `??` falls back only on
   * a missing value.
   */
  lemma {:induction false} LastUpdatedIsNewest(records: seq<Record>)
    requires records != []
    ensures var newest := SortedRecords(records)[0];
            newest in records && forall r :: r in records ==> LexLe(CreatedKey(r), CreatedKey(newest))
    ensures SortedRecords(records)[0].updatedAt == Some("") ==> LastUpdatedSource(SortedRecords(records)) == None
  {
    SortedRecordsCorrect(records);
    var sorted := SortedRecords(records);
    assert sorted[0] in multiset(records);
    forall r | r in records ensures LexLe(CreatedKey(r), CreatedKey(sorted[0])) {
      assert r in multiset(sorted);
      var j :| 0 <= j < |sorted| && sorted[j] == r;
      if j == 0 {
        LexLeReflexive(CreatedKey(r));
      }
    }
  }

  // ---------------------------------------------------------------------------
  // Display fallbacks and the page
  // ---------------------------------------------------------------------------

  const NoValue: string := "(Kein Wert)"
  const DefaultRecordName: string := "Eintrag"

  /** `field || '(Kein Wert)'`: an absent or empty field shows the placeholder. */
  function DisplayField(field: Option<string>): (r: string)
    ensures field.Some? && field.value != "" ==> r == field.value
    ensures field.None? || field.value == "" ==> r == NoValue
    ensures r != ""
  {
    if field.Some? && field.value != "" then field.value else NoValue
  }

  /** `deleteRecord?.fields.feld_eins || 'Eintrag'`: the name the delete dialog shows. */
  function DeleteDialogName(deleteRecord: Option<Record>): (r: string)
    ensures deleteRecord.Some? && deleteRecord.value.fields.feldEins.GetOr("") != "" ==>
              r == deleteRecord.value.fields.feldEins.value
    ensures deleteRecord.None? || deleteRecord.value.fields.feldEins.GetOr("") == "" ==> r == DefaultRecordName
    ensures r != ""
  {
    if deleteRecord.Some? && deleteRecord.value.fields.feldEins.Some?
       && deleteRecord.value.fields.feldEins.value != ""
    then deleteRecord.value.fields.feldEins.value
    else DefaultRecordName
  }

  /** What the dashboard renders. */
  datatype Page =
    | LoadingPage
    | ErrorPage(error: LivingAppsService.ApiError)
    | EmptyPage
    | ListPage(sorted: seq<Record>, recent: seq<Record>, lastUpdated: Option<string>)

  /**
   * Loading takes precedence over an error, an error over the records; no
   * records give the empty state.
   */
  function PageOf(loading: bool, error: Option<LivingAppsService.ApiError>, records: seq<Record>): (p: Page)
    ensures loading <==> p.LoadingPage?
    ensures p.ErrorPage? <==> !loading && error.Some?
    ensures p.ErrorPage? ==> p.error == error.value
    ensures p.EmptyPage? <==> !loading && error.None? && records == []
    ensures p.ListPage? ==> p.sorted == SortedRecords(records)
                            && multiset(p.sorted) == multiset(records) && NewestFirst(p.sorted)
                            && p.recent == RecentEntries(p.sorted)
                            && p.lastUpdated == LastUpdatedSource(p.sorted)
  {
    if loading then LoadingPage
    else if error.Some? then ErrorPage(error.value)
    else if |records| == 0 then EmptyPage
    else
      SortedRecordsCorrect(records);
      var sorted := SortedRecords(records);
      ListPage(sorted, RecentEntries(sorted), LastUpdatedSource(sorted))
  }

  lemma {:induction false} LexLeCommonPrefix(p: string, a: string, b: string)
    requires LexLe(a, b)
    ensures LexLe(p + a, p + b)
  {
    if p != [] {
      LexLeCommonPrefix(p[1..], a, b);
      assert (p + a)[0] == p[0] == (p + b)[0];
      assert (p + a)[1..] == p[1..] + a;
      assert (p + b)[1..] == p[1..] + b;
    } else {
      assert p + a == a && p + b == b;
    }
  }

  /** January sorts strictly before June. */
  lemma {:induction false} ScenarioKeyOrder()
    ensures LexLe("2024-01-01T00:00:00Z", "2024-06-01T00:00:00Z")
    ensures !LexLe("2024-06-01T00:00:00Z", "2024-01-01T00:00:00Z")
  {
    var p, t1, t2 := "2024-0", "1-01T00:00:00Z", "6-01T00:00:00Z";
    assert p + t1 == "2024-01-01T00:00:00Z";
    assert p + t2 == "2024-06-01T00:00:00Z";
    assert LexLe(t1, t2);
    LexLeCommonPrefix(p, t1, t2);
    assert (p + t1)[6] != (p + t2)[6];
    if LexLe(p + t2, p + t1) {
      LexLeAntisymmetric(p + t1, p + t2);
    }
  }

  /** Two records, the older first, are swapped by the sort. */
  lemma {:induction false} SortTwo(older: Record, newer: Record)
    requires !LexLe(CreatedKey(newer), CreatedKey(older))
    ensures SortedRecords([older, newer]) == [newer, older]
  {
    var s1: seq<Record> := [newer];
    var s2: seq<Record> := [older, newer];
    assert s2[0] == older && s2[1..] == s1;
    assert s1[1..] == [];
    assert SortedRecords(s1) == [newer];
    assert Insert(older, s1) == [newer] + Insert(older, []);
  }

  /**
   * The sorted view of the example list response: the record created in June
   * comes before the one created in January.
   */
  lemma {:induction false} SortScenario()
    ensures var a1 := Record("a1", Some("2024-01-01T00:00:00Z"), None, Fields(None, None));
            var a2 := Record("a2", Some("2024-06-01T00:00:00Z"), None, Fields(None, None));
            SortedRecords([a1, a2]) == [a2, a1]
  {
    var a1 := Record("a1", Some("2024-01-01T00:00:00Z"), None, Fields(None, None));
    var a2 := Record("a2", Some("2024-06-01T00:00:00Z"), None, Fields(None, None));
    ScenarioKeyOrder();
    assert CreatedKey(a1) == "2024-01-01T00:00:00Z";
    assert CreatedKey(a2) == "2024-06-01T00:00:00Z";
    SortTwo(a1, a2);
  }
}
