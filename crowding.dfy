/** The body of `GET /tjData/getRealtimeData`, read by both the home screen
    and the crowding screen. */
module Realtime {
  import opened Js

  /** One vehicle report. Coordinates and the crowding code are kept as the
      values the server sent; `timestamp` is the instant `new Date(...)` parses,
      in milliseconds. */
  datatype Record = Record(
    latitude: Value, longitude: Value,
    koridor: string, noBus: string,
    crowded: Value, timestamp: int)

  /** `success` as the body's truthiness; `data` is None when it is not an array. */
  datatype Body = Body(success: bool, data: Option<seq<Record>>)
}

/** The crowding screen (app/keadaanBus.js): each tick sorts the reports
    newest first and keeps the first report of every bus. */
module Crowding {
  import opened Js
  import opened Api
  import opened Realtime

  const Lega := "lega"
  const Sedang := "sedang"
  const Penuh := "penuh"

  /** mapCrowdedToKondisi: a `switch` on the crowding code with strict
      equality; every code other than 0, 1 and 2 reads as "lega". */
  function KondisiOf(crowded: Value): (k: string)
    ensures k == Lega || k == Sedang || k == Penuh
    ensures k == Sedang <==> crowded == Num(1)
    ensures k == Penuh <==> crowded == Num(2)
    ensures k == Lega <==> crowded != Num(1) && crowded != Num(2)
  {
    match crowded
    case Num(0) => Lega
    case Num(1) => Sedang
    case Num(2) => Penuh
    case _ => Lega
  }

  /** The property names a plain object literal inherits from
      `Object.prototype`; looking one of them up finds a truthy member. */
  const InheritedKeys: set<string> := {
    "constructor", "__proto__", "__defineGetter__", "__defineSetter__",
    "__lookupGetter__", "__lookupSetter__", "hasOwnProperty", "isPrototypeOf",
    "propertyIsEnumerable", "toLocaleString", "toString", "valueOf"}

  /** BusCard's lookup `kondisiMap[kondisi] || {…, label: "Unknown"}`: one of
      the three conditions gives its label; an inherited name finds a member
      without a `label`, so the label is undefined; anything else falls back to
      "Unknown". */
  function CardLabel(kondisi: string): (text: Value)
    ensures text == Str("Unknown") <==>
      kondisi != Lega && kondisi != Sedang && kondisi != Penuh && kondisi !in InheritedKeys
    ensures text == Undefined <==> kondisi in InheritedKeys
    ensures text.Str? <==> kondisi !in InheritedKeys
  {
    if kondisi == Lega then Str("Lega")
    else if kondisi == Sedang then Str("Sedang")
    else if kondisi == Penuh then Str("Penuh")
    else if kondisi in InheritedKeys then Undefined
    else Str("Unknown")
  }

  /** An entry of `busData`. */
  datatype Entry = Entry(nomorBus: string, rute: string, crowded: Value, kondisi: string, updatedAt: int)

  function ToEntry(r: Record): (e: Entry)
    ensures e.nomorBus == r.noBus && e.rute == r.koridor && e.crowded == r.crowded
    ensures e.updatedAt == r.timestamp && e.kondisi == KondisiOf(r.crowded)
  {
    Entry(r.noBus, r.koridor, r.crowded, KondisiOf(r.crowded), r.timestamp)
  }

  // ---- sorting: the comparator `new Date(b.timestamp) - new Date(a.timestamp)` ----

  predicate SortedDesc(s: seq<Record>) {
    forall i, j :: 0 <= i < j < |s| ==> s[i].timestamp >= s[j].timestamp
  }

  /** Insert `x` before the first element that is not newer than it. */
  function Insert(x: Record, s: seq<Record>): (r: seq<Record>)
    decreases |s|
  {
    if s == [] || x.timestamp >= s[0].timestamp then [x] + s
    else [s[0]] + Insert(x, s[1..])
  }

  /** The library's stable sort, newest first, as a value: each element goes in
      ahead of the equally old elements that followed it. */
  function SortDesc(s: seq<Record>): (r: seq<Record>)
    decreases |s|
  {
    if s == [] then [] else Insert(s[0], SortDesc(s[1..]))
  }

  lemma {:induction false} InsertPermutes(x: Record, s: seq<Record>)
    ensures multiset(Insert(x, s)) == multiset(s) + multiset{x}
    decreases |s|
  {
    if s != [] && x.timestamp < s[0].timestamp {
      InsertPermutes(x, s[1..]);
      assert s == [s[0]] + s[1..];
    }
  }

  lemma {:induction false} InsertSorted(x: Record, s: seq<Record>)
    requires SortedDesc(s)
    ensures SortedDesc(Insert(x, s))
    ensures |Insert(x, s)| == |s| + 1
    ensures Insert(x, s)[0] == if s == [] || x.timestamp >= s[0].timestamp then x else s[0]
    decreases |s|
  {
    if s != [] && x.timestamp < s[0].timestamp {
      var tail := s[1..];
      assert SortedDesc(tail) by {
        forall i, j | 0 <= i < j < |tail| ensures tail[i].timestamp >= tail[j].timestamp {
          assert tail[i] == s[i + 1] && tail[j] == s[j + 1];
        }
      }
      InsertSorted(x, tail);
      var t := Insert(x, tail);
      assert t[0].timestamp <= s[0].timestamp by {
        if tail != [] && x.timestamp < tail[0].timestamp {
          assert tail[0] == s[1];
        }
      }
      var r := Insert(x, s);
      assert r == [s[0]] + t;
      forall i, j | 0 <= i < j < |r| ensures r[i].timestamp >= r[j].timestamp {
        if i == 0 {
          assert r[j] == t[j - 1];
          assert j - 1 == 0 || t[0].timestamp >= t[j - 1].timestamp;
        } else {
          assert r[i] == t[i - 1] && r[j] == t[j - 1];
        }
      }
    }
  }

  /** The sort orders the reports newest first and is a permutation of them. */
  lemma {:induction false} SortDescSpec(s: seq<Record>)
    ensures SortedDesc(SortDesc(s))
    ensures multiset(SortDesc(s)) == multiset(s)
    ensures |SortDesc(s)| == |s|
    decreases |s|
  {
    if s != [] {
      SortDescSpec(s[1..]);
      InsertSorted(s[0], SortDesc(s[1..]));
      InsertPermutes(s[0], SortDesc(s[1..]));
      assert s == [s[0]] + s[1..];
    }
  }

  // ---- de-duplication: the `seen` set and the `uniqueBuses` list ----

  /** The bus numbers that occur in `s`. */
  function Buses(s: seq<Record>): (buses: set<string>) {
    set i | 0 <= i < |s| :: s[i].noBus
  }

  function EntryBuses(d: seq<Entry>): (buses: set<string>) {
    set k | 0 <= k < |d| :: d[k].nomorBus
  }

  /** The entries the loop has pushed after reading all of `s`: a report
      contributes an entry exactly when its bus has not been seen before it. */
  function Dedup(s: seq<Record>): (d: seq<Entry>)
    ensures |d| <= |s|
    decreases |s|
  {
    if s == [] then []
    else
      var init := s[..|s| - 1];
      var last := s[|s| - 1];
      if last.noBus in Buses(init) then Dedup(init) else Dedup(init) + [ToEntry(last)]
  }

  lemma BusesSnoc(s: seq<Record>)
    requires s != []
    ensures Buses(s) == Buses(s[..|s| - 1]) + {s[|s| - 1].noBus}
  {
    var init := s[..|s| - 1];
    forall b | b in Buses(s) ensures b in Buses(init) + {s[|s| - 1].noBus} {
      var i :| 0 <= i < |s| && s[i].noBus == b;
      if i < |s| - 1 {
        assert init[i] == s[i];
      }
    }
    forall b | b in Buses(init) ensures b in Buses(s) {
      var i :| 0 <= i < |init| && init[i].noBus == b;
      assert s[i] == init[i];
    }
  }

  /** Every bus of the input has an entry, and every entry's bus is in the input. */
  lemma {:induction false} DedupCovers(s: seq<Record>)
    ensures EntryBuses(Dedup(s)) == Buses(s)
    decreases |s|
  {
    if s != [] {
      var init := s[..|s| - 1];
      DedupCovers(init);
      BusesSnoc(s);
      var d, di := Dedup(s), Dedup(init);
      if s[|s| - 1].noBus !in Buses(init) {
        assert d == di + [ToEntry(s[|s| - 1])];
        forall b | b in EntryBuses(d) ensures b in EntryBuses(di) + {s[|s| - 1].noBus} {
          var k :| 0 <= k < |d| && d[k].nomorBus == b;
          if k < |di| {
            assert d[k] == di[k];
          }
        }
        forall b | b in EntryBuses(di) + {s[|s| - 1].noBus} ensures b in EntryBuses(d) {
          if b in EntryBuses(di) {
            var k :| 0 <= k < |di| && di[k].nomorBus == b;
            assert d[k] == di[k];
          } else {
            assert d[|di|].nomorBus == b;
          }
        }
      }
    }
  }

  /** No bus has two entries. */
  lemma {:induction false} DedupUnique(s: seq<Record>)
    ensures forall k, l :: 0 <= k < l < |Dedup(s)| ==> Dedup(s)[k].nomorBus != Dedup(s)[l].nomorBus
    decreases |s|
  {
    if s != [] {
      var init := s[..|s| - 1];
      DedupUnique(init);
      DedupCovers(init);
      var d, di := Dedup(s), Dedup(init);
      if s[|s| - 1].noBus !in Buses(init) {
        assert d == di + [ToEntry(s[|s| - 1])];
        forall k, l | 0 <= k < l < |d| ensures d[k].nomorBus != d[l].nomorBus {
          if l == |di| {
            assert d[k] == di[k];
            assert di[k].nomorBus in EntryBuses(di);
          } else {
            assert d[k] == di[k] && d[l] == di[l];
          }
        }
      }
    }
  }

  /** `s[i]` is the first report of its bus in `s`. */
  predicate FirstOfBus(s: seq<Record>, i: int)
    requires 0 <= i < |s|
  {
    s[i].noBus !in Buses(s[..i])
  }

  /** Each entry is copied from the first report of its bus. */
  lemma {:induction false} DedupFromFirstReports(s: seq<Record>)
    ensures forall k :: 0 <= k < |Dedup(s)| ==>
      exists i :: 0 <= i < |s| && FirstOfBus(s, i) && Dedup(s)[k] == ToEntry(s[i])
    decreases |s|
  {
    if s != [] {
      var init := s[..|s| - 1];
      DedupFromFirstReports(init);
      var d, di := Dedup(s), Dedup(init);
      if s[|s| - 1].noBus in Buses(init) {
        assert d == di;
      } else {
        assert d == di + [ToEntry(s[|s| - 1])];
      }
      forall k | 0 <= k < |Dedup(s)|
        ensures exists i :: 0 <= i < |s| && FirstOfBus(s, i) && Dedup(s)[k] == ToEntry(s[i])
      {
        if k < |di| {
          assert d[k] == di[k];
          var i :| 0 <= i < |init| && FirstOfBus(init, i) && di[k] == ToEntry(init[i]);
          assert s[..i] == init[..i];
          assert s[i] == init[i];
          assert FirstOfBus(s, i);
          assert d[k] == ToEntry(s[i]);
        } else {
          assert s[..|s| - 1] == init;
          assert FirstOfBus(s, |s| - 1);
          assert d[k] == ToEntry(s[|s| - 1]);
        }
      }
    } else {
      assert Dedup(s) == [];
    }
  }

  /** On input sorted newest first, every entry carries the latest timestamp
      of all its bus's reports. */
  lemma DedupLatest(s: seq<Record>)
    requires SortedDesc(s)
    ensures forall k, i :: 0 <= k < |Dedup(s)| && 0 <= i < |s| && s[i].noBus == Dedup(s)[k].nomorBus ==>
      s[i].timestamp <= Dedup(s)[k].updatedAt
  {
    DedupFromFirstReports(s);
    forall k, i | 0 <= k < |Dedup(s)| && 0 <= i < |s| && s[i].noBus == Dedup(s)[k].nomorBus
      ensures s[i].timestamp <= Dedup(s)[k].updatedAt
    {
      var j :| 0 <= j < |s| && FirstOfBus(s, j) && Dedup(s)[k] == ToEntry(s[j]);
      FirstOfBusComesFirst(s, j, i);
    }
  }

  /** No report of a bus precedes the bus's first report. */
  lemma FirstOfBusComesFirst(s: seq<Record>, j: int, i: int)
    requires 0 <= j < |s| && 0 <= i < |s| && FirstOfBus(s, j) && s[i].noBus == s[j].noBus
    ensures j <= i
  {
  }

  /** Each entry is copied from some report of the input. */
  lemma DedupFromReports(s: seq<Record>)
    ensures forall k :: 0 <= k < |Dedup(s)| ==> exists i :: 0 <= i < |s| && Dedup(s)[k] == ToEntry(s[i])
  {
    DedupFromFirstReports(s);
    forall k | 0 <= k < |Dedup(s)| ensures exists i :: 0 <= i < |s| && Dedup(s)[k] == ToEntry(s[i]) {
      var i :| 0 <= i < |s| && FirstOfBus(s, i) && Dedup(s)[k] == ToEntry(s[i]);
      assert 0 <= i < |s| && Dedup(s)[k] == ToEntry(s[i]);
    }
    assert forall k :: 0 <= k < |Dedup(s)| ==> exists i :: 0 <= i < |s| && Dedup(s)[k] == ToEntry(s[i]);
  }

  /** On input sorted newest first, the entries are in the same order. */
  lemma {:induction false} DedupOrdered(s: seq<Record>)
    requires SortedDesc(s)
    ensures forall k, l :: 0 <= k < l < |Dedup(s)| ==> Dedup(s)[k].updatedAt >= Dedup(s)[l].updatedAt
    decreases |s|
  {
    if s != [] {
      var init := s[..|s| - 1];
      assert SortedDesc(init) by {
        forall i, j | 0 <= i < j < |init| ensures init[i].timestamp >= init[j].timestamp {
          assert init[i] == s[i] && init[j] == s[j];
        }
      }
      DedupOrdered(init);
      DedupFromReports(init);
      var d, di := Dedup(s), Dedup(init);
      if s[|s| - 1].noBus !in Buses(init) {
        assert d == di + [ToEntry(s[|s| - 1])];
        forall k, l | 0 <= k < l < |d| ensures d[k].updatedAt >= d[l].updatedAt {
          assert d[k] == di[k];
          if l == |di| {
            var i :| 0 <= i < |init| && di[k] == ToEntry(init[i]);
            assert init[i] == s[i];
          } else {
            assert d[l] == di[l];
          }
        }
      }
    }
  }

  // ---- the snapshot a successful tick publishes ----

  function Snapshot(data: seq<Record>): (d: seq<Entry>)
    ensures |d| <= |data|
  {
    SortDescSpec(data);
    assert |SortDesc(data)| == |multiset(SortDesc(data))| == |multiset(data)| == |data|;
    Dedup(SortDesc(data))
  }

  /** The published list:
      - has at most one entry per bus, and an entry for every bus of the response;
      - gives each bus the latest timestamp among its reports, copied from one of them;
      - is ordered newest first and no longer than the response;
      - labels every entry with its code's condition, so BusCard never falls back to "Unknown". */
  lemma SnapshotSpec(data: seq<Record>)
    ensures var d := Snapshot(data);
      && (forall k, l :: 0 <= k < l < |d| ==> d[k].nomorBus != d[l].nomorBus)
      && EntryBuses(d) == Buses(data)
      && (forall k, i :: 0 <= k < |d| && 0 <= i < |data| && data[i].noBus == d[k].nomorBus ==>
            data[i].timestamp <= d[k].updatedAt)
      && (forall k :: 0 <= k < |d| ==> exists i :: 0 <= i < |data| && d[k] == ToEntry(data[i]))
      && (forall k, l :: 0 <= k < l < |d| ==> d[k].updatedAt >= d[l].updatedAt)
      && |d| <= |data|
      && (forall k :: 0 <= k < |d| ==> d[k].kondisi == KondisiOf(d[k].crowded) && CardLabel(d[k].kondisi) != Str("Unknown"))
  {
    var sorted := SortDesc(data);
    SortDescSpec(data);
    DedupUnique(sorted);
    DedupCovers(sorted);
    DedupOrdered(sorted);
    DedupFromReports(sorted);
    var d := Snapshot(data);
    assert Buses(sorted) == Buses(data) by {
      forall b | b in Buses(data) ensures b in Buses(sorted) {
        var i :| 0 <= i < |data| && data[i].noBus == b;
        assert data[i] in multiset(sorted);
      }
      forall b | b in Buses(sorted) ensures b in Buses(data) {
        var i :| 0 <= i < |sorted| && sorted[i].noBus == b;
        assert sorted[i] in multiset(data);
      }
    }
    forall k | 0 <= k < |d| ensures exists i :: 0 <= i < |data| && d[k] == ToEntry(data[i]) {
      var j :| 0 <= j < |sorted| && d[k] == ToEntry(sorted[j]);
      assert sorted[j] in multiset(data);
      var i :| 0 <= i < |data| && data[i] == sorted[j];
    }
    DedupLatest(sorted);
    forall k, i | 0 <= k < |d| && 0 <= i < |data| && data[i].noBus == d[k].nomorBus
      ensures data[i].timestamp <= d[k].updatedAt
    {
      assert data[i] in multiset(sorted);
      var j :| 0 <= j < |sorted| && sorted[j] == data[i];
    }
    forall k | 0 <= k < |d| ensures d[k].kondisi == KondisiOf(d[k].crowded) {
      var j :| 0 <= j < |sorted| && d[k] == ToEntry(sorted[j]);
    }
  }

  /** The loop of fetchData: walk the sorted reports, and push an entry for
      each bus not yet in `seen`. */
  method BuildSnapshot(data: seq<Record>) returns (uniqueBuses: seq<Entry>)
    ensures uniqueBuses == Snapshot(data)
  {
    var sorted := SortDesc(data);
    uniqueBuses := [];
    var seen: set<string> := {};
    var i := 0;
    while i < |sorted|
      invariant 0 <= i <= |sorted|
      invariant seen == Buses(sorted[..i])
      invariant uniqueBuses == Dedup(sorted[..i])
    {
      var bus := sorted[i];
      assert sorted[..i + 1][..i] == sorted[..i];
      BusesSnoc(sorted[..i + 1]);
      if bus.noBus !in seen {
        seen := seen + {bus.noBus};
        uniqueBuses := uniqueBuses + [ToEntry(bus)];
      }
      i := i + 1;
    }
    assert sorted[..|sorted|] == sorted;
  }

  /** What `busData` becomes after a tick: the new snapshot when the body says
      `success` and carries an array, otherwise the previous value. */
  function NextBusData(prev: seq<Entry>, resp: Fetch<Body>): (r: seq<Entry>)
    ensures resp.Rejected? || !resp.body.success || resp.body.data.None? ==> r == prev
    ensures r != prev ==> resp.Resolved? && resp.body.data.Some? && |r| <= |resp.body.data.value|
  {
    match resp
    case Resolved(Body(true, Some(data))) => Snapshot(data)
    case _ => prev
  }

  /** The reports of the last response among `resps` that replaces the snapshot. */
  function LastSuccess(resps: seq<Fetch<Body>>): (r: Option<seq<Record>>)
    decreases |resps|
  {
    if resps == [] then None
    else match resps[|resps| - 1]
      case Resolved(Body(true, Some(data))) => Some(data)
      case _ => LastSuccess(resps[..|resps| - 1])
  }

  /** `busData` after a run of ticks, resolved in order. */
  function AfterTicks(prev: seq<Entry>, resps: seq<Fetch<Body>>): (busData: seq<Entry>)
    decreases |resps|
  {
    if resps == [] then prev else NextBusData(AfterTicks(prev, resps[..|resps| - 1]), resps[|resps| - 1])
  }

  /** Last successful fetch wins: after any run of ticks the screen shows the
      snapshot of the latest successful response, or the old list if none was. */
  lemma {:induction false} LastSuccessWins(prev: seq<Entry>, resps: seq<Fetch<Body>>)
    ensures AfterTicks(prev, resps) == if LastSuccess(resps).Some? then Snapshot(LastSuccess(resps).value) else prev
    decreases |resps|
  {
    if resps != [] {
      LastSuccessWins(prev, resps[..|resps| - 1]);
    }
  }

  /** The crowding screen's state. */
  class Screen {
    var busData: seq<Entry>
    var loading: bool

    constructor ()
      ensures busData == [] && loading
    {
      busData := [];
      loading := true;
    }

    /** One call of fetchData with the given outcome of the request. */
    method FetchTick(resp: Fetch<Body>)
      modifies this
      ensures busData == NextBusData(old(busData), resp)
      ensures !loading
    {
      if resp.Resolved? && resp.body.success {
        if resp.body.data.Some? {
          var uniqueBuses := BuildSnapshot(resp.body.data.value);
          busData := uniqueBuses;
        }
        // otherwise `sort` on a non-array throws and the catch keeps busData
      }
      loading := false;
    }
  }
}
