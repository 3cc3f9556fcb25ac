/**
 * Track ingestion: the body of `initializeSources` once the feature query has
 * answered. Feature records are grouped by track id into an insertion-ordered
 * map; every vertex's along-route measure (minutes) becomes an absolute time in
 * milliseconds; the paths of a feature are concatenated; later records of a
 * track are appended; finally each track's vertices are sorted by time.
 */
module Ingestion {
  import opened Options

  type TrackId = int

  /** A vertex as the query returns it: x, y and, when present, the measure in minutes along the route. */
  datatype Coord = Coord(x: real, y: real, measure: Option<real>)

  /** One feature record: its track id, its start time (ms since the epoch) and its paths. */
  datatype Feature = Feature(trackId: TrackId, startMs: int, paths: seq<seq<Coord>>)

  /** An ingested vertex: x, y and the absolute time t in milliseconds (0 when unmeasured). */
  datatype Vertex = Vertex(x: real, y: real, t: real)

  /** The per-track record `{ id, geometry }`. */
  datatype SourceInfo = SourceInfo(id: TrackId, geometry: seq<Vertex>)

  /** A JavaScript Map of track records: the entries, and the keys in insertion order. */
  datatype Sources = Sources(byId: map<TrackId, SourceInfo>, order: seq<TrackId>)

  const MinutesToMilliseconds: int := 60 * 1000

  // ---------------------------------------------------------------------------
  // Measure to time conversion

  /** Minutes along the route recovered from an absolute time (the inverse of AlongToDateValue). */
  function MinutesAlong(startMs: int, t: real): real
  {
    (t - startMs as real) / MinutesToMilliseconds as real
  }

  /** The start instant plus the along-route minutes, in milliseconds. */
  function AlongToDateValue(startMs: int, alongMinutes: real): (t: real)
    ensures MinutesAlong(startMs, t) == alongMinutes
    ensures alongMinutes >= 0.0 ==> t >= startMs as real
  {
    startMs as real + alongMinutes * MinutesToMilliseconds as real
  }

  /** Later measures of one feature get later times. */
  lemma AlongToDateValueMonotonic(startMs: int, m1: real, m2: real)
    ensures m1 <= m2 <==> AlongToDateValue(startMs, m1) <= AlongToDateValue(startMs, m2)
  {
  }

  /** The time stamp of one vertex: converted measure, or 0 when the vertex has only x and y. */
  function ToVertex(startMs: int, c: Coord): (v: Vertex)
    ensures v.x == c.x && v.y == c.y
    ensures c.measure.Some? ==> v.t == AlongToDateValue(startMs, c.measure.value)
    ensures c.measure.None? ==> v.t == 0.0
  {
    match c.measure
    case Some(m) => Vertex(c.x, c.y, AlongToDateValue(startMs, m))
    case None => Vertex(c.x, c.y, 0.0)
  }

  /** Every vertex of one path converted, in order. */
  function PathVertices(startMs: int, path: seq<Coord>): (vs: seq<Vertex>)
    ensures |vs| == |path|
    ensures forall j :: 0 <= j < |path| ==> vs[j] == ToVertex(startMs, path[j])
  {
    seq(|path|, j requires 0 <= j < |path| => ToVertex(startMs, path[j]))
  }

  /** The number of vertices of all paths together. */
  function TotalLength(paths: seq<seq<Coord>>): nat
  {
    if paths == [] then 0 else TotalLength(paths[..|paths| - 1]) + |paths[|paths| - 1]|
  }

  /** The converted vertices of all paths, path after path. */
  function ConcatPaths(startMs: int, paths: seq<seq<Coord>>): (vs: seq<Vertex>)
    ensures |vs| == TotalLength(paths)
  {
    if paths == [] then []
    else ConcatPaths(startMs, paths[..|paths| - 1]) + PathVertices(startMs, paths[|paths| - 1])
  }

  /** All vertices of one feature record. */
  function FeatureCoordinates(f: Feature): seq<Vertex>
  {
    ConcatPaths(f.startMs, f.paths)
  }

  /**
   * Vertex j of path p sits right after the vertices of the earlier paths:
   * paths keep their order and so do the vertices inside each path.
   */
  lemma {:induction false} ConcatPathsAt(startMs: int, paths: seq<seq<Coord>>, p: nat, j: nat)
    requires p < |paths| && j < |paths[p]|
    ensures TotalLength(paths[..p]) + j < |ConcatPaths(startMs, paths)|
    ensures ConcatPaths(startMs, paths)[TotalLength(paths[..p]) + j] == ToVertex(startMs, paths[p][j])
  {
    var n := |paths|;
    var init := paths[..n - 1];
    if p == n - 1 {
      assert paths[..p] == init;
    } else {
      ConcatPathsAt(startMs, init, p, j);
      assert init[..p] == paths[..p];
      assert init[p] == paths[p];
    }
  }

  // ---------------------------------------------------------------------------
  // Grouping by track id

  /** The track ids occurring in some records. */
  function Ids(fs: seq<Feature>): set<TrackId>
  {
    if fs == [] then {} else Ids(fs[..|fs| - 1]) + {fs[|fs| - 1].trackId}
  }

  /** An id is among the ids exactly when some record carries it. */
  lemma {:induction false} IdsOccur(fs: seq<Feature>, id: TrackId)
    ensures id in Ids(fs) <==> exists i :: 0 <= i < |fs| && fs[i].trackId == id
  {
    if fs != [] {
      var init := fs[..|fs| - 1];
      IdsOccur(init, id);
      assert forall i :: 0 <= i < |init| ==> init[i] == fs[i];
      if fs[|fs| - 1].trackId == id {
        assert fs[|fs| - 1].trackId == id;
      }
    }
  }

  /** The keys of the Map in insertion order: each id once, where it first appears. */
  function TrackOrder(fs: seq<Feature>): (order: seq<TrackId>)
    ensures forall i, j :: 0 <= i < j < |order| ==> order[i] != order[j]
    ensures forall id :: id in order <==> id in Ids(fs)
  {
    if fs == [] then []
    else
      var order := TrackOrder(fs[..|fs| - 1]);
      var id := fs[|fs| - 1].trackId;
      if id in order then order else order + [id]
  }

  /** All vertices of one track, in record order, before sorting. */
  function Gathered(fs: seq<Feature>, id: TrackId): seq<Vertex>
  {
    if fs == [] then []
    else
      var last := fs[|fs| - 1];
      Gathered(fs[..|fs| - 1], id) + (if last.trackId == id then FeatureCoordinates(last) else [])
  }

  /** Records arriving later are appended after the earlier records of the same track. */
  lemma {:induction false} GatheredSplit(a: seq<Feature>, b: seq<Feature>, id: TrackId)
    ensures Gathered(a + b, id) == Gathered(a, id) + Gathered(b, id)
  {
    if b == [] {
      assert a + b == a;
    } else {
      var init := b[..|b| - 1];
      var last := b[|b| - 1];
      var tail := if last.trackId == id then FeatureCoordinates(last) else [];
      GatheredSplit(a, init, id);
      var ab := a + b;
      assert ab[..|ab| - 1] == a + init && ab[|ab| - 1] == last;
      calc {
        Gathered(ab, id);
        Gathered(a + init, id) + tail;
        (Gathered(a, id) + Gathered(init, id)) + tail;
        Gathered(a, id) + (Gathered(init, id) + tail);
        Gathered(a, id) + Gathered(b, id);
      }
    }
  }

  /** One more record: a new id is appended to the order; the record's vertices follow its track's. */
  lemma AppendRecord(fs: seq<Feature>, f: Feature)
    ensures Ids(fs + [f]) == Ids(fs) + {f.trackId}
    ensures TrackOrder(fs + [f]) == if f.trackId in Ids(fs) then TrackOrder(fs) else TrackOrder(fs) + [f.trackId]
    ensures forall id :: Gathered(fs + [f], id) == Gathered(fs, id) + (if f.trackId == id then FeatureCoordinates(f) else [])
  {
    assert (fs + [f])[..|fs|] == fs;
  }

  /** A track id that no record carries gathers no vertex. */
  lemma {:induction false} GatheredAbsent(fs: seq<Feature>, id: TrackId)
    requires id !in Ids(fs)
    ensures Gathered(fs, id) == []
  {
    if fs != [] {
      GatheredAbsent(fs[..|fs| - 1], id);
    }
  }

  // ---------------------------------------------------------------------------
  // Sorting a track by time (Array.prototype.sort with `a[2] - b[2]`, which is stable)

  predicate SortedByTime(s: seq<Vertex>)
  {
    forall i, j :: 0 <= i < j < |s| ==> s[i].t <= s[j].t
  }

  /** The vertices of s with time tau, in their order in s. */
  function WithTime(s: seq<Vertex>, tau: real): seq<Vertex>
  {
    if s == [] then []
    else (if s[0].t == tau then [s[0]] else []) + WithTime(s[1..], tau)
  }

  /** Puts v in front of the first vertex that is not earlier than v. */
  function InsertByTime(v: Vertex, s: seq<Vertex>): seq<Vertex>
  {
    if s == [] || v.t <= s[0].t then [v] + s
    else [s[0]] + InsertByTime(v, s[1..])
  }


  lemma {:induction false} InsertByTimePermutes(v: Vertex, s: seq<Vertex>)
    ensures multiset(InsertByTime(v, s)) == multiset(s) + multiset{v}
  {
    if s != [] && v.t > s[0].t {
      InsertByTimePermutes(v, s[1..]);
      assert s == [s[0]] + s[1..];
    }
  }

  lemma {:induction false} InsertByTimeSorted(v: Vertex, s: seq<Vertex>)
    requires SortedByTime(s)
    ensures SortedByTime(InsertByTime(v, s))
  {
    if s != [] && v.t > s[0].t {
      var rest := InsertByTime(v, s[1..]);
      InsertByTimeSorted(v, s[1..]);
      InsertByTimePermutes(v, s[1..]);
      forall k | 0 <= k < |rest|
        ensures s[0].t <= rest[k].t
      {
        assert rest[k] in multiset(rest);
        assert rest[k] in multiset(s[1..]) || rest[k] == v;
        if rest[k] != v {
          var m :| 0 <= m < |s[1..]| && s[1..][m] == rest[k];
          assert s[m + 1] == rest[k];
        }
      }
    }
  }

  lemma {:induction false} InsertByTimeWithTime(v: Vertex, s: seq<Vertex>, tau: real)
    ensures WithTime(InsertByTime(v, s), tau) == (if v.t == tau then [v] else []) + WithTime(s, tau)
  {
    var r := InsertByTime(v, s);
    var vp := if v.t == tau then [v] else [];
    if s == [] || v.t <= s[0].t {
      assert r[0] == v && r[1..] == s;
    } else {
      var sp := if s[0].t == tau then [s[0]] else [];
      InsertByTimeWithTime(v, s[1..], tau);
      assert r[0] == s[0] && r[1..] == InsertByTime(v, s[1..]);
      assert WithTime(r, tau) == sp + (vp + WithTime(s[1..], tau));
      assert vp == [] || sp == [];
    }
  }

  /**
   * The time sort of a track (insertion sort from the back): ordered by time
   * and a permutation of its input.
   */
  function SortByTime(s: seq<Vertex>): (r: seq<Vertex>)
    ensures SortedByTime(r)
    ensures multiset(r) == multiset(s)
  {
    if s == [] then []
    else
      var rest := SortByTime(s[1..]);
      InsertByTimeSorted(s[0], rest);
      InsertByTimePermutes(s[0], rest);
      assert s == [s[0]] + s[1..];
      InsertByTime(s[0], rest)
  }

  /** Stability: the vertices sharing one time keep their gathered order. */
  lemma {:induction false} SortByTimeStable(s: seq<Vertex>, tau: real)
    ensures WithTime(SortByTime(s), tau) == WithTime(s, tau)
  {
    if s != [] {
      SortByTimeStable(s[1..], tau);
      InsertByTimeWithTime(s[0], SortByTime(s[1..]), tau);
    }
  }

  // ---------------------------------------------------------------------------
  // The ingestion result

  /** What ingesting `fs` produces: one entry per distinct id, in first-appearance order, sorted by time. */
  predicate IsIngestion(sources: Sources, fs: seq<Feature>)
  {
    && sources.order == TrackOrder(fs)
    && sources.byId.Keys == Ids(fs)
    && forall id :: id in sources.byId ==> sources.byId[id] == SourceInfo(id, SortByTime(Gathered(fs, id)))
  }

  /** The Map of the source: every key in the order is an entry and vice versa. */
  ghost predicate WellFormedSources(sources: Sources)
  {
    forall id :: id in sources.order <==> id in sources.byId
  }

  /** Every ingested track is sorted by time, a permutation of its gathered vertices, and stable. */
  lemma IngestedTrack(sources: Sources, fs: seq<Feature>, id: TrackId)
    requires IsIngestion(sources, fs) && id in sources.byId
    ensures sources.byId[id].id == id
    ensures SortedByTime(sources.byId[id].geometry)
    ensures multiset(sources.byId[id].geometry) == multiset(Gathered(fs, id))
    ensures forall tau :: WithTime(sources.byId[id].geometry, tau) == WithTime(Gathered(fs, id), tau)
  {
    forall tau ensures WithTime(sources.byId[id].geometry, tau) == WithTime(Gathered(fs, id), tau) {
      SortByTimeStable(Gathered(fs, id), tau);
    }
  }

  /** Every key in an ingestion's order has its entry, and the entry carries that key as its id. */
  lemma IngestionOrderHasEntries(sources: Sources, fs: seq<Feature>)
    requires IsIngestion(sources, fs)
    ensures forall k :: 0 <= k < |sources.order| ==>
      sources.order[k] in sources.byId && sources.byId[sources.order[k]].id == sources.order[k]
  {
  }

  /** The reduce step for record i keeps the entries and the key order in step with the records seen. */
  lemma GroupStep(seen: seq<Feature>, f: Feature, list: map<TrackId, SourceInfo>, order: seq<TrackId>,
                  list': map<TrackId, SourceInfo>, order': seq<TrackId>)
    requires order == TrackOrder(seen)
    requires list.Keys == Ids(seen)
    requires forall id :: id in list ==> list[id] == SourceInfo(id, Gathered(seen, id))
    requires list' == list[f.trackId := SourceInfo(f.trackId, (if f.trackId in list then list[f.trackId].geometry else []) + FeatureCoordinates(f))]
    requires order' == if f.trackId in list then order else order + [f.trackId]
    ensures order' == TrackOrder(seen + [f])
    ensures list'.Keys == Ids(seen + [f])
    ensures forall id :: id in list' ==> list'[id] == SourceInfo(id, Gathered(seen + [f], id))
  {
    AppendRecord(seen, f);
    if f.trackId !in list {
      GatheredAbsent(seen, f.trackId);
    }
  }

  /**
   * The reduce over the records: Map.set on a new key appends the key to the
   * iteration order; on a known key it replaces the entry in place, whose
   * geometry is the earlier geometry with the new coordinates appended.
   */
  method GroupRecords(features: seq<Feature>) returns (list: map<TrackId, SourceInfo>, order: seq<TrackId>)
    ensures order == TrackOrder(features)
    ensures list.Keys == Ids(features)
    ensures forall id :: id in list ==> list[id] == SourceInfo(id, Gathered(features, id))
  {
    list, order := map[], [];
    ghost var seen: seq<Feature> := [];
    var i := 0;
    while i < |features|
      invariant 0 <= i <= |features| && seen == features[..i]
      invariant order == TrackOrder(seen)
      invariant list.Keys == Ids(seen)
      invariant forall id :: id in list ==> list[id] == SourceInfo(id, Gathered(seen, id))
    {
      var feature := features[i];
      ghost var old_order := order;
      var coordinates := FeatureCoordinates(feature);
      var sourceInfo;
      if feature.trackId in list {
        sourceInfo := list[feature.trackId];
        sourceInfo := sourceInfo.(geometry := sourceInfo.geometry + coordinates);
        assert sourceInfo.id == feature.trackId;
      } else {
        sourceInfo := SourceInfo(feature.trackId, coordinates);
        assert [] + coordinates == coordinates;
        order := order + [feature.trackId];
      }
      GroupStep(seen, feature, list, old_order, list[feature.trackId := sourceInfo], order);
      list := list[feature.trackId := sourceInfo];
      seen := seen + [feature];
      i := i + 1;
      assert seen == features[..i];
    }
    assert features[..i] == features;
  }

  /** The forEach that replaces every track's geometry by its time-sorted copy. */
  method SortTracks(list: map<TrackId, SourceInfo>, order: seq<TrackId>) returns (sorted: map<TrackId, SourceInfo>)
    requires forall i, j :: 0 <= i < j < |order| ==> order[i] != order[j]
    requires forall id :: id in order <==> id in list
    ensures sorted.Keys == list.Keys
    ensures forall id :: id in sorted ==> sorted[id] == list[id].(geometry := SortByTime(list[id].geometry))
  {
    sorted := list;
    var j := 0;
    while j < |order|
      invariant 0 <= j <= |order|
      invariant sorted.Keys == list.Keys
      invariant forall id :: id in sorted ==>
        sorted[id] == if id in order[..j] then list[id].(geometry := SortByTime(list[id].geometry)) else list[id]
    {
      var id := order[j];
      sorted := sorted[id := sorted[id].(geometry := SortByTime(sorted[id].geometry))];
      assert order[..j + 1] == order[..j] + [id];
      j := j + 1;
    }
    assert order[..j] == order;
  }

  /** `initializeSources` after the query: group the records, then sort every track. */
  method GroupByTrack(features: seq<Feature>) returns (sources: Sources)
    ensures IsIngestion(sources, features)
    ensures WellFormedSources(sources)
    ensures features == [] ==> sources.byId == map[] && sources.order == []
  {
    var list, order := GroupRecords(features);
    var sorted := SortTracks(list, order);
    sources := Sources(sorted, order);
  }
}
