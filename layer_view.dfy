/**
 * app/AnimatedRouteLayerView2D.js: the list of draw records `{ id, polyline,
 * marker }`, one per track, and the three passes over it: writing the layer
 * renderer's default style (`updateRenderer`), writing the current progress and
 * the marker position (`render`), and the click selection rule (`identify`).
 *
 * The add-on's `getPositionAtTime` is the parameter `positionAt` and its
 * `hitTest` answer is the parameter `hitId` (the hit marker's id, or None).
 */
module LayerView {
  import opened Options
  import opened Colors
  import opened Ingestion
  import opened RouteLayer
  import opened DrawRecords

  /** An entry of the view's `assetInfos`: texture index, url, and whether the marker flaps. */
  datatype ViewAssetInfo = ViewAssetInfo(imageIndex: int, url: string, flap: bool)

  const BirdUrl: string := "https://esri-audubon.s3-us-west-1.amazonaws.com/v1/apps/assets/textures/osprey.png"
  const CircleUrl: string := "https://esri-audubon.s3-us-west-1.amazonaws.com/v1/apps/assets/textures/full-circle.png"

  /** The default value of the view's `assetInfos` property. */
  const DefaultViewAssets: map<string, ViewAssetInfo> :=
    map["bird" := ViewAssetInfo(0, BirdUrl, true), "circle" := ViewAssetInfo(1, CircleUrl, false)]

  /** The default renderer's symbol type "circle" is a default asset: a plain circle that does not flap. */
  lemma DefaultSymbolIsViewAsset()
    ensures DefaultRendererStyle.birdSymbolType in DefaultViewAssets
    ensures DefaultViewAssets[DefaultRendererStyle.birdSymbolType] == ViewAssetInfo(1, CircleUrl, false)
  {
  }

  /** `[0, 1, 0, 1]`, the colour of a clicked track. */
  const SelectionGreen: Rgba := Rgba(0.0, 1.0, 0.0, 1.0)

  // ---------------------------------------------------------------------------
  // The effect of each pass on one record

  /** The record carries the renderer's default style and the asset's image index and flap. */
  predicate HasDefaultStyle(s: InfoState, r: RendererStyle, a: ViewAssetInfo)
  {
    && s.polyline.width == r.lineWidth && s.polyline.color == r.lineColorWGL
    && s.polyline.cutoffTime == r.cutoffTime && s.polyline.opacityAtCutoff == r.opacityAtCutoff
    && s.marker.imageIndex == a.imageIndex && s.marker.flap == a.flap
    && s.marker.size == r.birdSize && s.marker.color == r.birdColorWGL
  }

  /** One iteration of `updateRenderer`. */
  function DefaultStyled(s: InfoState, r: RendererStyle, a: ViewAssetInfo): (t: InfoState)
    ensures HasDefaultStyle(t, r, a) && SameMotion(s, t)
  {
    s.(polyline := s.polyline.(width := r.lineWidth, color := r.lineColorWGL,
                               cutoffTime := r.cutoffTime, opacityAtCutoff := r.opacityAtCutoff),
       marker := s.marker.(imageIndex := a.imageIndex, flap := a.flap, size := r.birdSize, color := r.birdColorWGL))
  }

  /** A record already in default style is left as it is, and only such a record is: so the pass is idempotent. */
  lemma DefaultStyledFixpoint(s: InfoState, r: RendererStyle, a: ViewAssetInfo)
    ensures DefaultStyled(s, r, a) == s <==> HasDefaultStyle(s, r, a)
    ensures DefaultStyled(DefaultStyled(s, r, a), r, a) == DefaultStyled(s, r, a)
  {
  }

  /** The progress `render` uses: the start of the view's time extent in milliseconds, or 0 when the view has none. */
  function RenderProgress(extentStart: Option<int>): (p: real)
    ensures extentStart.None? ==> p == 0.0
    ensures extentStart.Some? ==> p == extentStart.value as real
  {
    match extentStart
    case Some(start) => start as real
    case None => 0.0
  }

  /** One iteration of `render`: the progress on the line, the line's position at that time on the marker. */
  function Progressed(s: InfoState, progress: real, positionAt: (seq<Vertex>, real) -> PositionAtTime): (t: InfoState)
    ensures t.polyline.progress == progress
    ensures t.marker.position == positionAt(s.polyline.geometry, progress).coords
    ensures t.marker.angle == positionAt(s.polyline.geometry, progress).angle
    ensures SameStyle(s, t)
  {
    var pos := positionAt(s.polyline.geometry, progress);
    s.(polyline := s.polyline.(progress := progress), marker := s.marker.(position := pos.coords, angle := pos.angle))
  }

  /** Rendering and restyling touch disjoint fields, so their order does not matter. */
  lemma ProgressedCommutesWithDefaultStyled(s: InfoState, progress: real, positionAt: (seq<Vertex>, real) -> PositionAtTime,
                                            r: RendererStyle, a: ViewAssetInfo)
    ensures Progressed(DefaultStyled(s, r, a), progress, positionAt) == DefaultStyled(Progressed(s, progress, positionAt), r, a)
  {
  }

  /** Rendering twice at the same progress gives the same record as rendering once. */
  lemma ProgressedIdempotent(s: InfoState, progress: real, positionAt: (seq<Vertex>, real) -> PositionAtTime)
    ensures Progressed(Progressed(s, progress, positionAt), progress, positionAt) == Progressed(s, progress, positionAt)
  {
  }

  /** The highlight of a clicked track: doubled marker, green marker and line. */
  predicate IsHighlighted(s: InfoState, r: RendererStyle)
  {
    s.marker.size == r.birdSize * 2.0 && s.marker.color == SelectionGreen && s.polyline.color == SelectionGreen
  }

  /** One iteration of `identify` after a hit on the marker with id `hitId`. */
  function Identified(s: InfoState, hitId: TrackId, r: RendererStyle): (t: InfoState)
    ensures s.id == hitId ==> IsHighlighted(t, r)
    ensures s.id != hitId ==>
      t.marker.size == r.birdSize && t.marker.color == r.birdColorWGL && t.polyline.color == r.lineColorWGL
    ensures SameMotion(s, t)
    ensures t.polyline.width == s.polyline.width
    ensures t.polyline.cutoffTime == s.polyline.cutoffTime && t.polyline.opacityAtCutoff == s.polyline.opacityAtCutoff
    ensures t.marker.imageIndex == s.marker.imageIndex && t.marker.flap == s.marker.flap
  {
    if s.id == hitId then
      s.(marker := s.marker.(size := r.birdSize * 2.0, color := SelectionGreen),
         polyline := s.polyline.(color := SelectionGreen))
    else
      s.(marker := s.marker.(size := r.birdSize, color := r.birdColorWGL),
         polyline := s.polyline.(color := r.lineColorWGL))
  }

  /** With a visible marker size, exactly the records of the hit track end up highlighted. */
  lemma HitHighlightsExactlyHitTrack(s: InfoState, hitId: TrackId, r: RendererStyle)
    requires r.birdSize != 0.0
    ensures IsHighlighted(Identified(s, hitId, r), r) <==> s.id == hitId
  {
  }

  /** A record in default style that was not hit stays exactly as it is. */
  lemma HitLeavesOtherDefaultRecords(s: InfoState, hitId: TrackId, r: RendererStyle, a: ViewAssetInfo)
    requires HasDefaultStyle(s, r, a) && s.id != hitId
    ensures Identified(s, hitId, r) == s
  {
  }

  /** A miss restores the default style whatever the earlier selection was, so nothing stays highlighted. */
  lemma MissClearsSelection(s: InfoState, hitId: TrackId, r: RendererStyle, a: ViewAssetInfo)
    ensures DefaultStyled(Identified(s, hitId, r), r, a) == DefaultStyled(s, r, a)
    ensures r.birdSize != 0.0 ==> !IsHighlighted(DefaultStyled(s, r, a), r)
  {
  }

  /** A record built by `attach` for `source`: the track's id everywhere, its geometry, the marker's two images. */
  predicate DrawsTrack(s: InfoState, source: SourceInfo, images: seq<string>)
  {
    && s.id == source.id && s.marker.id == source.id && s.polyline.id == source.id
    && s.polyline.geometry == source.geometry && s.marker.images == images
  }

  // ---------------------------------------------------------------------------
  // One record at a time (the bodies of the forEach callbacks)

  method ApplyDefaultStyle(info: PolylineInfo, r: RendererStyle, a: ViewAssetInfo)
    modifies info.marker, info.polyline
    ensures StateOf(info) == DefaultStyled(old(StateOf(info)), r, a)
  {
    info.polyline.width := r.lineWidth;
    info.polyline.color := r.lineColorWGL;
    info.polyline.cutoffTime := r.cutoffTime;
    info.polyline.opacityAtCutoff := r.opacityAtCutoff;
    info.marker.imageIndex := a.imageIndex;
    info.marker.flap := a.flap;
    info.marker.size := r.birdSize;
    info.marker.color := r.birdColorWGL;
  }

  method ApplyProgress(info: PolylineInfo, progress: real, positionAt: (seq<Vertex>, real) -> PositionAtTime)
    modifies info.marker, info.polyline
    ensures StateOf(info) == Progressed(old(StateOf(info)), progress, positionAt)
  {
    info.polyline.progress := progress;
    var pos := positionAt(info.polyline.geometry, progress);
    info.marker.position := pos.coords;
    info.marker.angle := pos.angle;
  }

  method ApplyIdentify(info: PolylineInfo, hitId: TrackId, r: RendererStyle)
    modifies info.marker, info.polyline
    ensures StateOf(info) == Identified(old(StateOf(info)), hitId, r)
  {
    if hitId == info.id {
      info.marker.size := r.birdSize * 2.0;
      info.marker.color := SelectionGreen;
      info.polyline.color := SelectionGreen;
    } else {
      info.marker.size := r.birdSize;
      info.marker.color := r.birdColorWGL;
      info.polyline.color := r.lineColorWGL;
    }
  }

  // ---------------------------------------------------------------------------
  // The layer view

  class AnimatedRouteLayerView2D {
    const layer: AnimatedRouteLayer
    var assetInfos: map<string, ViewAssetInfo>
    var polylineInfos: seq<PolylineInfo>
    /** The markers and polylines of the records. */
    ghost var Repr: set<object>

    /** Every record owns its own marker and its own polyline. */
    ghost predicate Valid()
      reads this
    {
      && (forall o :: o in Repr ==> o is Marker || o is Polyline)
      && (forall i :: 0 <= i < |polylineInfos| ==> polylineInfos[i].marker in Repr && polylineInfos[i].polyline in Repr)
      && (forall i, j :: 0 <= i < j < |polylineInfos| ==>
            polylineInfos[i].marker != polylineInfos[j].marker && polylineInfos[i].polyline != polylineInfos[j].polyline)
    }

    /** The list starts empty; `assetInfos` has its default value. */
    constructor (layer: AnimatedRouteLayer)
      ensures Valid() && this.layer == layer && fresh(Repr)
      ensures polylineInfos == [] && assetInfos == DefaultViewAssets
    {
      this.layer := layer;
      assetInfos := DefaultViewAssets;
      polylineInfos := [];
      Repr := {};
    }

    /**
     * The `sources` callback of `attach`: one new record per track, in the Map's
     * iteration order, each with a new marker and a new polyline over the
     * track's geometry; then `updateRenderer`.
     */
    method Attach(sources: Sources)
      requires Valid()
      requires forall k :: 0 <= k < |sources.order| ==> sources.order[k] in sources.byId
      requires "bird" in assetInfos && "circle" in assetInfos
      requires polylineInfos != [] || sources.order != [] ==> layer.renderer.birdSymbolType in assetInfos
      modifies this, Repr
      ensures Valid() && assetInfos == old(assetInfos) && fresh(Repr - old(Repr))
      ensures |polylineInfos| == |old(polylineInfos)| + |sources.order|
      ensures polylineInfos[..|old(polylineInfos)|] == old(polylineInfos)
      ensures forall j :: |old(polylineInfos)| <= j < |polylineInfos| ==>
        && fresh(polylineInfos[j].marker) && fresh(polylineInfos[j].polyline)
        && DrawsTrack(StateOf(polylineInfos[j]), sources.byId[sources.order[j - |old(polylineInfos)|]],
                      [assetInfos["bird"].url, assetInfos["circle"].url])
      ensures forall k :: 0 <= k < |old(polylineInfos)| ==>
        SameMotion(old(StateOf(polylineInfos[k])), StateOf(polylineInfos[k]))
      ensures forall k :: 0 <= k < |polylineInfos| ==>
        HasDefaultStyle(StateOf(polylineInfos[k]), layer.renderer.Style(), assetInfos[layer.renderer.birdSymbolType])
    {
      var images := [assetInfos["bird"].url, assetInfos["circle"].url];
      var i := 0;
      while i < |sources.order|
        invariant 0 <= i <= |sources.order|
        invariant Valid() && assetInfos == old(assetInfos)
        invariant fresh(Repr - old(Repr))
        invariant |polylineInfos| == |old(polylineInfos)| + i
        invariant polylineInfos[..|old(polylineInfos)|] == old(polylineInfos)
        invariant forall j :: |old(polylineInfos)| <= j < |polylineInfos| ==>
          && fresh(polylineInfos[j].marker) && fresh(polylineInfos[j].polyline)
          && DrawsTrack(StateOf(polylineInfos[j]), sources.byId[sources.order[j - |old(polylineInfos)|]], images)
        invariant forall k :: 0 <= k < |old(polylineInfos)| ==> StateOf(polylineInfos[k]) == old(StateOf(polylineInfos[k]))
      {
        ghost var before := polylineInfos;
        AddRecord(sources.byId[sources.order[i]], images);
        assert forall k :: 0 <= k < |before| ==> polylineInfos[k] == before[k];
        i := i + 1;
      }
      UpdateRenderer();
    }

    /** One step of `attach`: a new marker and a new polyline for `source`, pushed as a record. */
    method AddRecord(source: SourceInfo, images: seq<string>)
      requires Valid()
      modifies this
      ensures Valid() && assetInfos == old(assetInfos)
      ensures |polylineInfos| == |old(polylineInfos)| + 1
      ensures polylineInfos[..|old(polylineInfos)|] == old(polylineInfos)
      ensures fresh(polylineInfos[|old(polylineInfos)|].marker) && fresh(polylineInfos[|old(polylineInfos)|].polyline)
      ensures DrawsTrack(StateOf(polylineInfos[|old(polylineInfos)|]), source, images)
      ensures fresh(Repr - old(Repr))
    {
      var marker := new Marker(images);
      marker.id := source.id;
      var polyline := new Polyline(source.geometry);
      polyline.id := source.id;
      polylineInfos := polylineInfos + [PolylineInfo(source.id, polyline, marker)];
      Repr := Repr + {marker, polyline};
    }

    /** `updateRenderer`: every record gets the layer renderer's default style. */
    method UpdateRenderer()
      requires Valid()
      requires polylineInfos != [] ==> layer.renderer.birdSymbolType in assetInfos
      modifies Repr
      ensures Valid()
      ensures forall k :: 0 <= k < |polylineInfos| ==>
        StateOf(polylineInfos[k])
          == DefaultStyled(old(StateOf(polylineInfos[k])), layer.renderer.Style(), assetInfos[layer.renderer.birdSymbolType])
    {
      var renderer := layer.renderer;
      var assetInfo := if renderer.birdSymbolType in assetInfos then Some(assetInfos[renderer.birdSymbolType]) else None;
      var infos := polylineInfos;
      var i := 0;
      while i < |infos|
        invariant 0 <= i <= |infos|
        invariant forall k :: 0 <= k < i ==>
          StateOf(infos[k]) == DefaultStyled(old(StateOf(infos[k])), renderer.Style(), assetInfo.value)
        invariant forall k :: i <= k < |infos| ==> StateOf(infos[k]) == old(StateOf(infos[k]))
      {
        ApplyDefaultStyle(infos[i], renderer.Style(), assetInfo.value);
        i := i + 1;
      }
    }

    /** `render`: every line gets the current progress, every marker the line's position at it. */
    method Render(extentStart: Option<int>, positionAt: (seq<Vertex>, real) -> PositionAtTime)
      requires Valid()
      modifies Repr
      ensures Valid()
      ensures forall k :: 0 <= k < |polylineInfos| ==>
        StateOf(polylineInfos[k]) == Progressed(old(StateOf(polylineInfos[k])), RenderProgress(extentStart), positionAt)
    {
      var progress := RenderProgress(extentStart);
      var infos := polylineInfos;
      var i := 0;
      while i < |infos|
        invariant 0 <= i <= |infos|
        invariant forall k :: 0 <= k < i ==>
          StateOf(infos[k]) == Progressed(old(StateOf(infos[k])), progress, positionAt)
        invariant forall k :: i <= k < |infos| ==> StateOf(infos[k]) == old(StateOf(infos[k]))
      {
        ApplyProgress(infos[i], progress, positionAt);
        i := i + 1;
      }
    }

    /** `identify`: on a hit the hit track is highlighted and every other track reset; a miss is `updateRenderer`. */
    method Identify(hitId: Option<TrackId>)
      requires Valid()
      requires hitId.None? && polylineInfos != [] ==> layer.renderer.birdSymbolType in assetInfos
      modifies Repr
      ensures Valid()
      ensures hitId.Some? ==> forall k :: 0 <= k < |polylineInfos| ==>
        StateOf(polylineInfos[k]) == Identified(old(StateOf(polylineInfos[k])), hitId.value, layer.renderer.Style())
      ensures hitId.None? ==> forall k :: 0 <= k < |polylineInfos| ==>
        StateOf(polylineInfos[k])
          == DefaultStyled(old(StateOf(polylineInfos[k])), layer.renderer.Style(), assetInfos[layer.renderer.birdSymbolType])
    {
      if hitId.Some? {
        var renderer := layer.renderer;
        var infos := polylineInfos;
        var i := 0;
        while i < |infos|
          invariant 0 <= i <= |infos|
          invariant forall k :: 0 <= k < i ==>
            StateOf(infos[k]) == Identified(old(StateOf(infos[k])), hitId.value, renderer.Style())
          invariant forall k :: i <= k < |infos| ==> StateOf(infos[k]) == old(StateOf(infos[k]))
        {
          ApplyIdentify(infos[i], hitId.value, renderer.Style());
          i := i + 1;
        }
      } else {
        UpdateRenderer();
      }
    }
  }
}
