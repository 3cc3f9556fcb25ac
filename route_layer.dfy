/**
 * The layer side of app/AnimatedRouteLayer.js: the layer renderer
 * (RouteLocationRenderer) with its colour setters and default instance, and the
 * layer object whose `sources` field the ingestion assigns.
 */
module RouteLayer {
  import opened Options
  import opened Colors
  import opened Ingestion

  /** The renderer values the layer view copies onto the draw records. */
  datatype RendererStyle = RendererStyle(
    birdSymbolType: string,
    birdColorWGL: Rgba,
    birdSize: real,
    lineColorWGL: Rgba,
    lineWidth: real,
    cutoffTime: real,
    opacityAtCutoff: real)

  /** Three minutes, in milliseconds: the default fade window after a track ends. */
  const DefaultCutoffTime: real := (1000 * 60 * 3) as real

  /** The style of `RouteLocationRenderer.default` as created. */
  const DefaultRendererStyle: RendererStyle :=
    RendererStyle("circle", ToWGL(DefaultBirdColor), 14.0, ToWGL(DefaultLineColor), 8.0, DefaultCutoffTime, 0.1)

  class RouteLocationRenderer {
    var birdSymbolType: string
    var birdColor: Color
    var birdColorWGL: Rgba
    var birdSize: real
    var lineColor: Color
    var lineColorWGL: Rgba
    var lineWidth: real
    var cutoffTime: real
    var opacityAtCutoff: real

    /** The WebGL colours always mirror the colours (both are written by the colour setters). */
    ghost predicate Valid()
      reads this
    {
      birdColorWGL == ToWGL(birdColor) && lineColorWGL == ToWGL(lineColor)
    }

    function Style(): RendererStyle
      reads this
    {
      RendererStyle(birdSymbolType, birdColorWGL, birdSize, lineColorWGL, lineWidth, cutoffTime, opacityAtCutoff)
    }

    /** A renderer built from all its properties, each stored through its setter. */
    constructor (birdSymbolType: string, birdColor: Color, birdSize: real, lineColor: Color,
                 lineWidth: real, cutoffTime: real, opacityAtCutoff: real)
      ensures Valid()
      ensures this.birdSymbolType == birdSymbolType && this.birdColor == birdColor && this.birdSize == birdSize
      ensures this.lineColor == lineColor && this.lineWidth == lineWidth
      ensures this.cutoffTime == cutoffTime && this.opacityAtCutoff == opacityAtCutoff
    {
      this.birdSymbolType := birdSymbolType;
      this.birdColor := birdColor;
      this.birdColorWGL := ToWGL(birdColor);
      this.birdSize := birdSize;
      this.lineColor := lineColor;
      this.lineColorWGL := ToWGL(lineColor);
      this.lineWidth := lineWidth;
      this.cutoffTime := cutoffTime;
      this.opacityAtCutoff := opacityAtCutoff;
    }

    /** `RouteLocationRenderer.default`. */
    constructor Default()
      ensures Valid()
      ensures birdSymbolType == "circle" && birdColor == DefaultBirdColor && birdSize == 14.0
      ensures lineColor == DefaultLineColor && lineWidth == 8.0
      ensures cutoffTime == 180000.0 && opacityAtCutoff == 0.1
      ensures IsUnitRgba(birdColorWGL) && IsUnitRgba(lineColorWGL)
      ensures Style() == DefaultRendererStyle
    {
      birdSymbolType := "circle";
      birdColor := DefaultBirdColor;
      birdColorWGL := ToWGL(DefaultBirdColor);
      birdSize := 14.0;
      lineColor := DefaultLineColor;
      lineColorWGL := ToWGL(DefaultLineColor);
      lineWidth := 8.0;
      cutoffTime := DefaultCutoffTime;
      opacityAtCutoff := 0.1;
    }

    /** The `birdColor` setter: stores the colour and its WebGL form, nothing else. */
    method SetBirdColor(value: Color)
      modifies this
      ensures birdColor == value && birdColorWGL == ToWGL(value)
      ensures old(Valid()) ==> Valid()
      ensures birdSymbolType == old(birdSymbolType) && birdSize == old(birdSize)
      ensures lineColor == old(lineColor) && lineColorWGL == old(lineColorWGL) && lineWidth == old(lineWidth)
      ensures cutoffTime == old(cutoffTime) && opacityAtCutoff == old(opacityAtCutoff)
    {
      birdColor := value;
      birdColorWGL := ToWGL(value);
    }

    /** The `lineColor` setter: stores the colour and its WebGL form, nothing else. */
    method SetLineColor(value: Color)
      modifies this
      ensures lineColor == value && lineColorWGL == ToWGL(value)
      ensures old(Valid()) ==> Valid()
      ensures birdSymbolType == old(birdSymbolType) && birdSize == old(birdSize)
      ensures birdColor == old(birdColor) && birdColorWGL == old(birdColorWGL) && lineWidth == old(lineWidth)
      ensures cutoffTime == old(cutoffTime) && opacityAtCutoff == old(opacityAtCutoff)
    {
      lineColor := value;
      lineColorWGL := ToWGL(value);
    }
  }

  class AnimatedRouteLayer {
    /** The track Map, undefined until the ingestion has finished. */
    var sources: Option<Sources>
    var renderer: RouteLocationRenderer
    var identifyEnabled: bool

    /**
     * The constructor installs the shared default renderer. That object is
     * passed in here, still holding the values it was created with.
     */
    constructor (defaultRenderer: RouteLocationRenderer)
      requires defaultRenderer.Valid() && defaultRenderer.Style() == DefaultRendererStyle
      ensures renderer == defaultRenderer && sources == None && !identifyEnabled
      ensures renderer.Valid() && renderer.Style() == DefaultRendererStyle
    {
      renderer := defaultRenderer;
      sources := None;
      identifyEnabled := false;
    }

    /** `initializeSources` once the query has answered with `features`: group, sort and assign. */
    method InitializeSources(features: seq<Feature>)
      modifies this`sources
      ensures sources.Some? && IsIngestion(sources.value, features) && WellFormedSources(sources.value)
    {
      var sourcesById := GroupByTrack(features);
      sources := Some(sourcesById);
    }
  }
}
