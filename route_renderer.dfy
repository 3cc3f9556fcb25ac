/**
 * app/AnimatedRouteRenderer.js: a table of image assets (name to image index and
 * url, indexed in registration order), a table of named route symbols, a
 * selection colour, and the operations that copy a symbol's fields onto a draw
 * record `{ marker, polyline }`.
 */
module RouteRenderer {
  import opened Colors
  import opened DrawRecords

  // ---------------------------------------------------------------------------
  // Symbols

  /** The options object handed to `new AnimatedRouteSymbol(...)`. */
  datatype SymbolOptions = SymbolOptions(
    symbolType: string, cutoffTime: real, opacityAtCutoff: real,
    color: Color, size: real, lineColor: Color, lineWidth: real)

  /** The symbol values a draw record receives. */
  datatype SymbolStyle = SymbolStyle(
    symbolType: string, cutoffTime: real, opacityAtCutoff: real,
    colorWGL: Rgba, size: real, lineColorWGL: Rgba, lineWidth: real)

  class AnimatedRouteSymbol {
    var symbolType: string
    var cutoffTime: real
    var opacityAtCutoff: real
    var color: Color
    var colorWGL: Rgba
    var size: real
    var lineColor: Color
    var lineColorWGL: Rgba
    var lineWidth: real

    /** The WebGL colours mirror the colours. */
    ghost predicate Valid()
      reads this
    {
      colorWGL == ToWGL(color) && lineColorWGL == ToWGL(lineColor)
    }

    function Options(): SymbolOptions
      reads this
    {
      SymbolOptions(symbolType, cutoffTime, opacityAtCutoff, color, size, lineColor, lineWidth)
    }

    function Style(): SymbolStyle
      reads this
    {
      SymbolStyle(symbolType, cutoffTime, opacityAtCutoff, colorWGL, size, lineColorWGL, lineWidth)
    }

    /** Every option goes through its property setter. */
    constructor (options: SymbolOptions)
      ensures Valid() && Options() == options
    {
      symbolType := options.symbolType;
      cutoffTime := options.cutoffTime;
      opacityAtCutoff := options.opacityAtCutoff;
      color := options.color;
      colorWGL := ToWGL(options.color);
      size := options.size;
      lineColor := options.lineColor;
      lineColorWGL := ToWGL(options.lineColor);
      lineWidth := options.lineWidth;
    }

    /** The `color` setter. */
    method SetColor(value: Color)
      modifies this
      ensures Options() == old(Options()).(color := value)
      ensures colorWGL == ToWGL(value) && lineColorWGL == old(lineColorWGL)
      ensures old(Valid()) ==> Valid()
    {
      color := value;
      colorWGL := ToWGL(value);
    }

    /** The `lineColor` setter. */
    method SetLineColor(value: Color)
      modifies this
      ensures Options() == old(Options()).(lineColor := value)
      ensures lineColorWGL == ToWGL(value) && colorWGL == old(colorWGL)
      ensures old(Valid()) ==> Valid()
    {
      lineColor := value;
      lineColorWGL := ToWGL(value);
    }
  }

  // ---------------------------------------------------------------------------
  // The asset table: a JavaScript Map from asset name to { imageIndex, url }

  datatype AssetInfo = AssetInfo(imageIndex: nat, url: string)

  /** The Map's entries and its keys in insertion order. */
  datatype AssetTable = AssetTable(infos: map<string, AssetInfo>, names: seq<string>)

  const EmptyAssets: AssetTable := AssetTable(map[], [])

  ghost predicate WellFormedAssets(t: AssetTable)
  {
    && (forall i, j :: 0 <= i < j < |t.names| ==> t.names[i] != t.names[j])
    && (forall n :: n in t.names <==> n in t.infos)
  }

  /** Registers one asset: the name maps to the table's current size as its image index, and to its url. */
  function Register(t: AssetTable, name: string, url: string): (r: AssetTable)
    ensures WellFormedAssets(t) ==> WellFormedAssets(r)
    ensures name in r.infos && r.infos[name] == AssetInfo(|t.infos|, url)
    ensures forall n :: n in t.infos && n != name ==> n in r.infos && r.infos[n] == t.infos[n]
  {
    AssetTable(t.infos[name := AssetInfo(|t.infos|, url)], if name in t.infos then t.names else t.names + [name])
  }

  /** Registers a list of (name, url) pairs, one after the other. */
  function RegisterAll(t: AssetTable, assets: seq<(string, string)>): (r: AssetTable)
    ensures WellFormedAssets(t) ==> WellFormedAssets(r)
  {
    if assets == [] then t
    else Register(RegisterAll(t, assets[..|assets| - 1]), assets[|assets| - 1].0, assets[|assets| - 1].1)
  }

  /** Registering one more pair of the list is one more Register step. */
  lemma RegisterAllPrefix(t: AssetTable, assets: seq<(string, string)>, i: nat)
    requires i < |assets|
    ensures RegisterAll(t, assets[..i + 1]) == Register(RegisterAll(t, assets[..i]), assets[i].0, assets[i].1)
  {
    assert assets[..i + 1][..i] == assets[..i];
  }

  /** `getImageAssets()`: the urls in the Map's iteration order. */
  function ImageUrls(t: AssetTable): (urls: seq<string>)
    requires WellFormedAssets(t)
    ensures |urls| == |t.names|
  {
    seq(|t.names|, i requires 0 <= i < |t.names| => t.infos[t.names[i]].url)
  }

  ghost predicate DistinctNames(assets: seq<(string, string)>)
  {
    forall i, j :: 0 <= i < j < |assets| ==> assets[i].0 != assets[j].0
  }

  /**
   * On a fresh renderer, registering distinct names gives the k-th name image
   * index k, and the image list holds the k-th url at index k.
   */
  lemma {:induction false} FreshRegistration(assets: seq<(string, string)>)
    requires DistinctNames(assets)
    ensures var t := RegisterAll(EmptyAssets, assets);
      && |t.infos| == |assets| && |t.names| == |assets|
      && (forall k :: 0 <= k < |assets| ==>
            t.names[k] == assets[k].0 && assets[k].0 in t.infos && t.infos[assets[k].0].imageIndex == k)
  {
    if assets != [] {
      var init := assets[..|assets| - 1];
      var last := assets[|assets| - 1];
      assert DistinctNames(init);
      FreshRegistration(init);
      var t := RegisterAll(EmptyAssets, init);
      assert WellFormedAssets(EmptyAssets);
      assert last.0 !in t.names by {
        forall k | 0 <= k < |t.names| ensures t.names[k] != last.0 {
          assert t.names[k] == assets[k].0;
        }
      }
      RegisterNewName(t, init, last.0, last.1);
      assert assets == init + [last];
    }
  }

  /** Registering a name not yet in a table built from `init` puts it at index |init|. */
  lemma RegisterNewName(t: AssetTable, init: seq<(string, string)>, name: string, url: string)
    requires WellFormedAssets(t) && name !in t.names
    requires |t.infos| == |init| && |t.names| == |init|
    requires forall k :: 0 <= k < |init| ==>
      t.names[k] == init[k].0 && init[k].0 in t.infos && t.infos[init[k].0].imageIndex == k
    ensures var r := Register(t, name, url);
      var all := init + [(name, url)];
      && |r.infos| == |all| && |r.names| == |all|
      && (forall k :: 0 <= k < |all| ==>
            r.names[k] == all[k].0 && all[k].0 in r.infos && r.infos[all[k].0].imageIndex == k)
  {
    var r := Register(t, name, url);
    var all := init + [(name, url)];
    assert name !in t.infos;
    assert r.names == t.names + [name];
    forall k | 0 <= k < |all|
      ensures r.names[k] == all[k].0 && all[k].0 in r.infos && r.infos[all[k].0].imageIndex == k
    {
      if k < |init| {
        assert all[k] == init[k] && init[k].0 != name;
      }
    }
  }

  /** ... and getImageAssets()[k] is the k-th url, one entry per name. */
  lemma FreshRegistrationImages(assets: seq<(string, string)>)
    requires DistinctNames(assets)
    ensures var t := RegisterAll(EmptyAssets, assets);
      WellFormedAssets(t) && |ImageUrls(t)| == |assets|
      && forall k :: 0 <= k < |assets| ==>
           assets[k].0 in t.infos && t.infos[assets[k].0].imageIndex == k && ImageUrls(t)[k] == assets[k].1
  {
    FreshRegistration(assets);
    var t := RegisterAll(EmptyAssets, assets);
    forall k | 0 <= k < |assets|
      ensures t.infos[assets[k].0].url == assets[k].1
    {
      RegisteredUrl(assets, k);
    }
  }

  /** The url stored under a name is that of its last registration; with distinct names, its own. */
  lemma {:induction false} RegisteredUrl(assets: seq<(string, string)>, k: nat)
    requires DistinctNames(assets) && k < |assets|
    ensures assets[k].0 in RegisterAll(EmptyAssets, assets).infos
    ensures RegisterAll(EmptyAssets, assets).infos[assets[k].0].url == assets[k].1
  {
    if k < |assets| - 1 {
      var init := assets[..|assets| - 1];
      assert DistinctNames(init);
      RegisteredUrl(init, k);
      assert assets[|assets| - 1].0 != assets[k].0;
    }
  }

  /**
   * Registering a name a second time gives it the image index |infos|, which
   * lies past the end of the image list: the Map keeps the name in its first
   * position, so the new index no longer matches any position of the list.
   */
  lemma ReRegistrationIndexOutOfList(t: AssetTable, name: string, url: string)
    requires WellFormedAssets(t) && name in t.infos
    ensures var r := Register(t, name, url);
      WellFormedAssets(r) && r.infos[name].imageIndex >= |ImageUrls(r)|
  {
    var r := Register(t, name, url);
    assert r.names == t.names && r.infos.Keys == t.infos.Keys;
    NamesCoverKeys(t);
  }

  /** In a well-formed table the key list and the Map have the same size. */
  lemma NamesCoverKeys(t: AssetTable)
    requires WellFormedAssets(t)
    ensures |t.names| == |t.infos|
  {
    DistinctSeqCard(t.names);
    assert t.infos.Keys == set n | n in t.names;
  }

  lemma {:induction false} DistinctSeqCard(s: seq<string>)
    requires forall i, j :: 0 <= i < j < |s| ==> s[i] != s[j]
    ensures |set n | n in s| == |s|
  {
    if s != [] {
      var init := s[..|s| - 1];
      DistinctSeqCard(init);
      assert (set n | n in s) == (set n | n in init) + {s[|s| - 1]};
      assert s[|s| - 1] !in init;
    }
  }

  // ---------------------------------------------------------------------------
  // What the renderer writes onto a draw record

  /** The record shows the symbol: image index, marker size and colour, line width and colour. */
  predicate ShowsSymbol(s: InfoState, sym: SymbolStyle, imageIndex: int)
  {
    && s.marker.imageIndex == imageIndex && s.marker.size == sym.size && s.marker.color == sym.colorWGL
    && s.polyline.width == sym.lineWidth && s.polyline.color == sym.lineColorWGL
  }

  /** `_update(symbol, polylineInfo)`. */
  function SymbolApplied(s: InfoState, sym: SymbolStyle, imageIndex: int): (r: InfoState)
    ensures ShowsSymbol(r, sym, imageIndex) && SameMotion(s, r)
    ensures r.marker.flap == s.marker.flap
    ensures r.polyline.cutoffTime == s.polyline.cutoffTime && r.polyline.opacityAtCutoff == s.polyline.opacityAtCutoff
  {
    s.(marker := s.marker.(imageIndex := imageIndex, size := sym.size, color := sym.colorWGL),
       polyline := s.polyline.(width := sym.lineWidth, color := sym.lineColorWGL))
  }

  /** `initInfo`: the fade parameters as well, then `_update`. */
  function SymbolInitialised(s: InfoState, sym: SymbolStyle, imageIndex: int): (r: InfoState)
    ensures ShowsSymbol(r, sym, imageIndex) && SameMotion(s, r)
    ensures r.marker.flap == s.marker.flap
    ensures r.polyline.cutoffTime == sym.cutoffTime && r.polyline.opacityAtCutoff == sym.opacityAtCutoff
  {
    SymbolApplied(s.(polyline := s.polyline.(cutoffTime := sym.cutoffTime, opacityAtCutoff := sym.opacityAtCutoff)),
                  sym, imageIndex)
  }

  /** `setSelected`: both colours become the selection colour. */
  function SelectionApplied(s: InfoState, selection: Rgba): (r: InfoState)
    ensures r.marker.color == selection && r.polyline.color == selection
    ensures r.marker.(color := s.marker.color) == s.marker
    ensures r.polyline.(color := s.polyline.color) == s.polyline
    ensures r.id == s.id
  {
    s.(marker := s.marker.(color := selection), polyline := s.polyline.(color := selection))
  }

  /** The written fields and the kept fields determine the result: nothing else changes. */
  lemma SymbolAppliedUnique(s: InfoState, sym: SymbolStyle, imageIndex: int, t: InfoState)
    requires ShowsSymbol(t, sym, imageIndex) && SameMotion(s, t) && t.marker.flap == s.marker.flap
    requires t.polyline.cutoffTime == s.polyline.cutoffTime && t.polyline.opacityAtCutoff == s.polyline.opacityAtCutoff
    ensures t == SymbolApplied(s, sym, imageIndex)
  {
  }

  /** initInfo is updateInfo plus the fade parameters; updating again changes nothing. */
  lemma InitialiseIsUpdatePlusFade(s: InfoState, sym: SymbolStyle, imageIndex: int)
    ensures var i := SymbolInitialised(s, sym, imageIndex);
      var u := SymbolApplied(s, sym, imageIndex);
      && i.marker == u.marker
      && i.polyline == u.polyline.(cutoffTime := sym.cutoffTime, opacityAtCutoff := sym.opacityAtCutoff)
      && SymbolApplied(i, sym, imageIndex) == i
  {
  }

  /** Selecting after a symbol update keeps everything of the symbol but the two colours. */
  lemma SelectionKeepsSymbolShape(s: InfoState, sym: SymbolStyle, imageIndex: int, selection: Rgba)
    ensures var r := SelectionApplied(SymbolApplied(s, sym, imageIndex), selection);
      && r.marker.imageIndex == imageIndex && r.marker.size == sym.size && r.polyline.width == sym.lineWidth
      && r.marker.color == selection && r.polyline.color == selection
      && SameMotion(s, r)
  {
  }

  // ---------------------------------------------------------------------------
  // The renderer object

  class AnimatedRouteRenderer {
    var assetInfos: map<string, AssetInfo>
    var assetNames: seq<string>
    var symbols: map<string, AnimatedRouteSymbol>
    var selectionColor: Color
    var selectionColorWGL: Rgba

    function Assets(): AssetTable
      reads this
    {
      AssetTable(assetInfos, assetNames)
    }

    ghost predicate Valid()
      reads this
    {
      WellFormedAssets(Assets()) && selectionColorWGL == ToWGL(selectionColor)
    }

    /** Empty tables and the selection colour "cyan". */
    constructor ()
      ensures Valid()
      ensures Assets() == EmptyAssets && symbols == map[] && selectionColor == Cyan
    {
      assetInfos := map[];
      assetNames := [];
      symbols := map[];
      selectionColor := Cyan;
      selectionColorWGL := ToWGL(Cyan);
    }

    /** The `selectionColor` setter. */
    method SetSelectionColor(value: Color)
      requires Valid()
      modifies this
      ensures Valid()
      ensures selectionColor == value && selectionColorWGL == ToWGL(value)
      ensures Assets() == old(Assets()) && symbols == old(symbols)
    {
      selectionColor := value;
      selectionColorWGL := ToWGL(value);
    }

    /** `registerAssets`: registers every (name, url) pair, in order. */
    method RegisterAssets(assets: seq<(string, string)>)
      requires Valid()
      modifies this
      ensures Valid()
      ensures Assets() == RegisterAll(old(Assets()), assets)
      ensures symbols == old(symbols) && selectionColor == old(selectionColor)
    {
      var i := 0;
      while i < |assets|
        invariant 0 <= i <= |assets|
        invariant Valid()
        invariant Assets() == RegisterAll(old(Assets()), assets[..i])
        invariant symbols == old(symbols) && selectionColor == old(selectionColor)
      {
        var (name, url) := assets[i];
        RegisterAllPrefix(old(Assets()), assets, i);
        if name !in assetInfos {
          assetNames := assetNames + [name];
        }
        assetInfos := assetInfos[name := AssetInfo(|assetInfos|, url)];
        i := i + 1;
      }
      assert assets[..i] == assets;
    }

    /** `getImageAssets()`. */
    function GetImageAssets(): (urls: seq<string>)
      reads this
      requires Valid()
      ensures |urls| == |assetNames|
      ensures forall k :: 0 <= k < |assetNames| ==> urls[k] == assetInfos[assetNames[k]].url
    {
      ImageUrls(Assets())
    }

    /** `setSymbol(name, options)`: a new symbol under `name`, replacing any earlier one. */
    method SetSymbol(name: string, options: SymbolOptions)
      modifies this
      ensures name in symbols && fresh(symbols[name])
      ensures symbols[name].Valid() && symbols[name].Options() == options
      ensures symbols == old(symbols)[name := symbols[name]]
      ensures Assets() == old(Assets()) && selectionColor == old(selectionColor) && selectionColorWGL == old(selectionColorWGL)
    {
      var symbol := new AnimatedRouteSymbol(options);
      symbols := symbols[name := symbol];
    }

    /** `initInfo(name, info)`: the symbol's fade parameters and style; an unknown name changes nothing. */
    method InitInfo(name: string, info: PolylineInfo)
      requires name in symbols ==> symbols[name].symbolType in assetInfos
      modifies info.marker, info.polyline
      ensures name !in symbols ==> StateOf(info) == old(StateOf(info))
      ensures name in symbols ==>
        StateOf(info) == SymbolInitialised(old(StateOf(info)), symbols[name].Style(), assetInfos[symbols[name].symbolType].imageIndex)
    {
      if name in symbols {
        var symbol := symbols[name];
        info.marker.imageIndex := assetInfos[symbol.symbolType].imageIndex;
        info.polyline.cutoffTime := symbol.cutoffTime;
        info.polyline.opacityAtCutoff := symbol.opacityAtCutoff;
        Update(symbol, info);
      }
    }

    /** `setSelected(info)`: marker and line take the selection colour. */
    method SetSelected(info: PolylineInfo)
      modifies info.marker, info.polyline
      ensures StateOf(info) == SelectionApplied(old(StateOf(info)), selectionColorWGL)
    {
      info.marker.color := selectionColorWGL;
      info.polyline.color := selectionColorWGL;
    }

    /** `updateInfo(name, info)`: the symbol's style; an unknown name changes nothing. */
    method UpdateInfo(name: string, info: PolylineInfo)
      requires name in symbols ==> symbols[name].symbolType in assetInfos
      modifies info.marker, info.polyline
      ensures name !in symbols ==> StateOf(info) == old(StateOf(info))
      ensures name in symbols ==>
        StateOf(info) == SymbolApplied(old(StateOf(info)), symbols[name].Style(), assetInfos[symbols[name].symbolType].imageIndex)
    {
      if name in symbols {
        Update(symbols[name], info);
      }
    }

    /** `_update(symbol, info)`. */
    method Update(symbol: AnimatedRouteSymbol, info: PolylineInfo)
      requires symbol.symbolType in assetInfos
      modifies info.marker, info.polyline
      ensures StateOf(info) == SymbolApplied(old(StateOf(info)), symbol.Style(), assetInfos[symbol.symbolType].imageIndex)
    {
      info.marker.imageIndex := assetInfos[symbol.symbolType].imageIndex;
      info.marker.size := symbol.size;
      info.marker.color := symbol.colorWGL;
      info.polyline.width := symbol.lineWidth;
      info.polyline.color := symbol.lineColorWGL;
    }
  }
}
