/**
 * The per-track draw record `{ id, polyline, marker }` and the fields of the
 * WebGL add-on's marker and polyline objects that the application writes.
 *
 * The add-on itself (how it draws, interpolates along a polyline, fades a line
 * or hit-tests a click) is not part of this model: a marker and a polyline are
 * only the fields the application sets, and the add-on's position-at-time query
 * is a function supplied by the caller.
 */
module DrawRecords {
  import opened Colors
  import opened Ingestion

  datatype Point = Point(x: real, y: real)

  /** What the add-on's `getPositionAtTime` answers: coordinates and heading. */
  datatype PositionAtTime = PositionAtTime(coords: Point, angle: real)

  /** A snapshot of a marker's fields. */
  datatype MarkerState = MarkerState(
    id: TrackId, images: seq<string>, imageIndex: int, flap: bool,
    size: real, color: Rgba, position: Point, angle: real)

  /** A snapshot of a polyline's fields. */
  datatype PolylineState = PolylineState(
    id: TrackId, geometry: seq<Vertex>, width: real, color: Rgba,
    cutoffTime: real, opacityAtCutoff: real, progress: real)

  /** A snapshot of one draw record. */
  datatype InfoState = InfoState(id: TrackId, marker: MarkerState, polyline: PolylineState)

  /** An add-on marker: the image it shows, its size, colour, position and heading. */
  class Marker {
    var id: TrackId
    const images: seq<string>
    var imageIndex: int
    var flap: bool
    var size: real
    var color: Rgba
    var position: Point
    var angle: real

    /** `createMarker(images)`: the add-on's initial style and position are not modelled. */
    constructor (images: seq<string>)
      ensures this.images == images
    {
      this.images := images;
    }

    function State(): MarkerState
      reads this
    {
      MarkerState(id, images, imageIndex, flap, size, color, position, angle)
    }
  }

  /** An add-on polyline: its vertices, line style, fade parameters and current progress. */
  class Polyline {
    var id: TrackId
    const geometry: seq<Vertex>
    var width: real
    var color: Rgba
    var cutoffTime: real
    var opacityAtCutoff: real
    var progress: real

    /** `createPolyline(geometry)`: the add-on's initial style is not modelled. */
    constructor (geometry: seq<Vertex>)
      ensures this.geometry == geometry
    {
      this.geometry := geometry;
    }

    function State(): PolylineState
      reads this
    {
      PolylineState(id, geometry, width, color, cutoffTime, opacityAtCutoff, progress)
    }
  }

  /** The record `{ id, polyline, marker }`; the record itself is never reassigned, its objects are. */
  datatype PolylineInfo = PolylineInfo(id: TrackId, polyline: Polyline, marker: Marker)

  function StateOf(info: PolylineInfo): InfoState
    reads info.marker, info.polyline
  {
    InfoState(info.id, info.marker.State(), info.polyline.State())
  }

  /** The two records agree on identity, geometry, position, heading and progress. */
  predicate SameMotion(s: InfoState, t: InfoState)
  {
    && s.id == t.id
    && s.marker.id == t.marker.id && s.marker.images == t.marker.images
    && s.marker.position == t.marker.position && s.marker.angle == t.marker.angle
    && s.polyline.id == t.polyline.id && s.polyline.geometry == t.polyline.geometry
    && s.polyline.progress == t.polyline.progress
  }

  /** The two records agree on every style field (everything but position, heading and progress). */
  predicate SameStyle(s: InfoState, t: InfoState)
  {
    && s.id == t.id
    && s.marker.id == t.marker.id && s.marker.images == t.marker.images
    && s.marker.imageIndex == t.marker.imageIndex && s.marker.flap == t.marker.flap
    && s.marker.size == t.marker.size && s.marker.color == t.marker.color
    && s.polyline.id == t.polyline.id && s.polyline.geometry == t.polyline.geometry
    && s.polyline.width == t.polyline.width && s.polyline.color == t.polyline.color
    && s.polyline.cutoffTime == t.polyline.cutoffTime && s.polyline.opacityAtCutoff == t.polyline.opacityAtCutoff
  }
}
