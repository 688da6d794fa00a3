/** The "mapnik" provider: renders areas with a native map engine that is
    created, and given its style file, on the first render only. */
module MapnikProvider {
  import opened Outcomes
  import opened Raster

  /** mapnik.Envelope(xmin, ymin, xmax, ymax), in projected coordinates. */
  datatype Envelope = Envelope(xmin: real, ymin: real, xmax: real, ymax: real)

  /** What the engine's rasteriser sees: its size, visible extent and loaded style. */
  datatype View = View(width: nat, height: nat, extent: Option<Envelope>, style: Option<string>)

  /** The native rasteriser: the colour it gives pixel i (row-major) of a
      canvas for a view. Its rendering is not modelled. */
  type Rasteriser = (View, nat) -> Pixel

  /** A mapnik.Map: engine-wide size, extent and style. */
  class Engine {
    var width: nat
    var height: nat
    var extent: Option<Envelope>
    var style: Option<string>

    /** mapnik.Map(width, height): no style and no extent yet. */
    constructor (width: nat, height: nat)
      ensures this.width == width && this.height == height
      ensures extent == None && style == None
    {
      this.width := width;
      this.height := height;
      extent := None;
      style := None;
    }

    function Snapshot(): View
      reads this
    {
      View(width, height, extent, style)
    }
  }

  /** mapnik.render into a fresh mapnik.Image(width, height): every pixel of a
      width x height canvas, row-major, as the rasteriser draws it for the view. */
  function RenderBuffer(view: View, paint: Rasteriser): (px: seq<Pixel>)
    ensures |px| == view.width * view.height
    ensures forall i :: 0 <= i < |px| ==> px[i] == paint(view, i)
  {
    seq(view.width * view.height, (i: int) requires 0 <= i => paint(view, i))
  }

  /** A Mapnik instance. `engine` is self.mapnik; `loads` counts calls of load_map. */
  class Mapnik {
    const layer: string
    const mapfile: string
    var engine: Option<Engine>
    ghost var loads: nat

    ghost function Footprint(): set<object>
      reads this
    {
      if engine.Some? then {engine.value} else {}
    }

    /** The mapfile is loaded at most once, exactly when the engine exists, and
        an engine only ever holds this provider's mapfile. */
    ghost predicate Valid()
      reads this, Footprint()
    {
      loads <= 1 &&
      (engine.None? <==> loads == 0) &&
      (engine.Some? && engine.value.style.Some? ==> engine.value.style.value == mapfile)
    }

    /** Mapnik.__init__: keeps the layer and the mapfile path; no engine yet. */
    constructor (layer: string, mapfile: string)
      ensures Valid()
      ensures this.layer == layer && this.mapfile == mapfile
      ensures engine == None && loads == 0
    {
      this.layer := layer;
      this.mapfile := mapfile;
      engine := None;
      loads := 0;
    }

    /** Mapnik.renderArea. On the first call the engine is created and the
        mapfile loaded; `styleLoads` is whether load_map succeeds. On every call
        that gets past that, the engine takes this call's size and extent before
        the rasteriser runs; srs is not consulted. */
    method RenderArea(width: nat, height: nat, srs: string, xmin: real, ymin: real, xmax: real, ymax: real,
                      styleLoads: bool, paint: Rasteriser) returns (r: Result<Grid, Error>)
      requires Valid()
      modifies this, Footprint()
      ensures Valid() && engine.Some?
      ensures old(engine).Some? ==> engine == old(engine) && loads == old(loads)
      ensures old(engine).None? ==> fresh(engine.value) && loads == 1
      ensures r.Failure? <==> old(engine).None? && !styleLoads
      ensures r.Failure? ==> r.error == StyleLoadError(mapfile) && engine.value.Snapshot() == View(0, 0, None, None)
      ensures r.Success? ==>
                engine.value.width == width && engine.value.height == height &&
                engine.value.extent == Some(Envelope(xmin, ymin, xmax, ymax)) &&
                engine.value.style == (if old(engine).None? then Some(mapfile) else old(engine.value.style))
      ensures r.Success? ==> IsGrid(r.value, width, height)
      ensures r.Success? ==> forall y: nat, x: nat :: y < height && x < width ==>
                r.value[y][x] == paint(engine.value.Snapshot(), RowMajor(width, height, x, y))
    {
      if engine.None? {
        var created := new Engine(0, 0);
        engine := Some(created);
        loads := loads + 1;
        if !styleLoads {
          return Failure(StyleLoadError(mapfile));
        }
        created.style := Some(mapfile);
      }
      var e := engine.value;
      e.width := width;
      e.height := height;
      e.extent := Some(Envelope(xmin, ymin, xmax, ymax));
      var buffer := RenderBuffer(e.Snapshot(), paint);
      FromStringEncode(width, height, buffer);
      r := Success(FromString(width, height, Encode(buffer)));
    }
  }

  /** Two renders in a row on one provider: each image is drawn from its own
      call's size and extent, and the engine loaded on the first is the one the
      second uses. */
  method RenderTwice(p: Mapnik, width1: nat, height1: nat, box1: Envelope,
                     width2: nat, height2: nat, box2: Envelope, srs: string, paint: Rasteriser)
    returns (first: Result<Grid, Error>, second: Result<Grid, Error>)
    requires p.Valid() && p.engine.None?
    modifies p
    ensures p.Valid() && p.loads == 1
    ensures first.Success? && second.Success?
    ensures IsGrid(first.value, width1, height1) && IsGrid(second.value, width2, height2)
    ensures forall y: nat, x: nat :: y < height1 && x < width1 ==>
              first.value[y][x] == paint(View(width1, height1, Some(box1), Some(p.mapfile)), RowMajor(width1, height1, x, y))
    ensures forall y: nat, x: nat :: y < height2 && x < width2 ==>
              second.value[y][x] == paint(View(width2, height2, Some(box2), Some(p.mapfile)), RowMajor(width2, height2, x, y))
  {
    first := p.RenderArea(width1, height1, srs, box1.xmin, box1.ymin, box1.xmax, box1.ymax, true, paint);
    var e := p.engine.value;
    second := p.RenderArea(width2, height2, srs, box2.xmin, box2.ymin, box2.xmax, box2.ymax, true, paint);
    assert p.engine.value == e;
  }
}
