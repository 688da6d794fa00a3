/** The "proxy" provider: single tiles fetched from a remote tile server, and
    areas composited from remote tiles by a mosaicking collaborator and cropped
    back to the requested size. */
module ProxyProvider {
  import opened Outcomes
  import opened Raster

  /** A tile address. */
  datatype Coordinate = Coordinate(zoom: int, column: int, row: int)

  /** A point in projected coordinates. */
  datatype Point = Point(x: real, y: real)

  /** The geographic location the spherical-mercator projection assigns to a
      projected point; the projection itself is not modelled. */
  datatype Location = ProjLocation(projected: Point)

  /** A Proxy instance; its constructor wraps the URL template in a templated
      tile provider and keeps nothing else. */
  datatype Proxy = Proxy(urlTemplate: string)

  /** The first URL the templated tile provider gives for a coordinate. */
  datatype TileUrl = FirstTileUrl(urlTemplate: string, coord: Coordinate)

  /** A call mapByExtent(provider, loc1, loc2, Point(width, height)): a map of
      the given pixel size covering the two corner locations. */
  datatype MapRequest = MapByExtent(urlTemplate: string, loc1: Location, loc2: Location, width: int, height: int)

  /** The only tile size renderTile accepts, in both directions. */
  const TileSize := 256

  /** renderTile's guards, in order, and the URL it fetches when both pass.
      `mercatorSrs` is the spherical-mercator projection string. */
  function TileRequest(p: Proxy, width: int, height: int, srs: string, coord: Coordinate, mercatorSrs: string): (r: Result<TileUrl, Error>)
    ensures r.Success? <==> srs == mercatorSrs && width == TileSize && height == TileSize
    ensures r.Success? ==> r.value.coord == coord && r.value.urlTemplate == p.urlTemplate
    ensures srs != mercatorSrs ==> r == Failure(ProjectionMismatch(srs))
    ensures srs == mercatorSrs && (width != TileSize || height != TileSize) ==>
              r == Failure(TileSizeMismatch(width, height))
  {
    if srs != mercatorSrs then Failure(ProjectionMismatch(srs))
    else if (width, height) != (TileSize, TileSize) then Failure(TileSizeMismatch(width, height))
    else Success(FirstTileUrl(p.urlTemplate, coord))
  }

  /** Proxy.renderTile. `fetch` stands for downloading a URL and decoding the
      body as an RGBA image. */
  function RenderTile(p: Proxy, width: int, height: int, srs: string, coord: Coordinate, mercatorSrs: string,
                      fetch: TileUrl -> Grid): (r: Result<Grid, Error>)
    ensures r.Success? <==> srs == mercatorSrs && width == TileSize && height == TileSize
    ensures r.Success? ==> r.value == fetch(FirstTileUrl(p.urlTemplate, coord))
    ensures srs != mercatorSrs ==> r == Failure(ProjectionMismatch(srs))
    ensures srs == mercatorSrs && (width != TileSize || height != TileSize) ==>
              r == Failure(TileSizeMismatch(width, height))
  {
    match TileRequest(p, width, height, srs, coord, mercatorSrs)
    case Failure(e) => Failure(e)
    case Success(url) => Success(fetch(url))
  }

  /** A rejected tile request fetches nothing: its outcome is the same whatever
      the network would have returned. */
  lemma RenderTileFetchesOnlyWhenValid(p: Proxy, width: int, height: int, srs: string, coord: Coordinate,
                                       mercatorSrs: string, fetch1: TileUrl -> Grid, fetch2: TileUrl -> Grid)
    requires srs != mercatorSrs || width != TileSize || height != TileSize
    ensures RenderTile(p, width, height, srs, coord, mercatorSrs, fetch1)
         == RenderTile(p, width, height, srs, coord, mercatorSrs, fetch2)
  {
  }

  /** The map renderArea asks the mosaicker for: one pixel wider on every side
      than the requested area. */
  function AreaRequest(p: Proxy, width: nat, height: nat, xmin: real, ymin: real, xmax: real, ymax: real): (m: MapRequest)
    ensures m.width == width + 2 && m.height == height + 2
    ensures m.loc1 == ProjLocation(Point(xmin, ymin)) && m.loc2 == ProjLocation(Point(xmax, ymax))
    ensures m.urlTemplate == p.urlTemplate
  {
    MapByExtent(p.urlTemplate, ProjLocation(Point(xmin, ymin)), ProjLocation(Point(xmax, ymax)), width + 2, height + 2)
  }

  /** The crop box renderArea applies to the mosaicked canvas. */
  function CropBox(width: nat, height: nat): (box: (int, int, int, int))
    ensures box.2 - box.0 == width && box.3 - box.1 == height
    ensures BoxInside(box.0, box.1, box.2, box.3, width + 2, height + 2)
  {
    (1, 1, width + 1, height + 1)
  }

  /** Proxy.renderArea. `draw` stands for the mosaicker: it renders the
      requested map as a raster. Only the projection is checked; any size is accepted. */
  function RenderArea(p: Proxy, width: nat, height: nat, srs: string, xmin: real, ymin: real, xmax: real, ymax: real,
                      mercatorSrs: string, draw: MapRequest -> Grid): (r: Result<Grid, Error>)
    ensures r.Failure? <==> srs != mercatorSrs
    ensures r.Failure? ==> r.error == BadSrs
    ensures r.Success? ==> IsGrid(r.value, width, height)
    ensures r.Success? ==> forall y, x :: 0 <= y < height && 0 <= x < width ==>
              r.value[y][x] == PixelAt(draw(AreaRequest(p, width, height, xmin, ymin, xmax, ymax)), x + 1, y + 1)
  {
    if srs != mercatorSrs then Failure(BadSrs)
    else
      var canvas := draw(AreaRequest(p, width, height, xmin, ymin, xmax, ymax));
      var (left, upper, right, lower) := CropBox(width, height);
      Success(Crop(canvas, left, upper, right, lower))
  }

  /** When the mosaicker returns the requested (width+2) x (height+2) canvas, the
      result is its interior: result pixel (x, y) is canvas pixel (x+1, y+1), and
      every interior canvas pixel appears in the result. */
  lemma RenderAreaDropsBorder(p: Proxy, width: nat, height: nat, srs: string, xmin: real, ymin: real, xmax: real, ymax: real,
                              mercatorSrs: string, draw: MapRequest -> Grid)
    requires srs == mercatorSrs
    requires IsGrid(draw(AreaRequest(p, width, height, xmin, ymin, xmax, ymax)), width + 2, height + 2)
    ensures var r := RenderArea(p, width, height, srs, xmin, ymin, xmax, ymax, mercatorSrs, draw);
            var canvas := draw(AreaRequest(p, width, height, xmin, ymin, xmax, ymax));
            r.Success? && IsGrid(r.value, width, height) &&
            (forall y, x :: 0 <= y < height && 0 <= x < width ==> r.value[y][x] == canvas[y + 1][x + 1]) &&
            (forall cy, cx :: 1 <= cy <= height && 1 <= cx <= width ==> canvas[cy][cx] == r.value[cy - 1][cx - 1])
  {
  }

  /** A canvas whose one-pixel frame is painted in a colour the interior never
      uses yields a result without that colour: the whole frame is cut away. */
  lemma RenderAreaRemovesFrame(p: Proxy, width: nat, height: nat, srs: string, xmin: real, ymin: real, xmax: real, ymax: real,
                               mercatorSrs: string, draw: MapRequest -> Grid, frame: Pixel)
    requires srs == mercatorSrs
    requires IsGrid(draw(AreaRequest(p, width, height, xmin, ymin, xmax, ymax)), width + 2, height + 2)
    requires forall cy, cx :: 0 <= cy < height + 2 && 0 <= cx < width + 2 ==>
               (draw(AreaRequest(p, width, height, xmin, ymin, xmax, ymax))[cy][cx] == frame <==>
                cy == 0 || cy == height + 1 || cx == 0 || cx == width + 1)
    ensures var r := RenderArea(p, width, height, srs, xmin, ymin, xmax, ymax, mercatorSrs, draw);
            r.Success? && forall y, x :: 0 <= y < height && 0 <= x < width ==> r.value[y][x] != frame
  {
  }
}
