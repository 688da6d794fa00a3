# TileStache providers, modelled in Dafny

A provider is the part of TileStache that renders imagery for a layer. This
project models the provider layer of `TileStache/Providers.py`:

- the registry that maps the built-in names `"mapnik"` and `"proxy"` to provider
  classes (`Registry`);
- the split of a dotted external class path such as `"Module.Submodule.Classname"`
  into module path and class name, on top of models of Python's `str.split` and
  `str.join` (`ClassPath`), and the lookup of that class in a host loader (`Registry`);
- the proxy provider (`ProxyProvider`): `renderTile`'s projection and 256x256
  guards and `renderArea`'s request for a canvas one pixel larger on every side,
  cropped back to the requested size;
- the Mapnik provider (`MapnikProvider`): a class whose engine handle
  (`self.mapnik`) is absent until the first render, is created and given the
  mapfile then, and has its width, height and extent overwritten on every render;
- the imaging pieces these rely on (`Raster`): an RGBA pixel grid, the crop by a
  `(left, upper, right, lower)` box, and the raw RGBA byte strings that
  the native renderer hands to the imaging library.

Exceptions become `Result` values with one `Error` constructor per failure the
model surfaces (`Outcomes`): four stand for the source's own `raise` statements,
and three for exceptions raised inside `__import__`, `getattr` and `load_map`. Collaborators the code calls but that are not part of this model
enter as parameters:
- the spherical-mercator projection string (`mercatorSrs`), declared in
  `TileStache/Geography.py`, which is not part of this model; every property
  holds for any value of it;
- the network fetch plus image decoding (`fetch`);
- the ModestMaps mosaicker (`draw`);
- the native rasteriser (`paint`);
- whether the native style load succeeds (`styleLoads`);
- the set of modules `__import__` can load, with their attribute names (`importable`).

Decisions about the source as written:
- `Proxy.renderArea` fails with a bare "Bad SRS" that does not carry the
  projection string (`BadSrs`). `renderTile`'s two errors carry the offending
  values (`ProjectionMismatch`, `TileSizeMismatch`).
- `Mapnik.renderArea` stores the new engine in `self.mapnik` (line 152) before it
  loads the mapfile (line 153). If the load fails, the error reaches the caller
  but the handle stays set. The code does not make a failed style load fatal to
  the provider: a later call skips the load and renders with that engine as the
  failed load left it. See `MapnikProvider.Mapnik.RenderArea`.
- `Mapnik.renderArea` never looks at `srs`.
- A class path without a dot has an empty module path, and `__import__('')`
  always fails. So `loadProviderByClass` can never load a dot-less class path.
- The imaging library's crop pads the part of a box outside the image with zero
  pixels. `Raster.Crop` is defined for every box that is not inverted, whether or
  not it lies inside the image, and `ProxyProvider.RenderArea` returns exactly
  `width x height` whatever canvas the mosaicker returns.
- `renderArea` sizes are `nat` (0 is allowed), since they are added to and used as raster dimensions. Negative sizes, which the source accepts, are excluded by that type; in `Proxy.renderArea` they are the only way to reach an inverted crop box. `renderTile` sizes are `int`, since they are only compared with 256.

## Model

| member | source | states |
|---|---|---|
| `Registry.GetProviderByName` | TileStache/Providers.py:166-177 | The result is Mapnik exactly when the name is `"mapnik"` and Proxy exactly when it is `"proxy"`. Every other name fails with an error carrying that name. |
| `Registry.NamesAreNotNormalised` | TileStache/Providers.py:171-177 | `""`, `" proxy"`, `"proxy "`, `"Mapnik"` and `"MAPNIK"` all fail: there is no trimming and no case folding. |
| `Registry.BuiltInCapabilities` | TileStache/Providers.py:70-164 | Every provider the registry resolves declares `metatileOK`. Only the proxy offers `renderTile`; Mapnik offers only `renderArea`. |
| `Registry.LoadProviderByClass` | TileStache/Providers.py:179-188 | The load succeeds exactly when the module path is non-empty, the loader knows it, and the class name is one of its attributes. On success, module path + `.` + class name is the input and the class name has no dot. An empty or unknown module path fails with `ModuleLoadError` carrying that path, checked before the class (so a dot-less path always fails this way); a known module without the attribute fails with `TypeLookupError` carrying module path and class name. |
| `ClassPath.Split` | TileStache/Providers.py:184 | `str.split` never returns an empty list, and no piece contains the separator. |
| `ClassPath.JoinSplit` | TileStache/Providers.py:184-185 | Joining the pieces of a split with the separator rebuilds the string. |
| `ClassPath.SplitJoin` | TileStache/Providers.py:184-185 | Splitting a join of one or more separator-free pieces gives back exactly those pieces, so split and join are inverse. |
| `ClassPath.SplitClassPath` | TileStache/Providers.py:184-186 | The class name, the last segment, contains no dot. |
| `ClassPath.ClassPathRoundTrip` | TileStache/Providers.py:184-186 | With at least one dot, module path + `.` + class name is the class path. With no dot, the module path is empty and the class name is the whole input. |
| `ClassPath.ClassPathUnique` | TileStache/Providers.py:184-186 | Any split of the class path into a module path, a dot and a dot-free name is the one SplitClassPath gives, so the class name is what follows the last dot. |
| `ClassPath.Join` | TileStache/Providers.py:185 | `'.'.join(parts)`: no pieces give the empty string; otherwise the first piece is a prefix of the result and, when more pieces follow, is followed by the separator. |
| `Raster.Encode` | TileStache/Providers.py:162 | `tostring()` of a pixel buffer has four bytes per pixel, the first pixel's red, green, blue and alpha bytes first. |
| `Raster.Decode` | TileStache/Providers.py:162 | `fromstring`'s RGBA reading gives one pixel per four bytes, ignoring a trailing partial pixel; the first pixel is made of the first four bytes. |
| `Registry.MetatileOK` | TileStache/Providers.py:81-136 | Both built-in classes declare `metatileOK = True`. |
| `Registry.OffersRenderTile` | TileStache/Providers.py:88-148 | A built-in defines `renderTile` exactly when it is the proxy; Mapnik defines only `renderArea`. |
| `ProxyProvider.TileRequest` | TileStache/Providers.py:91-97 | A URL is produced exactly when the projection matches and the size is 256x256. In that case the URL is the template's URL for the given coordinate. A wrong projection is reported first, carrying the projection string, even when the size is also wrong. A wrong size with the right projection is reported with the requested size. |
| `ProxyProvider.RenderTile` | TileStache/Providers.py:88-100 | It succeeds under the same two guards, in the same order, with the same errors. On success, the image is what the fetch of the coordinate's URL returns. |
| `ProxyProvider.RenderTileFetchesOnlyWhenValid` | TileStache/Providers.py:91-98 | When a guard fails, the outcome is the same whatever the network returns, so nothing is fetched. |
| `ProxyProvider.AreaRequest` | TileStache/Providers.py:110-116 | The mosaicker is asked for a `(width+2) x (height+2)` map between the projections of `(xmin, ymin)` and `(xmax, ymax)`, using the proxy's own URL template. |
| `ProxyProvider.CropBox` | TileStache/Providers.py:117 | The crop box `(1, 1, width+1, height+1)` is `width` wide and `height` high, and it lies inside a `(width+2) x (height+2)` canvas. |
| `ProxyProvider.RenderArea` | TileStache/Providers.py:102-119 | It fails, with `BadSrs`, exactly when the projection does not match; no size is rejected. On success, the image is exactly `width x height` whatever the canvas, and pixel `(x, y)` is canvas pixel `(x+1, y+1)`. |
| `ProxyProvider.RenderAreaDropsBorder` | TileStache/Providers.py:108-119 | Given a canvas of the requested inflated size, the result is its interior. Each result pixel `(x, y)` is canvas pixel `(x+1, y+1)`, and every interior canvas pixel appears in the result one pixel up and to the left. |
| `ProxyProvider.RenderAreaRemovesFrame` | TileStache/Providers.py:108-119 | Take an inflated canvas whose pixels have one colour exactly on its one-pixel outer frame. Then that colour does not appear in the result: all four borders are cut away. |
| `Raster.Crop` | TileStache/Providers.py:117 | Crop box semantics: the result is `right-left` wide and `lower-upper` high; pixel `(x, y)` is source pixel `(left+x, upper+y)`, or zero outside the source. |
| `Raster.CropInside` | TileStache/Providers.py:117 | For a box inside the image, the crop copies the image's pixels shifted by `(left, upper)`, with no padding. |
| `Raster.DecodeEncode` | TileStache/Providers.py:159-162 | Reading an RGBA byte string as pixels inverts writing pixels as an RGBA byte string. |
| `Raster.FromString` | TileStache/Providers.py:162 | `fromstring('RGBA', (width, height), data)` gives a `width x height` image. |
| `Raster.FromStringEncode` | TileStache/Providers.py:159-162 | Take a `width x height` pixel buffer, write it as bytes, and read it back with `fromstring`. Pixel `(x, y)` of the result is buffer entry `y*width + x`. |
| `MapnikProvider.RenderBuffer` | TileStache/Providers.py:159-160 | The rendered canvas has `width*height` pixels, each the rasteriser's colour for that index under the engine's current view. |
| `MapnikProvider.Engine.constructor` | TileStache/Providers.py:152 | `mapnik.Map(0, 0)` is a 0x0 engine with no style and no extent. |
| `MapnikProvider.Mapnik.constructor` | TileStache/Providers.py:138-146 | After construction, the layer and mapfile are stored, there is no engine handle, and nothing has been loaded. |
| `MapnikProvider.Mapnik.RenderArea` | TileStache/Providers.py:148-164 | The invariant holds: at most one load, and a load exactly when a handle exists. An existing handle is never replaced and is not reloaded. A missing handle is created fresh and loaded. Only a failed first load fails, and then it leaves a 0x0 unstyled engine in place. Otherwise the engine takes this call's width, height and extent (and the mapfile as style when just loaded), and the image is `width x height`. Its pixel `(x, y)` is the rasteriser's colour for this call's view at row-major index `y*width + x`. |
| `MapnikProvider.RenderTwice` | TileStache/Providers.py:148-164 | Two successive renders on a fresh provider, of any sizes and extents, load the mapfile once, and each image has its own call's size and is drawn from its own call's size, extent and the loaded mapfile. |

## Left out

- Network fetch and image decoding (`urlopen`, `StringIO`, `PIL.Image.open`, `convert('RGBA')`) are I/O and a foreign library: they are the `fetch` parameter, and their failures are not modelled. In the source an exception from them, or from `mapByExtent`/`draw()` (the `draw` parameter) and the native rasteriser (the `paint` parameter), reaches the caller unchanged.
- URL template substitution (`TemplatedMercatorProvider.getTileUrls`) belongs to ModestMaps, which is not part of this model. A URL is the pair of template and coordinate.
- ModestMaps `mapByExtent`, its zoom inference and `draw()` are not part of this model. The mosaicked canvas is the `draw` parameter. The crop properties that need its size assume the raster is `(width+2) x (height+2)`.
- The spherical-mercator projection (`Geography.SphericalMercator.projLocation`) and the floating-point extents are not modelled. Coordinates are reals passed through unchanged, and a projected location is the point it was computed from.
- The mapnik engine (`load_map`, `zoom_to_box`, `render`, `tostring`) is native code. Only the state it is given is modelled: size, extent and loaded style. The rasteriser is the `paint` parameter. Whether the style loads is the `styleLoads` parameter.
- ProxyProvider.RenderArea: takes `nat` sizes, so the negative sizes the source accepts, and the inverted crop box they produce, are not modelled.
- MapnikProvider.Mapnik.RenderArea: after a failed `load_map` the model's engine holds no style and keeps its 0x0 size; this is a modelling choice, since what a failed native load leaves inside the map (some styles or layers already added) is not visible in the source.
- MapnikProvider.Mapnik.RenderArea: records the envelope given to `zoom_to_box` as the engine's extent and does not model mapnik's adjustment of that extent to the raster's aspect ratio.
- Mapnik's premultiplied-alpha buffer conventions are not modelled: the byte string of the rendered buffer is read as plain RGBA.
- `__import__` and `getattr` are reflection. They are the `importable` map from a module name to the attribute names of the object `__import__` returns for it. That object is the top-level package for a dotted name, which the map absorbs. Whether the attribute found is a class is not checked, as in the source.
- Exception message text is left out beyond the offending name or value each error carries.
- Concurrent use of one Mapnik provider is left out: only sequential calls are modelled.
- The `layer` argument of both constructors is opaque: a string for Mapnik, dropped for Proxy, as the source keeps it unused.
