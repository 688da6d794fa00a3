/** Success/failure values standing in for the exceptions raised by the provider code. */
module Outcomes {

  datatype Option<+T> = None | Some(value: T)

  datatype Result<+R, +E> = Success(value: R) | Failure(error: E)

  /** The failures the provider layer can surface, one constructor per failure:
      the source's own raises, and exceptions from __import__, getattr and load_map. */
  datatype Error =
    | UnknownProviderName(name: string)               // getProviderByName, no such built-in
    | ModuleLoadError(modulePath: string)             // __import__ of the module path fails
    | TypeLookupError(modulePath: string, className: string) // getattr finds no such attribute
    | ProjectionMismatch(srs: string)                 // Proxy.renderTile, wrong projection
    | TileSizeMismatch(width: int, height: int)       // Proxy.renderTile, not a 256x256 tile
    | BadSrs                                          // Proxy.renderArea, wrong projection
    | StyleLoadError(mapfile: string)                 // Mapnik, load_map of the mapfile fails
}
