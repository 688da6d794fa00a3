/** Resolving a provider: built-ins by short name, external providers by a
    dotted class path. */
module Registry {
  import opened Outcomes
  import opened ClassPath

  /** The two built-in provider classes. */
  datatype ProviderKind = MapnikClass | ProxyClass

  /** getProviderByName: exact string comparison, no case folding or trimming. */
  function GetProviderByName(name: string): (r: Result<ProviderKind, Error>)
    ensures r == Success(MapnikClass) <==> name == "mapnik"
    ensures r == Success(ProxyClass) <==> name == "proxy"
    ensures r.Failure? <==> name != "mapnik" && name != "proxy"
    ensures r.Failure? ==> r.error == UnknownProviderName(name)
  {
    if name == "mapnik" then Success(MapnikClass)
    else if name == "proxy" then Success(ProxyClass)
    else Failure(UnknownProviderName(name))
  }

  /** Names that differ from a built-in only by case or surrounding blanks fail. */
  lemma NamesAreNotNormalised()
    ensures GetProviderByName("") == Failure(UnknownProviderName(""))
    ensures GetProviderByName(" proxy") == Failure(UnknownProviderName(" proxy"))
    ensures GetProviderByName("proxy ") == Failure(UnknownProviderName("proxy "))
    ensures GetProviderByName("Mapnik") == Failure(UnknownProviderName("Mapnik"))
    ensures GetProviderByName("MAPNIK") == Failure(UnknownProviderName("MAPNIK"))
  {
  }

  /** The class attribute metatileOK of each built-in: both may be cut into metatiles. */
  function MetatileOK(kind: ProviderKind): (ok: bool)
    ensures ok
  {
    match kind
    case MapnikClass => true
    case ProxyClass => true
  }

  /** Whether the class defines renderTile; every provider defines renderArea. */
  function OffersRenderTile(kind: ProviderKind): (offered: bool)
    ensures offered <==> kind == ProxyClass
  {
    match kind
    case MapnikClass => false
    case ProxyClass => true
  }

  /** Every provider the registry can name is metatile-safe, and only the proxy
      renders single tiles. */
  lemma BuiltInCapabilities(name: string)
    requires GetProviderByName(name).Success?
    ensures MetatileOK(GetProviderByName(name).value)
    ensures OffersRenderTile(GetProviderByName(name).value) <==> name == "proxy"
  {
  }

  /** A class found by loadProviderByClass: the module path given to __import__
      and the attribute name given to getattr. */
  datatype ClassRef = ClassRef(modulePath: string, className: string)

  /** loadProviderByClass(classpath). The host loader is the map `importable`:
      for each name __import__ accepts, the attribute names of the module object
      it returns for that name. __import__ of the empty name always fails. */
  function LoadProviderByClass(classpath: string, importable: map<string, set<string>>): (r: Result<ClassRef, Error>)
    ensures r.Success? <==>
              SplitClassPath(classpath).0 != "" &&
              SplitClassPath(classpath).0 in importable &&
              SplitClassPath(classpath).1 in importable[SplitClassPath(classpath).0]
    ensures r.Success? ==> r.value.modulePath + [Dot] + r.value.className == classpath &&
                           Dot !in r.value.className
    ensures r.Failure? ==> r.error.ModuleLoadError? || r.error.TypeLookupError?
    ensures var (modulePath, className) := SplitClassPath(classpath);
            (modulePath == "" || modulePath !in importable ==> r == Failure(ModuleLoadError(modulePath))) &&
            (modulePath != "" && modulePath in importable && className !in importable[modulePath] ==>
               r == Failure(TypeLookupError(modulePath, className)))
    ensures Dot !in classpath ==> r == Failure(ModuleLoadError(""))
  {
    ClassPathRoundTrip(classpath);
    var (modulePath, className) := SplitClassPath(classpath);
    if modulePath == "" || modulePath !in importable then Failure(ModuleLoadError(modulePath))
    else if className !in importable[modulePath] then Failure(TypeLookupError(modulePath, className))
    else Success(ClassRef(modulePath, className))
  }
}
