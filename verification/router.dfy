/**
 * The request router of the UPnP layer: the five `msu_upnp_*` entry points that
 * resolve a bus object path to a device of the registry, translate the client's
 * filter, search and sort arguments, and hand the request to the device backend.
 *
 * The path parser, the filter, sort and search translators and the property-name
 * table are collaborators whose code is not part of this model; they enter as the
 * functions of a `Collaborators` value, so every property below holds whatever
 * they compute. What is modelled is the order of the checks, the error each one
 * produces, what reaches the backend, and when the completion is deferred to idle.
 */
module Router {
  import opened Common
  import opened Registry

  /** The result of splitting an object path: the device's root path and the item id. */
  datatype PathAndId = PathAndId(rootPath: string, id: string)

  /** The property filter as the backend takes it: a bit mask and a UPnP filter string. */
  datatype Filter = Filter(mask: nat, upnpFilter: string)

  datatype Collaborators = Collaborators(
    /** `msu_path_get_path_and_id`: None when the path does not parse. */
    pathAndId: string -> Option<PathAndId>,
    /** `msu_props_parse_filter`: never fails. */
    parseFilter: seq<string> -> Filter,
    /** `msu_sort_translate_sort_string`: None when the sort criteria are not valid. */
    translateSort: string -> Option<string>,
    /** `msu_search_translate_search_string`: None when the query is not valid. */
    translateSearch: string -> Option<string>,
    /** Lookup of a property name in the filter map: None when the name is unknown. */
    propMap: string -> Option<string>)

  datatype QueryFault = InvalidQuery | InvalidSort

  /**
   * Errors the router produces before any backend call: `PathError` is the error the
   * path parser reports itself, the other two are `MSU_ERROR_OBJECT_NOT_FOUND` and
   * `MSU_ERROR_BAD_QUERY`.
   */
  datatype Error = PathError | ObjectNotFound | BadQuery(fault: QueryFault)

  /** The backend operation started for a request that passed every check. */
  datatype BackendCall =
    | GetChildrenCall(device: Device, id: string, filter: Filter, sortBy: string, protocolInfo: string)
    | GetAllPropsCall(device: Device, id: string, rootObject: bool, protocolInfo: string)
    | GetPropCall(device: Device, id: string, prop: Option<string>, rootObject: bool, protocolInfo: string)
    | SearchCall(device: Device, id: string, filter: Filter, query: string, sortBy: string, protocolInfo: string)
    | GetResourceCall(device: Device, id: string, filter: Filter)
  {
    /** The device and item every backend operation is addressed to. */
    function Target(): (Device, string)
    {
      (device, id)
    }
  }

  datatype Routed = Rejected(error: Error) | Dispatched(call: BackendCall)

  /**
   * What a request leads to, and whether `msu_async_complete_task` was scheduled on
   * idle by the router itself (`deferred`) instead of being left to the backend action.
   */
  datatype Outcome = Outcome(routed: Routed, deferred: bool)

  datatype Request =
    | GetChildren(path: string, filter: seq<string>, sortBy: string, protocolInfo: string)
    | GetAllProps(path: string, protocolInfo: string)
    | GetProp(path: string, propName: string, protocolInfo: string)
    | Search(path: string, filter: seq<string>, query: string, sortBy: string, protocolInfo: string)
    | GetResource(path: string, filter: seq<string>)
  {
    function Path(): string
    {
      match this
      case GetChildren(p, _, _, _) => p
      case GetAllProps(p, _) => p
      case GetProp(p, _, _) => p
      case Search(p, _, _, _, _) => p
      case GetResource(p, _) => p
    }
  }

  /** A string as C sees it: no NUL inside, the terminator implicit after the end. */
  predicate IsCString(s: string)
  {
    forall i :: 0 <= i < |s| ==> s[i] != '\0'
  }

  /** The character at index `k` of a C string, reading the terminator past the end. */
  function CharAt(s: string, k: nat): char
  {
    if k < |s| then s[k] else '\0'
  }

  /** The root-object test on an item id: first character '0', second the terminator. */
  function IsRootId(id: string): (b: bool)
    ensures IsCString(id) ==> (b <==> id == "0")
  {
    CharAt(id, 0) == '0' && CharAt(id, 1) == '\0'
  }

  /** The device named by the root path of `path`, when the path parses and the device is known. */
  ghost function Resolve(c: Collaborators, t: Table, path: string): (r: Option<(Device, string)>)
    ensures r.Some? <==> c.pathAndId(path).Some? && DeviceFromPath(t, c.pathAndId(path).value.rootPath).Some?
    ensures r.Some? ==> r.value.0.path == c.pathAndId(path).value.rootPath && r.value.1 == c.pathAndId(path).value.id
  {
    match c.pathAndId(path)
    case None => None
    case Some(pi) =>
      match DeviceFromPath(t, pi.rootPath)
      case None => None
      case Some(d) => Some((d, pi.id))
  }

  /** The error of the two resolution steps, path first, then the device lookup. */
  ghost function ResolveError(c: Collaborators, t: Table, path: string): Error
    requires Resolve(c, t, path).None?
  {
    if c.pathAndId(path).None? then PathError else ObjectNotFound
  }

  /** `msu_upnp_get_children`. `started` is whether the backend call started an action. */
  ghost function RouteGetChildren(c: Collaborators, t: Table, path: string, filter: seq<string>,
                                  sortBy: string, protocolInfo: string, started: bool): (o: Outcome)
    ensures o.routed == Rejected(PathError) <==> c.pathAndId(path).None?
    ensures o.routed == Rejected(ObjectNotFound) <==> c.pathAndId(path).Some? && Resolve(c, t, path).None?
    ensures o.routed == Rejected(BadQuery(InvalidSort)) <==> Resolve(c, t, path).Some? && c.translateSort(sortBy).None?
    ensures o.routed.Dispatched? <==> Resolve(c, t, path).Some? && c.translateSort(sortBy).Some?
    ensures o.routed.Dispatched? ==>
      && o.routed.call.GetChildrenCall?
      && o.routed.call.Target() == Resolve(c, t, path).value
      && o.routed.call.filter == c.parseFilter(filter)
      && o.routed.call.sortBy == c.translateSort(sortBy).value
    ensures o.deferred <==> !(o.routed.Dispatched? && started)
  {
    var routed :=
      match Resolve(c, t, path)
      case None => Rejected(ResolveError(c, t, path))
      case Some((device, id)) =>
        match c.translateSort(sortBy)
        case None => Rejected(BadQuery(InvalidSort))
        case Some(sort) => Dispatched(GetChildrenCall(device, id, c.parseFilter(filter), sort, protocolInfo));
    Outcome(routed, !(routed.Dispatched? && started))
  }

  /** `msu_upnp_get_all_props`: no argument to validate; deferred only on error. */
  ghost function RouteGetAllProps(c: Collaborators, t: Table, path: string, protocolInfo: string): (o: Outcome)
    ensures o.routed == Rejected(PathError) <==> c.pathAndId(path).None?
    ensures o.routed == Rejected(ObjectNotFound) <==> c.pathAndId(path).Some? && Resolve(c, t, path).None?
    ensures o.routed.Dispatched? <==> Resolve(c, t, path).Some?
    ensures o.routed.Dispatched? ==>
      && o.routed.call.GetAllPropsCall?
      && o.routed.call.Target() == Resolve(c, t, path).value
      && o.routed.call.rootObject == IsRootId(c.pathAndId(path).value.id)
    ensures o.deferred <==> o.routed.Rejected?
  {
    match Resolve(c, t, path)
    case None => Outcome(Rejected(ResolveError(c, t, path)), true)
    case Some((device, id)) =>
      Outcome(Dispatched(GetAllPropsCall(device, id, IsRootId(id), protocolInfo)), false)
  }

  /**
   * `msu_upnp_get_prop`: the property name is looked up in the filter map and passed
   * on even when unknown; deferred only on error.
   */
  ghost function RouteGetProp(c: Collaborators, t: Table, path: string, propName: string, protocolInfo: string): (o: Outcome)
    ensures o.routed == Rejected(PathError) <==> c.pathAndId(path).None?
    ensures o.routed == Rejected(ObjectNotFound) <==> c.pathAndId(path).Some? && Resolve(c, t, path).None?
    ensures o.routed.Dispatched? <==> Resolve(c, t, path).Some?
    ensures o.routed.Dispatched? ==>
      && o.routed.call.GetPropCall?
      && o.routed.call.Target() == Resolve(c, t, path).value
      && o.routed.call.prop == c.propMap(propName)
      && o.routed.call.rootObject == IsRootId(c.pathAndId(path).value.id)
    ensures o.deferred <==> o.routed.Rejected?
  {
    match Resolve(c, t, path)
    case None => Outcome(Rejected(ResolveError(c, t, path)), true)
    case Some((device, id)) =>
      Outcome(Dispatched(GetPropCall(device, id, c.propMap(propName), IsRootId(id), protocolInfo)), false)
  }

  /** `msu_upnp_search`: the query is validated before the sort criteria. */
  ghost function RouteSearch(c: Collaborators, t: Table, path: string, filter: seq<string>, query: string,
                             sortBy: string, protocolInfo: string, started: bool): (o: Outcome)
    ensures o.routed == Rejected(PathError) <==> c.pathAndId(path).None?
    ensures o.routed == Rejected(ObjectNotFound) <==> c.pathAndId(path).Some? && Resolve(c, t, path).None?
    ensures o.routed == Rejected(BadQuery(InvalidQuery)) <==> Resolve(c, t, path).Some? && c.translateSearch(query).None?
    ensures o.routed == Rejected(BadQuery(InvalidSort)) <==>
      Resolve(c, t, path).Some? && c.translateSearch(query).Some? && c.translateSort(sortBy).None?
    ensures o.routed.Dispatched? <==>
      Resolve(c, t, path).Some? && c.translateSearch(query).Some? && c.translateSort(sortBy).Some?
    ensures o.routed.Dispatched? ==>
      && o.routed.call.SearchCall?
      && o.routed.call.Target() == Resolve(c, t, path).value
      && o.routed.call.filter == c.parseFilter(filter)
      && o.routed.call.query == c.translateSearch(query).value
      && o.routed.call.sortBy == c.translateSort(sortBy).value
    ensures o.deferred <==> !(o.routed.Dispatched? && started)
  {
    var routed :=
      match Resolve(c, t, path)
      case None => Rejected(ResolveError(c, t, path))
      case Some((device, id)) =>
        match c.translateSearch(query)
        case None => Rejected(BadQuery(InvalidQuery))
        case Some(q) =>
          match c.translateSort(sortBy)
          case None => Rejected(BadQuery(InvalidSort))
          case Some(sort) => Dispatched(SearchCall(device, id, c.parseFilter(filter), q, sort, protocolInfo));
    Outcome(routed, !(routed.Dispatched? && started))
  }

  /** `msu_upnp_get_resource`: only the filter is translated, and that cannot fail. */
  ghost function RouteGetResource(c: Collaborators, t: Table, path: string, filter: seq<string>, started: bool): (o: Outcome)
    ensures o.routed == Rejected(PathError) <==> c.pathAndId(path).None?
    ensures o.routed == Rejected(ObjectNotFound) <==> c.pathAndId(path).Some? && Resolve(c, t, path).None?
    ensures o.routed.Dispatched? <==> Resolve(c, t, path).Some?
    ensures o.routed.Dispatched? ==>
      && o.routed.call.GetResourceCall?
      && o.routed.call.Target() == Resolve(c, t, path).value
      && o.routed.call.filter == c.parseFilter(filter)
    ensures o.deferred <==> !(o.routed.Dispatched? && started)
  {
    var routed :=
      match Resolve(c, t, path)
      case None => Rejected(ResolveError(c, t, path))
      case Some((device, id)) => Dispatched(GetResourceCall(device, id, c.parseFilter(filter)));
    Outcome(routed, !(routed.Dispatched? && started))
  }

  /** Any request, sent to its entry point. */
  ghost function Route(c: Collaborators, t: Table, req: Request, started: bool): Outcome
  {
    match req
    case GetChildren(p, f, s, pi) => RouteGetChildren(c, t, p, f, s, pi, started)
    case GetAllProps(p, pi) => RouteGetAllProps(c, t, p, pi)
    case GetProp(p, n, pi) => RouteGetProp(c, t, p, n, pi)
    case Search(p, f, q, s, pi) => RouteSearch(c, t, p, f, q, s, pi, started)
    case GetResource(p, f) => RouteGetResource(c, t, p, f, started)
  }

  /**
   * For every kind of request: a path that does not parse fails first, an unknown
   * device second, a query or sort error only after the device was found, and only
   * requests that carry sort criteria or a query can fail with `BadQuery`. A request
   * that reaches the backend targets the device named by its path. Every error is
   * delivered from idle, never synchronously.
   */
  lemma RoutingOrder(c: Collaborators, t: Table, req: Request, started: bool)
    ensures var o := Route(c, t, req, started);
      && (o.routed == Rejected(PathError) <==> c.pathAndId(req.Path()).None?)
      && (o.routed == Rejected(ObjectNotFound) <==>
            c.pathAndId(req.Path()).Some? && Resolve(c, t, req.Path()).None?)
      && (o.routed.Rejected? && o.routed.error.BadQuery? ==>
            Resolve(c, t, req.Path()).Some? && (req.GetChildren? || req.Search?))
      && (o.routed.Dispatched? ==> o.routed.call.Target() == Resolve(c, t, req.Path()).value)
      && (o.routed.Rejected? ==> o.deferred)
  {
  }

  /**
   * The completion is scheduled on idle exactly when no backend action was started;
   * for the two property requests, the router never defers after dispatching, so
   * exactly on error.
   */
  lemma DeferredIffNoAction(c: Collaborators, t: Table, req: Request, started: bool)
    ensures var o := Route(c, t, req, started);
      && ((req.GetAllProps? || req.GetProp?) ==> (o.deferred <==> o.routed.Rejected?))
      && (!(req.GetAllProps? || req.GetProp?) ==> (o.deferred <==> !(o.routed.Dispatched? && started)))
  {
  }

  /**
   * Sort criteria are all-or-nothing: when the translator refuses them the request
   * fails with `BadQuery`, however valid its filter, and never reaches the backend.
   */
  lemma InvalidSortNeverDispatched(c: Collaborators, t: Table, req: Request, started: bool)
    requires req.GetChildren? || req.Search?
    requires c.translateSort(req.sortBy).None?
    ensures var o := Route(c, t, req, started);
      o.routed.Rejected? && o.deferred
      && (Resolve(c, t, req.Path()).Some? ==> o.routed.error.BadQuery?)
  {
  }

  /** Every device of the registry is reachable through its own root path. */
  lemma RootPathReachesDevice(c: Collaborators, t: Table, u: Udn, path: string)
    requires Inv(t) && u in t.devices
    requires c.pathAndId(path).Some? && c.pathAndId(path).value.rootPath == t.devices[u].path
    ensures Resolve(c, t, path) == Some((t.devices[u], c.pathAndId(path).value.id))
  {
    PathResolvesToDevice(t, u);
  }
}
