# media-service-upnp core, modelled in Dafny

This project models the UPnP layer of the Media Service UPnP daemon. The daemon finds
UPnP media servers on the network and exposes them on D-Bus under
`/com/intel/MediaServiceUPnP/server/N`. The model covers four parts.

- **The device registry** (`registry.dfy`, module `Registry`).
  - The layer keeps a map from UDN to device. Each device holds its contexts, one per
    host IP it was announced from, in announcement order.
  - A counter numbers new devices. A device's object path is built from its number.
  - The `device-proxy-available` and `device-proxy-unavailable` callbacks are specified
    on values by `Announce` and `Withdraw` over a `Table`.
  - Class `Upnp` implements those callbacks imperatively, along with the server-id
    listing. Its methods are proved to produce exactly the specified state and
    `found_server`/`lost_server` notifications.
  - It also proves the registry invariant: every device in the map has at least one
    context, no repeated IP, and a path no other device holds.
- **Interface selection** (`subtree.dfy`, module `Subtree`). Covers which D-Bus
  interfaces an object path exposes, and which method table serves a call on a named
  interface.
- **The request router** (`router.dfy`, module `Router`).
  - Covers the five `msu_upnp_*` request entry points. Each resolves the object path
    to a registry device and validates the query and sort arguments.
  - A request either reaches the device backend or is rejected with the error of the
    first failing check.
  - It also states when the completion is deferred to idle.
  - The path parser and the filter, search and sort translators are arbitrary functions
    passed in a `Collaborators` value, so every property holds whatever they compute.
- **The service task** (`service_task.dfy`, module `ServiceTask`).
  - Covers one queued unit of GUPnP work: its pending action handle, the weakly held
    proxy, and the calls it makes into the task queue, GUPnP and its owner. The calls
    are kept as a ghost event log.
  - The invariant: a task completes at most once; never while an action is pending;
    never makes a remote call through a finalised proxy; and frees its user data
    exactly once after deletion.
  - The module also has the generator of `source-N` names.

`decimal.dfy` renders numbers in decimal, as `printf` does, and proves the rendering
injective. `common.dfy` holds `Option` and `NoDuplicates`.

## Model

| member | source | states |
|---|---|---|
| Registry.IndexOfIp | src/upnp.c:203-207 | the index is the first context with the given IP, or the list length exactly when no context has that IP |
| Registry.FindContext | src/upnp.c:241-245 | the linear scan over a device's contexts stops at the first context with the IP, or at the end when there is none |
| Registry.IndexOfIpIsFirstMatch | src/upnp.c:203-209 | any index that is a first match (or the end, with no match) is the scan's result |
| Registry.AnnounceUnknownUdn | src/upnp.c:191-201 | a new UDN whose device constructs gets the current counter value and its path, the counter rises by one, found_server fires once with that path and nothing else changes; a failed construction changes nothing |
| Registry.AnnounceKnownUdn | src/upnp.c:202-212 | a known UDN never notifies; a known IP changes nothing; a new IP appends exactly one context at the end, leaving the others, the device's number and path, and the other devices untouched |
| Registry.AnnounceNullUdn | src/upnp.c:184-186 | an announcement without a UDN changes nothing and notifies nothing |
| Registry.WithdrawIgnored | src/upnp.c:230-247 | a withdrawal with no UDN, an unknown UDN or an IP not among the device's contexts changes nothing |
| Registry.WithdrawKnownIp | src/upnp.c:247-252 | removing a known IP drops exactly that context, keeping the others in order; if contexts remain the device keeps its path and nothing is notified; if it was the last, lost_server fires once with the path and the UDN leaves the map |
| Registry.AnnounceKeepsInv | src/upnp.c:193-212 | availability keeps the invariant: every device has a non-empty context list with distinct IPs, a number below the counter and the path of that number; numbers differ across UDNs |
| Registry.WithdrawKeepsInv | src/upnp.c:241-253 | unavailability keeps the same invariant, in particular no device is left with an empty context list |
| Registry.CounterMonotonic | src/upnp.c:194-197 | the counter never decreases; it rises by exactly one when a device is created and stays put otherwise |
| Registry.CreatedPathIsFresh | src/upnp.c:194-200 | a new device's path differs from every path in the map and from the path of every number handed out before |
| Registry.DistinctPaths | src/upnp.c:194-199 | under the invariant, different UDNs hold devices with different paths |
| Registry.ServerPathInjective | src/upnp.c:194-196 | different counter values give different object paths |
| Registry.UniquePaths | src/upnp.c:329-333 | the invariant makes the paths in the map pairwise distinct, which the listing relies on |
| Registry.DeviceFromPath | src/upnp.c:357-358 | the lookup finds a device exactly when some device in the map has the path, and that device has it |
| Registry.PathResolvesToDevice | src/upnp.c:357-358 | each device's own path resolves back to that device |
| Registry.MultiHomedLifecycle | src/upnp.c:173-258 | a device announced from two IPs and withdrawn from both notifies only on the first announcement and the last withdrawal, with the same path, and leaves the map empty with the counter at one |
| Registry.ListPaths | src/upnp.c:329-333 | the iteration over the map yields one path per device: as many paths as devices, none repeated, and exactly the devices' paths |
| Registry.Upnp.constructor | src/upnp.c:288-298 | a new layer has an empty UDN map, counter zero and no notifications |
| Registry.Upnp.ServerAvailable | src/upnp.c:173-217 | the new map, counter and notifications are exactly those of the availability specification, and the invariant holds |
| Registry.Upnp.ServerUnavailable | src/upnp.c:219-258 | the new map, counter and notifications are exactly those of the unavailability specification, and the invariant holds |
| Registry.Upnp.ServerIds | src/upnp.c:320-336 | exactly one path per device currently in the map, none repeated |
| Subtree.InterfaceNamesDistinct | src/upnp.c:160-168 | the five interface names are pairwise different |
| Subtree.Introspect | src/upnp.c:119-143 | always four interfaces: properties, object, container, then device for a root object and item otherwise, including when the path does not parse; none repeated |
| Subtree.Dispatch | src/upnp.c:155-170 | the user data is always handed back; a table is returned only for the container, properties or item interface, and only for its own name |
| Subtree.DispatchByName | src/upnp.c:160-170 | the container, properties and item names map to their own tables; the object and device names map to none |
| Subtree.DispatchUnknownName | src/upnp.c:156-170 | a name outside the interface table maps to no table |
| Router.IsRootId | src/upnp.c:411 | on a C string, the root-object test holds exactly when the id is "0" |
| Router.Resolve | src/upnp.c:353-365 | a path resolves exactly when it parses and its root path names a device of the map, and then to that device and the parsed id |
| Router.RouteGetChildren | src/upnp.c:338-391 | a path failure, then an unknown device, then invalid sort criteria each reject the request, each exactly in its case; otherwise the backend is called on the resolved device with the translated filter and sort; completion is deferred exactly when no action was started |
| Router.RouteGetAllProps | src/upnp.c:393-433 | path failure or unknown device reject the request; otherwise the backend is called on the resolved device, with root_object exactly when the id is "0"; completion is deferred exactly on error |
| Router.RouteGetProp | src/upnp.c:435-480 | as for get-all-props, and the backend receives the property-map entry for the name, absent when the name is unknown |
| Router.RouteSearch | src/upnp.c:482-543 | path failure, unknown device, invalid query, then invalid sort, each exactly in its case with the query checked before the sort; otherwise the backend receives the translated filter, query and sort; deferred exactly when no action was started |
| Router.RouteGetResource | src/upnp.c:545-586 | path failure or unknown device reject the request; otherwise the backend is called with the translated filter; deferred exactly when no action was started |
| Router.RoutingOrder | src/upnp.c:353-365 | for every request kind: path errors first, unknown devices second, bad queries only after the device is found and only for children and search requests, a dispatched request targets its path's device, and every rejection is deferred to idle |
| Router.DeferredIffNoAction | src/upnp.c:384-387 | completion is deferred exactly when no backend action was started; for the two property requests, exactly on error |
| Router.InvalidSortNeverDispatched | src/upnp.c:371-377 | invalid sort criteria never reach the backend, and fail with BAD_QUERY once the device is found |
| Router.RootPathReachesDevice | src/upnp.c:357-358 | a path whose root is a registered device's path resolves to that device |
| ServiceTask.Extend | src/service-task.c:94-127 | appending events with no finalisation and no remote call on a dead proxy keeps the log's invariant parts, and completions and frees add up |
| ServiceTask.Task.Add | src/service-task.c:51-75 | the new task holds exactly the given action, callback, free function, user data, device and proxy, has no pending action, registers a weak pointer only for a non-null proxy and is queued once |
| ServiceTask.Task.Process | src/service-task.c:89-100 | the action runs with the current proxy and its handle becomes pending; a failure cancels the queue whatever the handle, otherwise a null handle completes the task once, otherwise nothing is signalled |
| ServiceTask.Task.BeginActionCallback | src/service-task.c:77-87 | the pending action is cleared, the user callback runs once with the finished action and the user data, then the task completes once |
| ServiceTask.Task.Cancel | src/service-task.c:102-114 | without a pending action nothing happens; with one, a remote cancel is issued only while the proxy is alive, the action is cleared and the task completes once |
| ServiceTask.CancelTwice | src/service-task.c:106-113 | a second cancel is a no-op: two cancels log exactly what one does |
| ServiceTask.Task.ProxyGone | src/service-task.c:70-72 | finalising the proxy nulls the weak pointer and touches nothing else |
| ServiceTask.Task.Delete | src/service-task.c:116-128 | the user data is freed exactly once if there is a free function, and the weak pointer is removed only if the proxy was not nulled |
| ServiceTask.Task.GetDevice | src/service-task.c:130-133 | returns the device stored when the task was added |
| ServiceTask.Task.GetUserData | src/service-task.c:135-138 | returns the user data stored when the task was added |
| ServiceTask.SourceNamer.constructor | src/service-task.c:42 | the counter starts at 1 |
| ServiceTask.SourceNamer.CreateSource | src/service-task.c:40-49 | returns "source-" and the counter as `%d` renders it, then advances the counter by one modulo 2^32 |
| ServiceTask.FormatSign | src/service-task.c:45 | `%d` on the unsigned counter starts with a minus sign exactly from 2^31 on |
| ServiceTask.SourceNameInjective | src/service-task.c:45 | different counter values give different names |
| ServiceTask.SuccessiveSourcesDiffer | src/service-task.c:45-46 | two successive calls never return the same name, across the wrap-around too |
| ServiceTask.SourceNameFits | src/service-task.c:43-45 | every name fits the 20-byte buffer with its terminator, so g_snprintf never truncates it |
| ServiceTask.FirstSourceName | src/service-task.c:42-45 | the first name is "source-1" |

## Left out

- The GDBus, GUPnP and GSSDP plumbing is not modelled. This covers `prv_on_context_available`, `msu_upnp_new`'s signal wiring, `msu_upnp_delete`, `prv_subtree_enumerate`, GVariant building and GObject reference counting. They are thin wrappers over libraries.
- The task queue engine (`msu_task_queue_*`, `msu_task_processor_cancel_queue`) is not modelled. Its entry points appear only as events in a task's log. FIFO scheduling is not modelled.
- `msu_path_get_path_and_id`, `msu_path_get_non_root_id`, `msu_props_parse_filter`, the sort and search translators and the `msu_device_*` backend calls are not modelled. They are arbitrary functions or plain inputs: `Collaborators`, the `started` flag, the action's handle and failure flag, and the construction-success flag.
- Registry.ServerPath: the object path format is built in device.c, which is not part of this model. The path is modelled as the server root, a slash and the decimal counter value. The proofs rely only on its injectivity.
- Registry.Upnp.ServerAvailable: does not model the wrap-around of the 32-bit `guint` counter. The counter is unbounded, so numbers are never reused. In the source they would repeat after 2^32 device creations.
- Registry.Upnp: the map holds device values, not pointers. A device reached through the map and one returned by the path lookup are not aliased objects.
- Registry.ListPaths and Registry.Upnp.ServerIds: the order of the listed paths is hash-table order in the source. The model promises no order.
- ServiceTask.SourceNamer.CreateSource: the name is returned as a fresh value. The source reuses one static buffer, which a later call overwrites.
- ServiceTask.Task.Process: requires a task not yet processed. This assumes that the task queue engine, which is not part of this model, runs each task at most once.
- ServiceTask.Task.BeginActionCallback: requires that the finished action is the pending one. This assumes that GUPnP calls back only for an action that was begun and not cancelled; GUPnP is not part of this model.
- `g_idle_add` and the asynchronous callbacks are not modelled as scheduling. Deferral is a flag on the outcome. GObject's weak-pointer nulling is the `ProxyGone` method, which the environment may call.
- Error message strings and `g_free` memory management are not modelled.
- The D-Bus names of the interfaces come from a header that is not part of this model. The names used here matter only in being pairwise different.
