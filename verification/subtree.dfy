/**
 * The D-Bus subtree callbacks of the UPnP layer: which interfaces an object path
 * exposes (`prv_subtree_introspect`) and which method table serves a call on a
 * named interface (`prv_subtree_dispatch`).
 */
module Subtree {
  import opened Common

  /** The entries of the interface-info table the layer is created with. */
  datatype InterfaceIndex = PropertiesInfo | ObjectInfo | ContainerInfo | ItemInfo | DeviceInfo

  /**
   * The D-Bus name of each interface. The macros live in a header that is not part
   * of this model; only their being pairwise different matters here.
   */
  function InterfaceName(k: InterfaceIndex): string
  {
    match k
    case PropertiesInfo => "org.freedesktop.DBus.Properties"
    case ObjectInfo => "org.gnome.UPnP.MediaObject2"
    case ContainerInfo => "org.gnome.UPnP.MediaContainer2"
    case ItemInfo => "org.gnome.UPnP.MediaItem2"
    case DeviceInfo => "com.intel.UPnP.MediaDevice"
  }

  lemma InterfaceNamesDistinct(j: InterfaceIndex, k: InterfaceIndex)
    requires InterfaceName(j) == InterfaceName(k)
    ensures j == k
  {
  }

  /**
   * `prv_subtree_introspect`. `nonRootId` is what the path helper reports for the
   * object path: None when it fails, otherwise whether a slash follows the device
   * part. The interfaces come in table order; the NULL terminator is implicit.
   */
  function Introspect(nonRootId: Option<bool>): (r: seq<InterfaceIndex>)
    ensures |r| == 4
    ensures r[..3] == [PropertiesInfo, ObjectInfo, ContainerInfo]
    ensures r[3] == (if nonRootId == Some(false) then DeviceInfo else ItemInfo)
    ensures DeviceInfo in r <==> nonRootId == Some(false)
    ensures ItemInfo in r <==> nonRootId != Some(false)
    ensures NoDuplicates(r)
  {
    var rootObject := match nonRootId case Some(slash) => !slash case None => false;
    [PropertiesInfo, ObjectInfo, ContainerInfo] + (if !rootObject then [ItemInfo] else [DeviceInfo])
  }

  /**
   * `prv_subtree_dispatch`: the method table for a call on `interfaceName`, together
   * with the user data it always hands back. Only the container, properties and
   * item interfaces have one.
   */
  function Dispatch<U>(interfaceName: string, userData: U): (r: (Option<InterfaceIndex>, U))
    ensures r.1 == userData
    ensures r.0.Some? ==> r.0.value in {ContainerInfo, PropertiesInfo, ItemInfo}
    ensures r.0.Some? ==> InterfaceName(r.0.value) == interfaceName
  {
    var table :=
      if interfaceName == InterfaceName(ContainerInfo) then Some(ContainerInfo)
      else if interfaceName == InterfaceName(PropertiesInfo) then Some(PropertiesInfo)
      else if interfaceName == InterfaceName(ItemInfo) then Some(ItemInfo)
      else None;
    (table, userData)
  }

  /**
   * Dispatch inverts the name table on the three served interfaces and refuses every
   * other name, the object and device interfaces included.
   */
  lemma DispatchByName<U>(k: InterfaceIndex, userData: U)
    ensures Dispatch(InterfaceName(k), userData).0 ==
      if k in {ContainerInfo, PropertiesInfo, ItemInfo} then Some(k) else None
  {
    var r := Dispatch(InterfaceName(k), userData).0;
    if r.Some? {
      InterfaceNamesDistinct(r.value, k);
    }
  }

  /** Names outside the table are refused. */
  lemma DispatchUnknownName<U>(name: string, userData: U)
    requires forall k :: InterfaceName(k) != name
    ensures Dispatch(name, userData).0 == None
  {
  }
}
