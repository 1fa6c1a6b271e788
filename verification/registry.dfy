/**
 * The device registry of the UPnP layer: a map from UDN to device, each device
 * holding the ordered list of network contexts (one per host IP) through which
 * it is currently announced, and a counter that numbers new devices.
 *
 * `Table` with `Announce` and `Withdraw` is the value-level specification of the
 * two discovery callbacks; class `Upnp` holds the same state as mutable fields
 * and implements the callbacks imperatively, proved equal to the specification.
 */
module Registry {
  import opened Common
  import opened Decimal

  type Udn = string
  type IpAddress = string
  /** Opaque handle of a GUPnP device proxy. */
  type ProxyRef = nat

  /** One network path to a device: the host IP of the announcing context and its proxy. */
  datatype Context = Context(ipAddress: IpAddress, proxy: ProxyRef)

  /**
   * A device: the counter value it was created with, the bus object path assigned
   * from it at creation, and its contexts in announcement order.
   */
  datatype Device = Device(number: nat, path: string, contexts: seq<Context>)

  /** The `found_server` and `lost_server` callbacks, recorded with the path they receive. */
  datatype Notification = FoundServer(path: string) | LostServer(path: string)

  /** The registry state: the UDN map and the device counter. */
  datatype Table = Table(devices: map<Udn, Device>, counter: nat)

  /** A new registry state together with the notifications fired while reaching it. */
  datatype Step = Step(table: Table, notified: seq<Notification>)

  const ServerRoot: string := "/com/intel/MediaServiceUPnP/server"

  /** The path of the device created with counter value `n`. */
  function ServerPath(n: nat): string
  {
    ServerRoot + "/" + DecimalString(n)
  }

  lemma ServerPathInjective(a: nat, b: nat)
    requires ServerPath(a) == ServerPath(b)
    ensures a == b
  {
    var k := |ServerRoot + "/"|;
    assert ServerPath(a)[k..] == DecimalString(a);
    assert ServerPath(b)[k..] == DecimalString(b);
    DecimalInjective(a, b);
  }

  /** The set of host IPs among `cs`. */
  function IpsOf(cs: seq<Context>): set<IpAddress>
  {
    set i | 0 <= i < |cs| :: cs[i].ipAddress
  }

  /** The index of the first context announced from `ip`, or `|cs|` when there is none. */
  function IndexOfIp(cs: seq<Context>, ip: IpAddress): (i: nat)
    ensures i <= |cs|
    ensures i < |cs| ==> cs[i].ipAddress == ip
    ensures forall j :: 0 <= j < i ==> cs[j].ipAddress != ip
    ensures i == |cs| <==> ip !in IpsOf(cs)
    decreases |cs|
  {
    if cs == [] then 0
    else if cs[0].ipAddress == ip then 0
    else
      var k := IndexOfIp(cs[1..], ip);
      assert forall j :: 1 <= j < |cs| ==> cs[j] == cs[1..][j - 1];
      1 + k
  }

  /** No two contexts of one device share a host IP. */
  predicate DistinctIps(cs: seq<Context>)
  {
    forall i, j :: 0 <= i < j < |cs| ==> cs[i].ipAddress != cs[j].ipAddress
  }

  /**
   * The registry invariant: every device in the map has at least one context,
   * no repeated IP, and a number below the counter; different UDNs hold
   * devices with different numbers.
   */
  ghost predicate Inv(t: Table)
  {
    && (forall u :: u in t.devices ==>
          |t.devices[u].contexts| > 0
          && DistinctIps(t.devices[u].contexts)
          && t.devices[u].number < t.counter
          && t.devices[u].path == ServerPath(t.devices[u].number))
    && (forall u, v :: u in t.devices && v in t.devices && u != v ==>
          t.devices[u].number != t.devices[v].number)
  }

  /** The empty registry of a freshly created UPnP layer (zero-filled allocation). */
  function Empty(): Table
  {
    Table(map[], 0)
  }

  /**
   * The `device-proxy-available` callback. `udn` is None when the proxy reports no
   * UDN; `constructed` is whether the device constructor succeeds.
   */
  function Announce(t: Table, udn: Option<Udn>, ip: IpAddress, proxy: ProxyRef, constructed: bool): Step
  {
    match udn
    case None => Step(t, [])
    case Some(u) =>
      if u !in t.devices then
        if constructed then
          var d := Device(t.counter, ServerPath(t.counter), [Context(ip, proxy)]);
          Step(Table(t.devices[u := d], t.counter + 1), [FoundServer(d.path)])
        else Step(t, [])
      else
        var d := t.devices[u];
        if IndexOfIp(d.contexts, ip) == |d.contexts| then
          Step(Table(t.devices[u := d.(contexts := d.contexts + [Context(ip, proxy)])], t.counter), [])
        else Step(t, [])
  }

  /** `cs` without its element at index `i`, the others keeping their order. */
  function RemoveAt(cs: seq<Context>, i: nat): (r: seq<Context>)
    requires i < |cs|
    ensures |r| == |cs| - 1
  {
    cs[..i] + cs[i + 1..]
  }

  /** The `device-proxy-unavailable` callback. */
  function Withdraw(t: Table, udn: Option<Udn>, ip: IpAddress): Step
  {
    match udn
    case None => Step(t, [])
    case Some(u) =>
      if u !in t.devices then Step(t, [])
      else
        var d := t.devices[u];
        var i := IndexOfIp(d.contexts, ip);
        if i < |d.contexts| then
          var rest := RemoveAt(d.contexts, i);
          if |rest| == 0 then Step(Table(t.devices - {u}, t.counter), [LostServer(d.path)])
          else Step(Table(t.devices[u := d.(contexts := rest)], t.counter), [])
        else Step(t, [])
  }

  // ---------------------------------------------------------------------------
  // Properties of the specification

  /** A first announcement creates a device only when construction succeeds. */
  lemma AnnounceUnknownUdn(t: Table, u: Udn, ip: IpAddress, proxy: ProxyRef, constructed: bool)
    requires u !in t.devices
    ensures var s := Announce(t, Some(u), ip, proxy, constructed);
      if constructed then
        && s.table.counter == t.counter + 1
        && s.table.devices == t.devices[u := Device(t.counter, ServerPath(t.counter), [Context(ip, proxy)])]
        && s.notified == [FoundServer(ServerPath(t.counter))]
      else s == Step(t, [])
  {
  }

  /**
   * Re-announcing a known UDN never notifies and never touches the counter or the
   * other devices; a known IP changes nothing, a new one is appended at the end and
   * the device keeps its number and path.
   */
  lemma AnnounceKnownUdn(t: Table, u: Udn, ip: IpAddress, proxy: ProxyRef, constructed: bool)
    requires u in t.devices
    ensures var s := Announce(t, Some(u), ip, proxy, constructed);
      var cs := t.devices[u].contexts;
      && s.notified == []
      && s.table.counter == t.counter
      && s.table.devices.Keys == t.devices.Keys
      && (forall v :: v in t.devices && v != u ==> s.table.devices[v] == t.devices[v])
      && (ip in IpsOf(cs) ==> s.table == t)
      && (ip !in IpsOf(cs) ==> s.table.devices[u] == t.devices[u].(contexts := cs + [Context(ip, proxy)]))
  {
  }

  /** An announcement without a UDN is ignored. */
  lemma AnnounceNullUdn(t: Table, ip: IpAddress, proxy: ProxyRef, constructed: bool)
    ensures Announce(t, None, ip, proxy, constructed) == Step(t, [])
  {
  }

  /** A withdrawal without a UDN, for an unknown UDN, or from an unknown IP changes nothing. */
  lemma WithdrawIgnored(t: Table, udn: Option<Udn>, ip: IpAddress)
    requires udn.None? || udn.value !in t.devices || ip !in IpsOf(t.devices[udn.value].contexts)
    ensures Withdraw(t, udn, ip) == Step(t, [])
  {
  }

  /**
   * Withdrawing a known IP removes exactly that context, keeping the order of the
   * others. If others remain the device keeps its number and path and nothing is
   * notified; if it was the last, `lost_server` fires once with the device's path
   * and the UDN leaves the map.
   */
  lemma WithdrawKnownIp(t: Table, u: Udn, ip: IpAddress)
    requires Inv(t) && u in t.devices && ip in IpsOf(t.devices[u].contexts)
    ensures var s := Withdraw(t, Some(u), ip);
      var d := t.devices[u];
      && s.table.counter == t.counter
      && (|d.contexts| == 1 ==>
            && s.table.devices == t.devices - {u}
            && s.notified == [LostServer(d.path)])
      && (|d.contexts| > 1 ==>
            && s.notified == []
            && s.table.devices.Keys == t.devices.Keys
            && (forall v :: v in t.devices && v != u ==> s.table.devices[v] == t.devices[v])
            && s.table.devices[u] == d.(contexts := s.table.devices[u].contexts)
            && s.table.devices[u].path == d.path
            && IpsOf(s.table.devices[u].contexts) == IpsOf(d.contexts) - {ip}
            && (exists k :: 0 <= k < |d.contexts| && d.contexts[k].ipAddress == ip
                  && s.table.devices[u].contexts == d.contexts[..k] + d.contexts[k + 1..]))
  {
    var d := t.devices[u];
    var i := IndexOfIp(d.contexts, ip);
    var rest := RemoveAt(d.contexts, i);
    if |d.contexts| > 1 {
      forall x | x in IpsOf(rest) ensures x in IpsOf(d.contexts) - {ip} {
        var j :| 0 <= j < |rest| && rest[j].ipAddress == x;
        if j < i {
          assert rest[j] == d.contexts[j];
        } else {
          assert rest[j] == d.contexts[j + 1];
        }
      }
      forall x | x in IpsOf(d.contexts) - {ip} ensures x in IpsOf(rest) {
        var j :| 0 <= j < |d.contexts| && d.contexts[j].ipAddress == x;
        if j < i {
          assert rest[j] == d.contexts[j];
        } else {
          assert j != i;
          assert rest[j - 1] == d.contexts[j];
        }
      }
    }
  }

  lemma RemoveAtKeepsDistinctIps(cs: seq<Context>, i: nat)
    requires i < |cs| && DistinctIps(cs)
    ensures DistinctIps(RemoveAt(cs, i))
  {
    var r := RemoveAt(cs, i);
    forall a, b | 0 <= a < b < |r| ensures r[a].ipAddress != r[b].ipAddress {
      var a' := if a < i then a else a + 1;
      var b' := if b < i then b else b + 1;
      assert r[a] == cs[a'] && r[b] == cs[b'];
    }
  }

  lemma AppendKeepsDistinctIps(cs: seq<Context>, c: Context)
    requires DistinctIps(cs) && c.ipAddress !in IpsOf(cs)
    ensures DistinctIps(cs + [c])
  {
    var r := cs + [c];
    forall a, b | 0 <= a < b < |r| ensures r[a].ipAddress != r[b].ipAddress {
      if b == |cs| {
        assert r[a] == cs[a];
        assert cs[a].ipAddress in IpsOf(cs);
      }
    }
  }

  /** Both callbacks keep the registry invariant. */
  lemma AnnounceKeepsInv(t: Table, udn: Option<Udn>, ip: IpAddress, proxy: ProxyRef, constructed: bool)
    requires Inv(t)
    ensures Inv(Announce(t, udn, ip, proxy, constructed).table)
  {
    if udn.Some? && udn.value in t.devices {
      var d := t.devices[udn.value];
      if IndexOfIp(d.contexts, ip) == |d.contexts| {
        AppendKeepsDistinctIps(d.contexts, Context(ip, proxy));
      }
    }
  }

  lemma WithdrawKeepsInv(t: Table, udn: Option<Udn>, ip: IpAddress)
    requires Inv(t)
    ensures Inv(Withdraw(t, udn, ip).table)
  {
    if udn.Some? && udn.value in t.devices {
      var d := t.devices[udn.value];
      var i := IndexOfIp(d.contexts, ip);
      if i < |d.contexts| {
        RemoveAtKeepsDistinctIps(d.contexts, i);
      }
    }
  }

  /** The counter never decreases, and rises by one exactly when a device is created. */
  lemma CounterMonotonic(t: Table, udn: Option<Udn>, ip: IpAddress, proxy: ProxyRef, constructed: bool)
    ensures var a := Announce(t, udn, ip, proxy, constructed).table.counter;
      a == t.counter || a == t.counter + 1
    ensures Announce(t, udn, ip, proxy, constructed).table.counter == t.counter + 1 <==>
      (udn.Some? && udn.value !in t.devices && constructed)
    ensures Withdraw(t, udn, ip).table.counter == t.counter
  {
  }

  /** Under the invariant, different devices in the map have different paths. */
  lemma DistinctPaths(t: Table, u: Udn, v: Udn)
    requires Inv(t) && u in t.devices && v in t.devices && u != v
    ensures t.devices[u].path != t.devices[v].path
  {
    if t.devices[u].path == t.devices[v].path {
      ServerPathInjective(t.devices[u].number, t.devices[v].number);
    }
  }

  /**
   * A newly created device gets a path that no device in the map holds, and no
   * device created earlier held: every earlier number is below the old counter.
   */
  lemma CreatedPathIsFresh(t: Table, u: Udn, ip: IpAddress, proxy: ProxyRef)
    requires Inv(t) && u !in t.devices
    ensures var s := Announce(t, Some(u), ip, proxy, true);
      && (forall earlier: nat :: earlier < t.counter ==> s.table.devices[u].path != ServerPath(earlier))
      && (forall v :: v in t.devices ==> s.table.devices[u].path != t.devices[v].path)
  {
    var s := Announce(t, Some(u), ip, proxy, true);
    forall earlier: nat | earlier < t.counter ensures s.table.devices[u].path != ServerPath(earlier) {
      if s.table.devices[u].path == ServerPath(earlier) {
        ServerPathInjective(t.counter, earlier);
      }
    }
    forall v | v in t.devices ensures s.table.devices[u].path != t.devices[v].path {
      if s.table.devices[u].path == t.devices[v].path {
        ServerPathInjective(t.counter, t.devices[v].number);
      }
    }
  }

  /** The device whose path is `root`, if any (the lookup the request router uses). */
  ghost function DeviceFromPath(t: Table, root: string): (r: Option<Device>)
    ensures r.Some? <==> exists u :: u in t.devices && t.devices[u].path == root
    ensures r.Some? ==> r.value in t.devices.Values && r.value.path == root
  {
    if exists u :: u in t.devices && t.devices[u].path == root then
      var u :| u in t.devices && t.devices[u].path == root;
      Some(t.devices[u])
    else None
  }

  /** Every listed path resolves back to its own device. */
  lemma PathResolvesToDevice(t: Table, u: Udn)
    requires Inv(t) && u in t.devices
    ensures DeviceFromPath(t, t.devices[u].path) == Some(t.devices[u])
  {
    var r := DeviceFromPath(t, t.devices[u].path);
    var v :| v in t.devices && t.devices[v] == r.value;
    if v != u {
      DistinctPaths(t, u, v);
    }
  }

  /**
   * A multi-homed device: announced from two IPs, then withdrawn from both. Only
   * the first announcement and the last withdrawal notify, with the same path.
   */
  lemma {:induction false} MultiHomedLifecycle(u: Udn, a: IpAddress, b: IpAddress, pa: ProxyRef, pb: ProxyRef)
    requires a != b
    ensures var s1 := Announce(Empty(), Some(u), a, pa, true);
      var s2 := Announce(s1.table, Some(u), b, pb, true);
      var s3 := Withdraw(s2.table, Some(u), a);
      var s4 := Withdraw(s3.table, Some(u), b);
      && s1.notified == [FoundServer(ServerPath(0))]
      && s2.notified == [] && s2.table.devices.Keys == {u}
      && s3.notified == [] && s3.table.devices.Keys == {u}
      && s4.notified == [LostServer(ServerPath(0))]
      && s4.table.devices == map[] && s4.table.counter == 1
  {
    var s1 := Announce(Empty(), Some(u), a, pa, true);
    assert s1.table.devices[u].contexts == [Context(a, pa)];
    var s2 := Announce(s1.table, Some(u), b, pb, true);
    assert IndexOfIp([Context(a, pa)], b) == 1;
    assert s2.table.devices[u].contexts == [Context(a, pa), Context(b, pb)];
    var s3 := Withdraw(s2.table, Some(u), a);
    assert IndexOfIp([Context(a, pa), Context(b, pb)], a) == 0;
    assert s3.table.devices[u].contexts == [Context(b, pb)];
    assert IndexOfIp([Context(b, pb)], b) == 0;
  }

  // ---------------------------------------------------------------------------
  // The imperative registry

  /** The linear scan of a device's contexts for the one announced from `ip`. */
  method FindContext(contexts: seq<Context>, ip: IpAddress) returns (i: nat)
    ensures i == IndexOfIp(contexts, ip)
  {
    i := 0;
    while i < |contexts|
      invariant i <= |contexts|
      invariant forall j :: 0 <= j < i ==> contexts[j].ipAddress != ip
    {
      if contexts[i].ipAddress == ip {
        break;
      }
      i := i + 1;
    }
    IndexOfIpIsFirstMatch(contexts, ip, i);
  }

  /** The first-match characterisation determines `IndexOfIp`. */
  lemma IndexOfIpIsFirstMatch(cs: seq<Context>, ip: IpAddress, i: nat)
    requires i <= |cs|
    requires i < |cs| ==> cs[i].ipAddress == ip
    requires forall j :: 0 <= j < i ==> cs[j].ipAddress != ip
    ensures i == IndexOfIp(cs, ip)
  {
  }

  /**
   * `ids` lists the paths of the devices whose UDNs are `visited`, once each:
   * `order` pairs every entry with its UDN.
   */
  ghost predicate Listing(m: map<Udn, Device>, visited: set<Udn>, order: seq<Udn>, ids: seq<string>)
  {
    && visited <= m.Keys
    && |ids| == |visited| == |order|
    && (forall k :: 0 <= k < |order| ==> order[k] in visited && ids[k] == m[order[k]].path)
    && (forall u :: u in visited ==> u in order)
    && NoDuplicates(ids)
  }

  lemma ListingStep(m: map<Udn, Device>, visited: set<Udn>, order: seq<Udn>, ids: seq<string>, u: Udn, path: string)
    requires PathsDistinct(m) && Listing(m, visited, order, ids)
    requires u in m && u !in visited && path == m[u].path
    ensures Listing(m, visited + {u}, order + [u], ids + [path])
  {
    assert forall k :: 0 <= k < |ids| ==> ids[k] != path;
    var ids', order' := ids + [path], order + [u];
    forall k | 0 <= k < |order'| ensures order'[k] in visited + {u} && ids'[k] == m[order'[k]].path {
      if k < |order| {
        assert order'[k] == order[k] && ids'[k] == ids[k];
      }
    }
  }

  lemma ListingDone(m: map<Udn, Device>, remaining: set<Udn>, visited: set<Udn>, order: seq<Udn>, ids: seq<string>)
    requires remaining == {} && visited == m.Keys - remaining && Listing(m, visited, order, ids)
    ensures |ids| == |m|
    ensures forall p :: p in ids <==> exists u :: u in m && m[u].path == p
  {
    assert visited == m.Keys;
    forall p | p in ids ensures exists u :: u in m && m[u].path == p {
      var k :| 0 <= k < |ids| && ids[k] == p;
      assert order[k] in m;
    }
    forall u | u in m ensures m[u].path in ids {
      var k :| 0 <= k < |order| && order[k] == u;
      assert ids[k] == m[u].path;
    }
  }

  /** No two UDNs of `m` hold devices with the same path. */
  ghost predicate PathsDistinct(m: map<Udn, Device>)
  {
    forall u, v :: u in m && v in m && u != v ==> m[u].path != m[v].path
  }

  lemma UniquePaths(t: Table)
    requires Inv(t)
    ensures PathsDistinct(t.devices)
  {
    forall u, v | u in t.devices && v in t.devices && u != v
      ensures t.devices[u].path != t.devices[v].path
    {
      DistinctPaths(t, u, v);
    }
  }

  /** The iteration over the UDN map that collects one path per device. */
  method ListPaths(m: map<Udn, Device>) returns (ids: seq<string>)
    requires PathsDistinct(m)
    ensures |ids| == |m|
    ensures NoDuplicates(ids)
    ensures forall p :: p in ids <==> exists u :: u in m && m[u].path == p
  {
    ids := [];
    var remaining := m.Keys;
    ghost var visited: set<Udn> := {};
    ghost var order: seq<Udn> := [];
    while remaining != {}
      invariant remaining <= m.Keys && visited == m.Keys - remaining
      invariant Listing(m, visited, order, ids)
      decreases |remaining|
    {
      var u :| u in remaining;
      var path := m[u].path;
      ListingStep(m, visited, order, ids, u, path);
      ids := ids + [path];
      order := order + [u];
      remaining := remaining - {u};
      visited := visited + {u};
    }
    ListingDone(m, remaining, visited, order, ids);
  }

  class Upnp {
    var serverUdnMap: map<Udn, Device>
    var counter: nat
    /** The `found_server` / `lost_server` calls made so far, in order. */
    ghost var notified: seq<Notification>

    function Snapshot(): Table
      reads this
    {
      Table(serverUdnMap, counter)
    }

    ghost predicate Valid()
      reads this
    {
      Inv(Snapshot())
    }

    constructor ()
      ensures Valid() && Snapshot() == Empty() && notified == []
    {
      serverUdnMap := map[];
      counter := 0;
      notified := [];
    }

    /** `prv_server_available_cb`. */
    method ServerAvailable(udn: Option<Udn>, ip: IpAddress, proxy: ProxyRef, constructed: bool)
      requires Valid()
      modifies this
      ensures Valid()
      ensures Snapshot() == Announce(old(Snapshot()), udn, ip, proxy, constructed).table
      ensures notified == old(notified) + Announce(old(Snapshot()), udn, ip, proxy, constructed).notified
    {
      AnnounceKeepsInv(Snapshot(), udn, ip, proxy, constructed);
      if udn.None? {
        return;
      }
      var u := udn.value;
      if u !in serverUdnMap {
        if constructed {
          var device := Device(counter, ServerPath(counter), [Context(ip, proxy)]);
          counter := counter + 1;
          serverUdnMap := serverUdnMap[u := device];
          notified := notified + [FoundServer(device.path)];
        }
      } else {
        var device := serverUdnMap[u];
        var i := FindContext(device.contexts, ip);
        if i == |device.contexts| {
          serverUdnMap := serverUdnMap[u := device.(contexts := device.contexts + [Context(ip, proxy)])];
        }
      }
    }

    /** `prv_server_unavailable_cb`. */
    method ServerUnavailable(udn: Option<Udn>, ip: IpAddress)
      requires Valid()
      modifies this
      ensures Valid()
      ensures Snapshot() == Withdraw(old(Snapshot()), udn, ip).table
      ensures notified == old(notified) + Withdraw(old(Snapshot()), udn, ip).notified
    {
      WithdrawKeepsInv(Snapshot(), udn, ip);
      if udn.None? {
        return;
      }
      var u := udn.value;
      if u !in serverUdnMap {
        return;
      }
      var device := serverUdnMap[u];
      var i := FindContext(device.contexts, ip);
      if i < |device.contexts| {
        var rest := device.contexts[..i] + device.contexts[i + 1..];
        if |rest| == 0 {
          notified := notified + [LostServer(device.path)];
          serverUdnMap := serverUdnMap - {u};
        } else {
          serverUdnMap := serverUdnMap[u := device.(contexts := rest)];
        }
      }
    }

    /** `msu_upnp_get_server_ids`: one path per device in the map, in no particular order. */
    method ServerIds() returns (ids: seq<string>)
      requires Valid()
      ensures |ids| == |serverUdnMap|
      ensures NoDuplicates(ids)
      ensures forall p :: p in ids <==> exists u :: u in serverUdnMap && serverUdnMap[u].path == p
    {
      UniquePaths(Snapshot());
      ids := ListPaths(serverUdnMap);
    }
  }
}
