/** `SockGetIfAddrs`: the host's interface list, grouped by name in a sorted map, counted, then
    written entry by entry into the app's array. */
module InterfaceListing {
  import opened Prelude

  type Name = seq<nat>               // bytes

  datatype HostAddr =
    | NoAddr
    | Inet(addr: seq<nat>, port: nat)
    | Inet6(addr: seq<nat>, port: nat, flowinfo: nat, scope: nat)
    | Packet(mac: seq<nat>, index: nat)
    | OtherAddr

  /** One element of the list `getifaddrs` returns. */
  datatype IfAddr = IfAddr(name: Name, flags: bv32, addr: HostAddr, netmask: HostAddr, broadaddr: HostAddr)

  /** `IfInfo`, the value type of the map. */
  datatype IfInfo = IfInfo(addrs: seq<IfAddr>, mac: seq<nat>, index: nat, flags: bv32)

  const NoInfo: IfInfo := IfInfo([], [0, 0, 0, 0, 0, 0], 0, 0)

  /** `wamr_wasi_sockaddr_storage`. */
  datatype AppAddr =
    | Unspec
    | AppInet(addr: seq<nat>, port: nat)
    | AppInet6(addr: seq<nat>, port: nat, flowinfo: nat, scope: nat)

  /** `wamr_wasi_ifaddr`, its name cut to 31 bytes. */
  datatype Slot = Slot(name: Name, flags: bv32, addr: AppAddr, netmask: AppAddr, broadaddr: AppAddr, mac: seq<nat>, index: nat)

  const ZeroSlot: Slot := Slot([], 0, Unspec, Unspec, Unspec, [0, 0, 0, 0, 0, 0], 0)

  function CutName(name: Name): Name {
    if |name| > 31 then name[..31] else name
  }

  predicate IsInet(a: HostAddr) {
    a.Inet? || a.Inet6?
  }

  /** `HostSockAddrToWasiAppSockAddr`. */
  function ToApp(a: HostAddr): AppAddr {
    match a
    case Inet(addr, port) => AppInet(addr, port)
    case Inet6(addr, port, flowinfo, scope) => AppInet6(addr, port, flowinfo, scope)
    case _ => Unspec
  }

  /** `WasiAppSockAddrToHostSockAddr`; an unknown family is an error. */
  function ToHost(a: AppAddr): Option<HostAddr> {
    match a
    case AppInet(addr, port) => Some(Inet(addr, port))
    case AppInet6(addr, port, flowinfo, scope) => Some(Inet6(addr, port, flowinfo, scope))
    case Unspec => None
  }

  /** Internet addresses survive the way to the app and back; nothing else comes back. */
  lemma AddressRoundTrip(a: HostAddr)
    ensures ToHost(ToApp(a)) == if IsInet(a) then Some(a) else None
  {
  }

  // ---------------------------------------------------------------- names in order

  /** `std::string` comparison. */
  predicate Less(a: Name, b: Name) {
    if b == [] then false
    else if a == [] then true
    else a[0] < b[0] || (a[0] == b[0] && Less(a[1..], b[1..]))
  }

  lemma {:induction false} LessIsTotal(a: Name, b: Name)
    ensures a == b || Less(a, b) || Less(b, a)
    ensures !(Less(a, b) && Less(b, a)) && !Less(a, a)
  {
    if a != [] && b != [] {
      LessIsTotal(a[1..], b[1..]);
      if a[0] == b[0] && a[1..] == b[1..] {
        assert a == [a[0]] + a[1..] && b == [b[0]] + b[1..];
      }
    }
    if a != [] {
      LessIsTotal(a[1..], a[1..]);
    }
  }

  lemma {:induction false} LessIsTransitive(a: Name, b: Name, c: Name)
    requires Less(a, b) && Less(b, c)
    ensures Less(a, c)
  {
    if a != [] && a[0] == b[0] && b[0] == c[0] {
      LessIsTransitive(a[1..], b[1..], c[1..]);
    }
  }

  /** `b` has a greater byte at the first place where the names differ, or goes on where `a` ends. */
  ghost predicate Precedes(a: Name, b: Name, k: nat) {
    k <= |a| && k < |b| && a[..k] == b[..k] && (k == |a| || a[k] < b[k])
  }

  lemma {:induction false} LessIsLexicographic(a: Name, b: Name)
    ensures Less(a, b) <==> exists k: nat :: Precedes(a, b, k)
  {
    if a == [] || b == [] {
      assert b != [] ==> Precedes(a, b, 0);
    } else {
      LessIsLexicographic(a[1..], b[1..]);
      if a[0] < b[0] {
        assert Precedes(a, b, 0);
      }
      if a[0] == b[0] && Less(a[1..], b[1..]) {
        var k: nat :| Precedes(a[1..], b[1..], k);
        assert a[..k + 1] == [a[0]] + a[1..][..k] && b[..k + 1] == [b[0]] + b[1..][..k];
        assert Precedes(a, b, k + 1);
      }
      if k: nat :| Precedes(a, b, k) {
        if k > 0 {
          assert a[..k][0] == b[..k][0];
          assert a[1..][..k - 1] == a[..k][1..] && b[1..][..k - 1] == b[..k][1..];
          assert Precedes(a[1..], b[1..], k - 1);
        }
      }
    }
  }

  // ---------------------------------------------------------------- the sorted map

  /** A `std::map<std::string, IfInfo>`, as its iteration shows it. */
  type Table = seq<(Name, IfInfo)>

  function Keys(t: Table): set<Name> {
    if t == [] then {} else {t[0].0} + Keys(t[1..])
  }

  ghost predicate Sorted(t: Table) {
    t == [] || ((forall n :: n in Keys(t[1..]) ==> Less(t[0].0, n)) && Sorted(t[1..]))
  }

  /** What `operator[]` finds, or the value it would create. */
  function Lookup(t: Table, name: Name): IfInfo {
    if t == [] then NoInfo
    else if t[0].0 == name then t[0].1
    else Lookup(t[1..], name)
  }

  /** Assign under a key, creating it in its sorted place. */
  function Assign(t: Table, name: Name, info: IfInfo): Table {
    if t == [] || Less(name, t[0].0) then [(name, info)] + t
    else if t[0].0 == name then [(name, info)] + t[1..]
    else [t[0]] + Assign(t[1..], name, info)
  }

  lemma {:induction false} AssignIsMapUpdate(t: Table, name: Name, info: IfInfo)
    requires Sorted(t)
    ensures Sorted(Assign(t, name, info)) && Keys(Assign(t, name, info)) == Keys(t) + {name}
    ensures forall n :: Lookup(Assign(t, name, info), n) == if n == name then info else Lookup(t, n)
  {
    var r := Assign(t, name, info);
    if t == [] {
      assert r[1..] == [];
    } else {
      LessIsTotal(name, t[0].0);
      if Less(name, t[0].0) {
        assert r[1..] == t;
        forall n | n in Keys(t) ensures Less(name, n) {
          if n != t[0].0 { LessIsTransitive(name, t[0].0, n); }
        }
      } else if t[0].0 == name {
        assert r[1..] == t[1..];
      } else {
        AssignIsMapUpdate(t[1..], name, info);
        assert r[1..] == Assign(t[1..], name, info);
      }
    }
  }

  // ---------------------------------------------------------------- what one name collects

  /** One list element added to the info of its name. */
  function Absorb(info: IfInfo, e: IfAddr): IfInfo {
    var seen := info.(flags := e.flags);
    if IsInet(e.addr) then seen.(addrs := seen.addrs + [e])
    else if e.addr.Packet? then seen.(mac := e.addr.mac, index := e.addr.index)
    else seen
  }

  function InfoOf(list: seq<IfAddr>, name: Name): IfInfo {
    if list == [] then NoInfo
    else
      var last := list[|list| - 1];
      var before := InfoOf(list[..|list| - 1], name);
      if last.name == name then Absorb(before, last) else before
  }

  function NamesIn(list: seq<IfAddr>): set<Name> {
    set e | e in list :: e.name
  }

  /** The internet addresses listed under one name, in list order. */
  function InetOf(list: seq<IfAddr>, name: Name): seq<IfAddr> {
    if list == [] then []
    else
      var last := list[|list| - 1];
      InetOf(list[..|list| - 1], name) + if last.name == name && IsInet(last.addr) then [last] else []
  }

  lemma {:induction false} AddressesAreFiltered(list: seq<IfAddr>, name: Name)
    ensures InfoOf(list, name).addrs == InetOf(list, name)
  {
    if list != [] {
      AddressesAreFiltered(list[..|list| - 1], name);
    }
  }

  /** Flags come from the last entry of a name, hardware address and index from its last
      link-layer entry. */
  lemma {:induction false} LatestEntryWins(list: seq<IfAddr>, name: Name, k: nat)
    requires k < |list| && list[k].name == name
    ensures (forall j :: k < j < |list| ==> list[j].name != name)
      ==> InfoOf(list, name).flags == list[k].flags
    ensures list[k].addr.Packet? && (forall j :: k < j < |list| && list[j].name == name ==> !list[j].addr.Packet?)
      ==> InfoOf(list, name).mac == list[k].addr.mac && InfoOf(list, name).index == list[k].addr.index
  {
    if k + 1 < |list| {
      LatestEntryWins(list[..|list| - 1], name, k);
    }
  }

  function TableOf(list: seq<IfAddr>): Table {
    if list == [] then []
    else
      var last := list[|list| - 1];
      var before := TableOf(list[..|list| - 1]);
      Assign(before, last.name, Absorb(Lookup(before, last.name), last))
  }

  /** The table is sorted, has the names of the list and holds for each what it collects. */
  lemma {:induction false} TableTabulates(list: seq<IfAddr>)
    ensures var t := TableOf(list);
      && Sorted(t) && Keys(t) == NamesIn(list)
      && forall n :: Lookup(t, n) == InfoOf(list, n)
  {
    if list != [] {
      var rest, last := list[..|list| - 1], list[|list| - 1];
      TableTabulates(rest);
      AssignIsMapUpdate(TableOf(rest), last.name, Absorb(Lookup(TableOf(rest), last.name), last));
      assert list == rest + [last];
      assert NamesIn(list) == NamesIn(rest) + {last.name};
    }
  }

  /** The loop over the host list. */
  method Build(list: seq<IfAddr>) returns (t: Table)
    ensures t == TableOf(list)
  {
    t := [];
    for i := 0 to |list|
      invariant t == TableOf(list[..i])
    {
      assert list[..i + 1][..i] == list[..i];
      t := Assign(t, list[i].name, Absorb(Lookup(t, list[i].name), list[i]));
    }
    assert list[..|list|] == list;
  }

  // ---------------------------------------------------------------- the app's array

  const IFF_UP: bv32 := 0x1
  const IFF_BROADCAST: bv32 := 0x2
  const IFF_LOOPBACK: bv32 := 0x8
  const IFF_POINTOPOINT: bv32 := 0x10
  const IFF_RUNNING: bv32 := 0x40
  const IFF_PROMISC: bv32 := 0x100
  const IFF_ALLMULTI: bv32 := 0x200
  const IFF_MULTICAST: bv32 := 0x1000

  /** The app's flag, which has the host's value, if the host has it set. */
  function MapFlag(hostFlags: bv32, flag: bv32): bv32 {
    if hostFlags & flag != 0 then flag else 0
  }

  /** `funcMapIfFlags`: the flags are looked for one by one. */
  function MapFlags(flags: bv32): bv32 {
    MapFlag(flags, IFF_UP) | MapFlag(flags, IFF_BROADCAST) | MapFlag(flags, IFF_LOOPBACK)
    | MapFlag(flags, IFF_POINTOPOINT) | MapFlag(flags, IFF_RUNNING) | MapFlag(flags, IFF_PROMISC)
    | MapFlag(flags, IFF_ALLMULTI) | MapFlag(flags, IFF_MULTICAST)
  }

  /** The eight flags WASI knows are kept, all others dropped. */
  lemma FlagsAreMasked(flags: bv32)
    ensures MapFlags(flags) == flags & 0x135B
  {
  }

  function AddrSlot(e: IfAddr, info: IfInfo): Slot {
    Slot(CutName(e.name), MapFlags(e.flags), ToApp(e.addr), ToApp(e.netmask), ToApp(e.broadaddr), info.mac, info.index)
  }

  function BareSlot(name: Name, info: IfInfo): Slot {
    Slot(CutName(name), MapFlags(info.flags), Unspec, Unspec, Unspec, info.mac, info.index)
  }

  function AddrSlots(addrs: seq<IfAddr>, info: IfInfo): (r: seq<Slot>)
    ensures |r| == |addrs|
  {
    seq(|addrs|, k requires 0 <= k < |addrs| => AddrSlot(addrs[k], info))
  }

  /** The entries of one interface. */
  function Group(name: Name, info: IfInfo): (r: seq<Slot>)
    ensures |r| == if info.addrs == [] then 1 else |info.addrs|
  {
    if info.addrs == [] then [BareSlot(name, info)] else AddrSlots(info.addrs, info)
  }

  function Slots(t: Table): seq<Slot> {
    if t == [] then [] else Slots(t[..|t| - 1]) + Group(t[|t| - 1].0, t[|t| - 1].1)
  }

  /** The counting pass. */
  method Count(t: Table) returns (count: nat)
    ensures count == |Slots(t)|
  {
    count := 0;
    for i := 0 to |t|
      invariant count == |Slots(t[..i])|
    {
      assert t[..i + 1][..i] == t[..i];
      count := count + if t[i].1.addrs == [] then 1 else |t[i].1.addrs|;
    }
    assert t[..|t|] == t;
  }

  lemma {:induction false} SlotsOfPrefix(t: Table, i: nat)
    requires i <= |t|
    ensures Slots(t[..i]) <= Slots(t)
  {
    if i < |t| {
      assert t[..|t| - 1][..i] == t[..i];
      SlotsOfPrefix(t[..|t| - 1], i);
    } else {
      assert t[..i] == t;
    }
  }

  lemma SlotsGrow(t: Table, i: nat)
    requires i < |t|
    ensures Slots(t[..i + 1]) == Slots(t[..i]) + Group(t[i].0, t[i].1)
    ensures Slots(t[..i + 1]) <= Slots(t)
  {
    SlotsOfPrefix(t, i + 1);
    var upTo := t[..i + 1];
    assert upTo[..i] == t[..i] && upTo[i] == t[i];
    assert Slots(upTo) == Slots(upTo[..i]) + Group(upTo[i].0, upTo[i].1);
  }

  /** The entries of one interface, from `start` on. */
  method FillGroup(name: Name, info: IfInfo, out: array<Slot>, start: nat) returns (next: nat)
    requires start + |Group(name, info)| <= out.Length
    modifies out
    ensures next == start + |Group(name, info)| && out[start..next] == Group(name, info)
    ensures out[..start] == old(out[..start])
  {
    next := start;
    if info.addrs == [] {
      out[next] := BareSlot(name, info);
      next := next + 1;
    } else {
      for k := 0 to |info.addrs|
        invariant next == start + k && out[..start] == old(out[..start])
        invariant out[start..next] == AddrSlots(info.addrs, info)[..k]
      {
        out[next] := AddrSlot(info.addrs[k], info);
        next := next + 1;
      }
    }
  }

  /** The filling pass: it writes exactly the counted slots, in order, each once. */
  method Fill(t: Table, out: array<Slot>) returns (next: nat)
    requires out.Length == |Slots(t)|
    modifies out
    ensures next == out.Length && out[..] == Slots(t)
  {
    next := 0;
    for i := 0 to |t|
      invariant next == |Slots(t[..i])| <= out.Length
      invariant out[..next] == Slots(t[..i])
    {
      SlotsGrow(t, i);
      ghost var start := next;
      next := FillGroup(t[i].0, t[i].1, out, next);
      assert out[..next] == out[..start] + out[start..next];
    }
    assert t[..|t|] == t;
  }

  datatype Status = Listed | OutOfMemory | HostFailed

  /** The whole call. `host` is what getifaddrs yields, `allocates` whether the app's allocator
      delivers; it is not called for an empty listing. */
  method GetIfAddrs(host: Option<seq<IfAddr>>, allocates: bool) returns (err: Status, count: nat, out: array<Slot>)
    ensures host.None? ==> err == HostFailed && count == 0
    ensures host.Some? ==> count == |Slots(TableOf(host.value))|
    ensures host.Some? ==> err == if count == 0 || allocates then Listed else OutOfMemory
    ensures err == Listed ==> fresh(out) && out[..] == Slots(TableOf(host.value))
  {
    err, count, out := HostFailed, 0, new Slot[0];
    if host.Some? {
      var table := Build(host.value);
      count := Count(table);
      err := Listed;
      if count > 0 {
        if !allocates {
          return OutOfMemory, count, out;
        }
        out := new Slot[count](_ => ZeroSlot);
        var next := Fill(table, out);
      }
    }
  }

  // ---------------------------------------------------------------- what the listing means

  lemma GroupPlace(t: Table, k: nat)
    requires k < |t|
    ensures |Slots(t[..k + 1])| <= |Slots(t)|
    ensures |Slots(t[..k + 1])| == |Slots(t[..k])| + |Group(t[k].0, t[k].1)|
    ensures Slots(t)[|Slots(t[..k])|..|Slots(t[..k + 1])|] == Group(t[k].0, t[k].1)
  {
    SlotsGrow(t, k);
    var upTo := Slots(t[..k + 1]);
    assert Slots(t)[..|upTo|] == upTo;
  }

  lemma {:induction false} KeyAt(t: Table, n: Name) returns (k: nat)
    requires Sorted(t) && n in Keys(t)
    ensures k < |t| && t[k].0 == n && t[k].1 == Lookup(t, n)
  {
    if t[0].0 == n {
      k := 0;
    } else {
      var j := KeyAt(t[1..], n);
      k := j + 1;
    }
  }

  lemma {:induction false} NamesRise(t: Table, j: nat, k: nat)
    requires Sorted(t) && j < k < |t|
    ensures Less(t[j].0, t[k].0)
  {
    if j == 0 {
      KeysHold(t[1..], k - 1);
    } else {
      NamesRise(t[1..], j - 1, k - 1);
    }
  }

  lemma {:induction false} KeysHold(t: Table, k: nat)
    requires k < |t|
    ensures t[k].0 in Keys(t)
  {
    if k > 0 {
      KeysHold(t[1..], k - 1);
    }
  }

  /** Entry `p` is the last link-layer entry under `n`. */
  ghost predicate LastPacket(list: seq<IfAddr>, n: Name, p: nat) {
    && p < |list| && list[p].name == n && list[p].addr.Packet?
    && forall j :: p < j < |list| && list[j].name == n ==> !list[j].addr.Packet?
  }

  ghost predicate LastOf(list: seq<IfAddr>, n: Name, p: nat) {
    p < |list| && list[p].name == n && forall j :: p < j < |list| ==> list[j].name != n
  }

  lemma {:induction false} WithoutLinkLayer(list: seq<IfAddr>, n: Name)
    requires forall j :: 0 <= j < |list| && list[j].name == n ==> !list[j].addr.Packet?
    ensures InfoOf(list, n).mac == [0, 0, 0, 0, 0, 0] && InfoOf(list, n).index == 0
  {
    if list != [] {
      WithoutLinkLayer(list[..|list| - 1], n);
    }
  }

  /** The name is cut to the 31 bytes there is room for. */
  ghost predicate Named(slot: Slot, n: Name) {
    |slot.name| <= 31 && slot.name <= n && (|n| <= 31 ==> slot.name == n) && (|n| > 31 ==> |slot.name| == 31)
  }

  /** Hardware address and index are those of the interface's last link-layer entry, or zero. */
  ghost predicate HasHardware(slot: Slot, list: seq<IfAddr>, n: Name) {
    && (forall p: nat :: LastPacket(list, n, p) ==> slot.mac == list[p].addr.mac && slot.index == list[p].addr.index)
    && ((forall j :: 0 <= j < |list| && list[j].name == n ==> !list[j].addr.Packet?)
        ==> slot.mac == [0, 0, 0, 0, 0, 0] && slot.index == 0)
  }

  lemma HardwareIsLatest(list: seq<IfAddr>, n: Name, slot: Slot)
    requires slot.mac == InfoOf(list, n).mac && slot.index == InfoOf(list, n).index
    ensures HasHardware(slot, list, n)
  {
    forall p: nat | LastPacket(list, n, p) ensures slot.mac == list[p].addr.mac && slot.index == list[p].addr.index {
      LatestEntryWins(list, n, p);
    }
    if forall j :: 0 <= j < |list| && list[j].name == n ==> !list[j].addr.Packet? {
      WithoutLinkLayer(list, n);
    }
  }

  /** An app address is a host address, bytes and port as they are, or unspecified if it is not an
      internet address. */
  predicate Carries(a: AppAddr, h: HostAddr) {
    match h
    case Inet(addr, port) => a == AppInet(addr, port)
    case Inet6(addr, port, flowinfo, scope) => a == AppInet6(addr, port, flowinfo, scope)
    case _ => a == Unspec
  }

  /** A slot carries its own entry: name and flags, internet address, netmask and broadcast address,
      the address recoverably, and the hardware address of the interface. */
  lemma SlotCarriesItsEntry(list: seq<IfAddr>, n: Name, k: nat)
    requires k < |InetOf(list, n)|
    ensures k < |Group(n, InfoOf(list, n))|
    ensures var e, slot := InetOf(list, n)[k], Group(n, InfoOf(list, n))[k];
      && e in list && e.name == n && IsInet(e.addr)
      && Named(slot, n) && slot.flags == e.flags & 0x135B
      && Carries(slot.addr, e.addr) && Carries(slot.netmask, e.netmask) && Carries(slot.broadaddr, e.broadaddr)
      && HasHardware(slot, list, n)
      && ToHost(slot.addr) == Some(e.addr)
      && ToHost(slot.netmask) == (if IsInet(e.netmask) then Some(e.netmask) else None)
      && ToHost(slot.broadaddr) == (if IsInet(e.broadaddr) then Some(e.broadaddr) else None)
  {
    AddressesAreFiltered(list, n);
    InetOfIsFromList(list, n, k);
    FlagsAreMasked(InetOf(list, n)[k].flags);
    HardwareIsLatest(list, n, Group(n, InfoOf(list, n))[k]);
  }

  /** The one slot of an interface without internet addresses: unspecified addresses, and the flags
      of the interface's last entry. */
  lemma BareSlotCarriesItsInterface(list: seq<IfAddr>, n: Name, p: nat)
    requires LastOf(list, n, p) && InetOf(list, n) == []
    ensures var group := Group(n, InfoOf(list, n));
      && |group| == 1 && Named(group[0], n) && group[0].flags == list[p].flags & 0x135B
      && group[0].addr == Unspec && group[0].netmask == Unspec && group[0].broadaddr == Unspec
      && HasHardware(group[0], list, n)
  {
    AddressesAreFiltered(list, n);
    LatestEntryWins(list, n, p);
    FlagsAreMasked(list[p].flags);
    HardwareIsLatest(list, n, Group(n, InfoOf(list, n))[0]);
  }

  /** Internet address `i` of the host list comes after those listed before it under its name. */
  lemma {:induction false} AddressesKeepOrder(list: seq<IfAddr>, i: nat)
    requires i < |list| && IsInet(list[i].addr)
    ensures var n := list[i].name; var k := |InetOf(list[..i], n)|;
      k < |InetOf(list, n)| && InetOf(list, n)[k] == list[i]
  {
    var last := |list| - 1;
    if i < last {
      AddressesKeepOrder(list[..last], i);
      assert list[..last][..i] == list[..i];
    }
  }

  lemma {:induction false} InetOfIsFromList(list: seq<IfAddr>, n: Name, k: nat)
    requires k < |InetOf(list, n)|
    ensures var e := InetOf(list, n)[k]; e in list && e.name == n && IsInet(e.addr)
  {
    var rest := list[..|list| - 1];
    if k < |InetOf(rest, n)| {
      InetOfIsFromList(rest, n, k);
    }
  }

  /** The listing consists of one run of slots per interface, names rising from run to run. An
      interface with internet addresses has one slot for each of them, in list order, under its
      own name; one without has a single slot without address. */
  lemma ListingIsGroupedByName(list: seq<IfAddr>, n: Name) returns (k: nat)
    requires n in NamesIn(list)
    ensures var t := TableOf(list); var info := InfoOf(list, n);
      && k < |t| && t[k].0 == n
      && |Slots(t[..k + 1])| <= |Slots(t)|
      && |Slots(t[..k + 1])| == |Slots(t[..k])| + |Group(n, info)|
      && Slots(t)[|Slots(t[..k])|..|Slots(t[..k + 1])|] == Group(n, info)
      && info.addrs == InetOf(list, n)
      && (forall j :: 0 <= j < k ==> Less(t[j].0, n))
      && (forall j :: k < j < |t| ==> Less(n, t[j].0))
  {
    var t := TableOf(list);
    TableTabulates(list);
    AddressesAreFiltered(list, n);
    k := KeyAt(t, n);
    GroupPlace(t, k);
    forall j | 0 <= j < k ensures Less(t[j].0, n) { NamesRise(t, j, k); }
    forall j | k < j < |t| ensures Less(n, t[j].0) { NamesRise(t, k, j); }
  }

  /** Internet addresses of the list under names in `keys`. */
  function InetCount(list: seq<IfAddr>, keys: set<Name>): nat {
    if list == [] then 0
    else
      var last := list[|list| - 1];
      InetCount(list[..|list| - 1], keys) + if IsInet(last.addr) && last.name in keys then 1 else 0
  }

  function BareNames(list: seq<IfAddr>, keys: set<Name>): set<Name> {
    set n | n in keys && InetOf(list, n) == []
  }

  lemma {:induction false} InetCountSplits(list: seq<IfAddr>, n: Name, keys: set<Name>)
    requires n !in keys
    ensures InetCount(list, {n} + keys) == |InetOf(list, n)| + InetCount(list, keys)
  {
    if list != [] {
      InetCountSplits(list[..|list| - 1], n, keys);
    }
  }

  lemma {:induction false} SlotsFromFront(t: Table)
    requires t != []
    ensures |Slots(t)| == |Group(t[0].0, t[0].1)| + |Slots(t[1..])|
  {
    var last := |t| - 1;
    if last == 0 {
      assert t[..0] == [] && t[1..] == [];
    } else {
      SlotsFromFront(t[..last]);
      assert t[..last][1..] == t[1..][..last - 1];
      assert t[..last][0] == t[0] && t[1..][last - 1] == t[last];
      assert |Slots(t[1..])| == |Slots(t[1..][..last - 1])| + |Group(t[last].0, t[last].1)|;
    }
  }

  lemma {:induction false} SlotsCounted(list: seq<IfAddr>, t: Table)
    requires Sorted(t) && forall n :: n in Keys(t) ==> Lookup(t, n) == InfoOf(list, n)
    ensures |Slots(t)| == InetCount(list, Keys(t)) + |BareNames(list, Keys(t))|
  {
    if t == [] {
      NoneCounted(list);
      assert BareNames(list, {}) == {};
    } else {
      var n, rest := t[0].0, t[1..];
      LessIsTotal(n, n);
      forall m | m in Keys(rest) ensures Lookup(rest, m) == InfoOf(list, m) {
        assert m != n && Lookup(t, m) == Lookup(rest, m);
      }
      SlotsCounted(list, rest);
      SlotsFromFront(t);
      InetCountSplits(list, n, Keys(rest));
      AddressesAreFiltered(list, n);
      assert Lookup(t, n) == InfoOf(list, n);
      if InetOf(list, n) == [] {
        assert BareNames(list, Keys(t)) == BareNames(list, Keys(rest)) + {n};
      } else {
        assert BareNames(list, Keys(t)) == BareNames(list, Keys(rest));
      }
    }
  }

  lemma {:induction false} NoneCounted(list: seq<IfAddr>)
    ensures InetCount(list, {}) == 0
  {
    if list != [] {
      NoneCounted(list[..|list| - 1]);
    }
  }

  /** Nothing is listed twice or dropped: the slots number the internet addresses of the host
      list plus the interfaces that have none. */
  lemma ListingIsComplete(list: seq<IfAddr>)
    ensures |Slots(TableOf(list))| == InetCount(list, NamesIn(list)) + |BareNames(list, NamesIn(list))|
  {
    TableTabulates(list);
    SlotsCounted(list, TableOf(list));
  }
}
