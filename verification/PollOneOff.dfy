/** `WasiPollOneOff`: subscriptions become host poll entries and a timeout, and the host's
    answer becomes WASI events, compacted into the app's output array. */
module PollOneOff {
  import opened Prelude

  const INT_MAX: nat := 0x7FFF_FFFF

  datatype Kind =
    | Clock(absolute: bool, timeout: nat, now: Option<nat>)   // `now`: what the clock read gives
    | FdRead(fd: nat)
    | FdWrite(fd: nat)

  datatype Subscription = Subscription(userdata: nat, kind: Kind)

  datatype EventType = EventClock | EventFdRead | EventFdWrite

  datatype Error = Success | EBadF | EPipe | EInval | Host(code: nat)

  datatype Event = Event(userdata: nat, error: Error, etype: EventType, hangup: bool)

  /** What `memset` leaves in an unused slot; the zero type is the clock type. */
  const ZeroEvent: Event := Event(0, Success, EventClock, false)

  datatype Revents = Revents(nval: bool, readable: bool, writable: bool, hup: bool)

  const NoRevents: Revents := Revents(false, false, false, false)

  datatype PollFd = PollFd(fd: int, forWrite: bool, revents: Revents)

  const INVALID: int := -1

  function TypeOf(k: Kind): EventType {
    match k
    case Clock(_, _, _) => EventClock
    case FdRead(_) => EventFdRead
    case FdWrite(_) => EventFdWrite
  }

  // ---------------------------------------------------------------- the scan

  /** How long one subscription allows the call to sleep, in nanoseconds. */
  function Allowance(k: Kind): nat {
    if !k.Clock? then UINT64_MAX
    else if !k.absolute then k.timeout
    else if k.now.None? then UINT64_MAX
    else if k.now.value < k.timeout then k.timeout - k.now.value else 0
  }

  /** A relative clock allows its timeout, an absolute one what is left until its deadline and
      nothing once that has passed; everything else sets no limit. */
  lemma AllowanceEndsAtDeadline(k: Kind)
    ensures k.Clock? && !k.absolute ==> Allowance(k) == k.timeout
    ensures k.Clock? && k.absolute && k.now.Some? ==>
      (k.now.value <= k.timeout ==> k.now.value + Allowance(k) == k.timeout)
      && (k.now.value > k.timeout ==> Allowance(k) == 0)
    ensures !k.Clock? || (k.absolute && k.now.None?) ==> Allowance(k) == UINT64_MAX
  {
  }

  /** Position `i` is the first to reach the smallest allowance, `t`, below UINT64_MAX. */
  ghost predicate FirstMinimum(subs: seq<Subscription>, t: nat, i: nat) {
    && i < |subs| && Allowance(subs[i].kind) == t && t < UINT64_MAX
    && (forall j :: 0 <= j < i ==> t < Allowance(subs[j].kind))
    && (forall j :: i <= j < |subs| ==> t <= Allowance(subs[j].kind))
  }

  lemma FirstMinimumIsUnique(subs: seq<Subscription>, t: nat, i: nat, u: nat, j: nat)
    requires FirstMinimum(subs, t, i) && FirstMinimum(subs, u, j)
    ensures t == u && i == j
  {
    assert t <= Allowance(subs[j].kind) && u <= Allowance(subs[i].kind);
  }

  function EntryFor(k: Kind, table: map<nat, int>): PollFd {
    if (k.FdRead? || k.FdWrite?) && k.fd in table
    then PollFd(table[k.fd], k.FdWrite?, NoRevents)
    else PollFd(INVALID, false, NoRevents)
  }

  /** Some subscription's descriptor was found in the table with the poll right. */
  predicate Resolved(k: Kind, table: map<nat, int>) {
    (k.FdRead? || k.FdWrite?) && k.fd in table
  }

  /** The app's descriptor table with its locks; `resolve` holds the descriptors that may be
      polled. */
  class FdTable {
    const resolve: map<nat, int>
    var locked: bool
    var held: multiset<nat>        // fd wraps whose mutex is held

    constructor (resolve: map<nat, int>)
      ensures this.resolve == resolve && !locked && held == multiset{}
    {
      this.resolve := resolve;
      locked, held := false, multiset{};
    }

    /** A successful lookup returns with the wrap's mutex locked. */
    method Get(fd: nat) returns (found: bool, host: int)
      requires locked
      modifies this
      ensures locked
      ensures found <==> fd in resolve
      ensures found ==> host == resolve[fd] && held == old(held) + multiset{fd}
      ensures !found ==> held == old(held)
    {
      found, host := fd in resolve, INVALID;
      if found {
        held, host := held + multiset{fd}, resolve[fd];
      }
    }

    method Unlock(fd: nat)
      requires fd in held
      modifies this
      ensures locked == old(locked) && held == old(held) - multiset{fd}
    {
      held := held - multiset{fd};
    }
  }

  /** The running minimum after the first subscriptions; `best` is the recorded one. */
  ghost predicate RunningMinimum(subs: seq<Subscription>, timeout: nat, best: Option<nat>) {
    match best
    case Some(i) => FirstMinimum(subs, timeout, i)
    case None => timeout == UINT64_MAX && forall k :: 0 <= k < |subs| ==> Allowance(subs[k].kind) >= UINT64_MAX
  }

  lemma NextMinimum(subs: seq<Subscription>, i: nat, timeout: nat, best: Option<nat>)
    requires i < |subs| && RunningMinimum(subs[..i], timeout, best)
    ensures var a := Allowance(subs[i].kind);
      if a < timeout then RunningMinimum(subs[..i + 1], a, Some(i)) else RunningMinimum(subs[..i + 1], timeout, best)
  {
    assert subs[..i + 1] == subs[..i] + [subs[i]];
  }

  predicate Asleep(subs: seq<Subscription>, resolve: map<nat, int>) {
    forall k :: 0 <= k < |subs| ==> !Resolved(subs[k].kind, resolve)
  }

  function Entries(subs: seq<Subscription>, resolve: map<nat, int>): (r: seq<PollFd>)
    ensures |r| == |subs|
  {
    seq(|subs|, k requires 0 <= k < |subs| => EntryFor(subs[k].kind, resolve))
  }

  /** The host descriptor that stands for a subscription. */
  function HostOf(sub: Subscription, resolve: map<nat, int>): int {
    if !sub.kind.Clock? && sub.kind.fd in resolve then resolve[sub.kind.fd] else INVALID
  }

  /** The poll entry of one subscription; a wrap found is unlocked again. */
  method ScanFd(kind: Kind, table: FdTable) returns (entry: PollFd, resolved: bool)
    requires table.locked
    modifies table
    ensures table.locked && table.held == old(table.held)
    ensures entry == EntryFor(kind, table.resolve) && (resolved <==> Resolved(kind, table.resolve))
    ensures resolved <==> !kind.Clock? && kind.fd in table.resolve
    ensures entry.fd == (if resolved then table.resolve[kind.fd] else INVALID)
    ensures (entry.forWrite <==> resolved && kind.FdWrite?) && entry.revents == NoRevents
  {
    if kind.FdRead? || kind.FdWrite? {
      var found, host := table.Get(kind.fd);
      if found {
        table.Unlock(kind.fd);
        return PollFd(host, kind.FdWrite?, NoRevents), true;
      }
    }
    return PollFd(INVALID, false, NoRevents), false;
  }

  /** The loop over the subscriptions. */
  method Scan(subs: seq<Subscription>, table: FdTable) returns (pollArr: array<PollFd>, timeout: nat, best: Option<nat>, sleepOnly: bool)
    requires !table.locked && table.held == multiset{}
    modifies table
    ensures !table.locked && table.held == multiset{}
    ensures fresh(pollArr) && pollArr[..] == Entries(subs, table.resolve)
    ensures forall k :: 0 <= k < |subs| ==>
      && pollArr[k].fd == HostOf(subs[k], table.resolve)
      && (pollArr[k].forWrite <==> subs[k].kind.FdWrite? && subs[k].kind.fd in table.resolve)
    ensures RunningMinimum(subs, timeout, best)
    ensures sleepOnly <==> Asleep(subs, table.resolve)
    ensures sleepOnly <==> forall k :: 0 <= k < |subs| && !subs[k].kind.Clock? ==> subs[k].kind.fd !in table.resolve
  {
    pollArr := new PollFd[|subs|](_ => PollFd(INVALID, false, NoRevents));
    timeout, best, sleepOnly := UINT64_MAX, None, true;
    table.locked := true;
    for i := 0 to |subs|
      invariant table.locked && table.held == multiset{}
      invariant fresh(pollArr) && pollArr.Length == |subs|
      invariant forall k :: 0 <= k < i ==> pollArr[k] == EntryFor(subs[k].kind, table.resolve)
      invariant RunningMinimum(subs[..i], timeout, best)
      invariant sleepOnly <==> Asleep(subs[..i], table.resolve)
    {
      var kind := subs[i].kind;
      NextMinimum(subs, i, timeout, best);
      if kind.Clock? {
        var temp := UINT64_MAX;
        if !kind.absolute {
          temp := kind.timeout;
        } else if kind.now.Some? {
          temp := if kind.now.value < kind.timeout then kind.timeout - kind.now.value else 0;
        }
        if temp < timeout {
          timeout, best := temp, Some(i);
        }
      }
      var entry, resolved := ScanFd(kind, table);
      pollArr[i] := entry;
      sleepOnly := sleepOnly && !resolved;
    }
    table.locked := false;
    assert subs[..|subs|] == subs;
  }

  /** The millisecond timeout handed to `poll`. */
  function PollMillis(nanos: nat): nat {
    if nanos / 1000 / 1000 < INT_MAX then nanos / 1000 / 1000 else INT_MAX
  }

  /** A poll timeout for `nanos`: never longer and, unless clamped, less than a millisecond
      shorter. */
  predicate MillisFor(millis: nat, nanos: nat) {
    && millis <= INT_MAX && millis * 1000000 <= nanos
    && (millis < INT_MAX ==> nanos < (millis + 1) * 1000000)
  }

  lemma MillisAreWithinOne(nanos: nat)
    ensures MillisFor(PollMillis(nanos), nanos)
  {
    assert nanos / 1000 / 1000 == nanos / 1000000;
  }

  // ---------------------------------------------------------------- the events

  /** The event a polled subscription yields, if any. */
  function EventOf(sub: Subscription, p: PollFd): Option<Event> {
    if sub.kind.Clock? then None
    else if p.fd == INVALID || p.revents.nval then
      Some(Event(sub.userdata, EBadF, TypeOf(sub.kind), false))
    else if p.revents.readable || p.revents.writable then
      Some(Event(sub.userdata, Success, TypeOf(sub.kind), p.revents.hup))
    else if p.revents.hup then
      Some(Event(sub.userdata, EPipe, TypeOf(sub.kind), true))
    else None
  }

  /** The events of the first subscriptions, in order. */
  function Events(subs: seq<Subscription>, polled: seq<PollFd>): (r: seq<Event>)
    requires |subs| == |polled|
    ensures |r| <= |subs|
  {
    if subs == [] then []
    else
      var last := |subs| - 1;
      var e := EventOf(subs[last], polled[last]);
      Events(subs[..last], polled[..last]) + if e.Some? then [e.value] else []
  }

  /** Where the subscription at `i` puts its event: after those of all before it. */
  function Place(subs: seq<Subscription>, polled: seq<PollFd>, i: nat): nat
    requires |subs| == |polled| && i <= |subs|
  {
    |Events(subs[..i], polled[..i])|
  }

  /** One subscription moves the next place on by one if it has an event, and else not at all. */
  lemma PlaceOfOne(subs: seq<Subscription>, polled: seq<PollFd>, i: nat)
    requires |subs| == |polled| && i < |subs|
    ensures var e := EventOf(subs[i], polled[i]);
      Events(subs[..i + 1], polled[..i + 1]) == Events(subs[..i], polled[..i]) + if e.Some? then [e.value] else []
  {
    assert subs[..i + 1][..i] == subs[..i] && polled[..i + 1][..i] == polled[..i];
  }

  lemma {:induction false} EventsGrow(subs: seq<Subscription>, polled: seq<PollFd>, i: nat, j: nat)
    requires |subs| == |polled| && i <= j <= |subs|
    ensures Events(subs[..i], polled[..i]) <= Events(subs[..j], polled[..j])
  {
    if i < j {
      EventsGrow(subs, polled, i, j - 1);
      PlaceOfOne(subs, polled, j - 1);
    }
  }

  /** The events are an order-preserving selection: each reporting subscription has one event, at
      its own place, the others have none, and places rise with positions. */
  lemma EventsAreOrderedSelection(subs: seq<Subscription>, polled: seq<PollFd>, i: nat, j: nat)
    requires |subs| == |polled| && i < j <= |subs|
    ensures var r := Events(subs, polled); var e := EventOf(subs[i], polled[i]);
      && Place(subs, polled, i) <= Place(subs, polled, j) <= |r|
      && Place(subs, polled, i + 1) == Place(subs, polled, i) + (if e.Some? then 1 else 0)
      && (e.Some? ==>
            Place(subs, polled, i) < Place(subs, polled, j) && r[Place(subs, polled, i)] == e.value)
      && Place(subs, polled, |subs|) == |r|
  {
    assert subs[..|subs|] == subs && polled[..|polled|] == polled;
    PlaceOfOne(subs, polled, i);
    EventsGrow(subs, polled, i + 1, j);
    EventsGrow(subs, polled, j, |subs|);
    GrownByOne(Events(subs[..i], polled[..i]), Events(subs[..i + 1], polled[..i + 1]),
               Events(subs[..j], polled[..j]), Events(subs, polled), EventOf(subs[i], polled[i]));
  }

  lemma GrownByOne(a: seq<Event>, b: seq<Event>, c: seq<Event>, r: seq<Event>, e: Option<Event>)
    requires b == a + (if e.Some? then [e.value] else []) && b <= c <= r
    ensures |a| <= |c| <= |r| && |b| == |a| + (if e.Some? then 1 else 0)
    ensures e.Some? ==> |a| < |c| && r[|a|] == e.value
  {
    assert e.Some? ==> b[|a|] == e.value;
  }

  /** A descriptor subscription whose host descriptor came back with `r` has something to report. */
  predicate Reports(sub: Subscription, host: int, r: Revents) {
    !sub.kind.Clock? && (host == INVALID || r.nval || r.readable || r.writable || r.hup)
  }

  /** What preview1 asks of the event: the subscription's own user data and type; a bad descriptor
      for one that is unknown or invalid; else success, with the hang-up flag as the host has it,
      if there is data; else a broken pipe with the flag. */
  predicate Describes(e: Event, sub: Subscription, host: int, r: Revents) {
    && e.userdata == sub.userdata
    && (e.etype == EventFdRead <==> sub.kind.FdRead?) && (e.etype == EventFdWrite <==> sub.kind.FdWrite?)
    && (e.error == EBadF <==> host == INVALID || r.nval)
    && (e.error == EBadF ==> !e.hangup)
    && (host != INVALID && !r.nval && (r.readable || r.writable) ==> e.error == Success && (e.hangup <==> r.hup))
    && (host != INVALID && !r.nval && !r.readable && !r.writable ==> e.error == EPipe && e.hangup)
  }

  /** Each subscription with something to report has one event, which describes it; the others
      have none. */
  lemma EventsDescribe(subs: seq<Subscription>, polled: seq<PollFd>, i: nat)
    requires |subs| == |polled| && i < |subs|
    ensures var k, reports := Place(subs, polled, i), Reports(subs[i], polled[i].fd, polled[i].revents);
      && Place(subs, polled, i + 1) == k + (if reports then 1 else 0)
      && (reports ==>
            && k < |Events(subs, polled)|
            && Describes(Events(subs, polled)[k], subs[i], polled[i].fd, polled[i].revents))
  {
    EventsAreOrderedSelection(subs, polled, i, i + 1);
  }

  /** And no other events exist: each is that of one subscription. */
  lemma EveryEventHasItsSubscription(subs: seq<Subscription>, polled: seq<PollFd>, k: nat) returns (i: nat)
    requires |subs| == |polled| && k < |Events(subs, polled)|
    ensures i < |subs| && Place(subs, polled, i) == k && EventOf(subs[i], polled[i]).Some?
    ensures forall j :: 0 <= j < |subs| && Place(subs, polled, j) == k && EventOf(subs[j], polled[j]).Some? ==> j == i
  {
    assert subs[..|subs|] == subs && polled[..|polled|] == polled;
    i := 0;
    while Place(subs, polled, i + 1) <= k
      invariant i < |subs| && Place(subs, polled, i) <= k
      decreases |subs| - i
    {
      i := i + 1;
    }
    PlaceOfOne(subs, polled, i);
    forall j | 0 <= j < |subs| && j != i && EventOf(subs[j], polled[j]).Some? ensures Place(subs, polled, j) != k {
      if j < i {
        EventsAreOrderedSelection(subs, polled, j, i);
      } else {
        EventsAreOrderedSelection(subs, polled, i, j);
      }
    }
  }

  /** No event at all comes out exactly when every descriptor subscription is valid and shows
      neither data nor hang-up, as with a bare error condition. */
  lemma {:induction false} NoEventsIff(subs: seq<Subscription>, polled: seq<PollFd>)
    requires |subs| == |polled|
    ensures Events(subs, polled) == [] <==>
      forall k :: 0 <= k < |subs| && !subs[k].kind.Clock? ==>
        var p := polled[k];
        p.fd != INVALID && !p.revents.nval && !p.revents.readable && !p.revents.writable && !p.revents.hup
  {
    if subs != [] {
      var last := |subs| - 1;
      NoEventsIff(subs[..last], polled[..last]);
    }
  }

  /** The host's answer to `poll`: -1 with an error code, or the number of ready entries with
      their revents. */
  datatype HostPoll = HostPoll(count: int, code: nat, revents: seq<Revents>)

  function Answered(entries: seq<PollFd>, revents: seq<Revents>): seq<PollFd>
    requires |entries| == |revents|
  {
    seq(|entries|, k requires 0 <= k < |entries| => entries[k].(revents := revents[k]))
  }

  /** So it is in an output array that begins with the events. */
  lemma OutputDescribes(subs: seq<Subscription>, polled: seq<PollFd>, out: seq<Event>, n: nat)
    requires |subs| == |polled| && n <= |out| && out[..n] == Events(subs, polled)
    ensures Place(subs, polled, 0) == 0 && Place(subs, polled, |subs|) == n
    ensures forall i {:trigger polled[i]} :: 0 <= i < |subs| ==>
      var k, reports := Place(subs, polled, i), Reports(subs[i], polled[i].fd, polled[i].revents);
      && Place(subs, polled, i + 1) == k + (if reports then 1 else 0)
      && (reports ==> k < n && Describes(out[k], subs[i], polled[i].fd, polled[i].revents))
  {
    assert subs[..|subs|] == subs && polled[..|polled|] == polled;
    forall i | 0 <= i < |subs|
      ensures var k, reports := Place(subs, polled, i), Reports(subs[i], polled[i].fd, polled[i].revents);
        && Place(subs, polled, i + 1) == k + (if reports then 1 else 0)
        && (reports ==> k < n && Describes(out[k], subs[i], polled[i].fd, polled[i].revents))
    {
      EventsDescribe(subs, polled, i);
      var k := Place(subs, polled, i);
      assert Reports(subs[i], polled[i].fd, polled[i].revents) ==> out[k] == out[..n][k];
    }
  }

  /** Everything in `out` from `n` on is untouched. */
  ghost predicate ZeroFrom(out: seq<Event>, n: nat) {
    forall k :: n <= k < |out| ==> out[k] == ZeroEvent
  }

  /** The compaction loop. */
  method Collect(subs: seq<Subscription>, pollArr: array<PollFd>, out: array<Event>) returns (n: nat)
    requires |subs| == pollArr.Length == out.Length && ZeroFrom(out[..], 0)
    modifies out
    ensures n <= |subs| && out[..n] == Events(subs, pollArr[..]) && ZeroFrom(out[..], n)
    ensures Place(subs, pollArr[..], 0) == 0 && Place(subs, pollArr[..], |subs|) == n
    ensures forall i {:trigger pollArr[i]} :: 0 <= i < |subs| ==>
      var k, reports := Place(subs, pollArr[..], i), Reports(subs[i], pollArr[i].fd, pollArr[i].revents);
      && Place(subs, pollArr[..], i + 1) == k + (if reports then 1 else 0)
      && (reports ==> k < n && Describes(out[k], subs[i], pollArr[i].fd, pollArr[i].revents))
  {
    n := 0;
    for i := 0 to |subs|
      invariant n <= i && out[..n] == Events(subs[..i], pollArr[..i]) && ZeroFrom(out[..], n)
    {
      assert subs[..i + 1][..i] == subs[..i] && pollArr[..i + 1][..i] == pollArr[..i];
      var sub, p := subs[i], pollArr[i];
      ghost var before := out[..n];
      if !sub.kind.Clock? {
        if p.fd == INVALID || p.revents.nval {
          out[n] := Event(sub.userdata, EBadF, TypeOf(sub.kind), false);
          n := n + 1;
        } else if p.revents.readable || p.revents.writable {
          out[n] := Event(sub.userdata, Success, TypeOf(sub.kind), p.revents.hup);
          n := n + 1;
        } else if p.revents.hup {
          out[n] := Event(sub.userdata, EPipe, TypeOf(sub.kind), true);
          n := n + 1;
        }
      }
      assert out[..|before|] == before;
    }
    assert subs[..|subs|] == subs && pollArr[..pollArr.Length] == pollArr[..];
    OutputDescribes(subs, pollArr[..], out[..], n);
  }

  /** The event of the recorded clock subscription. */
  ghost predicate IsTimeoutEvent(subs: seq<Subscription>, e: Event) {
    exists t: nat, i: nat :: FirstMinimum(subs, t, i) && e == Event(subs[i].userdata, Success, EventClock, false)
  }

  /** How the call waited. */
  datatype Wait = NotWaited | Slept(nanos: nat) | Polled(millis: nat)

  predicate Unlimited(subs: seq<Subscription>) {
    forall k :: 0 <= k < |subs| ==> Allowance(subs[k].kind) >= UINT64_MAX
  }

  /** From the host's answer to the app's events: an error, the recorded clock's event on a timeout,
      or the events of the ready descriptors. */
  method Deliver(subs: seq<Subscription>, pollArr: array<PollFd>, best: Option<nat>, out: array<Event>, answer: HostPoll)
    returns (err: Error, n: nat)
    requires |subs| == pollArr.Length == out.Length == |answer.revents| && answer.count >= -1
    requires ZeroFrom(out[..], 0) && (best.Some? ==> best.value < |subs| && subs[best.value].kind.Clock?)
    modifies out, pollArr
    ensures n <= |subs| && ZeroFrom(out[..], n)
    ensures answer.count == -1 ==> err == Host(answer.code) && n == 0
    ensures answer.count == 0 ==> err == Success && n == if best.Some? then 1 else 0
    ensures answer.count == 0 && best.Some? ==> out[0] == Event(subs[best.value].userdata, Success, EventClock, false)
    ensures answer.count > 0 ==>
      var polled := Answered(old(pollArr[..]), answer.revents);
      && err == Success && out[..n] == Events(subs, polled)
      && Place(subs, polled, 0) == 0 && Place(subs, polled, |subs|) == n
      && forall i {:trigger answer.revents[i]} :: 0 <= i < |subs| ==>
           var k, host, r := Place(subs, polled, i), old(pollArr[i].fd), answer.revents[i];
           && Place(subs, polled, i + 1) == k + (if Reports(subs[i], host, r) then 1 else 0)
           && (Reports(subs[i], host, r) ==> k < n && Describes(out[k], subs[i], host, r))
  {
    n, err := 0, Success;
    if answer.count == -1 {
      err := Host(answer.code);
    } else if answer.count == 0 {
      if best.Some? {
        out[0] := Event(subs[best.value].userdata, Success, TypeOf(subs[best.value].kind), false);
        n := 1;
      }
    } else {
      ghost var entries := pollArr[..];
      forall k | 0 <= k < pollArr.Length { pollArr[k] := pollArr[k].(revents := answer.revents[k]); }
      assert pollArr[..] == Answered(entries, answer.revents);
      n := Collect(subs, pollArr, out);
      OutputDescribes(subs, Answered(entries, answer.revents), out[..], n);
    }
  }

  /** The whole call. The host is asked only when some descriptor resolved. */
  method Poll(subs: seq<Subscription>, out: array<Event>, table: FdTable, answer: HostPoll) returns (err: Error, n: nat, wait: Wait)
    requires out.Length == |subs| == |answer.revents| && answer.count >= -1
    requires !table.locked && table.held == multiset{}
    modifies out, table
    ensures !table.locked && table.held == multiset{}
    ensures n <= |subs|
    ensures subs == [] ==> err == Success
    ensures subs != [] ==>
      var asleep := Asleep(subs, table.resolve);
      && ZeroFrom(out[..], n)
      && (asleep && Unlimited(subs) ==> err == EInval && n == 0)
      && (!Unlimited(subs) && (asleep || answer.count == 0) ==> err == Success && n == 1 && IsTimeoutEvent(subs, out[0]))
      && (!asleep && Unlimited(subs) && answer.count == 0 ==> err == Success && n == 0)
      && (!asleep && answer.count == -1 ==> err == Host(answer.code) && n == 0)
      && (!asleep && answer.count > 0 ==>
            err == Success && out[..n] == Events(subs, Answered(Entries(subs, table.resolve), answer.revents)))
    ensures wait == NotWaited <==> Asleep(subs, table.resolve) && Unlimited(subs)
    ensures wait.Polled? <==> exists k :: 0 <= k < |subs| && !subs[k].kind.Clock? && subs[k].kind.fd in table.resolve
    ensures wait.Slept? ==> exists i: nat :: FirstMinimum(subs, wait.nanos, i)
    ensures wait.Polled? ==> forall t: nat, i: nat :: FirstMinimum(subs, t, i) ==> MillisFor(wait.millis, t)
    ensures wait.Polled? && Unlimited(subs) ==> wait.millis == INT_MAX
    ensures wait.Polled? && answer.count > 0 ==>
      var polled := Answered(Entries(subs, table.resolve), answer.revents);
      && Place(subs, polled, 0) == 0 && Place(subs, polled, |subs|) == n
      && forall i {:trigger answer.revents[i]} :: 0 <= i < |subs| ==>
           var k, host, r := Place(subs, polled, i), HostOf(subs[i], table.resolve), answer.revents[i];
           && Place(subs, polled, i + 1) == k + (if Reports(subs[i], host, r) then 1 else 0)
           && (Reports(subs[i], host, r) ==> k < n && Describes(out[k], subs[i], host, r))
  {
    n, err, wait := 0, Success, NotWaited;
    if |subs| == 0 {
      return;
    }
    forall k | 0 <= k < out.Length { out[k] := ZeroEvent; }
    var pollArr, timeout, best, sleepOnly := Scan(subs, table);
    LimitedIff(subs, timeout, best);
    if sleepOnly {
      if best.None? {
        return EInval, 0, NotWaited;
      }
      out[0] := Event(subs[best.value].userdata, Success, TypeOf(subs[best.value].kind), false);
      return Success, 1, Slept(timeout);
    }
    wait := Polled(PollMillis(timeout));
    MillisAreWithinOne(timeout);
    err, n := Deliver(subs, pollArr, best, out, answer);
  }

  lemma LimitedIff(subs: seq<Subscription>, timeout: nat, best: Option<nat>)
    requires RunningMinimum(subs, timeout, best)
    ensures best.None? <==> Unlimited(subs)
    ensures best.Some? ==> best.value < |subs| && subs[best.value].kind.Clock?
    ensures forall t: nat, i: nat :: FirstMinimum(subs, t, i) ==> best == Some(i) && t == timeout
  {
    if best.Some? {
      assert Allowance(subs[best.value].kind) < UINT64_MAX;
      forall t: nat, i: nat | FirstMinimum(subs, t, i) ensures best == Some(i) && t == timeout {
        FirstMinimumIsUnique(subs, t, i, timeout, best.value);
      }
    }
  }
}
