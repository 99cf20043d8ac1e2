/** Handle allocation, thread ids and stack carving of `WasiThreadSpawn`. */
module ThreadHandles {
  import opened Prelude

  /** Steps of the wrapping counter from `a` to `b`. */
  function CyclicDistance(a: nat, b: nat): nat
    requires a < U32 && b < U32
  {
    if a <= b then b - a else b - a + U32
  }

  /** `m_curHandleId++` on a `uint32_t`. */
  function Increment(c: nat): (next: nat)
    requires c < U32
    ensures next < U32
  {
    if c == U32 - 1 then 0 else c + 1
  }

  /** `h` is what the probing loop finds when the counter stands at `cursor`: a free key such
      that every key the counter passed on the way is taken. */
  ghost predicate IsFirstFree(keys: set<nat>, cursor: nat, h: nat)
    requires cursor < U32
  {
    && h < U32
    && h !in keys
    && forall g: nat :: g < U32 && CyclicDistance(cursor, g) < CyclicDistance(cursor, h) ==> g in keys
  }

  lemma FirstFreeIsUnique(keys: set<nat>, cursor: nat, h: nat, g: nat)
    requires cursor < U32 && IsFirstFree(keys, cursor, h) && IsFirstFree(keys, cursor, g)
    ensures h == g
  {
    assert CyclicDistance(cursor, h) == CyclicDistance(cursor, g);
  }

  /** One failed probe moves the counter one step from `start` and one step closer to `free`,
      and passes only the key it just tried. */
  lemma ProbeAdvances(start: nat, at: nat, free: nat)
    requires start < U32 && at < U32 && free < U32 && at != free
    requires CyclicDistance(start, at) + CyclicDistance(at, free) == CyclicDistance(start, free)
    ensures var next := Increment(at);
      && CyclicDistance(start, next) == CyclicDistance(start, at) + 1
      && CyclicDistance(next, free) == CyclicDistance(at, free) - 1
      && forall g: nat :: g < U32 && CyclicDistance(start, g) < CyclicDistance(start, next)
                          ==> g == at || CyclicDistance(start, g) < CyclicDistance(start, at)
  {
  }

  /** While the main entry holds key 0, a fresh handle is never 0 and never a live one. */
  lemma FreshHandle(keys: set<nat>, cursor: nat, h: nat)
    requires 0 in keys && cursor < U32 && IsFirstFree(keys, cursor, h)
    ensures 0 < h < U32 && h !in keys
  {
  }

  /** The probe has an answer exactly when some handle is free; the loop would go on for ever
      only over a map that holds all of them. */
  lemma ProbeEndsIff(keys: set<nat>, cursor: nat)
    requires cursor < U32
    ensures (exists h :: IsFirstFree(keys, cursor, h)) <==> !(Below(U32) <= keys)
    ensures |keys| < U32 ==> exists h :: IsFirstFree(keys, cursor, h)
  {
    if free :| free in Below(U32) && free !in keys {
      var h := FirstFreeFrom(keys, cursor, cursor, free);
    } else if |keys| < U32 {
      var unused := SomeUnused(keys, U32);
    }
    if h :| IsFirstFree(keys, cursor, h) {
      assert h in Below(U32);
    }
  }

  lemma {:induction false} FirstFreeFrom(keys: set<nat>, start: nat, at: nat, free: nat) returns (h: nat)
    requires start < U32 && at < U32 && free < U32 && free !in keys
    requires CyclicDistance(start, at) + CyclicDistance(at, free) == CyclicDistance(start, free)
    requires forall g: nat :: g < U32 && CyclicDistance(start, g) < CyclicDistance(start, at) ==> g in keys
    ensures IsFirstFree(keys, start, h)
    decreases CyclicDistance(at, free)
  {
    if at !in keys {
      h := at;
    } else {
      var next := Increment(at);
      ProbeAdvances(start, at, free);
      h := FirstFreeFrom(keys, start, next, free);
    }
  }

  /** The thread id handed to the app for a handle. */
  function Tid(handle: nat): nat {
    if handle < INT32_MAX then handle else INT32_MAX
  }

  /** Thread ids are positive `int32_t`s, the handle itself where it is one, and two different
      handles share an id exactly when both have reached INT32_MAX. */
  lemma TidCollision(h: nat, g: nat)
    requires 0 < h < U32 && 0 < g < U32
    ensures 1 <= Tid(h) <= INT32_MAX && (h <= INT32_MAX ==> Tid(h) == h)
    ensures Tid(h) == Tid(g) <==> h == g || (h >= INT32_MAX && g >= INT32_MAX)
  {
  }

  /** Stack top and usable size carved from a block of `requested + 16` bytes at `address`,
      in `uint32_t` arithmetic. */
  function CarveStack(address: nat, requested: nat): (stack: (nat, nat)) {
    var blockSize := Wrap32(requested + 16);
    var bottom := Wrap32(address + blockSize) / 16 * 16;
    (bottom, Wrap32(bottom - address))
  }

  /** The bottom is always 16-aligned. It lies inside the block and leaves more than the
      requested size and at most 16 bytes more exactly when the block does not wrap. */
  lemma CarvedStackFitsIff(address: nat, requested: nat)
    requires 0 < address < U32 && requested < U32
    ensures var (bottom, size) := CarveStack(address, requested);
      && bottom % 16 == 0
      && ((address <= bottom <= address + requested + 16
           && size == bottom - address && requested < size <= requested + 16)
          <==> address + requested + 16 < U32)
  {
    var (bottom, size) := CarveStack(address, requested);
    if address + requested + 16 < U32 {
      assert Wrap32(address + Wrap32(requested + 16)) == address + requested + 16;
    } else if requested + 16 >= U32 {
      assert Wrap32(requested + 16) == requested + 16 - U32;
    }
  }
}
