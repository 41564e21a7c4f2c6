/**
  Which mappings of shared memory are granted, and which buffer they reach (core/tc_client_driver.c): a buffer is
  named by the index it was mapped with, the first request for an index makes it, and one more request of the same
  length maps it again.
 */
module SharedIndexes {
  import opened Options
  import opened Octets
  import opened SharedMem

  const INDEX_MAX: nat := 0x8000_0000

  /** Buffer `id` is listed under index `i`. */
  predicate HasIndex(d: Dev, id: nat, i: nat) {
    id in d.list && id in d.bufs && d.bufs[id].offset == i
  }

  ghost predicate IndexFree(d: Dev, i: nat) {
    forall id: nat :: !HasIndex(d, id, i)
  }

  /** Buffer `id` is the only one listed under index `i`. */
  ghost predicate IndexOf(d: Dev, id: nat, i: nat) {
    HasIndex(d, id, i) && forall x: nat :: HasIndex(d, x, i) ==> x == id
  }

  predicate WholePages(len: nat) {
    0 < len <= MAILBOX_POOL_SIZE && len % SZ_4K == 0
  }

  lemma SearchByIndex(d: Dev, i: nat)
    ensures var f := First(d.bufs, d.list, AtOffset(i));
      if f.Some? then HasIndex(d, f.value, i) else IndexFree(d, i)
  {
    var f := First(d.bufs, d.list, AtOffset(i));
    if f.None? {
      forall id: nat
        ensures !HasIndex(d, id, i)
      {
        if id in d.list && id in d.bufs { assert !AtOffset(i)(d.bufs[id]); }
      }
    }
  }

  lemma WholePagesAreAligned(len: nat)
    requires len % SZ_4K == 0
    ensures Align4K(len) == len
  {
    var r := Align4K(len);
    assert (r - len) % SZ_4K == 0 && 0 <= r - len < SZ_4K;
  }

  // ----- what a request does

  /** The first request for a free index makes a buffer of that length and maps it; nothing else changes. */
  lemma FirstMappingIsGranted(d: Dev, a: nat, i: nat, len: nat, kept: multiset<nat>)
    requires DevOk(d) && IndexFree(d, i) && i < INDEX_MAX && WholePages(len) && a != INVALID_MAP_ADDR
    ensures var r := Step(d, Map(a, i, len, true, true), kept);
      d.next !in d.bufs && r.bufs == d.bufs[d.next := Shm(len, a, INVALID_MAP_ADDR, i, 1)] && IndexOf(r, d.next, i) &&
      r.list == d.list + [d.next] && r.next == d.next + 1 && r.vmas == d.vmas + multiset{a} && r.ops == d.ops
  {
    hide First;
    hide MappingsOk;
    SearchByIndex(d, i);
    WholePagesAreAligned(len);
    assert forall id: nat :: id in d.bufs ==> BufOk(d, id);
    var r := Step(d, Map(a, i, len, true, true), kept);
    assert StoredOffset(i) == i;
    assert r.bufs == d.bufs[d.next := Shm(len, a, INVALID_MAP_ADDR, i, 1)];
    assert forall x: nat :: HasIndex(r, x, i) && x != d.next ==> HasIndex(d, x, i);
  }

  /** A request for an index without memory for a buffer, or that cannot be mapped, leaves the device as it was. */
  lemma FailedMappingChangesNothing(d: Dev, a: nat, i: nat, len: nat, allocOk: bool, remapOk: bool, kept: multiset<nat>)
    requires !remapOk || (IndexFree(d, i) && (!allocOk || len > MAILBOX_POOL_SIZE))
    ensures Step(d, Map(a, i, len, allocOk, remapOk), kept) == d
  {
    SearchByIndex(d, i);
  }

  /** A buffer that is mapped once is mapped again by a request of its own length, and by no other. */
  lemma SecondMappingIsGranted(d: Dev, id: nat, b: nat, i: nat, len: nat, allocOk: bool, kept: multiset<nat>)
    requires IndexOf(d, id, i) && d.bufs[id].userAddrCa == INVALID_MAP_ADDR && b != INVALID_MAP_ADDR
    ensures var r, was := Step(d, Map(b, i, len, allocOk, true), kept), d.bufs[id];
      if len == was.len then
        IndexOf(r, id, i) &&
        r == d.(bufs := d.bufs[id := was.(userAddrCa := b, usage := was.usage + 1)], vmas := d.vmas + multiset{b})
      else
        r == d
  {
    SearchByIndex(d, i);
    assert forall x: nat :: HasIndex(Step(d, Map(b, i, len, allocOk, true), kept), x, i) ==> HasIndex(d, x, i);
  }

  lemma ThirdMappingIsRefused(d: Dev, id: nat, c: nat, i: nat, len: nat, ok: bool, remapOk: bool, kept: multiset<nat>)
    requires IndexOf(d, id, i) && d.bufs[id].userAddrCa != INVALID_MAP_ADDR
    ensures Step(d, Map(c, i, len, ok, remapOk), kept) == d
  {
    SearchByIndex(d, i);
  }

  /**
    From any device: the first request for a free index makes a buffer, a second one of the same length maps that same
    buffer at the second address and adds none, one of another length is refused before and after, and so is a third.
   */
  lemma OneBufferTwoMappings(d: Dev, a: nat, b: nat, c: nat, i: nat, len: nat, other: nat, kept: multiset<nat>)
    requires DevOk(d) && IndexFree(d, i) && i < INDEX_MAX && WholePages(len) && other != len
    requires a != INVALID_MAP_ADDR && b != INVALID_MAP_ADDR
    ensures var d1 := Step(d, Map(a, i, len, true, true), kept);
      var d2 := Step(d1, Map(b, i, len, true, true), kept);
      d1.bufs.Keys == d2.bufs.Keys == d.bufs.Keys + {d.next} && d.next !in d.bufs &&
      d1.bufs[d.next] == Shm(len, a, INVALID_MAP_ADDR, i, 1) && d2.bufs[d.next] == Shm(len, a, b, i, 2) &&
      (forall id :: id in d.bufs ==> d1.bufs[id] == d2.bufs[id] == d.bufs[id]) &&
      d2.vmas == d.vmas + multiset{a, b} &&
      Step(d1, Map(c, i, other, true, true), kept) == d1 && Step(d2, Map(c, i, other, true, true), kept) == d2 &&
      Step(d2, Map(c, i, len, true, true), kept) == d2
  {
    hide Step;
    hide DevOk;
    hide IndexFree;
    hide IndexOf;
    var d1 := Step(d, Map(a, i, len, true, true), kept);
    FirstMappingIsGranted(d, a, i, len, kept);
    OnlyHasIndex(d1, d.next, i);
    SecondMappingIsGranted(d1, d.next, b, i, len, true, kept);
    var d2 := Step(d1, Map(b, i, len, true, true), kept);
    OnlyHasIndex(d2, d.next, i);
    OtherLengthIsRefused(d1, d.next, c, i, other, kept);
    assert d2.vmas == d.vmas + multiset{a} + multiset{b} == d.vmas + multiset{a, b};
    ThirdMappingIsRefused(d2, d.next, c, i, other, true, true, kept);
    ThirdMappingIsRefused(d2, d.next, c, i, len, true, true, kept);
  }

  lemma OnlyHasIndex(d: Dev, id: nat, i: nat)
    requires IndexOf(d, id, i)
    ensures HasIndex(d, id, i)
  {
  }

  lemma OtherLengthIsRefused(d: Dev, id: nat, c: nat, i: nat, other: nat, kept: multiset<nat>)
    requires IndexOf(d, id, i) && d.bufs[id].len != other
    ensures Step(d, Map(c, i, other, true, true), kept) == d
  {
    SearchByIndex(d, i);
  }

  /** Closing a mapping takes it from the first buffer mapped there, and that buffer gives up one count or goes. */
  lemma CloseTakesOneMapping(d: Dev, start: nat, id: nat, kept: multiset<nat>)
    requires DevOk(d) && start in d.vmas && First(d.bufs, d.list, AtStart(start)) == Some(id)
    ensures var r, b := Step(d, Close(start), kept), d.bufs[id];
      r.vmas == d.vmas - multiset{start} && r.next == d.next && r.ops == d.ops &&
      (forall x :: x in d.bufs && x != id ==> x in r.bufs && r.bufs[x] == d.bufs[x]) &&
      (id in r.bufs <==> b.usage > 1) && (forall x :: x in r.bufs ==> x in d.bufs) &&
      (b.usage > 1 && b.userAddr == start ==>
        r.bufs[id] == Shm(b.len, INVALID_MAP_ADDR, b.userAddrCa, b.offset, b.usage - 1)) &&
      (b.usage > 1 && b.userAddr != start ==>
        b.userAddrCa == start && r.bufs[id] == Shm(b.len, b.userAddr, INVALID_MAP_ADDR, b.offset, b.usage - 1))
  {
    hide First;
    hide MappingsOk;
    assert BufOk(d, id);
  }

  // ----- one buffer per index

  /** No two buffers are listed under one index, as far as an int holds it. */
  ghost predicate IndexesUnique(d: Dev) {
    forall x: nat, y: nat :: SameIndex(d, x, y) ==> x == y
  }

  predicate SameIndex(d: Dev, x: nat, y: nat) {
    x in d.bufs && HasIndex(d, x, d.bufs[x].offset) && d.bufs[x].offset < INDEX_MAX && HasIndex(d, y, d.bufs[x].offset)
  }

  /** The request makes a buffer whose index, cut down to 32 bits, is one that is listed already. */
  ghost predicate CutsIntoUse(d: Dev, e: Event) {
    e.Map? && e.start != INVALID_MAP_ADDR && IndexFree(d, e.pgoff) && e.allocOk && e.remapOk &&
    Align4K(e.len) <= MAILBOX_POOL_SIZE && e.pgoff >= U32 && e.pgoff % U32 < INDEX_MAX && !IndexFree(d, e.pgoff % U32)
  }

  /** Where nothing new is listed and indexes stay, they stay unique. */
  lemma FewerIndexes(d: Dev, r: Dev)
    requires IndexesUnique(d) && forall id: nat, i: nat :: HasIndex(r, id, i) ==> HasIndex(d, id, i)
    ensures IndexesUnique(r)
  {
    forall x: nat, y: nat | SameIndex(r, x, y)
      ensures x == y
    {
      assert HasIndex(d, x, r.bufs[x].offset) && HasIndex(d, y, r.bufs[x].offset);
      assert SameIndex(d, x, y);
    }
  }

  lemma MadeKeepsIndexesIff(d: Dev, r: Dev, b: Shm)
    requires DevOk(d) && IndexesUnique(d) && r.bufs == d.bufs[d.next := b] && r.list == d.list + [d.next]
    ensures IndexesUnique(r) <==> b.offset >= INDEX_MAX || IndexFree(d, b.offset)
  {
    assert forall id: nat :: id in d.bufs ==> BufOk(d, id);
    assert forall id: nat, i: nat :: HasIndex(r, id, i) <==> HasIndex(d, id, i) || (id == d.next && i == b.offset);
    if b.offset < INDEX_MAX && !IndexFree(d, b.offset) {
      var x: nat :| HasIndex(d, x, b.offset);
      assert SameIndex(r, d.next, x) && x != d.next;
    } else {
      forall x: nat, y: nat | SameIndex(r, x, y)
        ensures x == y
      {
        if x != d.next && y != d.next { assert SameIndex(d, x, y); }
      }
    }
  }

  lemma MapKeepsIndexesIff(d: Dev, e: Event, kept: multiset<nat>)
    requires DevOk(d) && IndexesUnique(d) && e.Map?
    ensures IndexesUnique(Step(d, e, kept)) <==> !CutsIntoUse(d, e)
  {
    hide DevOk;
    hide IndexesUnique;
    hide First;
    var r := Step(d, e, kept);
    SearchByIndex(d, e.pgoff);
    if r.list == d.list {
      assert forall id: nat, i: nat :: HasIndex(r, id, i) ==> HasIndex(d, id, i);
      FewerIndexes(d, r);
    } else {
      MadeKeepsIndexesIff(d, r, r.bufs[d.next]);
    }
  }

  lemma CloseKeepsIndexes(d: Dev, start: nat, kept: multiset<nat>)
    requires IndexesUnique(d)
    ensures IndexesUnique(Step(d, Close(start), kept))
  {
    hide IndexesUnique;
    hide First;
    FewerIndexes(d, Step(d, Close(start), kept));
  }

  /** Every event keeps indexes unique, except exactly a request whose index is cut down to one in use. */
  lemma EventKeepsIndexesIff(d: Dev, e: Event, kept: multiset<nat>)
    requires DevOk(d) && IndexesUnique(d)
    ensures IndexesUnique(Step(d, e, kept)) <==> !CutsIntoUse(d, e)
  {
    hide DevOk;
    hide IndexesUnique;
    hide First;
    match e
    case Map(_, _, _, _, _) => MapKeepsIndexesIff(d, e, kept);
    case Close(start) => CloseKeepsIndexes(d, start, kept);
    case Take(_, _, _, _) => FewerIndexes(d, Step(d, e, kept));
    case Give(_) => FewerIndexes(d, Step(d, e, kept));
  }

  /** In any order of events whose indexes fit in 32 bits, an index below 2^31 names at most one buffer. */
  lemma {:induction false} IndexesStayUnique(d: Dev, events: seq<Event>, kept: multiset<nat>)
    requires DevOk(d) && IndexesUnique(d) && kept <= d.ops
    requires forall k :: 0 <= k < |events| && events[k].Map? ==> events[k].pgoff < U32
    ensures IndexesUnique(Steps(d, events, kept))
    decreases |events|
  {
    hide DevOk;
    hide IndexesUnique;
    hide Step;
    if events != [] {
      EventKeepsIndexesIff(d, events[0], kept);
      StepKeepsInv(d, events[0], kept);
      StepKeepsHeld(d, events[0], kept);
      IndexesStayUnique(Step(d, events[0], kept), events[1..], kept);
    }
  }

  /** Two requests whose indexes differ by 2^32 do make two buffers with one index. */
  lemma CutIndexIsReused(a: nat, b: nat, i: nat)
    requires a != INVALID_MAP_ADDR && b != INVALID_MAP_ADDR && i < INDEX_MAX
    ensures var d := Step(EMPTY_DEV, Map(a, i, SZ_4K, true, true), multiset{});
      IndexesUnique(d) && !IndexesUnique(Step(d, Map(b, i + U32, SZ_4K, true, true), multiset{}))
  {
    hide Step;
    hide DevOk;
    EmptyDevInv();
    FirstMappingIsGranted(EMPTY_DEV, a, i, SZ_4K, multiset{});
    StepKeepsInv(EMPTY_DEV, Map(a, i, SZ_4K, true, true), multiset{});
    var d := Step(EMPTY_DEV, Map(a, i, SZ_4K, true, true), multiset{});
    var e := Map(b, i + U32, SZ_4K, true, true);
    assert forall x: nat, j: nat :: HasIndex(d, x, j) ==> x == 0 && j == i;
    assert HasIndex(d, 0, i) && (i + U32) % U32 == i;
    WholePagesAreAligned(SZ_4K);
    EventKeepsIndexesIff(d, e, multiset{});
  }
}
