/**
  Shared memory of one device (core/tc_client_driver.c, core/mem.h): buffers that are mapped, mapped
  again, unmapped and held by calls in any order, with a usage count that decides when they go.
 */
module SharedMem {
  import opened Options
  import opened Octets
  import opened Counting

  /** What a mapping address holds when there is no mapping. */
  const INVALID_MAP_ADDR: nat := U64 - 1
  const SZ_4K: nat := 4096
  const MAILBOX_POOL_SIZE: nat := 0x400000

  datatype Shm = Shm(len: nat, userAddr: nat, userAddrCa: nat, offset: nat, usage: nat)

  /**
    `bufs` are the buffers that exist, `list` the device's list of them. `vmas` are the start addresses of the open
    mappings and `ops` the references that calls hold: both belong to the world around the driver.
   */
  datatype Dev = Dev(bufs: map<nat, Shm>, list: seq<nat>, next: nat, vmas: multiset<nat>, ops: multiset<nat>)

  const EMPTY_DEV: Dev := Dev(map[], [], 0, multiset{}, multiset{})

  function MappedCount(b: Shm): (n: nat)
    ensures n == 0 <==> b.userAddr == INVALID_MAP_ADDR && b.userAddrCa == INVALID_MAP_ADDR
  {
    (if b.userAddr != INVALID_MAP_ADDR then 1 else 0) + (if b.userAddrCa != INVALID_MAP_ADDR then 1 else 0)
  }

  // ----- the offset check of a partial reference

  /** `is_refmem_offset_valid`, in the 64-bit arithmetic it is done in. */
  predicate IsRefmemOffsetValid(len: nat, offset: nat, size: nat) {
    (len + U64 - offset) % U64 >= size && len > offset
  }

  /** The check admits exactly the references that lie inside the buffer, in spite of the wrapping subtraction. */
  lemma OffsetCheckIsExact(len: nat, offset: nat, size: nat)
    requires len < U32 && size < U32 && offset < U64
    ensures IsRefmemOffsetValid(len, offset, size) <==> offset < len && offset + size <= len
  {
  }

  // ----- the index of a buffer

  /** The index is kept in an int and compared as an unsigned long. */
  function StoredOffset(pgoff: nat): nat {
    var low := pgoff % U32;
    if low < 0x8000_0000 then low else low + U64 - U32
  }

  /** The least number of whole pages' bytes that is enough. */
  function Align4K(len: nat): (r: nat)
    ensures r % SZ_4K == 0 && len <= r < len + SZ_4K
  {
    (len + SZ_4K - 1) / SZ_4K * SZ_4K
  }

  /** The first of the buffers `list` that `p` holds of. */
  function First(bufs: map<nat, Shm>, list: seq<nat>, p: Shm -> bool): (r: Option<nat>)
    ensures r.Some? ==> r.value in list && r.value in bufs && p(bufs[r.value])
    ensures r.None? ==> forall id :: id in list && id in bufs ==> !p(bufs[id])
  {
    if list == [] then None
    else if list[0] in bufs && p(bufs[list[0]]) then Some(list[0])
    else First(bufs, list[1..], p)
  }

  lemma {:induction false} FirstIs(bufs: map<nat, Shm>, list: seq<nat>, p: Shm -> bool, i: nat)
    requires i <= |list| && forall j :: 0 <= j < i ==> list[j] !in bufs || !p(bufs[list[j]])
    ensures i == |list| ==> First(bufs, list, p) == None
    ensures i < |list| && list[i] in bufs && p(bufs[list[i]]) ==> First(bufs, list, p) == Some(list[i])
  {
    if i > 0 {
      FirstIs(bufs, list[1..], p, i - 1);
    }
  }

  function AtOffset(pgoff: nat): Shm -> bool { (b: Shm) => b.offset == pgoff }

  function AtStart(start: nat): Shm -> bool { (b: Shm) => b.userAddr == start || b.userAddrCa == start }

  function AtUser(addr: nat): Shm -> bool { (b: Shm) => b.userAddr == addr }

  function AtUserCa(addr: nat): Shm -> bool { (b: Shm) => b.userAddrCa == addr }

  // ----- what is done to buffers

  /** `put_sharemem_struct`, after which the buffer is as `b` says apart from its count. */
  function Put(bufs: map<nat, Shm>, id: nat, b: Shm): map<nat, Shm>
    requires b.usage > 0
  {
    if b.usage == 1 then bufs - {id} else bufs[id := b.(usage := b.usage - 1)]
  }

  /** The buffer with its second mapping. */
  function MappedAgain(d: Dev, id: nat, start: nat): Dev
    requires id in d.bufs
  {
    d.(bufs := d.bufs[id := d.bufs[id].(userAddrCa := start, usage := d.bufs[id].usage + 1)],
       vmas := d.vmas + multiset{start})
  }

  /** `tc_client_mmap`: map the buffer with this index once more, or make it. */
  function Mmap(d: Dev, start: nat, pgoff: nat, len: nat, allocOk: bool, remapOk: bool): (r: (Dev, bool)) {
    match First(d.bufs, d.list, AtOffset(pgoff))
    case Some(id) =>
      var b := d.bufs[id];
      if b.userAddrCa != INVALID_MAP_ADDR || len != b.len || !remapOk then (d, false)
      else (MappedAgain(d, id, start), true)
    case None =>
      if !allocOk || Align4K(len) > MAILBOX_POOL_SIZE || !remapOk then (d, false)
      else (Dev(d.bufs[d.next := Shm(Align4K(len), start, INVALID_MAP_ADDR, StoredOffset(pgoff), 1)],
                d.list + [d.next], d.next + 1, d.vmas + multiset{start}, d.ops), true)
  }

  function Without(s: seq<nat>, x: nat): (r: seq<nat>)
    ensures forall y :: y in r <==> y in s && y != x
  {
    if s == [] then [] else if s[0] == x then Without(s[1..], x) else [s[0]] + Without(s[1..], x)
  }

  function Unmapped(b: Shm, start: nat): Shm {
    if b.userAddr == start then b.(userAddr := INVALID_MAP_ADDR) else b.(userAddrCa := INVALID_MAP_ADDR)
  }

  /** `release_vma_shared_mem` */
  function Unmap(d: Dev, start: nat): (r: Dev) {
    match First(d.bufs, d.list, AtStart(start))
    case None => d.(vmas := d.vmas - multiset{start})
    case Some(id) =>
      var b := Unmapped(d.bufs[id], start);
      d.(bufs := if b.usage == 0 then d.bufs else Put(d.bufs, id, b),
         list := if MappedCount(b) == 0 then Without(d.list, id) else d.list,
         vmas := d.vmas - multiset{start})
  }

  /** The locked part of `alloc_for_ref_mem`: a call takes a reference to the buffer it names. */
  function GetOp(d: Dev, buffer: nat, offset: nat, size: nat, copyOk: bool): (r: (Dev, Option<nat>)) {
    match First(d.bufs, d.list, AtUser(buffer))
    case None => (d, None)
    case Some(id) =>
      var b := d.bufs[id];
      if !IsRefmemOffsetValid(b.len, offset, size) || !copyOk then (d, None)
      else (Got(d, id), Some(id))
  }

  /** `get_sharemem_struct` by a call. */
  function Got(d: Dev, id: nat): (r: Dev)
    requires id in d.bufs
  {
    d.(bufs := d.bufs[id := d.bufs[id].(usage := d.bufs[id].usage + 1)], ops := d.ops + multiset{id})
  }

  /** A call gives up one of its references. */
  function PutOp(d: Dev, id: nat): (r: Dev)
    requires id in d.bufs && d.bufs[id].usage > 0
  {
    d.(bufs := Put(d.bufs, id, d.bufs[id]), ops := d.ops - multiset{id})
  }

  lemma GetThenPut(bufs: map<nat, Shm>, id: nat)
    requires id in bufs && bufs[id].usage > 0
    ensures var b := bufs[id].(usage := bufs[id].usage + 1); Put(bufs[id := b], id, b) == bufs
  {
  }

  // ----- the invariant

  ghost predicate NoRepeats(s: seq<nat>) {
    forall i, j :: 0 <= i < j < |s| ==> s[i] != s[j]
  }

  /** The count is the number of mappings and of references held; a mapped buffer is on the list, no other is. */
  ghost predicate BufOk(d: Dev, id: nat)
    requires id in d.bufs
  {
    id < d.next && d.bufs[id].len <= MAILBOX_POOL_SIZE &&
    d.bufs[id].usage == MappedCount(d.bufs[id]) + d.ops[id] && d.bufs[id].usage > 0 &&
    (id in d.list <==> MappedCount(d.bufs[id]) > 0)
  }

  ghost function MappedAt(bufs: map<nat, Shm>, a: nat): nat {
    Count(bufs, AtUser(a)) + Count(bufs, AtUserCa(a))
  }

  /** Every open mapping is known to one buffer, and buffers know of no other. */
  ghost predicate MappingsOk(d: Dev) {
    forall a: nat :: a != INVALID_MAP_ADDR ==> MappedAt(d.bufs, a) == d.vmas[a]
  }

  ghost predicate DevOk(d: Dev) {
    NoRepeats(d.list) && (forall id :: id in d.list ==> id in d.bufs) && (forall id :: id in d.bufs ==> BufOk(d, id)) &&
    (forall id :: id in d.ops ==> id in d.bufs) && INVALID_MAP_ADDR !in d.vmas && MappingsOk(d)
  }

  lemma ReplaceMappings(bufs: map<nat, Shm>, id: nat, b: Shm, a: nat)
    requires id in bufs
    ensures MappedAt(bufs[id := b], a) + One(bufs[id].userAddr == a) + One(bufs[id].userAddrCa == a) ==
      MappedAt(bufs, a) + One(b.userAddr == a) + One(b.userAddrCa == a)
  {
    CountReplace(bufs, id, b, AtUser(a));
    CountReplace(bufs, id, b, AtUserCa(a));
  }

  lemma RemoveMappings(bufs: map<nat, Shm>, id: nat, a: nat)
    requires id in bufs
    ensures MappedAt(bufs - {id}, a) + One(bufs[id].userAddr == a) + One(bufs[id].userAddrCa == a) == MappedAt(bufs, a)
  {
    CountRemove(bufs, id, AtUser(a));
    CountRemove(bufs, id, AtUserCa(a));
  }

  lemma AddMappings(bufs: map<nat, Shm>, id: nat, b: Shm, a: nat)
    requires id !in bufs
    ensures MappedAt(bufs[id := b], a) == MappedAt(bufs, a) + One(b.userAddr == a) + One(b.userAddrCa == a)
  {
    CountAdd(bufs, id, b, AtUser(a));
    CountAdd(bufs, id, b, AtUserCa(a));
  }

  /**
    Putting away a buffer whose fields say `b` moves the mappings as writing `b` would, once `b` has none when it goes.
   */
  lemma PutMappings(bufs: map<nat, Shm>, id: nat, b: Shm, a: nat)
    requires id in bufs && b.usage > 0 && (b.usage == 1 ==> MappedCount(b) == 0) && a != INVALID_MAP_ADDR
    ensures MappedAt(Put(bufs, id, b), a) + One(bufs[id].userAddr == a) + One(bufs[id].userAddrCa == a) ==
      MappedAt(bufs, a) + One(b.userAddr == a) + One(b.userAddrCa == a)
  {
    if b.usage == 1 {
      RemoveMappings(bufs, id, a);
    } else {
      ReplaceMappings(bufs, id, b.(usage := b.usage - 1), a);
    }
  }

  // ----- every operation keeps it

  lemma MmapKeepsInv(d: Dev, start: nat, pgoff: nat, len: nat, allocOk: bool, remapOk: bool)
    requires DevOk(d) && start != INVALID_MAP_ADDR
    ensures DevOk(Mmap(d, start, pgoff, len, allocOk, remapOk).0)
  {
    hide DevOk;
    hide First;
    hide Align4K;
    hide StoredOffset;
    var (r, ok) := Mmap(d, start, pgoff, len, allocOk, remapOk);
    var f := First(d.bufs, d.list, AtOffset(pgoff));
    if ok && f.Some? {
      RemapKeepsInv(d, f.value, start);
    } else if ok {
      MakeKeepsInv(d, Shm(Align4K(len), start, INVALID_MAP_ADDR, StoredOffset(pgoff), 1), start, r);
    }
  }

  lemma MakeKeepsInv(d: Dev, b: Shm, start: nat, r: Dev)
    requires DevOk(d) && start != INVALID_MAP_ADDR && b.len <= MAILBOX_POOL_SIZE && b.usage == 1
    requires b.userAddr == start && b.userAddrCa == INVALID_MAP_ADDR
    requires r == Dev(d.bufs[d.next := b], d.list + [d.next], d.next + 1, d.vmas + multiset{start}, d.ops)
    ensures DevOk(r)
  {
    hide MappingsOk;
    assert d.next !in d.bufs && d.next !in d.ops && d.next !in d.list;
    MakeMappings(d, b, start, r);
    assert NoRepeats(r.list);
    assert MappedCount(b) == 1;
    forall id | id in r.bufs
      ensures BufOk(r, id)
    {
      assert id != d.next ==> BufOk(d, id) && r.bufs[id] == d.bufs[id];
    }
  }

  lemma MakeMappings(d: Dev, b: Shm, start: nat, r: Dev)
    requires MappingsOk(d) && d.next !in d.bufs && start != INVALID_MAP_ADDR
    requires b.userAddr == start && b.userAddrCa == INVALID_MAP_ADDR
    requires r.bufs == d.bufs[d.next := b] && r.vmas == d.vmas + multiset{start}
    ensures MappingsOk(r)
  {
    hide MappedAt;
    forall a: nat | a != INVALID_MAP_ADDR
      ensures MappedAt(r.bufs, a) == r.vmas[a]
    {
      assert MappedAt(d.bufs, a) == d.vmas[a];
      AddMappings(d.bufs, d.next, b, a);
    }
  }

  lemma RemapKeepsInv(d: Dev, id: nat, start: nat)
    requires DevOk(d) && start != INVALID_MAP_ADDR && id in d.list && d.bufs[id].userAddrCa == INVALID_MAP_ADDR
    ensures DevOk(MappedAgain(d, id, start))
  {
    hide MappingsOk;
    var r := MappedAgain(d, id, start);
    RemapMappings(d, id, start);
    forall x | x in r.bufs
      ensures BufOk(r, x)
    {
      assert BufOk(d, x);
    }
  }

  lemma RemapMappings(d: Dev, id: nat, start: nat)
    requires MappingsOk(d) && start != INVALID_MAP_ADDR && id in d.bufs && d.bufs[id].userAddrCa == INVALID_MAP_ADDR
    ensures MappingsOk(MappedAgain(d, id, start))
  {
    hide MappedAt;
    var r := MappedAgain(d, id, start);
    forall a: nat | a != INVALID_MAP_ADDR
      ensures MappedAt(r.bufs, a) == r.vmas[a]
    {
      assert MappedAt(d.bufs, a) == d.vmas[a];
      ReplaceMappings(d.bufs, id, r.bufs[id], a);
    }
  }

  lemma {:induction false} WithoutKeepsOrder(s: seq<nat>, x: nat)
    requires NoRepeats(s)
    ensures NoRepeats(Without(s, x))
  {
    if s != [] {
      assert forall i, j :: 0 <= i < j < |s[1..]| ==> s[1..][i] == s[i + 1] && s[1..][j] == s[j + 1];
      WithoutKeepsOrder(s[1..], x);
      assert s[0] !in s[1..];
    }
  }

  /** An open mapping is found, so closing it always gives up one count. */
  lemma OpenMappingIsFound(d: Dev, start: nat)
    requires DevOk(d) && start in d.vmas
    ensures First(d.bufs, d.list, AtStart(start)).Some?
  {
    assert MappedAt(d.bufs, start) == d.vmas[start] > 0;
    var id;
    if Count(d.bufs, AtUser(start)) > 0 {
      id := CountWitness(d.bufs, AtUser(start));
    } else {
      id := CountWitness(d.bufs, AtUserCa(start));
    }
    assert BufOk(d, id);
    assert AtStart(start)(d.bufs[id]);
  }

  lemma UnmapKeepsInv(d: Dev, start: nat)
    requires DevOk(d) && start in d.vmas
    ensures DevOk(Unmap(d, start))
  {
    hide MappingsOk;
    hide First;
    OpenMappingIsFound(d, start);
    var id := First(d.bufs, d.list, AtStart(start)).value;
    var b := Unmapped(d.bufs[id], start);
    assert BufOk(d, id) && AtStart(start)(d.bufs[id]);
    assert MappedCount(b) + 1 == MappedCount(d.bufs[id]);
    var r := Unmap(d, start);
    WithoutKeepsOrder(d.list, id);
    UnmapMappings(d, id, start, r);
    forall x | x in r.bufs
      ensures BufOk(r, x)
    {
      assert BufOk(d, x);
    }
  }

  lemma UnmapMappings(d: Dev, id: nat, start: nat, r: Dev)
    requires MappingsOk(d) && start in d.vmas && start != INVALID_MAP_ADDR
    requires id in d.bufs && AtStart(start)(d.bufs[id])
    requires d.bufs[id].usage > 0 && (d.bufs[id].usage == 1 ==> MappedCount(Unmapped(d.bufs[id], start)) == 0)
    requires r.bufs == Put(d.bufs, id, Unmapped(d.bufs[id], start)) && r.vmas == d.vmas - multiset{start}
    ensures MappingsOk(r)
  {
    hide MappedAt;
    var b := Unmapped(d.bufs[id], start);
    forall a: nat | a != INVALID_MAP_ADDR
      ensures MappedAt(r.bufs, a) == r.vmas[a]
    {
      assert MappedAt(d.bufs, a) == d.vmas[a];
      PutMappings(d.bufs, id, b, a);
    }
  }

  lemma GotKeepsInv(d: Dev, id: nat)
    requires DevOk(d) && id in d.bufs
    ensures DevOk(Got(d, id))
  {
    var r := Got(d, id);
    forall a: nat | a != INVALID_MAP_ADDR
      ensures MappedAt(r.bufs, a) == r.vmas[a]
    {
      ReplaceMappings(d.bufs, id, r.bufs[id], a);
    }
    forall x | x in r.bufs
      ensures BufOk(r, x)
    {
      assert BufOk(d, x);
    }
  }

  lemma GetOpKeepsInv(d: Dev, buffer: nat, offset: nat, size: nat, copyOk: bool)
    requires DevOk(d)
    ensures var (r, got) := GetOp(d, buffer, offset, size, copyOk);
      DevOk(r) && (got.None? ==> r == d) && (got.Some? ==> r.ops == d.ops + multiset{got.value} && got.value in d.bufs)
  {
    var (r, got) := GetOp(d, buffer, offset, size, copyOk);
    if got.Some? {
      GotKeepsInv(d, got.value);
    }
  }

  /**
    A call gets a reference exactly when the first buffer mapped at its address has all the bytes it names;
    the buffer is then counted for the call and stays until the call gives it up.
   */
  lemma ReferencesLieInside(d: Dev, buffer: nat, offset: nat, size: nat)
    requires DevOk(d) && size < U32 && offset < U64
    ensures var found, got := First(d.bufs, d.list, AtUser(buffer)), GetOp(d, buffer, offset, size, true).1;
      (got.Some? <==> found.Some? && offset < d.bufs[found.value].len && offset + size <= d.bufs[found.value].len) &&
      (got.Some? ==> got == found && got.value in d.list && d.bufs[got.value].userAddr == buffer)
    ensures GetOp(d, buffer, offset, size, false) == (d, None)
  {
    var found := First(d.bufs, d.list, AtUser(buffer));
    if found.Some? {
      assert BufOk(d, found.value);
      OffsetCheckIsExact(d.bufs[found.value].len, offset, size);
    }
  }

  lemma PutOpKeepsInv(d: Dev, id: nat)
    requires DevOk(d) && id in d.ops
    ensures id in d.bufs && d.bufs[id].usage > 0 && DevOk(PutOp(d, id))
  {
    assert BufOk(d, id);
    var r := PutOp(d, id);
    forall a: nat | a != INVALID_MAP_ADDR
      ensures MappedAt(r.bufs, a) == r.vmas[a]
    {
      PutMappings(d.bufs, id, d.bufs[id], a);
    }
    forall x | x in r.bufs
      ensures BufOk(r, x)
    {
      assert BufOk(d, x);
    }
  }

  // ----- any order of operations

  datatype Event =
    | Map(start: nat, pgoff: nat, len: nat, allocOk: bool, remapOk: bool)
    | Close(start: nat)
    | Take(buffer: nat, offset: nat, size: nat, copyOk: bool)
    | Give(id: nat)

  /** Only open mappings are closed, and only references that are held, apart from `kept`, are given up. */
  predicate Enabled(d: Dev, e: Event, kept: multiset<nat>) {
    match e
    case Map(start, _, _, _, _) => start != INVALID_MAP_ADDR
    case Close(start) => start in d.vmas
    case Take(_, _, _, _) => true
    case Give(id) => id in d.ops - kept && id in d.bufs && d.bufs[id].usage > 0
  }

  function Step(d: Dev, e: Event, kept: multiset<nat>): (r: Dev) {
    if !Enabled(d, e, kept) then d
    else match e
      case Map(start, pgoff, len, allocOk, remapOk) => Mmap(d, start, pgoff, len, allocOk, remapOk).0
      case Close(start) => Unmap(d, start)
      case Take(buffer, offset, size, copyOk) => GetOp(d, buffer, offset, size, copyOk).0
      case Give(id) => PutOp(d, id)
  }

  /** What others do while the holder of `kept` does nothing. */
  function Steps(d: Dev, events: seq<Event>, kept: multiset<nat>): (r: Dev)
    decreases |events|
  {
    if events == [] then d else Steps(Step(d, events[0], kept), events[1..], kept)
  }

  lemma StepKeepsInv(d: Dev, e: Event, kept: multiset<nat>)
    requires DevOk(d)
    ensures DevOk(Step(d, e, kept))
  {
    if Enabled(d, e, kept) {
      match e
      case Map(start, pgoff, len, allocOk, remapOk) => MmapKeepsInv(d, start, pgoff, len, allocOk, remapOk);
      case Close(start) => UnmapKeepsInv(d, start);
      case Take(buffer, offset, size, copyOk) => GetOpKeepsInv(d, buffer, offset, size, copyOk);
      case Give(id) => PutOpKeepsInv(d, id);
    }
  }

  lemma StepKeepsHeld(d: Dev, e: Event, kept: multiset<nat>)
    requires kept <= d.ops
    ensures kept <= Step(d, e, kept).ops
  {
  }

  lemma {:induction false} StepsKeepInv(d: Dev, events: seq<Event>, kept: multiset<nat>)
    requires DevOk(d) && kept <= d.ops
    ensures DevOk(Steps(d, events, kept)) && kept <= Steps(d, events, kept).ops
    decreases |events|
  {
    if events != [] {
      StepKeepsInv(d, events[0], kept);
      StepKeepsHeld(d, events[0], kept);
      StepsKeepInv(Step(d, events[0], kept), events[1..], kept);
    }
  }

  lemma EmptyDevInv()
    ensures DevOk(EMPTY_DEV)
  {
    forall a: nat
      ensures MappedAt(EMPTY_DEV.bufs, a) == EMPTY_DEV.vmas[a]
    {
      CountZero(EMPTY_DEV.bufs, AtUser(a));
      CountZero(EMPTY_DEV.bufs, AtUserCa(a));
    }
  }

  /**
    In any order of map, map again, unmap, take and give: the count of every buffer is the number of its mappings
    (0 to 2) plus the references held to it, it is on the list iff it is mapped, and its count is never zero.
   */
  lemma UsageIsExact(events: seq<Event>, id: nat)
    ensures var d := Steps(EMPTY_DEV, events, multiset{});
      (id in d.bufs ==>
        d.bufs[id].usage == MappedCount(d.bufs[id]) + d.ops[id] > 0 && MappedCount(d.bufs[id]) <= 2 &&
        (id in d.list <==> MappedCount(d.bufs[id]) > 0)) &&
      (id !in d.bufs ==> id !in d.list && id !in d.ops)
  {
    EmptyDevInv();
    StepsKeepInv(EMPTY_DEV, events, multiset{});
    var d := Steps(EMPTY_DEV, events, multiset{});
    assert id in d.bufs ==> BufOk(d, id);
  }

  /** Nothing leaks: once every mapping is closed and every call is over, no buffer is left. */
  lemma NothingLeaks(events: seq<Event>)
    ensures var d := Steps(EMPTY_DEV, events, multiset{});
      d.vmas == multiset{} && d.ops == multiset{} ==> d.bufs == map[] && d.list == []
  {
    EmptyDevInv();
    StepsKeepInv(EMPTY_DEV, events, multiset{});
    var d := Steps(EMPTY_DEV, events, multiset{});
    forall id | id in d.bufs
      ensures id in d.ops || d.bufs[id].userAddr in d.vmas || d.bufs[id].userAddrCa in d.vmas
    {
      BufferIsReferenced(d, id);
    }
    assert d.list != [] ==> d.list[0] in d.bufs;
  }

  lemma BufferIsReferenced(d: Dev, id: nat)
    requires DevOk(d) && id in d.bufs
    ensures id in d.ops || d.bufs[id].userAddr in d.vmas || d.bufs[id].userAddrCa in d.vmas
  {
    var b := d.bufs[id];
    assert BufOk(d, id);
    CountPositive(d.bufs, id, AtUser(b.userAddr));
    CountPositive(d.bufs, id, AtUserCa(b.userAddrCa));
    assert b.userAddr != INVALID_MAP_ADDR ==> MappedAt(d.bufs, b.userAddr) == d.vmas[b.userAddr];
    assert b.userAddrCa != INVALID_MAP_ADDR ==> MappedAt(d.bufs, b.userAddrCa) == d.vmas[b.userAddrCa];
  }

  /** The event takes away a mapping of the buffer, or a reference to it. */
  predicate Releases(d: Dev, e: Event, kept: multiset<nat>, id: nat) {
    Enabled(d, e, kept) && (e == Give(id) || (e.Close? && First(d.bufs, d.list, AtStart(e.start)) == Some(id)))
  }

  /** A buffer goes in the very step that takes away its last mapping or reference, and its name is never used again. */
  lemma FreedWhenLastReferenceGoes(d: Dev, e: Event, kept: multiset<nat>, id: nat)
    requires DevOk(d) && id in d.bufs
    ensures id !in Step(d, e, kept).bufs <==> Releases(d, e, kept, id) && d.bufs[id].usage == 1
    ensures d.next <= Step(d, e, kept).next && id < d.next
  {
    hide First;
    hide MappingsOk;
    hide Align4K;
    hide StoredOffset;
    hide IsRefmemOffsetValid;
    assert BufOk(d, id);
    match e
    case Map(start, pgoff, len, allocOk, remapOk) =>
    case Take(buffer, offset, size, copyOk) =>
    case Close(start) => CloseFrees(d, start, id);
    case Give(x) =>
  }

  lemma CloseFrees(d: Dev, start: nat, id: nat)
    requires DevOk(d) && id in d.bufs
    ensures start in d.vmas ==>
      (id !in Unmap(d, start).bufs <==> First(d.bufs, d.list, AtStart(start)) == Some(id) && d.bufs[id].usage == 1)
  {
    if start in d.vmas {
      OpenMappingIsFound(d, start);
      assert BufOk(d, First(d.bufs, d.list, AtStart(start)).value);
    }
  }

  // ----- the device

  class SharedMemDev {
    var bufs: map<nat, Shm>
    var list: seq<nat>
    var next: nat
    var vmas: multiset<nat>
    var ops: multiset<nat>

    function Val(): Dev
      reads this
    {
      Dev(bufs, list, next, vmas, ops)
    }

    constructor ()
      ensures Val() == EMPTY_DEV && DevOk(Val())
    {
      bufs, list, next, vmas, ops := map[], [], 0, multiset{}, multiset{};
      new;
      EmptyDevInv();
    }

    /** The search of `find_sharedmem`. */
    method FindOffset(pgoff: nat) returns (found: Option<nat>)
      ensures found == First(bufs, list, AtOffset(pgoff))
    {
      var i := 0;
      while i < |list|
        invariant i <= |list| && forall j :: 0 <= j < i ==> list[j] !in bufs || !AtOffset(pgoff)(bufs[list[j]])
      {
        FirstIs(bufs, list, AtOffset(pgoff), i);
        if list[i] in bufs && bufs[list[i]].offset == pgoff {
          return Some(list[i]);
        }
        i := i + 1;
      }
      FirstIs(bufs, list, AtOffset(pgoff), i);
      found := None;
    }

    /** The second mapping of a buffer, which gives up its count again when it fails. */
    method Remap(id: nat, start: nat, remapOk: bool)
      requires id in bufs && bufs[id].usage > 0
      modifies this
      ensures Val() == if !remapOk then old(Val()) else old(Val()).(
        bufs := old(bufs)[id := old(bufs)[id].(userAddrCa := start, usage := old(bufs)[id].usage + 1)],
        vmas := old(vmas) + multiset{start})
    {
      GetThenPut(bufs, id);
      bufs := bufs[id := bufs[id].(usage := bufs[id].usage + 1)];
      if !remapOk {
        bufs := Put(bufs, id, bufs[id]);
        return;
      }
      bufs, vmas := bufs[id := bufs[id].(userAddrCa := start)], vmas + multiset{start};
    }

    /** `tc_client_mmap` */
    method ClientMmap(start: nat, pgoff: nat, len: nat, allocOk: bool, remapOk: bool) returns (ok: bool)
      requires DevOk(Val())
      modifies this
      ensures (Val(), ok) == Mmap(old(Val()), start, pgoff, len, allocOk, remapOk)
    {
      ok := false;
      var found := FindOffset(pgoff);
      if found.Some? {
        var id := found.value;
        if bufs[id].userAddrCa != INVALID_MAP_ADDR || len != bufs[id].len {
          return;
        }
        assert BufOk(Val(), id);
        Remap(id, start, remapOk);
        return remapOk;
      }
      if !allocOk || Align4K(len) > MAILBOX_POOL_SIZE || !remapOk {
        return;
      }
      var b := Shm(Align4K(len), INVALID_MAP_ADDR, INVALID_MAP_ADDR, 0, 0);
      b := b.(userAddr := start, offset := StoredOffset(pgoff), usage := b.usage + 1);
      bufs, list, next, vmas := bufs[next := b], list + [next], next + 1, vmas + multiset{start};
      ok := true;
    }

    /** The loop of `release_vma_shared_mem`: every buffer on the way is also looked at for having no mapping left. */
    method ReleaseFirst(start: nat) returns (find: bool)
      requires forall id :: id in list ==> id in bufs && bufs[id].usage > 0 && MappedCount(bufs[id]) > 0
      modifies this
      ensures find <==> First(old(bufs), old(list), AtStart(start)).Some?
      ensures Val() == Unmap(old(Val()), start).(vmas := old(vmas))
    {
      var i := 0;
      while i < |list|
        invariant i <= |list| && Val() == old(Val())
        invariant forall j :: 0 <= j < i ==> !AtStart(start)(bufs[list[j]])
      {
        var id := list[i];
        FirstIs(bufs, list, AtStart(start), i);
        var b := bufs[id];
        find := AtStart(start)(b);
        if find {
          b := Unmapped(b, start);
        }
        if b.userAddr == INVALID_MAP_ADDR && b.userAddrCa == INVALID_MAP_ADDR {
          list := Without(list, id);
        }
        if find {
          bufs := Put(bufs, id, b);
          return;
        }
        i := i + 1;
      }
      FirstIs(bufs, list, AtStart(start), i);
      find := false;
    }

    /** `release_vma_shared_mem`: the close of a mapping of this device. */
    method ReleaseVma(start: nat)
      requires DevOk(Val()) && start in vmas
      modifies this
      ensures Val() == Unmap(old(Val()), start) && DevOk(Val())
    {
      hide First;
      hide MappingsOk;
      UnmapKeepsInv(Val(), start);
      forall id | id in list
        ensures id in bufs && bufs[id].usage > 0 && MappedCount(bufs[id]) > 0
      {
        assert BufOk(Val(), id);
      }
      var _ := ReleaseFirst(start);
      vmas := vmas - multiset{start};
    }

    /** The search of `alloc_for_ref_mem`. */
    method FindUser(buffer: nat) returns (found: Option<nat>)
      ensures found == First(bufs, list, AtUser(buffer))
    {
      var i := 0;
      while i < |list|
        invariant i <= |list| && forall j :: 0 <= j < i ==> list[j] !in bufs || !AtUser(buffer)(bufs[list[j]])
      {
        FirstIs(bufs, list, AtUser(buffer), i);
        if list[i] in bufs && bufs[list[i]].userAddr == buffer {
          return Some(list[i]);
        }
        i := i + 1;
      }
      FirstIs(bufs, list, AtUser(buffer), i);
      found := None;
    }

    /** `get_sharemem_struct` by a call. */
    method Get(id: nat)
      requires DevOk(Val()) && id in bufs
      modifies this
      ensures Val() == Got(old(Val()), id) && DevOk(Val())
    {
      GotKeepsInv(Val(), id);
      bufs, ops := bufs[id := bufs[id].(usage := bufs[id].usage + 1)], ops + multiset{id};
    }

    /** `put_sharemem_struct` at the end of a call. */
    method Drop(id: nat)
      requires DevOk(Val()) && id in ops
      modifies this
      ensures id in old(bufs) && old(bufs)[id].usage > 0 && Val() == PutOp(old(Val()), id) && DevOk(Val())
    {
      PutOpKeepsInv(Val(), id);
      bufs, ops := Put(bufs, id, bufs[id]), ops - multiset{id};
    }
  }
}
