/**
  The resumable log reader (tlogger/tlogger.c): the loops over the ring buffer, the reader
  position updated in place, and what a sequence of reads of one ring snapshot delivers.
 */
module LogReader {
  import opened Options
  import opened Octets
  import opened LogItems

  /** The ring as one read finds it: `memLen` is what the mapped memory leaves for the ring. */
  datatype Ring = Ring(buf: seq<byte>, memLen: nat, lastPos: nat, writeLoops: nat, maxLen: nat)

  const LOG_BUFFER_MAX_LEN: nat := 0x100000

  /** The checks of `get_last_read_pos` that do not depend on the reader, and the memory behind the ring. */
  predicate RingOk(g: Ring) {
    g.memLen <= LOG_BUFFER_MAX_LEN && g.lastPos <= g.maxLen <= g.memLen <= |g.buf| && g.writeLoops < U32
  }

  // ----- one read, as a function

  datatype Position = Position(off: nat, loops: nat)

  datatype Outcome = Invalid | UpToDate | NoItem | Data(items: seq<Item>)

  /** A reader the writer has overtaken is moved to the oldest data. */
  function CatchUp(g: Ring, r: Position): (q: Position) {
    if g.writeLoops > (r.loops + 1) % U32 || (g.writeLoops == (r.loops + 1) % U32 && r.off < g.lastPos)
    then Position(g.lastPos, (g.writeLoops + U32 - 1) % U32) else r
  }

  function Delivered(items: seq<Item>): (o: Outcome)
    ensures OutcomeItems(o) == items
  {
    if items == [] then NoItem else Data(items)
  }

  function OutcomeItems(o: Outcome): seq<Item> {
    if o.Data? then o.items else []
  }

  /** The pass over the part of the ring before the wrap. */
  function FirstPass(g: Ring, r: Position, count: nat): Pass {
    Parse(MarksOf(g.buf), CatchUp(g, r).off, g.maxLen, count)
  }

  /** `trigger_parse_log` */
  function ReadRing(g: Ring, r: Position, count: nat): (res: (Position, Outcome)) {
    if g.writeLoops == r.loops then
      var a := Parse(MarksOf(g.buf), r.off, g.lastPos, count);
      (Position(a.off, r.loops), Delivered(a.items))
    else
      var a := FirstPass(g, r, count);
      if count > Size(a.items) && a.left then
        var b := Parse(MarksOf(g.buf), 0, g.lastPos, count - Size(a.items));
        (Position(b.off, g.writeLoops), Delivered(a.items + b.items))
      else
        (Position(a.off, CatchUp(g, r).loops), Delivered(a.items))
  }

  /** `process_tlogger_read` */
  function Read(g: Ring, r: Position, count: nat): (res: (Position, Outcome)) {
    if count < LOG_ITEM_MAX_LEN || g.memLen > LOG_BUFFER_MAX_LEN then (r, Invalid)
    else if g.lastPos == r.off && g.writeLoops == r.loops then (r, UpToDate)
    else if g.maxLen < g.lastPos || g.maxLen > g.memLen || r.off > g.maxLen then (r, Invalid)
    else ReadRing(g, r, count)
  }

  // ----- what there is to read

  predicate InRing(g: Ring, r: Position) {
    r.off <= g.maxLen && r.loops < U32
  }

  /** How many loops the writer is ahead, counted in 32 bits. */
  function LoopsAhead(g: Ring, r: Position): nat {
    (g.writeLoops - r.loops) % U32
  }

  /** The writer has passed the reader's position: what was there is overwritten. */
  predicate Overtaken(g: Ring, r: Position) {
    LoopsAhead(g, r) > 1 || (LoopsAhead(g, r) == 1 && r.off < g.lastPos)
  }

  /** The loop counter has started from 0 again since, and the reader was not in the last loop before that. */
  predicate CounterRestarted(g: Ring, r: Position) {
    g.writeLoops < r.loops && r.loops + 1 < U32
  }

  /** What one scan of the whole ring finds, oldest data first. */
  function Available(g: Ring): (items: seq<Item>) {
    Scan(MarksOf(g.buf), g.lastPos, g.maxLen) + Scan(MarksOf(g.buf), 0, g.lastPos)
  }

  /**
    What one scan of the unread part of the ring finds: from the reader on to the writer, or all that is available if
    the writer has overtaken the reader and the loop counts show it.
   */
  function Unread(g: Ring, r: Position): (items: seq<Item>) {
    if g.writeLoops == r.loops then Scan(MarksOf(g.buf), r.off, g.lastPos)
    else if Overtaken(g, r) && !CounterRestarted(g, r) then Available(g)
    else Scan(MarksOf(g.buf), r.off, g.maxLen) + Scan(MarksOf(g.buf), 0, g.lastPos)
  }

  /** A read starts where the unread part does. */
  lemma CatchUpFindsUnread(g: Ring, r: Position)
    requires g.writeLoops < U32 && r.loops < U32 && g.writeLoops != r.loops
    ensures Unread(g, r) == Scan(MarksOf(g.buf), CatchUp(g, r).off, g.maxLen) + Scan(MarksOf(g.buf), 0, g.lastPos)
    ensures CatchUp(g, r).loops < U32
  {
    hide Scan;
    hide MarksOf;
    if g.writeLoops > r.loops {
      assert LoopsAhead(g, r) == g.writeLoops - r.loops && (r.loops + 1) % U32 == r.loops + 1;
    } else if r.loops + 1 == U32 {
      assert LoopsAhead(g, r) == g.writeLoops + 1 && (r.loops + 1) % U32 == 0;
    } else {
      assert CounterRestarted(g, r) && (r.loops + 1) % U32 == r.loops + 1;
    }
  }

  /**
    An overtaken reader gets all that is available, unless the loop counter has started from 0 again: in every ring with
    items behind the writer's position there is then a reader that never gets them.
   */
  lemma OvertakenGetsAllIffNotRestarted(g: Ring, r: Position)
    requires RingOk(g) && r.loops < U32 && g.writeLoops != r.loops && Overtaken(g, r)
    ensures !CounterRestarted(g, r) ==> Unread(g, r) == Available(g)
    ensures CounterRestarted(g, r) && Scan(MarksOf(g.buf), g.lastPos, g.maxLen) != [] ==>
      Overtaken(g, Position(g.maxLen, r.loops)) && Unread(g, Position(g.maxLen, r.loops)) != Available(g)
  {
    if CounterRestarted(g, r) {
      assert LoopsAhead(g, r) == g.writeLoops + U32 - r.loops;
      assert Scan(MarksOf(g.buf), g.maxLen, g.maxLen) == [];
      assert |Unread(g, Position(g.maxLen, r.loops))| == |Scan(MarksOf(g.buf), 0, g.lastPos)|;
    }
  }

  /** Catching up once is enough, and reading on does not undo it. */
  lemma CatchUpIsStable(g: Ring, r: Position, off: nat)
    requires RingOk(g) && r.loops < U32 && g.writeLoops != r.loops && CatchUp(g, r).off <= off
    ensures var q := CatchUp(g, r);
      g.writeLoops != q.loops && q.loops < U32 && CatchUp(g, Position(off, q.loops)) == Position(off, q.loops)
  {
  }


  lemma EmptyPass(m: Marks, off: nat, end: nat, count: nat)
    requires off >= end
    ensures Parse(m, off, end, count).off == off
  {
  }

  /** A read delivers the first part of what is unread and leaves the reader at the rest. */
  lemma ReadTakesPrefix(g: Ring, r: Position, count: nat)
    requires RingOk(g) && InRing(g, r)
    ensures var (q, o) := Read(g, r, count); Unread(g, r) == OutcomeItems(o) + Unread(g, q) && InRing(g, q)
  {
    hide Parse;
    hide Scan;
    hide MarksOf;
    hide CatchUp;
    hide Overtaken;
    hide CounterRestarted;
    var m := MarksOf(g.buf);
    if count < LOG_ITEM_MAX_LEN || (g.lastPos == r.off && g.writeLoops == r.loops) {
      assert Unread(g, r) == [] + Unread(g, r);
    } else if g.writeLoops == r.loops {
      ParseIsPrefixOfScan(m, r.off, g.lastPos, count);
      ParseFits(m, r.off, g.lastPos, count);
      if r.off >= g.lastPos { EmptyPass(m, r.off, g.lastPos, count); }
    } else {
      WrappedReadTakesPrefix(g, r, count);
    }
  }

  lemma WrappedReadTakesPrefix(g: Ring, r: Position, count: nat)
    requires RingOk(g) && InRing(g, r) && g.writeLoops != r.loops
    ensures var (q, o) := ReadRing(g, r, count); Unread(g, r) == OutcomeItems(o) + Unread(g, q) && InRing(g, q)
  {
    var a := FirstPass(g, r, count);
    if count > Size(a.items) && a.left {
      UnreadPastWrap(g, r, count, count - Size(a.items));
    } else {
      UnreadBeforeWrap(g, r, count);
    }
  }

  lemma UnreadBeforeWrap(g: Ring, r: Position, count: nat)
    requires RingOk(g) && InRing(g, r) && g.writeLoops != r.loops
    ensures var a := FirstPass(g, r, count); var q := Position(a.off, CatchUp(g, r).loops);
      Unread(g, r) == a.items + Unread(g, q) && InRing(g, q)
  {
    var m, c, a := MarksOf(g.buf), CatchUp(g, r), FirstPass(g, r, count);
    ParseIsPrefixOfScan(m, c.off, g.maxLen, count);
    ParseFits(m, c.off, g.maxLen, count);
    CatchUpIsStable(g, r, a.off);
    CatchUpFindsUnread(g, r);
    CatchUpFindsUnread(g, Position(a.off, c.loops));
    Reassociate(a.items, Scan(m, a.off, g.maxLen), Scan(m, 0, g.lastPos));
  }

  lemma UnreadPastWrap(g: Ring, r: Position, count: nat, room: nat)
    requires RingOk(g) && InRing(g, r) && g.writeLoops != r.loops && FirstPass(g, r, count).left
    ensures var a := FirstPass(g, r, count); var b := Parse(MarksOf(g.buf), 0, g.lastPos, room);
      Unread(g, r) == (a.items + b.items) + Unread(g, Position(b.off, g.writeLoops)) && b.off <= g.maxLen
  {
    var m, c, a := MarksOf(g.buf), CatchUp(g, r), FirstPass(g, r, count);
    var b := Parse(m, 0, g.lastPos, room);
    CatchUpFindsUnread(g, r);
    ParseIsPrefixOfScan(m, c.off, g.maxLen, count);
    ParseIsPrefixOfScan(m, 0, g.lastPos, room);
    ParseFits(m, 0, g.lastPos, room);
    assert a.items + [] == a.items;
    Reassociate(a.items, b.items, Scan(m, b.off, g.lastPos));
  }

  /** A read with room for the largest item delivers something while anything is unread, and fits its buffer. */
  lemma ReadMakesProgress(g: Ring, r: Position, count: nat)
    requires RingOk(g) && InRing(g, r) && count >= LOG_ITEM_MAX_LEN
    ensures Unread(g, r) != [] ==> Read(g, r, count).1.Data? && OutcomeItems(Read(g, r, count).1) != []
    ensures Size(OutcomeItems(Read(g, r, count).1)) <= count
    ensures Within(OutcomeItems(Read(g, r, count).1), |g.buf|)
  {
    hide Parse;
    hide Scan;
    hide MarksOf;
    if g.writeLoops == r.loops {
      ProgressSameLoop(g, r, count);
      if g.lastPos == r.off {
        assert Read(g, r, count) == (r, UpToDate);
      } else {
        assert Read(g, r, count) == ReadRing(g, r, count);
      }
    } else {
      assert Read(g, r, count) == ReadRing(g, r, count);
      ProgressWrapped(g, r, count);
    }
  }

  lemma ProgressWrapped(g: Ring, r: Position, count: nat)
    requires RingOk(g) && InRing(g, r) && count >= LOG_ITEM_MAX_LEN && g.writeLoops != r.loops
    ensures Unread(g, r) != [] ==> ReadRing(g, r, count).1.Data? && OutcomeItems(ReadRing(g, r, count).1) != []
    ensures Size(OutcomeItems(ReadRing(g, r, count).1)) <= count
    ensures Within(OutcomeItems(ReadRing(g, r, count).1), |g.buf|)
  {
    hide Parse;
    hide Scan;
    hide MarksOf;
    hide Unread;
    hide CatchUp;
    hide Size;
    var a := FirstPass(g, r, count);
    if count > Size(a.items) && a.left {
      ProgressPastWrap(g, r, count);
    } else {
      ProgressBeforeWrap(g, r, count);
    }
  }

  lemma ProgressSameLoop(g: Ring, r: Position, count: nat)
    requires RingOk(g) && InRing(g, r) && count >= LOG_ITEM_MAX_LEN && g.writeLoops == r.loops
    ensures var items := Parse(MarksOf(g.buf), r.off, g.lastPos, count).items;
      (Unread(g, r) != [] ==> items != [] && g.lastPos != r.off) &&
      Size(items) <= count && Within(items, |g.buf|) && Size([]) == 0
  {
    ParseDelivers(MarksOf(g.buf), r.off, g.lastPos, count);
    ParseFits(MarksOf(g.buf), r.off, g.lastPos, count);
  }

  lemma ProgressBeforeWrap(g: Ring, r: Position, count: nat)
    requires RingOk(g) && InRing(g, r) && count >= LOG_ITEM_MAX_LEN && g.writeLoops != r.loops
    requires var a := FirstPass(g, r, count); !(count > Size(a.items) && a.left)
    ensures var items := FirstPass(g, r, count).items; items != [] && Size(items) <= count && Within(items, |g.buf|)
  {
    var m, c := MarksOf(g.buf), CatchUp(g, r);
    ParseFits(m, c.off, g.maxLen, count);
    ParseDelivers(m, c.off, g.maxLen, count);
  }

  lemma ProgressPastWrap(g: Ring, r: Position, count: nat)
    requires RingOk(g) && InRing(g, r) && count >= LOG_ITEM_MAX_LEN && g.writeLoops != r.loops
    requires var a := FirstPass(g, r, count); count > Size(a.items) && a.left
    ensures var a := FirstPass(g, r, count); var b := Parse(MarksOf(g.buf), 0, g.lastPos, count - Size(a.items));
      (Unread(g, r) != [] ==> a.items + b.items != []) &&
      Size(a.items + b.items) <= count && Within(a.items + b.items, |g.buf|)
  {
    hide Parse;
    hide Scan;
    hide MarksOf;
    var m, c, a := MarksOf(g.buf), CatchUp(g, r), FirstPass(g, r, count);
    var room := count - Size(a.items);
    var b := Parse(m, 0, g.lastPos, room);
    CatchUpFindsUnread(g, r);
    ParseFits(m, c.off, g.maxLen, count);
    ParseFits(m, 0, g.lastPos, room);
    SizeConcat(a.items, b.items);
    ParseDelivers(m, c.off, g.maxLen, count);
    if a.items == [] {
      ParseDelivers(m, 0, g.lastPos, room);
    }
  }

  // ----- a sequence of reads

  /** Everything a sequence of reads delivers, and where it leaves the reader. */
  function ReadAll(g: Ring, r: Position, counts: seq<nat>): (res: (Position, seq<Item>))
    decreases |counts|
  {
    if counts == [] then (r, [])
    else
      var (q, o) := Read(g, r, counts[0]);
      var (e, items) := ReadAll(g, q, counts[1..]);
      (e, OutcomeItems(o) + items)
  }

  /**
    For a fixed ring and any reads with room for the largest item: what they deliver, one after the other, is a prefix
    of the one scan of the unread part, the rest is still unread, and as many reads as there are items deliver all.
   */
  lemma {:induction false} ReadsRefineOneScan(g: Ring, r: Position, counts: seq<nat>)
    requires RingOk(g) && InRing(g, r)
    requires forall i :: 0 <= i < |counts| ==> counts[i] >= LOG_ITEM_MAX_LEN
    ensures var (e, items) := ReadAll(g, r, counts);
      Unread(g, r) == items + Unread(g, e) && InRing(g, e) &&
      (|counts| >= |Unread(g, r)| ==> items == Unread(g, r) && Unread(g, e) == [])
    decreases |counts|
  {
    hide Read;
    hide Unread;
    hide InRing;
    if counts == [] {
      assert [] + Unread(g, r) == Unread(g, r);
    } else {
      var (q, o) := Read(g, r, counts[0]);
      ReadTakesPrefix(g, r, counts[0]);
      ReadMakesProgress(g, r, counts[0]);
      ReadsRefineOneScan(g, q, counts[1..]);
      var (e, items) := ReadAll(g, q, counts[1..]);
      assert OutcomeItems(o) + (items + Unread(g, e)) == (OutcomeItems(o) + items) + Unread(g, e);
    }
  }

  /** The same in bytes: the delivered bytes, concatenated, are the first bytes of the one scan. */
  lemma ReadsDeliverBytesOfScan(g: Ring, r: Position, counts: seq<nat>)
    requires RingOk(g) && InRing(g, r)
    requires forall i :: 0 <= i < |counts| ==> counts[i] >= LOG_ITEM_MAX_LEN
    ensures var (e, items) := ReadAll(g, r, counts);
      Within(Unread(g, r), |g.buf|) && Within(items, |g.buf|) && Within(Unread(g, e), |g.buf|) &&
      Bytes(g.buf, Unread(g, r)) == Bytes(g.buf, items) + Bytes(g.buf, Unread(g, e))
  {
    ReadsRefineOneScan(g, r, counts);
    var (e, items) := ReadAll(g, r, counts);
    UnreadWithin(g, r);
    UnreadWithin(g, e);
    PrefixWithin(items, Unread(g, e), |g.buf|);
    BytesConcat(g.buf, items, Unread(g, e));
  }

  lemma UnreadWithin(g: Ring, r: Position)
    requires RingOk(g) && InRing(g, r)
    ensures Within(Unread(g, r), |g.buf|)
  {
    var m := MarksOf(g.buf);
    ScanWithin(m, r.off, g.lastPos);
    ScanWithin(m, g.lastPos, g.maxLen);
    ScanWithin(m, r.off, g.maxLen);
    ScanWithin(m, 0, g.lastPos);
  }

  lemma PrefixWithin(a: seq<Item>, b: seq<Item>, len: nat)
    requires Within(a + b, len)
    ensures Within(a, len)
  {
    forall i | 0 <= i < |a|
      ensures a[i].pos + a[i].len <= len
    {
      assert a[i] == (a + b)[i];
    }
  }

  // ----- the loops

  /** The scan from `start` has looked at every place before `p` in vain; `pos` is the last of them. */
  ghost predicate Scanning(m: Marks, start: nat, p: nat, end: nat, pos: nat) {
    start <= p && NextItem(m, p, end) == NextItem(m, start, end) &&
    if p == start then pos == start
    else ScanStop(m, start, end) == if TooShort(p, end) then pos else ScanStop(m, p, end)
  }

  lemma ScanMoves(m: Marks, start: nat, p: nat, end: nat, pos: nat)
    requires Scanning(m, start, p, end, pos) && !TooShort(p, end) && !HasItem(m, p, end)
    ensures Scanning(m, start, p + LOG_ITEM_LEN_ALIGN, end, p)
  {
  }

  lemma ScanEnds(m: Marks, start: nat, p: nat, end: nat, pos: nat)
    requires Scanning(m, start, p, end, pos)
    ensures TooShort(p, end) ==> pos == ScanStop(m, start, end) && NextItem(m, start, end) == None
    ensures !TooShort(p, end) && HasItem(m, p, end) ==>
      p == ScanStop(m, start, end) && NextItem(m, start, end) == Some(Item(p, m(p).value))
  {
  }

  /** `check_log_item_validite`, for the item at `p` of the range that ends at `end`. */
  method CheckItem(buf: seq<byte>, p: nat, end: nat) returns (valid: bool)
    requires p + HEAD <= end <= |buf|
    ensures valid <==> HasItem(MarksOf(buf), p, end)
    ensures valid ==> MarksOf(buf)(p) == Some(U16(buf, p + 42) + HEAD)
  {
    valid := ItemValid(buf, p, MaxSize(end - p));
    assert MarksOf(buf)(p) == ItemMark(buf, p);
  }

  /** `get_next_log_item`: the position is moved along with the scan, also when nothing is found. */
  method GetNextLogItem(buf: seq<byte>, maxLen: nat, readPos: nat, scopeLen: nat) returns (found: bool, pos: nat)
    requires maxLen <= |buf|
    ensures readPos + scopeLen > maxLen ==> !found && pos == readPos
    ensures readPos + scopeLen <= maxLen ==>
      pos == ScanStop(MarksOf(buf), readPos, readPos + scopeLen) &&
      (found <==> NextItem(MarksOf(buf), readPos, readPos + scopeLen).Some?)
    ensures found ==>
      pos + HEAD <= |buf| &&
      NextItem(MarksOf(buf), readPos, readPos + scopeLen) == Some(Item(pos, U16(buf, pos + 42) + HEAD))
  {
    hide NextItem;
    hide ScanStop;
    hide MarksOf;
    found, pos := false, readPos;
    if readPos + scopeLen > maxLen {
      return;
    }
    ghost var m, end := MarksOf(buf), readPos + scopeLen;
    var i := 0;
    while i + HEAD + LOG_ITEM_LEN_ALIGN <= scopeLen
      invariant Scanning(m, readPos, readPos + i, end, pos) && !found
    {
      ghost var last := pos;
      pos := readPos + i;
      found := CheckItem(buf, pos, readPos + scopeLen);
      if found {
        ScanEnds(m, readPos, pos, end, last);
        return;
      }
      ScanMoves(m, readPos, pos, end, last);
      i := i + LOG_ITEM_LEN_ALIGN;
    }
    ScanEnds(m, readPos, readPos + i, end, pos);
  }

  /** The pass that has delivered `items` and goes on at `p` with `room` bytes left. */
  ghost function Resumed(items: seq<Item>, m: Marks, p: nat, end: nat, room: nat): Pass {
    var rest := Parse(m, p, end, room);
    Pass(items + rest.items, rest.off, rest.left)
  }

  lemma StartResumed(m: Marks, p: nat, end: nat, room: nat)
    ensures Parse(m, p, end, room) == Resumed([], m, p, end, room)
  {
    var r := Parse(m, p, end, room);
    assert [] + r.items == r.items;
  }

  lemma TakeResumed(whole: Pass, items: seq<Item>, m: Marks, p: nat, end: nat, room: nat, e: Item)
    requires p < end && NextItem(m, p, end) == Some(e) && e.len <= room
    requires whole == Resumed(items, m, p, end, room)
    ensures whole == Resumed(items + [e], m, e.pos + e.len, end, room - e.len)
  {
    var rest := Parse(m, e.pos + e.len, end, room - e.len);
    assert Parse(m, p, end, room) == rest.(items := [e] + rest.items);
    Reassociate(items, [e], rest.items);
  }

  lemma StopResumed(whole: Pass, items: seq<Item>, m: Marks, p: nat, end: nat, room: nat)
    requires whole == Resumed(items, m, p, end, room)
    ensures p < end && NextItem(m, p, end) == None ==> whole == Pass(items, ScanStop(m, p, end), true)
    ensures p < end && NextItem(m, p, end).Some? && room < NextItem(m, p, end).value.len ==>
      whole == Pass(items, NextItem(m, p, end).value.pos, false)
  {
    assert items + [] == items;
  }

  lemma EndResumed(whole: Pass, items: seq<Item>, m: Marks, p: nat, end: nat, room: nat)
    requires whole == Resumed(items, m, p, end, room) && p >= end
    ensures whole == Pass(items, p, true)
  {
    assert items + [] == items;
  }

  lemma OneMoreItem(buf: seq<byte>, items: seq<Item>, e: Item)
    requires Within(items, |buf|) && e.pos + e.len <= |buf|
    ensures Within(items + [e], |buf|) && Bytes(buf, items + [e]) == Bytes(buf, items) + buf[e.pos..e.pos + e.len]
  {
    BytesConcat(buf, items, [e]);
    assert Bytes(buf, [e]) == buf[e.pos..e.pos + e.len] + Bytes(buf, [e][1..]);
  }

  /** One turn of the loop of `parse_log_item`: the next item if it fits, or where and why the pass ends. */
  method NextFitting(
    buf: seq<byte>, maxLen: nat, off: nat, endPos: nat, room: nat, ghost whole: Pass, ghost items: seq<Item>)
    returns (taken: bool, pos: nat, len: nat, left: bool)
    requires off < endPos <= maxLen <= |buf| && whole == Resumed(items, MarksOf(buf), off, endPos, room)
    ensures taken ==> off < pos + len <= endPos && len <= room
    ensures taken ==> whole == Resumed(items + [Item(pos, len)], MarksOf(buf), pos + len, endPos, room - len)
    ensures !taken ==> whole == Pass(items, pos, left)
  {
    taken, pos := GetNextLogItem(buf, maxLen, off, endPos - off);
    len, left := 0, true;
    if taken {
      len := U16(buf, pos + 42) + HEAD;
      taken, left := len <= room, len <= room;
    }
    if taken {
      TakeResumed(whole, items, MarksOf(buf), off, endPos, room, Item(pos, len));
    } else {
      StopResumed(whole, items, MarksOf(buf), off, endPos, room);
    }
  }

  /** `parse_log_item`: copy out whole items while they fit. */
  method ParseLogItem(buf: seq<byte>, maxLen: nat, startPos: nat, endPos: nat, count: nat)
    returns (out: seq<byte>, off: nat, left: bool)
    requires endPos <= maxLen <= |buf|
    ensures var pass := Parse(MarksOf(buf), startPos, endPos, count);
      off == pass.off && left == pass.left && Within(pass.items, |buf|) && out == Bytes(buf, pass.items)
  {
    hide Parse;
    hide Resumed;
    hide MarksOf;
    out, off, left := [], startPos, true;
    ghost var items: seq<Item> := [];
    ghost var pass := Parse(MarksOf(buf), startPos, endPos, count);
    var room: nat := count;
    StartResumed(MarksOf(buf), startPos, endPos, count);
    while off < endPos
      invariant pass == Resumed(items, MarksOf(buf), off, endPos, room)
      invariant Within(items, |buf|) && out == Bytes(buf, items) && left
      decreases endPos - off
    {
      var taken, pos, len, more := NextFitting(buf, maxLen, off, endPos, room, pass, items);
      if !taken {
        off, left := pos, more;
        return;
      }
      OneMoreItem(buf, items, Item(pos, len));
      out := out + buf[pos..pos + len];
      items, off, room := items + [Item(pos, len)], pos + len, room - len;
    }
    EndResumed(pass, items, MarksOf(buf), off, endPos, room);
  }

  lemma SameLoopRead(g: Ring, r: Position, count: nat)
    requires g.writeLoops == r.loops
    ensures var a := Parse(MarksOf(g.buf), r.off, g.lastPos, count);
      ReadRing(g, r, count) == (Position(a.off, r.loops), Delivered(a.items))
  {
  }

  lemma BeforeWrapRead(g: Ring, r: Position, count: nat)
    requires g.writeLoops != r.loops
    requires var a := FirstPass(g, r, count); !(count > Size(a.items) && a.left)
    ensures var a := FirstPass(g, r, count);
      ReadRing(g, r, count) == (Position(a.off, CatchUp(g, r).loops), Delivered(a.items))
  {
  }

  lemma PastWrapRead(g: Ring, r: Position, count: nat, room: nat, b: Pass)
    requires g.writeLoops != r.loops && b == Parse(MarksOf(g.buf), 0, g.lastPos, room)
    requires var a := FirstPass(g, r, count); 0 < room == count - Size(a.items) && a.left
    ensures var a := FirstPass(g, r, count);
      ReadRing(g, r, count) == (Position(b.off, g.writeLoops), Delivered(a.items + b.items))
  {
  }

  datatype Status = Error | Empty | Exhausted | Copied

  function StatusOf(o: Outcome): Status {
    match o
    case Invalid => Error
    case UpToDate => Empty
    case NoItem => Exhausted
    case Data(_) => Copied
  }

  /** `struct tlogger_reader`, as far as reading goes. */
  class TloggerReader {
    var rOff: nat
    var rLoops: nat

    constructor ()
      ensures rOff == 0 && rLoops == 0
    {
      rOff, rLoops := 0, 0;
    }

    ghost function At(): Position
      reads this
    {
      Position(rOff, rLoops)
    }

    /** One pass of `parse_log_item` over the ring, leaving the reader where the pass ends. */
    method Advance(g: Ring, from: nat, endPos: nat, count: nat)
      returns (out: seq<byte>, left: bool, ghost items: seq<Item>)
      requires RingOk(g) && endPos <= g.maxLen
      modifies this
      ensures Parse(MarksOf(g.buf), from, endPos, count) == Pass(items, rOff, left) && rLoops == old(rLoops)
      ensures Within(items, |g.buf|) && out == Bytes(g.buf, items) && |out| == Size(items) <= count
      ensures (items == [] <==> out == [])
    {
      ParseFits(MarksOf(g.buf), from, endPos, count);
      out, rOff, left := ParseLogItem(g.buf, g.maxLen, from, endPos, count);
      items := Parse(MarksOf(g.buf), from, endPos, count).items;
      BytesSize(g.buf, items);
    }

    /** The part of `trigger_parse_log` for a reader that is behind the writer by a loop. */
    method TriggerWrapped(g: Ring, count: nat) returns (out: seq<byte>, ghost items: seq<Item>)
      requires RingOk(g) && g.writeLoops != rLoops
      modifies this
      ensures ReadRing(g, old(At()), count) == (At(), Delivered(items))
      ensures Within(items, |g.buf|) && out == Bytes(g.buf, items) && (items == [] <==> out == [])
    {
      if g.writeLoops > (rLoops + 1) % U32 || (g.writeLoops == (rLoops + 1) % U32 && rOff < g.lastPos) {
        rOff := g.lastPos;
        rLoops := (g.writeLoops + U32 - 1) % U32;
      }
      assert At() == CatchUp(g, old(At()));
      ghost var c := CatchUp(g, old(At()));
      var left;
      out, left, items := Advance(g, rOff, g.maxLen, count);
      ghost var first := FirstPass(g, old(At()), count);
      assert first == Pass(items, rOff, left);
      if count > |out| && left {
        var room, more, again := count - |out|, [], false;
        ghost var rest;
        more, again, rest := Advance(g, 0, g.lastPos, room);
        PastWrapRead(g, old(At()), count, room, Pass(rest, rOff, again));
        BytesConcat(g.buf, items, rest);
        out, items := out + more, items + rest;
        rLoops := g.writeLoops;
      } else {
        BeforeWrapRead(g, old(At()), count);
      }
    }

    /** `trigger_parse_log` */
    method Trigger(g: Ring, count: nat) returns (status: Status, out: seq<byte>)
      requires RingOk(g)
      modifies this
      ensures At() == ReadRing(g, old(At()), count).0
      ensures status == StatusOf(ReadRing(g, old(At()), count).1)
      ensures Within(OutcomeItems(ReadRing(g, old(At()), count).1), |g.buf|)
      ensures out == Bytes(g.buf, OutcomeItems(ReadRing(g, old(At()), count).1))
    {
      hide Bytes;
      hide CatchUp;
      ghost var items;
      if g.writeLoops == rLoops {
        var left;
        out, left, items := Advance(g, rOff, g.lastPos, count);
        SameLoopRead(g, old(At()), count);
      } else {
        out, items := TriggerWrapped(g, count);
      }
      status := if |out| == 0 then Exhausted else Copied;
    }

    /** `process_tlogger_read`: one read of the ring, moving the reader. */
    method ReadOnce(g: Ring, count: nat) returns (status: Status, out: seq<byte>)
      requires g.memLen <= |g.buf| && g.writeLoops < U32
      modifies this
      ensures At() == Read(g, old(At()), count).0
      ensures status == StatusOf(Read(g, old(At()), count).1)
      ensures Within(OutcomeItems(Read(g, old(At()), count).1), |g.buf|)
      ensures out == Bytes(g.buf, OutcomeItems(Read(g, old(At()), count).1))
    {
      status, out := Error, [];
      if count < LOG_ITEM_MAX_LEN || g.memLen > LOG_BUFFER_MAX_LEN {
        return;
      }
      if g.lastPos == rOff && g.writeLoops == rLoops {
        return Empty, [];
      }
      if g.maxLen < g.lastPos || g.maxLen > g.memLen || rOff > g.maxLen {
        return;
      }
      status, out := Trigger(g, count);
    }
  }
}
