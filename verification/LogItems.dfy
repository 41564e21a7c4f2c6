/**
  Log items in the ring shared with the secure world (tlogger/tlogger.c): which positions hold a
  valid item, how the scan finds the next one, the full scan of a range and one bounded pass over it.
 */
module LogItems {
  import opened Options
  import opened Octets

  const LOG_ITEM_MAGIC: int := 0x5A5A
  const LOG_ITEM_LEN_ALIGN: nat := 64
  const LOG_ITEM_MAX_LEN: nat := 1024
  /** Size of the item head: magic at byte 32, real_len at 40, buffer_len at 42. */
  const HEAD: nat := 64

  // ----- the item head

  function U16(buf: seq<byte>, at: nat): (r: int)
    requires at + 2 <= |buf|
    ensures 0 <= r < 0x1_0000
  {
    var lo: int := buf[at];
    var hi: int := buf[at + 1];
    lo + 256 * hi
  }

  function S16(buf: seq<byte>, at: nat): (r: int)
    requires at + 2 <= |buf|
  {
    var u := U16(buf, at);
    if u >= 0x8000 then u - 0x1_0000 else u
  }

  /** `check_log_item_validite` for the item at `p`. */
  predicate ItemValid(buf: seq<byte>, p: nat, maxSize: nat)
    requires p + HEAD <= |buf|
  {
    var bufferLen, realLen := U16(buf, p + 42), S16(buf, p + 40);
    U16(buf, p + 32) == LOG_ITEM_MAGIC && bufferLen > 0 && realLen > 0 && bufferLen % LOG_ITEM_LEN_ALIGN == 0 &&
    realLen <= bufferLen && bufferLen - realLen < LOG_ITEM_LEN_ALIGN && bufferLen + HEAD <= maxSize
  }

  /**
    Where items are: the length, head included, of the item that a position holds if there is room for it.
    The scans below are about any such table; `MarksOf` is the table of a buffer.
   */
  type Marks = nat -> Option<nat>

  function ItemMark(buf: seq<byte>, p: nat): (r: Option<nat>)
    ensures r.Some? ==> r.value > HEAD
    ensures p + HEAD <= |buf| ==>
      forall max: nat :: ItemValid(buf, p, max) <==> r.Some? && r.value <= max
  {
    if p + HEAD > |buf| then None
    else
      var bufferLen, realLen := U16(buf, p + 42), S16(buf, p + 40);
      if U16(buf, p + 32) == LOG_ITEM_MAGIC && bufferLen > 0 && realLen > 0 && bufferLen % LOG_ITEM_LEN_ALIGN == 0 &&
         realLen <= bufferLen && bufferLen - realLen < LOG_ITEM_LEN_ALIGN
      then Some(bufferLen + HEAD) else None
  }

  function MarksOf(buf: seq<byte>): Marks {
    (p: nat) => ItemMark(buf, p)
  }

  // ----- the scan

  function MaxSize(left: nat): nat {
    if left > LOG_ITEM_MAX_LEN then LOG_ITEM_MAX_LEN else left
  }

  /** An item lies at `p`, within `[p, end)`. */
  predicate HasItem(m: Marks, p: nat, end: nat)
    requires p <= end
  {
    m(p).Some? && HEAD < m(p).value <= MaxSize(end - p)
  }

  predicate TooShort(p: nat, end: nat) {
    p + HEAD + LOG_ITEM_LEN_ALIGN > end
  }

  datatype Item = Item(pos: nat, len: nat)

  /** The first item of `[p, end)` at `p` or a multiple of 64 bytes after it. */
  function NextItem(m: Marks, p: nat, end: nat): (r: Option<Item>)
    ensures r.Some? ==> p <= r.value.pos && HEAD < r.value.len <= LOG_ITEM_MAX_LEN && r.value.pos + r.value.len <= end
    decreases end - p
  {
    if TooShort(p, end) then None
    else if HasItem(m, p, end) then Some(Item(p, m(p).value))
    else NextItem(m, p + LOG_ITEM_LEN_ALIGN, end)
  }

  /** Where the scan leaves its position: at the item found, or at the last position looked at. */
  function ScanStop(m: Marks, p: nat, end: nat): (r: nat)
    ensures p <= r && (p <= end ==> r <= end)
    decreases end - p
  {
    if TooShort(p, end) || HasItem(m, p, end) || TooShort(p + LOG_ITEM_LEN_ALIGN, end) then p
    else ScanStop(m, p + LOG_ITEM_LEN_ALIGN, end)
  }

  /** All the items of `[p, end)`, in order. */
  function Scan(m: Marks, p: nat, end: nat): (items: seq<Item>)
    decreases end - p
  {
    match NextItem(m, p, end)
    case None => []
    case Some(e) => [e] + Scan(m, e.pos + e.len, end)
  }

  /** Scanning again from where a scan stopped finds what that scan found. */
  lemma {:induction false} StopFindsSame(m: Marks, p: nat, end: nat)
    ensures NextItem(m, ScanStop(m, p, end), end) == NextItem(m, p, end)
    ensures NextItem(m, p, end).Some? ==> ScanStop(m, p, end) == NextItem(m, p, end).value.pos
    decreases end - p
  {
    if !TooShort(p, end) && !HasItem(m, p, end) && !TooShort(p + LOG_ITEM_LEN_ALIGN, end) {
      StopFindsSame(m, p + LOG_ITEM_LEN_ALIGN, end);
    }
  }

  lemma StopScansSame(m: Marks, p: nat, end: nat)
    ensures Scan(m, ScanStop(m, p, end), end) == Scan(m, p, end)
  {
    StopFindsSame(m, p, end);
  }

  lemma ScanFromItem(m: Marks, p: nat, end: nat, e: Item)
    requires NextItem(m, p, end) == Some(e)
    ensures Scan(m, e.pos, end) == Scan(m, p, end) == [e] + Scan(m, e.pos + e.len, end)
  {
    StopFindsSame(m, p, end);
  }

  // ----- bytes

  function Size(items: seq<Item>): (n: nat) {
    if items == [] then 0 else items[0].len + Size(items[1..])
  }

  lemma {:induction false} SizeConcat(a: seq<Item>, b: seq<Item>)
    ensures Size(a + b) == Size(a) + Size(b)
  {
    if a == [] {
      assert a + b == b;
    } else {
      assert (a + b)[1..] == a[1..] + b;
      SizeConcat(a[1..], b);
    }
  }

  predicate Within(items: seq<Item>, len: nat) {
    forall i :: 0 <= i < |items| ==> items[i].pos + items[i].len <= len
  }

  /** The bytes of the items, one after the other. */
  function Bytes(buf: seq<byte>, items: seq<Item>): (r: seq<byte>)
    requires Within(items, |buf|)
  {
    if items == [] then [] else buf[items[0].pos..items[0].pos + items[0].len] + Bytes(buf, items[1..])
  }

  lemma {:induction false} BytesConcat(buf: seq<byte>, a: seq<Item>, b: seq<Item>)
    requires Within(a, |buf|) && Within(b, |buf|)
    ensures Within(a + b, |buf|) && Bytes(buf, a + b) == Bytes(buf, a) + Bytes(buf, b)
  {
    if a == [] {
      assert a + b == b;
    } else {
      assert (a + b)[1..] == a[1..] + b;
      BytesConcat(buf, a[1..], b);
    }
  }

  lemma {:induction false} BytesSize(buf: seq<byte>, items: seq<Item>)
    requires Within(items, |buf|)
    ensures |Bytes(buf, items)| == Size(items)
  {
    if items != [] {
      BytesSize(buf, items[1..]);
    }
  }

  lemma {:induction false} ScanWithin(m: Marks, p: nat, end: nat)
    ensures Within(Scan(m, p, end), end)
    decreases end - p
  {
    if NextItem(m, p, end).Some? {
      var e := NextItem(m, p, end).value;
      ScanWithin(m, e.pos + e.len, end);
    }
  }

  // ----- one pass of the reader over a range

  datatype Pass = Pass(items: seq<Item>, off: nat, left: bool)

  /** `parse_log_item`: deliver items of `[p, end)` while they fit into `room` bytes. */
  function Parse(m: Marks, p: nat, end: nat, room: nat): (r: Pass)
    decreases end - p
  {
    if p >= end then Pass([], p, true)
    else match NextItem(m, p, end)
      case None => Pass([], ScanStop(m, p, end), true)
      case Some(e) =>
        if room < e.len then Pass([], e.pos, false)
        else
          var rest := Parse(m, e.pos + e.len, end, room - e.len);
          rest.(items := [e] + rest.items)
  }

  lemma Reassociate(a: seq<Item>, b: seq<Item>, c: seq<Item>)
    ensures (a + b) + c == a + (b + c)
  {
  }

  /**
    A pass delivers a prefix of the scan and leaves off where the rest of the scan begins;
    it stops short only when the next item does not fit.
   */
  lemma {:induction false} ParseIsPrefixOfScan(m: Marks, p: nat, end: nat, room: nat)
    ensures var r := Parse(m, p, end, room);
      Scan(m, p, end) == r.items + Scan(m, r.off, end) && (r.left ==> Scan(m, r.off, end) == [])
    decreases end - p
  {
    if p < end {
      match NextItem(m, p, end) {
        case None =>
          StopScansSame(m, p, end);
        case Some(e) =>
          ScanFromItem(m, p, end, e);
          if room < e.len {
            assert [] + Scan(m, e.pos, end) == Scan(m, e.pos, end);
          } else {
            ParseIsPrefixOfScan(m, e.pos + e.len, end, room - e.len);
            ParseTakes(m, p, end, room, e);
          }
      }
    }
  }

  /** A pass that takes its first item goes on behind it. */
  lemma ParseTakes(m: Marks, p: nat, end: nat, room: nat, e: Item)
    requires p < end && NextItem(m, p, end) == Some(e) && e.len <= room
    ensures var rest, r := Parse(m, e.pos + e.len, end, room - e.len), Parse(m, p, end, room);
      r == Pass([e] + rest.items, rest.off, rest.left) &&
      r.items + Scan(m, rest.off, end) == [e] + (rest.items + Scan(m, rest.off, end))
  {
    var rest := Parse(m, e.pos + e.len, end, room - e.len);
    Reassociate([e], rest.items, Scan(m, rest.off, end));
  }

  /** A pass moves forward within its range, and delivers items of it that fit into the room given. */
  lemma {:induction false} ParseFits(m: Marks, p: nat, end: nat, room: nat)
    ensures var r := Parse(m, p, end, room);
      p <= r.off && (p <= end ==> r.off <= end) && Size(r.items) <= room && Within(r.items, end) &&
      (r.items != [] ==> Size(r.items) > 0)
    decreases end - p
  {
    if p < end && NextItem(m, p, end).Some? {
      var e := NextItem(m, p, end).value;
      if e.len <= room {
        ParseFits(m, e.pos + e.len, end, room - e.len);
        var rest := Parse(m, e.pos + e.len, end, room - e.len);
        assert ([e] + rest.items)[1..] == rest.items;
      }
    }
  }

  /** With room for the largest item, a pass delivers something if there is anything. */
  lemma ParseDelivers(m: Marks, p: nat, end: nat, room: nat)
    requires room >= LOG_ITEM_MAX_LEN
    ensures Scan(m, p, end) != [] ==> Parse(m, p, end, room).items != []
    ensures Parse(m, p, end, room).items == [] ==> Parse(m, p, end, room).left
  {
  }
}
