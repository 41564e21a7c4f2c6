/**
  Log items as they are written (tlogger/tlogger.c, the layout of `struct log_item`): a head and the text, padded to
  whole units of 64 bytes, one item after the other. What is written is what is found, and what is read.
 */
module LogWritten {
  import opened Options
  import opened Octets
  import opened LogItems
  import opened LogReader

  /** The padded length of a text: the least whole number of units that holds it. */
  function Padded(n: nat): (r: nat)
    ensures r % LOG_ITEM_LEN_ALIGN == 0 && n <= r < n + LOG_ITEM_LEN_ALIGN
  {
    (n + LOG_ITEM_LEN_ALIGN - 1) / LOG_ITEM_LEN_ALIGN * LOG_ITEM_LEN_ALIGN
  }

  /** A head at `p` announces a text of `n` bytes. */
  predicate HeadAt(buf: seq<byte>, p: nat, n: nat) {
    p + HEAD <= |buf| && 0 < n < 0x8000 && U16(buf, p + 32) == 0x5A5A && U16(buf, p + 40) == n &&
    U16(buf, p + 42) == Padded(n)
  }

  /** The driver takes for items exactly the places where a head announces a text that fits into what there is. */
  lemma ItemsAreHeads(buf: seq<byte>, p: nat, max: nat)
    requires p + HEAD <= |buf|
    ensures ItemValid(buf, p, max) <==> exists n: nat :: HeadAt(buf, p, n) && HEAD + Padded(n) <= max
  {
    var len, n := U16(buf, p + 42), S16(buf, p + 40);
    if ItemValid(buf, p, max) {
      PaddedIs(n, len);
      assert HeadAt(buf, p, n) && HEAD + Padded(n) <= max;
    }
    if k: nat :| HeadAt(buf, p, k) && HEAD + Padded(k) <= max {
      assert n == k && len == Padded(k) > 0;
    }
  }

  lemma PaddedIs(n: nat, len: nat)
    requires len % LOG_ITEM_LEN_ALIGN == 0 && n <= len < n + LOG_ITEM_LEN_ALIGN
    ensures Padded(n) == len
  {
    var d := Padded(n) - len;
    assert d % LOG_ITEM_LEN_ALIGN == 0 && 0 < d + LOG_ITEM_LEN_ALIGN < 2 * LOG_ITEM_LEN_ALIGN;
  }

  /** From `p` to `end`, items with texts of these lengths lie one after the other. */
  ghost predicate Written(buf: seq<byte>, p: nat, end: nat, ns: seq<nat>)
    decreases |ns|
  {
    if ns == [] then p == end
    else
      HeadAt(buf, p, ns[0]) && HEAD + Padded(ns[0]) <= LOG_ITEM_MAX_LEN && p + HEAD + Padded(ns[0]) <= end &&
      Written(buf, p + HEAD + Padded(ns[0]), end, ns[1..])
  }

  function ItemsOf(p: nat, ns: seq<nat>): (items: seq<Item>)
    decreases |ns|
  {
    if ns == [] then [] else [Item(p, HEAD + Padded(ns[0]))] + ItemsOf(p + HEAD + Padded(ns[0]), ns[1..])
  }

  lemma {:induction false} ItemsOfLength(p: nat, ns: seq<nat>)
    ensures |ItemsOf(p, ns)| == |ns|
    decreases |ns|
  {
    if ns != [] {
      ItemsOfLength(p + HEAD + Padded(ns[0]), ns[1..]);
    }
  }

  lemma WrittenIsNext(buf: seq<byte>, p: nat, end: nat, n: nat)
    requires HeadAt(buf, p, n) && HEAD + Padded(n) <= LOG_ITEM_MAX_LEN && p + HEAD + Padded(n) <= end
    ensures NextItem(MarksOf(buf), p, end) == Some(Item(p, HEAD + Padded(n)))
  {
    var len := HEAD + Padded(n);
    ItemsAreHeads(buf, p, len);
    ItemsAreHeads(buf, p, len - 1);
    assert ItemValid(buf, p, len);
    assert MarksOf(buf)(p) == ItemMark(buf, p) == Some(len);
    assert Padded(n) >= LOG_ITEM_LEN_ALIGN;
  }

  /** A scan of what was written finds exactly the items written, in order. */
  lemma {:induction false} ScanFindsWritten(buf: seq<byte>, p: nat, end: nat, ns: seq<nat>)
    requires Written(buf, p, end, ns) && end <= |buf|
    ensures Scan(MarksOf(buf), p, end) == ItemsOf(p, ns)
    decreases |ns|
  {
    if ns == [] {
      assert NextItem(MarksOf(buf), p, end) == None;
    } else {
      WrittenIsNext(buf, p, end, ns[0]);
      ScanFindsWritten(buf, p + HEAD + Padded(ns[0]), end, ns[1..]);
    }
  }

  /**
    A reader in the writer's loop that reads as often as there are items is delivered exactly the items written since
    its position, whatever the sizes of its buffer from the largest item on.
   */
  lemma WrittenItemsAreRead(g: Ring, r: Position, ns: seq<nat>, counts: seq<nat>)
    requires RingOk(g) && InRing(g, r) && r.loops == g.writeLoops && Written(g.buf, r.off, g.lastPos, ns)
    requires |counts| >= |ns| && forall i :: 0 <= i < |counts| ==> counts[i] >= LOG_ITEM_MAX_LEN
    ensures ReadAll(g, r, counts).1 == ItemsOf(r.off, ns)
  {
    ScanFindsWritten(g.buf, r.off, g.lastPos, ns);
    ItemsOfLength(r.off, ns);
    ReadsRefineOneScan(g, r, counts);
  }

  /** The same for a reader that was overtaken: all of the ring, the oldest items first. */
  lemma WrittenRingIsRead(g: Ring, r: Position, older: seq<nat>, newer: seq<nat>, counts: seq<nat>)
    requires RingOk(g) && InRing(g, r) && r.loops != g.writeLoops && Overtaken(g, r) && !CounterRestarted(g, r)
    requires Written(g.buf, g.lastPos, g.maxLen, older) && Written(g.buf, 0, g.lastPos, newer)
    requires |counts| >= |older| + |newer| && forall i :: 0 <= i < |counts| ==> counts[i] >= LOG_ITEM_MAX_LEN
    ensures ReadAll(g, r, counts).1 == ItemsOf(g.lastPos, older) + ItemsOf(0, newer)
  {
    ScanFindsWritten(g.buf, g.lastPos, g.maxLen, older);
    ScanFindsWritten(g.buf, 0, g.lastPos, newer);
    ItemsOfLength(g.lastPos, older);
    ItemsOfLength(0, newer);
    ReadsRefineOneScan(g, r, counts);
  }

  /** A read that is refused, for its size or for what the ring says of itself, leaves the reader where it is. */
  lemma RefusedReadMovesNothing(g: Ring, r: Position, count: nat)
    ensures var (q, o) := Read(g, r, count);
      (o.Invalid? || o.UpToDate? ==> q == r) &&
      (count < LOG_ITEM_MAX_LEN || g.memLen > LOG_BUFFER_MAX_LEN ==> o.Invalid?) &&
      (o.UpToDate? ==> r == Position(g.lastPos, g.writeLoops)) &&
      (!(g.lastPos <= g.maxLen <= g.memLen && r.off <= g.maxLen) && r != Position(g.lastPos, g.writeLoops) ==>
        o.Invalid?)
  {
  }
}
