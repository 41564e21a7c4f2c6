/**
  Sending a trusted application image to the secure world frame by frame (core/session_manager.c):
  each frame is a 4-byte flag and as much of the file as the load buffer takes.
 */
module ImageFrames {
  import opened Octets

  const FLAG_SIZE: nat := 4

  /** A frame as the secure world receives it: its index and the filled part of the load buffer. */
  datatype Frame = Frame(index: nat, data: seq<byte>)

  function Min(a: nat, b: nat): nat {
    if a < b then a else b
  }

  // ----- the receiving side

  function Flag(f: Frame): int
    requires |f.data| >= FLAG_SIZE
  {
    var b0: int, b1: int, b2: int, b3: int := f.data[0], f.data[1], f.data[2], f.data[3];
    b0 + 0x100 * b1 + 0x1_0000 * b2 + 0x100_0000 * b3
  }

  /** What the secure world gets by putting the contents of the frames together. */
  function Reassembled(frames: seq<Frame>): (r: seq<byte>) {
    if frames == [] then []
    else
      var last := frames[|frames| - 1];
      Reassembled(frames[..|frames| - 1]) + (if |last.data| >= FLAG_SIZE then last.data[FLAG_SIZE..] else [])
  }

  // ----- the sending side

  /** Number of frames for `size` bytes at `payload` bytes each. */
  function LoadTimes(size: nat, payload: nat): (n: nat)
    requires payload > 0
  {
    size / payload + (if size % payload != 0 then 1 else 0)
  }

  /** Bytes sent before frame `index`. */
  function Loaded(size: nat, payload: nat, index: nat): nat {
    Min(index * payload, size)
  }

  /** All frames but the last are full, and the last one holds the rest, which fits. */
  lemma FramesCover(size: nat, payload: nat, index: nat)
    requires payload > 0 && size > 0 && index < LoadTimes(size, payload)
    ensures index * payload < size
    ensures index < LoadTimes(size, payload) - 1 ==> index * payload + payload < size
    ensures index == LoadTimes(size, payload) - 1 ==> 0 < size - index * payload <= payload
    ensures Loaded(size, payload, index) == index * payload
    ensures Loaded(size, payload, index + 1) == Min(index * payload + payload, size)
  {
    var q, m := size / payload, size % payload;
    assert size == q * payload + m;
    assert (index + 1) * payload == index * payload + payload;
    if index < q {
      ScaleLess(index + 1, q, payload);
      if index < q - 1 {
        ScaleLess(index + 2, q, payload);
        assert (index + 2) * payload == index * payload + 2 * payload;
      }
    }
  }

  lemma ScaleLess(a: nat, b: nat, k: nat)
    requires a <= b
    ensures a * k <= b * k
  {
    assert (b - a) * k >= 0;
    assert b * k == a * k + (b - a) * k;
  }

  function FlagFor(index: nat, times: nat): int {
    if index + 1 == times then 0 else 1
  }

  /** Frame `index` of a file. */
  ghost predicate IsFrame(f: Frame, file: seq<byte>, payload: nat, index: nat)
    requires payload > 0
  {
    f.index == index && FLAG_SIZE < |f.data| <= FLAG_SIZE + payload &&
    Flag(f) == FlagFor(index, LoadTimes(|file|, payload)) &&
    var from, to := Loaded(|file|, payload, index), Loaded(|file|, payload, index + 1);
    from <= to && f.data[FLAG_SIZE..] == file[from..to]
  }

  /** The first frames of a file, in order. */
  ghost predicate AreFrames(frames: seq<Frame>, file: seq<byte>, payload: nat)
    requires payload > 0
  {
    |frames| <= LoadTimes(|file|, payload) && forall i :: 0 <= i < |frames| ==> IsFrame(frames[i], file, payload, i)
  }

  /** The first frames reassemble to the first part of the file. */
  lemma {:induction false} PrefixReassembles(frames: seq<Frame>, file: seq<byte>, payload: nat)
    requires payload > 0 && |file| > 0 && AreFrames(frames, file, payload)
    ensures Loaded(|file|, payload, |frames|) <= |file|
    ensures Reassembled(frames) == file[..Loaded(|file|, payload, |frames|)]
    decreases |frames|
  {
    hide Flag;
    hide FlagFor;
    if frames != [] {
      var n := |frames| - 1;
      PrefixReassembles(frames[..n], file, payload);
      assert IsFrame(frames[n], file, payload, n);
      var from, to := Loaded(|file|, payload, n), Loaded(|file|, payload, n + 1);
      assert file[..from] + file[from..to] == file[..to];
    }
  }

  /**
    All the frames of a file reassemble to exactly the file; each fits a buffer that has room for the flag
    and the payload, and only the last one carries flag 0.
   */
  lemma FramesReassemble(frames: seq<Frame>, file: seq<byte>, payload: nat)
    requires payload > 0 && |file| > 0 && AreFrames(frames, file, payload) && |frames| == LoadTimes(|file|, payload)
    ensures Reassembled(frames) == file && |frames| > 0
    ensures forall i :: 0 <= i < |frames| ==> FLAG_SIZE < |frames[i].data| <= FLAG_SIZE + payload
    ensures forall i :: 0 <= i < |frames| ==> (Flag(frames[i]) == 0 <==> i == |frames| - 1)
  {
    PrefixReassembles(frames, file, payload);
    AtLeastOne(|file|, payload);
    FramesCover(|file|, payload, |frames| - 1);
    assert file[..|file|] == file;
    forall i | 0 <= i < |frames|
      ensures FLAG_SIZE < |frames[i].data| <= FLAG_SIZE + payload && (Flag(frames[i]) == 0 <==> i == |frames| - 1)
    {
      assert IsFrame(frames[i], file, payload, i);
    }
  }

  lemma AtLeastOne(size: nat, payload: nat)
    requires payload > 0 && size > 0
    ensures LoadTimes(size, payload) > 0
  {
  }

  // ----- the loop

  datatype LoadRet = Done | InvalidSize | CopyFailed | Refused

  /** The frame in the load buffer: the flag, then the part of the file. */
  method FillFrame(mem: array<byte>, file: seq<byte>, index: nat, flag: int, from: nat, size: nat) returns (f: Frame)
    requires flag == 0 || flag == 1
    requires FLAG_SIZE + size <= mem.Length && size > 0 && from + size <= |file|
    modifies mem
    ensures f.index == index && |f.data| == FLAG_SIZE + size && Flag(f) == flag
    ensures f.data[FLAG_SIZE..] == file[from..from + size]
  {
    mem[0], mem[1], mem[2], mem[3] := flag, 0, 0, 0;
    forall k | 0 <= k < size {
      mem[FLAG_SIZE + k] := file[from + k];
    }
    f := Frame(index, mem[..FLAG_SIZE + size]);
    assert forall k :: 0 <= k < size ==>
      f.data[FLAG_SIZE..][k] == mem[FLAG_SIZE + k] == file[from + k] == file[from..from + size][k];
  }

  /** `load_image_by_frame`: `copies` and `accepts` say for each frame whether its copy and its command succeed. */
  method LoadByFrame(file: seq<byte>, mem: array<byte>, loadTimes: nat, copies: nat -> bool, accepts: nat -> bool)
    returns (ret: LoadRet, sent: seq<Frame>)
    requires |file| > 0 && mem.Length > FLAG_SIZE && loadTimes == LoadTimes(|file|, mem.Length - FLAG_SIZE)
    modifies mem
    ensures ret != InvalidSize
    ensures AreFrames(sent, file, mem.Length - FLAG_SIZE)
    ensures ret.Done? <==> forall i: nat :: i < loadTimes ==> copies(i) && accepts(i)
    ensures ret.Done? ==> |sent| == loadTimes && Reassembled(sent) == file
  {
    sent := [];
    var payload := mem.Length - FLAG_SIZE;
    var loadFlag, loadedSize, index := 1, 0, 0;
    while index < loadTimes
      invariant index <= loadTimes && |sent| == index && AreFrames(sent, file, payload)
      invariant loadedSize == Loaded(|file|, payload, index) && (index < loadTimes ==> loadFlag == 1)
      invariant forall i: nat :: i < index ==> copies(i) && accepts(i)
    {
      FramesCover(|file|, payload, index);
      var loadSize := payload;
      if index == loadTimes - 1 {
        loadFlag := 0;
        loadSize := |file| - loadedSize;
      }
      if loadSize > payload {
        return InvalidSize, sent;
      }
      if !copies(index) {
        return CopyFailed, sent;
      }
      var f := FillFrame(mem, file, index, loadFlag, loadedSize, loadSize);
      assert IsFrame(f, file, payload, index);
      sent := sent + [f];
      if !accepts(index) {
        return Refused, sent;
      }
      loadedSize := loadedSize + loadSize;
      index := index + 1;
    }
    FramesReassemble(sent, file, payload);
    ret := Done;
  }
}
