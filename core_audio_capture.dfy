/**
  The sample hand-off of the macOS audio source: the CoreAudio callback copies
  each delivered float buffer into a new block and appends it to a bounded
  queue; the reader drains blocks from the front of that queue, converting
  512 samples per block into the left channel of the caller's stereo frames.

  The first half of the module specifies both sides on values (sequences of
  blocks and of frames); the class `MacOsXAudioSource` at the end updates the
  queue and the output array in place and is proved against those functions.
 */
module CoreAudioCapture {
  import opened Pcm

  /** Samples converted per dequeued block (the reader's transfer unit). */
  const BlockFrames: nat := 512

  /** The callback empties the queue when it holds MORE than this many blocks. */
  const MaxQueued: nat := 100

  /** A block of float samples owned by the queue. */
  type Block = seq<real>

  /** An `AudioBuffer` delivered by CoreAudio: its byte size and the floats at `mData`. */
  datatype AudioBuffer = AudioBuffer(mDataByteSize: uint32, mData: seq<real>)
  {
    /** `mData` holds at least the samples that `mDataByteSize` announces. */
    predicate Valid()
    {
      mDataByteSize as int / 4 <= |mData|
    }
  }

  // ---------------------------------------------------------------------------
  // Producer side
  // ---------------------------------------------------------------------------

  /** The block the callback allocates and fills from one delivered buffer. */
  function NewBlock(buf: AudioBuffer): (b: Block)
    requires buf.Valid()
    ensures |b| == buf.mDataByteSize as int / 4
    ensures forall i :: 0 <= i < |b| ==> b[i] == buf.mData[i]
  {
    buf.mData[..buf.mDataByteSize as int / 4]
  }

  /** The queue after the callback hands it block `b` (drop-all on overflow): whatever the
      queue held, it now holds 1 to 101 blocks and `b` is last. */
  function Enqueued(q: seq<Block>, b: Block): (r: seq<Block>)
    ensures 1 <= |r| <= MaxQueued + 1
    ensures r[|r| - 1] == b
  {
    (if |q| > MaxQueued then [] else q) + [b]
  }

  /** The queue after the callback has run once for each block of `bs`, in order: after a
      non-empty run it holds 1 to 101 blocks and ends with the last block delivered. */
  function EnqueuedAll(q: seq<Block>, bs: seq<Block>): (r: seq<Block>)
    ensures bs != [] ==> 1 <= |r| <= MaxQueued + 1 && r[|r| - 1] == bs[|bs| - 1]
    decreases |bs|
  {
    if bs == [] then q else EnqueuedAll(Enqueued(q, bs[0]), bs[1..])
  }

  /** Below the threshold, every queued block stays, in order, and `b` becomes the tail. */
  lemma EnqueueAppends(q: seq<Block>, b: Block)
    requires |q| <= MaxQueued
    ensures Enqueued(q, b) == q + [b]
  {
  }

  /** Above the threshold, every queued block is discarded and only `b` remains. */
  lemma EnqueueDropsAll(q: seq<Block>, b: Block)
    requires |q| > MaxQueued
    ensures Enqueued(q, b) == [b]
    ensures |Enqueued(q, b)| == 1
  {
  }

  /** The bound 101 is reached: the test is a strict `>`, so 100 queued blocks plus one make 101. */
  lemma EnqueueReachesBound(q: seq<Block>, b: Block)
    requires |q| == MaxQueued
    ensures |Enqueued(q, b)| == MaxQueued + 1
  {
  }

  /** FIFO: as long as the depth never exceeds 101, a run of enqueues only appends. */
  lemma {:induction false} EnqueuedAllAppends(q: seq<Block>, bs: seq<Block>)
    requires |q| + |bs| <= MaxQueued + 1
    ensures EnqueuedAll(q, bs) == q + bs
    decreases |bs|
  {
    if bs != [] {
      EnqueueAppends(q, bs[0]);
      EnqueuedAllAppends(q + [bs[0]], bs[1..]);
      assert q + [bs[0]] + bs[1..] == q + bs;
    }
  }

  // ---------------------------------------------------------------------------
  // Consumer side
  // ---------------------------------------------------------------------------

  /** Number of blocks `read` takes: one per whole 512 frames, but no more than are queued. */
  function Consumed(bufferSize: uint32, queued: nat): (n: nat)
    ensures n <= queued && n <= bufferSize as int / BlockFrames
    ensures n == queued || n == bufferSize as int / BlockFrames
    ensures n * BlockFrames <= bufferSize as int
  {
    if bufferSize as int / BlockFrames < queued then bufferSize as int / BlockFrames else queued
  }

  /** The reader can convert the block: it has 512 samples and each has a defined cast. */
  predicate Readable(b: Block)
  {
    BlockFrames <= |b| && forall i :: 0 <= i < BlockFrames ==> InPcmRange(b[i])
  }

  /** Frames `out` after the first `count` samples of `b` are written to the left channels from index `base`. */
  function FillLeft(out: seq<StereoSample>, b: Block, base: nat, count: nat): (r: seq<StereoSample>)
    requires base + count <= |out| && count <= |b|
    requires forall i :: 0 <= i < count ==> InPcmRange(b[i])
    ensures |r| == |out|
    ensures forall k :: base <= k < base + count ==> r[k].l == ToPcm16(b[k - base])
    ensures forall k :: 0 <= k < |out| ==> r[k].r == out[k].r
    ensures forall k :: 0 <= k < |out| && !(base <= k < base + count) ==> r[k] == out[k]
  {
    seq(|out|, k requires 0 <= k < |out| =>
      if base <= k < base + count then out[k].(l := ToPcm16(b[k - base])) else out[k])
  }

  /** Frames `out` after the first `n` blocks of `q` have been converted, block `j` at index `j * 512`. */
  function Drain(out: seq<StereoSample>, q: seq<Block>, n: nat): (r: seq<StereoSample>)
    requires n <= |q| && n * BlockFrames <= |out|
    requires forall j :: 0 <= j < n ==> Readable(q[j])
    ensures |r| == |out|
    ensures forall k :: 0 <= k < |out| ==> r[k].r == out[k].r
    ensures forall k :: n * BlockFrames <= k < |out| ==> r[k] == out[k]
    decreases n
  {
    if n == 0 then out
    else
      assert Readable(q[n - 1]);
      FillLeft(Drain(out, q, n - 1), q[n - 1], (n - 1) * BlockFrames, BlockFrames)
  }

  /** Frame `k` after draining `n` blocks: below `n * 512` its left channel holds sample `k % 512`
      of block `k / 512` and its right channel is untouched; every other frame is untouched. */
  lemma {:induction false} DrainAt(out: seq<StereoSample>, q: seq<Block>, n: nat, k: nat)
    requires n <= |q| && n * BlockFrames <= |out|
    requires forall j :: 0 <= j < n ==> Readable(q[j])
    requires k < |out|
    ensures k < n * BlockFrames ==>
      k / BlockFrames < n &&
      Drain(out, q, n)[k] == StereoSample(ToPcm16(q[k / BlockFrames][k % BlockFrames]), out[k].r)
    ensures n * BlockFrames <= k ==> Drain(out, q, n)[k] == out[k]
    decreases n
  {
    if n > 0 {
      DrainAt(out, q, n - 1, k);
      var base := (n - 1) * BlockFrames;
      if base <= k < n * BlockFrames {
        assert k / BlockFrames == n - 1 && k % BlockFrames == k - base;
      }
    }
  }

  /** The written output cells all lie below `bufferSize`, so the uint32 index `i + j * 512` cannot wrap. */
  lemma WrittenIndexInBounds(bufferSize: uint32, j: nat, i: nat)
    requires j < bufferSize as int / BlockFrames && i < BlockFrames
    ensures i + j * BlockFrames < bufferSize as int
  {
  }

  /** FIFO end to end: up to 101 blocks handed to an empty queue and then read with room for all
      of them are all consumed, in arrival order, block `j` in frames `j * 512 .. j * 512 + 511`. */
  lemma FifoHandOff(bs: seq<Block>, out: seq<StereoSample>, bufferSize: uint32, k: nat)
    requires |bs| <= MaxQueued + 1
    requires forall j :: 0 <= j < |bs| ==> Readable(bs[j])
    requires |bs| * BlockFrames <= bufferSize as int <= |out|
    requires k < |bs| * BlockFrames
    ensures EnqueuedAll([], bs) == bs
    ensures Consumed(bufferSize, |bs|) == |bs|
    ensures Drain(out, bs, |bs|)[k] == StereoSample(ToPcm16(bs[k / BlockFrames][k % BlockFrames]), out[k].r)
  {
    EnqueuedAllAppends([], bs);
    assert |bs| <= bufferSize as int / BlockFrames;
    DrainAt(out, bs, |bs|, k);
  }

  // ---------------------------------------------------------------------------
  // The audio source: the queue updated in place
  // ---------------------------------------------------------------------------

  /** The audio source; `buffers` is the process-wide block queue shared by the
      CoreAudio callback and `Read`, the callback and `Read` as a whole each being one step. */
  class MacOsXAudioSource {
    /** Whether this audio source was built for macOS (the `_OS_OSX` branch). */
    const osx: bool

    /** The queue of owned sample blocks, oldest first. */
    var buffers: seq<Block>

    /** The queue never holds more than 101 blocks. */
    ghost predicate Valid()
      reads this
    {
      |buffers| <= MaxQueued + 1
    }

    constructor (osx: bool)
      ensures Valid() && this.osx == osx && buffers == []
    {
      this.osx := osx;
      buffers := [];
    }

    /** The CoreAudio callback: copy the first delivered buffer into a new block and queue it. */
    method CoreAudioHandle(inInputData: seq<AudioBuffer>) returns (status: int)
      requires Valid()
      requires |inInputData| > 0 && inInputData[0].Valid()
      modifies this
      ensures Valid() && status == 0
      ensures buffers == Enqueued(old(buffers), NewBlock(inInputData[0]))
    {
      var buf := inInputData[0];
      var units := buf.mDataByteSize / 4;
      var newBuffer := buf.mData[..units];

      if |buffers| > MaxQueued {
        buffers := [];
      }
      buffers := buffers + [newBuffer];
      return 0;
    }

    /** Fill `buffer` with up to `bufferSize / 512` blocks from the front of the queue. */
    method Read(buffer: array<StereoSample>, bufferSize: uint32) returns (ok: bool)
      requires Valid()
      requires bufferSize as int <= buffer.Length
      requires osx ==> forall j :: 0 <= j < Consumed(bufferSize, |buffers|) ==> Readable(buffers[j])
      modifies this, buffer
      ensures Valid() && ok == osx
      ensures !osx ==> buffers == old(buffers) && buffer[..] == old(buffer[..])
      ensures osx ==>
        var n := Consumed(bufferSize, |old(buffers)|);
        buffers == old(buffers)[n..] && buffer[..] == Drain(old(buffer[..]), old(buffers), n)
    {
      if !osx {
        // Off macOS both branches of the C++ `read` report failure without touching anything.
        if bufferSize > 0 {
          return false;
        }
        return false;
      }
      ghost var queued := buffers;
      ghost var initial := buffer[..];
      var buffersToRead := bufferSize / BlockFrames as uint32;
      var j: uint32 := 0;
      while j < buffersToRead
        invariant j <= buffersToRead && j as int <= |queued|
        invariant buffers == queued[j..]
        invariant buffer[..] == Drain(initial, queued, j as int)
      {
        var coreAudioBuffer: Option<Block> := None;
        if |buffers| > 0 {
          coreAudioBuffer := Some(buffers[0]);
          buffers := buffers[1..];
        }
        if coreAudioBuffer.None? {
          break;
        }
        if 512 > bufferSize {
          // The C++ `read` returns false here, but j < bufferSize / 512 already implies
          // bufferSize >= 512, so the branch is never taken.
          assert false;
        }
        assert coreAudioBuffer.value == queued[j];
        ConvertBlock(buffer, coreAudioBuffer.value, j, bufferSize);
        j := j + 1;
      }
      return true;
    }

    /** The inner loop of `read`: convert the first 512 samples of `block` into the left
        channels of frames `j * 512 .. j * 512 + 511`. */
    static method ConvertBlock(buffer: array<StereoSample>, block: Block, j: uint32, bufferSize: uint32)
      requires j as int < bufferSize as int / BlockFrames && bufferSize as int <= buffer.Length
      requires Readable(block)
      modifies buffer
      ensures buffer[..] == FillLeft(old(buffer[..]), block, j as int * BlockFrames, BlockFrames)
    {
      var i: uint32 := 0;
      while i < BlockFrames as uint32
        invariant i as int <= BlockFrames
        invariant buffer[..] == FillLeft(old(buffer[..]), block, j as int * BlockFrames, i as int)
      {
        WrittenIndexInBounds(bufferSize, j as int, i as int);
        buffer[i + j * BlockFrames as uint32] := buffer[i + j * BlockFrames as uint32].(l := ToPcm16(block[i]));
        i := i + 1;
      }
    }
  }

  /** The reader's view of a dequeued pointer: a block, or null when the queue was empty. */
  datatype Option<T> = None | Some(value: T)
}
