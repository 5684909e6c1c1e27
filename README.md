# Sample hand-off of the macOS audio source

This project models the core of `MacOsXAudioSource`, the macOS audio input of a
terminal music visualizer. CoreAudio calls `core_audio_handle` on its own thread
with each captured buffer of 32-bit float samples. The callback copies the
first buffer into a newly allocated block and appends it to a process-wide
queue of blocks (`g_buffers`). When that queue already holds more than 100
blocks, the callback discards all of them first. The visualizer calls
`read(buffer, buffer_size)`. It takes up to `buffer_size / 512` blocks from the
front of the queue and stops early when the queue runs dry. For each block it
writes 512 samples, converted to 16-bit PCM, into the left channel of the
caller's stereo frames at offset `j * 512`.

Modules:

- `Pcm` (`pcm.dfy`): the `int16`/`uint32` widths, the stereo frame, and the
  float-to-PCM16 cast `static_cast<int16_t>(32768.0 * x)`. A float sample is
  modelled by its value as a `real`. The cast truncates toward zero and is
  defined only when the result fits in 16 bits (`InPcmRange`).
- `CoreAudioCapture` (`core_audio_capture.dfy`): specification functions on
  values (`NewBlock`, `Enqueued`, `EnqueuedAll`, `Consumed`, `FillLeft`,
  `Drain`), the lemmas about them, and the class `MacOsXAudioSource`. In that
  class the queue is the field `buffers`, updated in place. The output buffer is
  an `array<StereoSample>` written cell by cell. Each method is proved against
  the specification functions.
- `Scenarios` (`scenarios.dfy`): a client that delivers one buffer and reads
  twice. It shows what a caller can conclude from the contracts alone.

Points where the model makes explicit what the code leaves implicit:

- `read` converts 512 samples of every block it takes, whatever the block's
  length. The callback enqueues blocks of any length (`mDataByteSize / 4`
  samples, possibly 0). Nothing in the code ties the two together. `Read`
  therefore requires that each block it will consume holds at least 512
  samples (`Readable`). A shorter block would be read past its end.
- The cast of `32768.0 * x` to `int16_t` has no defined result when the value
  truncated toward zero lies outside `[-32768, 32767]` (that is, unless
  `-32769 < 32768 * x < 32768`), so `Read` also requires each converted sample
  to be in range. A full-scale sample `1.0` is out of range (`FullScaleOutOfRange`).
- The `512 > buffer_size` guard inside the loop of `read` can never fire. The
  loop runs only when `j < buffer_size / 512`, which already needs
  `buffer_size >= 512`. So `read` returns `true` on macOS for every
  `buffer_size`, including those below 512: it never reports a buffer smaller
  than one block, and the `return false` at
  `src/Source/MacOsXAudioSource.cpp:250` is dead code.
- Off macOS (`osx == false`), `read` returns `false` and touches neither the
  queue nor the output buffer.
- `start_core_audio` returns `1`, that is `true`, on both of its failure paths
  (`src/Source/MacOsXAudioSource.cpp:67,75`). That function is not part of this
  model.

## Model

| member | source | states |
|---|---|---|
| `Pcm.Truncate` | src/Source/MacOsXAudioSource.cpp:256-257 | converting a double to an integer rounds toward zero: the result is the integer of largest magnitude not beyond the argument |
| `Pcm.ToPcm16` | src/Source/MacOsXAudioSource.cpp:256-257 | the converted sample is within 1 of `32768 * x`, has the sign of `x`, and does not exceed `32768 * x` in magnitude |
| `Pcm.InPcmRangeIff` | src/Source/MacOsXAudioSource.cpp:256-257 | the cast is defined exactly when `-32769 < 32768 * x < 32768` |
| `Pcm.ToPcm16Examples` | src/Source/MacOsXAudioSource.cpp:255-257 | 0.5 converts to 16384, -1.0 to -32768 and 0.0 to 0 |
| `Pcm.FullScaleOutOfRange` | src/Source/MacOsXAudioSource.cpp:256-257 | a sample of exactly 1.0 has no defined conversion |
| `CoreAudioCapture.NewBlock` | src/Source/MacOsXAudioSource.cpp:114-120 | the new block has `mDataByteSize / 4` samples (integer division) and they are the first samples of the delivered buffer |
| `CoreAudioCapture.EnqueueAppends` | src/Source/MacOsXAudioSource.cpp:123-132 | with at most 100 blocks queued, every queued block stays in order and the new block is appended at the tail |
| `CoreAudioCapture.EnqueueDropsAll` | src/Source/MacOsXAudioSource.cpp:123-132 | with more than 100 blocks queued, all are discarded and the queue is exactly the new block |
| `CoreAudioCapture.Enqueued` | src/Source/MacOsXAudioSource.cpp:122-133 | the queue after one callback (drop-all when more than 100 blocks are queued, then append): from any queue it holds 1 to 101 blocks with the new block last; `EnqueueAppends`, `EnqueueDropsAll` and `EnqueueReachesBound` give its two cases and the reachable bound |
| `CoreAudioCapture.EnqueueReachesBound` | src/Source/MacOsXAudioSource.cpp:123 | because the test is a strict `>`, 100 queued blocks plus one make 101 |
| `CoreAudioCapture.EnqueuedAllAppends` | src/Source/MacOsXAudioSource.cpp:122-133 | a run of enqueues that never takes the queue past 101 blocks appends the blocks in arrival order (FIFO) |
| `CoreAudioCapture.EnqueuedAll` | src/Source/MacOsXAudioSource.cpp:122-133 | the queue after a run of callbacks, one per block in order: after any non-empty run it holds 1 to 101 blocks and ends with the last block delivered |
| `CoreAudioCapture.Consumed` | src/Source/MacOsXAudioSource.cpp:230-246 | `read` takes `min(buffer_size / 512, queued)` blocks, and that many blocks of 512 frames fit in `buffer_size` |
| `CoreAudioCapture.FillLeft` | src/Source/MacOsXAudioSource.cpp:253-258 | the frames after the inner loop of `read`: the left channel of each frame in the block's window holds the converted sample at the same offset in the block; every right channel and every frame outside the window is unchanged |
| `CoreAudioCapture.Drain` | src/Source/MacOsXAudioSource.cpp:232-261 | the frames after `read`'s nested loops have converted `n` blocks, block `j` from frame `j * 512`: every right channel and every frame from `512 n` on is unchanged (the left channels are given by `DrainAt`) |
| `CoreAudioCapture.DrainAt` | src/Source/MacOsXAudioSource.cpp:232-258 | after `n` blocks are drained, frame `k < 512 n` has left channel = converted sample `k % 512` of block `k / 512` and an unchanged right channel; every frame from `512 n` on is unchanged |
| `CoreAudioCapture.WrittenIndexInBounds` | src/Source/MacOsXAudioSource.cpp:230-256 | every index `i + j * 512` that `read` writes is below `buffer_size`, so the unsigned 32-bit index does not wrap |
| `CoreAudioCapture.FifoHandOff` | src/Source/MacOsXAudioSource.cpp:122-258 | up to 101 blocks delivered to an empty queue and read with room for all of them are all consumed and come out in arrival order |
| `CoreAudioCapture.MacOsXAudioSource.constructor` | src/Source/MacOsXAudioSource.cpp:12 | the block queue starts empty |
| `CoreAudioCapture.MacOsXAudioSource.CoreAudioHandle` | src/Source/MacOsXAudioSource.cpp:110-145 | the callback always returns status 0, enqueues the block copied from the first delivered buffer, and keeps the queue at most 101 blocks deep |
| `CoreAudioCapture.MacOsXAudioSource.Read` | src/Source/MacOsXAudioSource.cpp:225-272 | on macOS `read` returns true, removes exactly `Consumed` blocks from the front (the rest of the queue is the suffix) and fills the output as `Drain` of those blocks; elsewhere it returns false and changes nothing |
| `CoreAudioCapture.MacOsXAudioSource.ConvertBlock` | src/Source/MacOsXAudioSource.cpp:253-258 | the inner loop of `read` writes the converted first 512 samples of the block into the left channels of frames `j * 512` to `j * 512 + 511` and nothing else |

## Left out

- Device and session plumbing (`start_core_audio`, `get_default_input_device`, `print_device_info`, `print_stream_info`, `start_run_loop`, and the CoreAudio parts of the constructor and destructor): calls into CoreAudio with no logic of their own to check.
- The mutex `g_pages_mutex` and the run-loop thread: the callback is one atomic step and `Read` as a whole is one atomic step of a sequential object. The C++ `read` releases the lock between dequeues and converts outside it, so a callback can append blocks in the middle of a read, or drop them all on overflow; these interleavings are not modelled.
- `g_buffers` is one static queue shared by every instance; the model gives it to one object.
- `calloc`, `memcpy` and `free`: ownership of a block is its membership in `buffers`. The loop that frees every block before `clear` becomes assigning the empty queue.
- The `std::cerr` dump of every received sample in the callback: output only.
- Float samples are modelled by their finite values; NaN and infinities are not modelled.
- CoreAudioCapture.MacOsXAudioSource.Read: requires the consumed blocks to hold 512 samples each and every converted sample to be castable to `int16_t`. The code does not check either; it reads past a short block or hits an undefined conversion.
- CoreAudioCapture.MacOsXAudioSource.Read: the output buffer is never null. The non-macOS branch tests `buffer != nullptr`, but both of its branches return false, so this changes nothing.
- CoreAudioCapture.MacOsXAudioSource.CoreAudioHandle: requires at least one delivered input buffer whose memory holds the announced `mDataByteSize / 4` samples. The code assumes both without checking: it reads `mBuffers[0]` unconditionally (`src/Source/MacOsXAudioSource.cpp:114`), although the device it registers on is the default OUTPUT device (`src/Source/MacOsXAudioSource.cpp:94`), whose input buffer list may be empty.
- `m_buffers` and `VisCoreAudioData` in `src/Source/MacOsXAudioSource.h` are unused by the logic.
