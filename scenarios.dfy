/**
  A client of the audio source: one callback delivery followed by reads, showing
  what callers can conclude from the contracts alone.
 */
module Scenarios {
  import opened Pcm
  import opened CoreAudioCapture

  /** 600 samples of 0.5 are delivered; a read of 1024 frames fills only the first 512
      left channels, leaves the second half untouched and empties the queue; a read
      smaller than one block succeeds without writing anything. */
  method PartialFill()
  {
    var src := new MacOsXAudioSource(true);
    var samples := seq(600, _ => 0.5);
    ToPcm16Examples();
    assert Readable(samples);
    var status := src.CoreAudioHandle([AudioBuffer(2400, samples)]);
    assert samples[..600] == samples;
    assert status == 0 && src.buffers == [samples];

    var out := new StereoSample[1024](_ => StereoSample(7, 7));
    ghost var before := out[..];
    var ok := src.Read(out, 1024);
    assert ok && src.buffers == [];
    DrainAt(before, [samples], 1, 0);
    assert out[0] == StereoSample(16384, 7);
    DrainAt(before, [samples], 1, 512);
    assert out[512] == StereoSample(7, 7);

    ok := src.Read(out, 100);
    assert ok && src.buffers == [];
  }
}
