/** The default audio processor of the VST 2 plugin framework: channel counts,
    the pass-through `Process` that routes input channels to output channels,
    the sample `Copy` it uses, and the pan-law hook it declines. Samples are only
    copied, never computed, so their type is the type parameter `S`. */
module FrameworkPlugin {
  import opened Wrappers

  /** An audio buffer: one channel of `SampleCount` samples. */
  class VstAudioBuffer<S> {
    const Samples: array<S>
    const CanWrite: bool

    constructor (samples: array<S>, canWrite: bool)
      ensures Samples == samples && CanWrite == canWrite
    {
      Samples := samples;
      CanWrite := canWrite;
    }

    function SampleCount(): nat { Samples.Length }
  }

  /** Which input channel output channel `k` is copied from when there are
      `inCount` inputs: the remainder of `k` modulo `inCount + 1`. */
  function SourceChannel(k: nat, inCount: nat): nat
  {
    k % (inCount + 1)
  }

  /** Whether output channel `k` is written at all: exactly when its remainder
      names an existing input; the remainder `inCount` marks a skipped output. */
  predicate Selected(k: nat, inCount: nat)
  {
    SourceChannel(k, inCount) < inCount
  }

  /** One pass of the routing loop, as a reference: outputs are fed from inputs
      0 .. inCount-1 in order and the next output is skipped. */
  function Pass(inCount: nat): (p: seq<Option<nat>>)
    ensures |p| == inCount + 1
    ensures forall k :: 0 <= k < inCount ==> p[k] == Some(k)
    ensures p[inCount] == None
  {
    seq(inCount, i => Some(i)) + [None]
  }

  /** The routing of `outCount` outputs as whole passes laid end to end, the last
      one cut short: entry `k` is the input copied to output `k`, or None. */
  function RoutingTable(inCount: nat, outCount: nat): (t: seq<Option<nat>>)
    decreases outCount
  {
    if outCount <= inCount + 1 then Pass(inCount)[..outCount]
    else Pass(inCount) + RoutingTable(inCount, outCount - (inCount + 1))
  }

  /** `e * d` is at least `d` once `e` is positive. */
  lemma {:induction false} MulAtLeast(e: nat, d: nat)
    requires e >= 1
    ensures e * d >= d
    decreases e
  {
    if e > 1 {
      MulAtLeast(e - 1, d);
      assert e * d == (e - 1) * d + d;
    }
  }

  /** `(q * d + r) % d == r` for a remainder in range: Euclidean division is unique. */
  lemma ModOfMultiplePlus(q: nat, d: nat, r: nat)
    requires r < d
    ensures (q * d + r) % d == r
  {
    var x := q * d + r;
    var q', r' := x / d, x % d;
    assert x == q' * d + r';
    if q' > q {
      assert (q' - q) * d == r - r';
      MulAtLeast(q' - q, d);
    } else if q' < q {
      assert (q - q') * d == r' - r;
      MulAtLeast(q - q', d);
    }
  }

  /** Output `n`, at position `i` of pass number `pass`, is routed from input `i`
      (skipped when `i` is `inCount`). */
  lemma PassPosition(n: nat, pass: nat, inCount: nat, i: nat)
    requires i <= inCount
    requires n == PassStart(pass, inCount) + i
    ensures SourceChannel(n, inCount) == i
    ensures i == inCount ==> n + 1 == PassStart(pass + 1, inCount)
  {
    ModOfMultiplePlus(pass, inCount + 1, i);
  }

  /** The first output of pass number `pass`. */
  function PassStart(pass: nat, inCount: nat): nat
  {
    pass * (inCount + 1)
  }

  /** With no input channel, no output is selected, so `Process` changes nothing. */
  lemma NothingRoutedWithoutInputs(k: nat)
    ensures !Selected(k, 0)
  {
  }

  /** As written, the routing skips output `inCount` (the one after the first
      pass): with one input and two outputs the second output is never written. */
  lemma OutputAfterFirstPassSkipped(inCount: nat)
    ensures !Selected(inCount, inCount)
    ensures !Selected(1, 1)
  {
    ModOfMultiplePlus(0, inCount + 1, inCount);
  }

  /** Shifting an output index by one whole pass does not change its routing. */
  lemma {:induction false} RoutingIsPeriodic(k: nat, inCount: nat)
    ensures SourceChannel(k + inCount + 1, inCount) == SourceChannel(k, inCount)
    ensures Selected(k + inCount + 1, inCount) == Selected(k, inCount)
  {
    var d := inCount + 1;
    ModOfMultiplePlus(k / d, d, k % d);
    ModOfMultiplePlus(k / d + 1, d, k % d);
    assert k == (k / d) * d + k % d;
    assert k + d == (k / d + 1) * d + k % d;
  }

  /** The pass-by-pass table and the closed form agree on every output. */
  lemma {:induction false} RoutingTableClosedForm(inCount: nat, outCount: nat)
    ensures |RoutingTable(inCount, outCount)| == outCount
    ensures forall k :: 0 <= k < outCount ==>
      RoutingTable(inCount, outCount)[k] ==
        (if Selected(k, inCount) then Some(SourceChannel(k, inCount)) else None)
    decreases outCount
  {
    var d := inCount + 1;
    var t := RoutingTable(inCount, outCount);
    if outCount <= d {
      forall k | 0 <= k < outCount
        ensures t[k] == (if Selected(k, inCount) then Some(SourceChannel(k, inCount)) else None)
      {
        ModOfMultiplePlus(0, d, k);
      }
    } else {
      var rest := RoutingTable(inCount, outCount - d);
      RoutingTableClosedForm(inCount, outCount - d);
      forall k | 0 <= k < outCount
        ensures t[k] == (if Selected(k, inCount) then Some(SourceChannel(k, inCount)) else None)
      {
        if k < d {
          ModOfMultiplePlus(0, d, k);
        } else {
          RoutingIsPeriodic(k - d, inCount);
          assert t[k] == rest[k - d];
        }
      }
    }
  }

  /** A corollary of the closed form: every input the routing names exists,
      and there is one entry per output. */
  lemma {:induction false} RoutingTableReadsExistingInputs(inCount: nat, outCount: nat)
    ensures |RoutingTable(inCount, outCount)| == outCount
    ensures forall k :: 0 <= k < outCount && RoutingTable(inCount, outCount)[k].Some? ==>
      RoutingTable(inCount, outCount)[k].value < inCount
  {
    RoutingTableClosedForm(inCount, outCount);
  }

  /** A corollary of the closed form: the routing of output `k` does not depend
      on how many outputs follow it, so routing fewer outputs routes the ones it
      has exactly as routing more would. */
  lemma {:induction false} RoutingTablePrefix(inCount: nat, m: nat, n: nat)
    requires m <= n
    ensures |RoutingTable(inCount, n)| == n
    ensures RoutingTable(inCount, m) == RoutingTable(inCount, n)[..m]
  {
    RoutingTableClosedForm(inCount, m);
    RoutingTableClosedForm(inCount, n);
  }

  /** The buffers of a list of channels, the frame of `Process`. */
  function Buffers<S>(channels: seq<VstAudioBuffer<S>>): set<array<S>>
  {
    set k | 0 <= k < |channels| :: channels[k].Samples
  }

  /** No two channels share a buffer. */
  predicate Separate<S>(inChannels: seq<VstAudioBuffer<S>>, outChannels: seq<VstAudioBuffer<S>>)
  {
    (forall j, k :: 0 <= j < k < |outChannels| ==> outChannels[j].Samples != outChannels[k].Samples) &&
    (forall i, k :: 0 <= i < |inChannels| && 0 <= k < |outChannels| ==>
       inChannels[i].Samples != outChannels[k].Samples)
  }

  /** What `Process` needs of its channels: every output it writes is writable
      and as long as the input it is copied from, and no two channels share a
      buffer. */
  predicate Routable<S>(inChannels: seq<VstAudioBuffer<S>>, outChannels: seq<VstAudioBuffer<S>>)
  {
    var inCount := |inChannels|;
    (forall k :: 0 <= k < |outChannels| && Selected(k, inCount) ==>
       outChannels[k].CanWrite &&
       outChannels[k].SampleCount() == inChannels[SourceChannel(k, inCount)].SampleCount()) &&
    Separate(inChannels, outChannels)
  }

  /** What the cyclic routing needs: every output is writable and as long as
      the input repeated into it, and no two channels share a buffer. */
  predicate CyclicRoutable<S>(inChannels: seq<VstAudioBuffer<S>>, outChannels: seq<VstAudioBuffer<S>>)
  {
    (|inChannels| > 0 ==> forall k :: 0 <= k < |outChannels| ==>
       outChannels[k].CanWrite &&
       outChannels[k].SampleCount() == inChannels[k % |inChannels|].SampleCount()) &&
    Separate(inChannels, outChannels)
  }

  /** The samples held by each channel. */
  ghost function Contents<S>(channels: seq<VstAudioBuffer<S>>): (c: seq<seq<S>>)
    reads Buffers(channels)
    ensures |c| == |channels|
    ensures forall k :: 0 <= k < |channels| ==> c[k] == channels[k].Samples[..]
  {
    seq(|channels|, k reads Buffers(channels) requires 0 <= k < |channels| => channels[k].Samples[..])
  }

  /** The samples output `k` should hold after routing, given the samples `ins`
      of the inputs and `outs` of the outputs before it. */
  ghost function Routed<S>(ins: seq<seq<S>>, outs: seq<seq<S>>, k: nat): seq<S>
    requires k < |outs|
  {
    if Selected(k, |ins|) then ins[SourceChannel(k, |ins|)] else outs[k]
  }

  /** The outputs once the routing has reached output `n`: outputs below `n`
      hold their routed samples, the others still hold their own. */
  ghost function RoutedUpTo<S>(ins: seq<seq<S>>, outs: seq<seq<S>>, n: nat): (r: seq<seq<S>>)
    ensures |r| == |outs|
    ensures forall k :: 0 <= k < |outs| ==> r[k] == if k < n then Routed(ins, outs, k) else outs[k]
  {
    seq(|outs|, k requires 0 <= k < |outs| => if k < n then Routed(ins, outs, k) else outs[k])
  }

  /** Routing output `n` extends the routed prefix by one. */
  lemma RoutedUpToStep<S>(ins: seq<seq<S>>, outs: seq<seq<S>>, n: nat)
    requires n < |outs|
    ensures RoutedUpTo(ins, outs, n + 1) == RoutedUpTo(ins, outs, n)[n := Routed(ins, outs, n)]
    ensures !Selected(n, |ins|) ==> RoutedUpTo(ins, outs, n + 1) == RoutedUpTo(ins, outs, n)
  {
  }

  /** Past the last output, the routed prefix covers every output. */
  lemma RoutedUpToBeyond<S>(ins: seq<seq<S>>, outs: seq<seq<S>>, n: nat)
    requires |outs| <= n
    ensures RoutedUpTo(ins, outs, n + 1) == RoutedUpTo(ins, outs, n)
  {
  }

  /** The outputs once the cyclic routing has reached output `n`. */
  ghost function CycledUpTo<S>(ins: seq<seq<S>>, outs: seq<seq<S>>, n: nat): (r: seq<seq<S>>)
    requires |ins| > 0
    ensures |r| == |outs|
    ensures forall k :: 0 <= k < |outs| ==> r[k] == if k < n then ins[k % |ins|] else outs[k]
  {
    seq(|outs|, k requires 0 <= k < |outs| => if k < n then ins[k % |ins|] else outs[k])
  }

  /** Copying output `n` of the cyclic routing extends its prefix by one. */
  lemma CycledUpToStep<S>(ins: seq<seq<S>>, outs: seq<seq<S>>, n: nat)
    requires |ins| > 0 && n < |outs|
    ensures CycledUpTo(ins, outs, n + 1) == CycledUpTo(ins, outs, n)[n := ins[n % |ins|]]
  {
  }

  /** The base audio processor: channel counts and tail size fixed by the
      derived plugin, plus sample rate and block size set by the host. */
  class VstPluginAudioProcessorBase {
    var InputCount: int
    var OutputCount: int
    var TailSize: int
    var SampleRate: real
    var BlockSize: int

    /** The default constructor leaves every count zero. */
    constructor Default()
      ensures InputCount == 0 && OutputCount == 0 && TailSize == 0
      ensures SampleRate == 0.0 && BlockSize == 0
    {
      InputCount, OutputCount, TailSize := 0, 0, 0;
      SampleRate, BlockSize := 0.0, 0;
    }

    /** The initialising constructor takes the counts as given. */
    constructor (inputCount: int, outputCount: int, tailSize: int)
      ensures InputCount == inputCount && OutputCount == outputCount && TailSize == tailSize
      ensures SampleRate == 0.0 && BlockSize == 0
    {
      InputCount, OutputCount, TailSize := inputCount, outputCount, tailSize;
      SampleRate, BlockSize := 0.0, 0;
    }

    /** Copies every sample of `source` into `dest`, leaving `source` as it was. */
    method Copy<S>(source: VstAudioBuffer<S>, dest: VstAudioBuffer<S>)
      requires source.SampleCount() == dest.SampleCount()
      requires dest.CanWrite
      modifies dest.Samples
      ensures dest.Samples[..] == old(source.Samples[..])
      ensures source.Samples[..] == old(source.Samples[..])
    {
      var i := 0;
      while i < source.Samples.Length
        invariant 0 <= i <= source.Samples.Length
        invariant source.Samples[..] == old(source.Samples[..])
        invariant forall j :: 0 <= j < i ==> dest.Samples[j] == old(source.Samples[j])
      {
        dest.Samples[i] := source.Samples[i];
        i := i + 1;
      }
    }

    /** `Copy` of input `i` into output `n`, stated for the whole channel lists:
        output `n` takes the input's samples and every other buffer keeps its own. */
    method CopyChannel<S>(inChannels: seq<VstAudioBuffer<S>>, outChannels: seq<VstAudioBuffer<S>>, i: nat, n: nat)
      requires i < |inChannels| && n < |outChannels|
      requires Separate(inChannels, outChannels)
      requires outChannels[n].CanWrite
      requires outChannels[n].SampleCount() == inChannels[i].SampleCount()
      modifies outChannels[n].Samples
      ensures Contents(outChannels) == old(Contents(outChannels))[n := old(inChannels[i].Samples[..])]
      ensures Contents(inChannels) == old(Contents(inChannels))
    {
      Copy(inChannels[i], outChannels[n]);
    }

    /** Routes input channels to output channels: output `k` receives a copy of
        input `k % (|inChannels| + 1)` when that remainder names an input and is
        left as it was otherwise; the inputs are not changed. */
    method Process<S>(inChannels: seq<VstAudioBuffer<S>>, outChannels: seq<VstAudioBuffer<S>>)
      requires Routable(inChannels, outChannels)
      modifies Buffers(outChannels)
      ensures forall k :: 0 <= k < |outChannels| ==>
        outChannels[k].Samples[..] ==
          if Selected(k, |inChannels|)
          then old(inChannels[SourceChannel(k, |inChannels|)].Samples[..])
          else old(outChannels[k].Samples[..])
      ensures forall i :: 0 <= i < |inChannels| ==>
        inChannels[i].Samples[..] == old(inChannels[i].Samples[..])
    {
      var inCount := |inChannels|;
      var outCount := |outChannels|;
      ghost var ins := Contents(inChannels);
      ghost var outs := Contents(outChannels);
      var n := 0;
      ghost var pass := 0;
      while n < outCount
        invariant 0 <= n <= outCount + 1
        invariant n <= outCount ==> n == PassStart(pass, inCount)
        invariant Contents(outChannels) == RoutedUpTo(ins, outs, n)
        invariant Contents(inChannels) == ins
      {
        var i := 0;
        while i < inCount && n < outCount
          invariant 0 <= i <= inCount
          invariant n == PassStart(pass, inCount) + i <= outCount
          invariant Contents(outChannels) == RoutedUpTo(ins, outs, n)
          invariant Contents(inChannels) == ins
        {
          PassPosition(n, pass, inCount, i);
          RoutedUpToStep(ins, outs, n);
          CopyChannel(inChannels, outChannels, i, n);
          i, n := i + 1, n + 1;
        }
        if n < outCount {
          PassPosition(n, pass, inCount, inCount);
          RoutedUpToStep(ins, outs, n);
        } else {
          RoutedUpToBeyond(ins, outs, n);
        }
        n, pass := n + 1, pass + 1;
      }
    }

    /** The routing `Process` evidently intends: with at least one input, every
        output `k` receives a copy of input `k % |inChannels|`, so the inputs are
        repeated across all outputs without a gap; with no input nothing changes. */
    method ProcessCyclic<S>(inChannels: seq<VstAudioBuffer<S>>, outChannels: seq<VstAudioBuffer<S>>)
      requires CyclicRoutable(inChannels, outChannels)
      modifies Buffers(outChannels)
      ensures forall k :: 0 <= k < |outChannels| ==>
        outChannels[k].Samples[..] ==
          if |inChannels| > 0
          then old(inChannels[k % |inChannels|].Samples[..])
          else old(outChannels[k].Samples[..])
      ensures forall i :: 0 <= i < |inChannels| ==>
        inChannels[i].Samples[..] == old(inChannels[i].Samples[..])
    {
      var inCount := |inChannels|;
      var outCount := |outChannels|;
      if inCount == 0 {
        return;
      }
      ghost var ins := Contents(inChannels);
      ghost var outs := Contents(outChannels);
      var n := 0;
      while n < outCount
        invariant 0 <= n <= outCount
        invariant Contents(outChannels) == CycledUpTo(ins, outs, n)
        invariant Contents(inChannels) == ins
      {
        CycledUpToStep(ins, outs, n);
        CopyChannel(inChannels, outChannels, n % inCount, n);
        n := n + 1;
      }
    }

    /** The pan law is not supported: the request is always declined. */
    method SetPanLaw(panLaw: int, gain: real) returns (accepted: bool)
      ensures !accepted
    {
      accepted := false;
    }
  }
}
