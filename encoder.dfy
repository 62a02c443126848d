/**
 * The adapter object (struct enc_encoder) and its entry points: creation and
 * teardown, the per-call encode step, and the host's queries.
 */
module Encoder {
  import opened Wrappers
  import opened Ffmpeg
  import opened Speakers
  import opened LayoutMapping
  import opened SampleRate
  import opened Negotiation
  import opened EncodeCycle

  /** DARRAY(uint8_t): a growable byte array. */
  class DArray {
    var items: seq<bv8>

    constructor ()
      ensures items == []
    {
      items := [];
    }

    /** da_resize: truncates, or extends with zero bytes. */
    method Resize(size: nat)
      modifies this
      ensures size <= |old(items)| ==> items == old(items)[..size]
      ensures size > |old(items)| ==> items == old(items) + seq(size - |old(items)|, _ => 0)
    {
      if size <= |items| {
        items := items[..size];
      } else {
        items := items + seq(size - |items|, _ => 0);
      }
    }

    /** da_push_back_array */
    method PushBackArray(bytes: seq<bv8>)
      modifies this
      ensures items == old(items) + bytes
    {
      items := items + bytes;
    }

    /** da_free */
    method Free()
      modifies this
      ensures items == []
    {
      items := [];
    }
  }

  /** The fields of AVCodecContext that the adapter writes or reads. */
  class CodecContext {
    var bitRate: int
    var layout: ChannelLayout
    var sampleRate: int
    var sampleFmt: int
    var frameSize: int
    var timeBase: Rational
    var strictStdCompliance: int
    var globalHeader: bool   // AV_CODEC_FLAG_GLOBAL_HEADER in flags

    /** avcodec_alloc_context3; the adapter overwrites every field it relies on. */
    constructor ()
    {
      bitRate := 0;
      layout := NoLayout;
      sampleRate := 0;
      sampleFmt := SampleFmtNone;
      frameSize := 0;
      timeBase := Rational(0, 1);
      strictStdCompliance := 0;
      globalHeader := false;
    }
  }

  /** The fields of AVFrame that the adapter writes. */
  class AudioFrame {
    var format: int
    var layout: ChannelLayout
    var sampleRate: int
    var nbSamples: int
    var pts: int

    /** av_frame_alloc */
    constructor ()
    {
      format := SampleFmtNone;
      layout := NoLayout;
      sampleRate := 0;
      nbSamples := 0;
      pts := 0;
    }
  }

  datatype EncoderType = EncoderAudio | EncoderVideo

  /** struct encoder_packet, owned by the host; `data` is where the payload is read from. */
  datatype EncoderPacket = EncoderPacket(
    data: DArray?,
    size: int,
    pts: int,
    dts: int,
    timebaseNum: int,
    timebaseDen: int,
    kind: EncoderType,
    keyframe: bool)

  /** struct audio_convert_info, the format the host is asked to deliver. */
  datatype AudioConvertInfo = AudioConvertInfo(format: int, samplesPerSec: int, speakers: SpeakerLayout, allowClipping: bool)

  /** av_samples_alloc, seen as one buffer of `bytes` bytes per plane. */
  method AllocPlanes(planes: nat, bytes: nat) returns (s: seq<array<bv8>>)
    ensures |s| == planes
    ensures forall i :: 0 <= i < planes ==> fresh(s[i]) && s[i].Length == bytes
    ensures forall i, j :: 0 <= i < j < planes ==> s[i] != s[j]
  {
    s := [];
    while |s| < planes
      invariant |s| <= planes
      invariant forall i :: 0 <= i < |s| ==> fresh(s[i]) && s[i].Length == bytes
      invariant forall i, j :: 0 <= i < j < |s| ==> s[i] != s[j]
    {
      var plane := new bv8[bytes];
      s := s + [plane];
    }
  }

  /** struct enc_encoder. */
  class AudioEncoder {
    var codecType: string
    var codec: Option<Codec>
    var context: CodecContext?
    var samples: seq<array<bv8>>
    var aframe: AudioFrame?
    var totalSamples: int
    const packetBuffer: DArray
    var audioPlanes: nat
    var audioSize: nat
    var frameSize: int
    var frameSizeBytes: int
    var freed: bool   // bfree has been called

    /** bzalloc: every field zero or NULL. */
    constructor ()
      ensures codec.None? && context == null && aframe == null && samples == [] && !freed
      ensures totalSamples == 0 && fresh(packetBuffer) && packetBuffer.items == []
    {
      codecType := "";
      codec := None;
      context := null;
      samples := [];
      aframe := null;
      totalSamples := 0;
      packetBuffer := new DArray();
      audioPlanes := 0;
      audioSize := 0;
      frameSize := 0;
      frameSizeBytes := 0;
      freed := false;
    }

    /** A fully created encoder: every resource held, one frame of bytes per plane. */
    ghost predicate Valid()
      reads this
    {
      && context != null && aframe != null && codec.Some? && !freed
      && frameSize > 0 && frameSizeBytes == frameSize * audioSize
      && |samples| >= audioPlanes
      && (forall i :: 0 <= i < |samples| ==> samples[i].Length >= frameSizeBytes)
      && (forall i, j :: 0 <= i < j < |samples| ==> samples[i] != samples[j])
    }

    /** Everything enc_destroy releases is released. */
    ghost predicate Released()
      reads this, packetBuffer
    {
      context == null && aframe == null && samples == [] && packetBuffer.items == [] && freed
    }

    /** The adapter, its context and its frame hold the configuration `cfg`. */
    ghost predicate Holds(cfg: Config)
      reads this, context, aframe
    {
      && context != null && aframe != null
      && codecType == cfg.codecType && codec == Some(cfg.codec)
      && context.bitRate == cfg.openedBitRate && context.layout == cfg.layout
      && context.sampleRate == cfg.sampleRate && context.sampleFmt == cfg.sampleFmt
      && context.timeBase == cfg.timeBase
      && context.strictStdCompliance == -2 && context.globalHeader
      && aframe.format == cfg.sampleFmt && aframe.layout == cfg.layout && aframe.sampleRate == cfg.sampleRate
      && frameSize == cfg.frameSize && frameSizeBytes == cfg.frameSizeBytes
      && audioPlanes == cfg.audioPlanes && audioSize == cfg.audioSize
    }

    /** enc_destroy: frees the sample buffer, the context, the frame and the packet buffer. */
    method Destroy()
      modifies this, packetBuffer
      ensures Released()
    {
      if |samples| > 0 {
        samples := [];
      }
      if context != null {
        context := null;
      }
      if aframe != null {
        aframe := null;
      }
      packetBuffer.Free();
      freed := true;
    }

    /**
     * The middle of enc_create, from the context allocation to the flags: bit rate,
     * channel layout, sample rate and format, then the sizes of init_sizes.
     */
    method ConfigureContext(bitrate: int, lossless: bool, host: HostAudio, lib: Library, init: EngineInit)
      requires context == null && codec.Some?
      modifies this`context, this`audioPlanes, this`audioSize
      ensures fresh(context)
      ensures context.bitRate == ContextBitRate(bitrate, lossless)
      ensures context.layout == ContextLayout(host.speakers, host.channels, lib.defaultLayout)
      ensures context.sampleRate == SnappedRate(host.sampleRate, codec.value.supportedRates)
      ensures context.sampleFmt == ContextSampleFormat(codec.value.sampleFmts)
      ensures context.strictStdCompliance == -2 && context.globalHeader
      ensures audioPlanes == init.audioPlanes && audioSize == init.audioSize
    {
      var ctx := new CodecContext();
      context := ctx;
      if lossless {
        ctx.bitRate := -1;   // set by the encoder when it opens
      } else {
        ctx.bitRate := bitrate * 1000;
      }
      ctx.layout := lib.defaultLayout(host.channels);
      if host.speakers == Speakers4Point1 {
        ctx.layout := NativeLayout(Mask4Point1);
      }
      if host.speakers == Speakers2Point1 {
        ctx.layout := NativeLayout(MaskSurround);
      }
      ctx.sampleFmt := match codec.value.sampleFmts
        case None => SampleFmtFltp
        case Some(fs) => if |fs| > 0 then fs[0] else SampleFmtNone;
      SetSampleRate(host.sampleRate);
      // init_sizes
      audioPlanes := init.audioPlanes;
      audioSize := init.audioSize;
      ctx.strictStdCompliance := -2;
      ctx.globalHeader := true;
    }

    /** The context's sample rate: the host rate, snapped to the codec's list when it has one. */
    method SetSampleRate(hostRate: int)
      requires context != null && codec.Some?
      modifies context`sampleRate
      ensures context.sampleRate == SnappedRate(hostRate, codec.value.supportedRates)
    {
      context.sampleRate := hostRate;
      if codec.value.supportedRates.Some? {
        var closest := ClosestSupportedRate(context.sampleRate, codec.value.supportedRates.value);
        if closest != 0 {
          context.sampleRate := closest;
        }
      }
    }

    /** initialize_codec: allocates the frame, opens the context and allocates the sample planes. */
    method InitializeCodec(init: EngineInit) returns (ok: bool)
      requires context != null && aframe == null && samples == [] && codec.Some? && !freed
      requires codec.value.descriptor.Some?
      modifies this`aframe, this`frameSize, this`frameSizeBytes, this`samples
      modifies context`frameSize, context`timeBase, context`bitRate
      ensures ok <==> init.frameAllocated && init.openStatus >= 0 && init.samplesStatus >= 0
      ensures aframe != null ==> fresh(aframe)
      ensures ok ==> Valid() && |samples| == audioPlanes && forall i :: 0 <= i < |samples| ==> fresh(samples[i])
      ensures ok ==>
        && context.frameSize == init.openedFrameSize && context.timeBase == init.openedTimeBase
        && context.bitRate == (if codec.value.descriptor.value.lossless then init.openedBitRate else old(context.bitRate))
        && aframe.format == context.sampleFmt && aframe.layout == context.layout
        && aframe.sampleRate == context.sampleRate
        && frameSize == WorkingFrameSize(init.openedFrameSize) && frameSizeBytes == frameSize * audioSize
    {
      if !init.frameAllocated {
        return false;
      }
      aframe := new AudioFrame();
      if init.openStatus < 0 {
        // the engine's message goes to the host's last-error slot
        return false;
      }
      context.frameSize := init.openedFrameSize;
      context.timeBase := init.openedTimeBase;
      if codec.value.descriptor.value.lossless {
        // the encoder sets the bit rate it will produce
        context.bitRate := init.openedBitRate;
      }
      aframe.format := context.sampleFmt;
      aframe.layout := context.layout;
      aframe.sampleRate := context.sampleRate;
      frameSize := context.frameSize;
      if frameSize == 0 {
        frameSize := 1024;
      }
      frameSizeBytes := frameSize * audioSize;
      if init.samplesStatus < 0 {
        return false;
      }
      samples := AllocPlanes(audioPlanes, frameSizeBytes);
      return true;
    }

    /**
     * The rest of enc_create once the context is allocated: fill the context, then
     * initialize_codec. On success the adapter holds the settled configuration.
     */
    method FillAndInitialize(bitrate: int, lossless: bool, host: HostAudio, lib: Library, init: EngineInit)
      returns (ok: bool)
      requires context == null && aframe == null && samples == [] && !freed
      requires codec.Some? && codec.value.descriptor == Some(Descriptor(lossless))
      modifies this`context, this`audioPlanes, this`audioSize
      modifies this`aframe, this`frameSize, this`frameSizeBytes, this`samples
      ensures fresh(context) && (aframe != null ==> fresh(aframe))
      ensures ok <==> init.frameAllocated && init.openStatus >= 0 && init.samplesStatus >= 0
      ensures ok ==>
        && Valid() && Holds(Settled(codecType, codec.value, bitrate, lossless, host, lib, init))
        && |samples| == audioPlanes && forall i :: 0 <= i < |samples| ==> fresh(samples[i])
    {
      ConfigureContext(bitrate, lossless, host, lib, init);
      ok := InitializeCodec(init);
    }

    /** The memcpy loop of enc_encode: one frame of bytes into each of the first audio_planes planes. */
    method CopyPlanes(frame: seq<seq<bv8>>)
      requires Valid()
      requires |frame| >= audioPlanes
      requires forall i :: 0 <= i < audioPlanes ==> |frame[i]| >= frameSizeBytes
      modifies set i | 0 <= i < |samples| :: samples[i]
      ensures forall i :: 0 <= i < audioPlanes ==>
        samples[i][..] == frame[i][..frameSizeBytes] + old(samples[i][frameSizeBytes..])
      ensures forall i :: audioPlanes <= i < |samples| ==> samples[i][..] == old(samples[i][..])
    {
      var i := 0;
      while i < audioPlanes
        invariant 0 <= i <= audioPlanes
        invariant forall j :: 0 <= j < i ==>
          samples[j][..] == frame[j][..frameSizeBytes] + old(samples[j][frameSizeBytes..])
        invariant forall j :: i <= j < |samples| ==> samples[j][..] == old(samples[j][..])
      {
        var plane := samples[i];
        forall k | 0 <= k < frameSizeBytes {
          plane[k] := frame[i][k];
        }
        assert plane[..] == frame[i][..frameSizeBytes] + old(plane[frameSizeBytes..]);
        i := i + 1;
      }
    }

    /**
     * do_encode: stamps and submits the frame, then stages the packet the engine
     * returns, if any. `packet` and `receivedIn` are the host's values before the call.
     */
    method DoEncode(packet: EncoderPacket, receivedIn: bool, step: EngineStep, lib: Library)
      returns (ok: bool, received: bool, out: EncoderPacket)
      requires Valid()
      modifies this`totalSamples, aframe`nbSamples, aframe`pts, aframe`layout, packetBuffer
      ensures aframe.nbSamples == frameSize && aframe.layout == context.layout
      ensures aframe.pts == lib.rescaleQ(old(totalSamples), Rational(1, context.sampleRate), context.timeBase)
      ensures totalSamples == old(totalSamples) + SamplesAdvanced(frameSize, step)
      ensures ok == Succeeded(Outcome(step))
      ensures received == if ok then Outcome(step).GotPacket? else receivedIn
      ensures !Outcome(step).GotPacket? ==> out == packet && packetBuffer.items == old(packetBuffer.items)
      ensures Outcome(step).GotPacket? ==>
        && packetBuffer.items == step.packet.data
        && out == packet.(
             data := packetBuffer,
             size := |step.packet.data|,
             pts := lib.rescaleTs(step.packet.pts, context.timeBase, Rational(1, context.sampleRate)),
             dts := lib.rescaleTs(step.packet.dts, context.timeBase, Rational(1, context.sampleRate)),
             kind := EncoderAudio,
             timebaseNum := 1,
             timebaseDen := context.sampleRate)
    {
      var timeBase := Rational(1, context.sampleRate);
      aframe.nbSamples := frameSize;
      aframe.pts := lib.rescaleQ(totalSamples, Rational(1, context.sampleRate), context.timeBase);
      aframe.layout := context.layout;
      if step.fillStatus < 0 {
        return false, receivedIn, packet;
      }
      totalSamples := totalSamples + frameSize;

      var ret := step.sendStatus;
      if ret == 0 {
        ret := step.receiveStatus;
      }
      var gotPacket := ret == 0;
      if ret == ErrorEof || ret == ErrorAgain {
        ret := 0;
      }
      if ret < 0 {
        return false, receivedIn, packet;
      }
      received := gotPacket;
      if !gotPacket {
        return true, received, packet;
      }

      packetBuffer.Resize(0);
      packetBuffer.PushBackArray(step.packet.data);
      out := packet.(
        pts := lib.rescaleTs(step.packet.pts, context.timeBase, timeBase),
        dts := lib.rescaleTs(step.packet.dts, context.timeBase, timeBase),
        data := packetBuffer,
        size := |step.packet.data|,
        kind := EncoderAudio,
        timebaseNum := 1,
        timebaseDen := context.sampleRate);
      ok := true;
    }

    /** enc_encode: copies the host's planes into the sample buffers, then runs do_encode. */
    method EncEncode(frame: seq<seq<bv8>>, packet: EncoderPacket, receivedIn: bool, step: EngineStep, lib: Library)
      returns (ok: bool, received: bool, out: EncoderPacket)
      requires Valid()
      requires |frame| >= audioPlanes
      requires forall i :: 0 <= i < audioPlanes ==> |frame[i]| >= frameSizeBytes
      modifies set i | 0 <= i < |samples| :: samples[i]
      modifies this`totalSamples, aframe`nbSamples, aframe`pts, aframe`layout, packetBuffer
      ensures Valid()
      ensures forall i :: 0 <= i < audioPlanes ==>
        samples[i][..] == frame[i][..frameSizeBytes] + old(samples[i][frameSizeBytes..])
      ensures forall i :: audioPlanes <= i < |samples| ==> samples[i][..] == old(samples[i][..])
      ensures aframe.nbSamples == frameSize && aframe.layout == context.layout
      ensures aframe.pts == lib.rescaleQ(old(totalSamples), Rational(1, context.sampleRate), context.timeBase)
      ensures totalSamples == old(totalSamples) + SamplesAdvanced(frameSize, step)
      ensures ok == Succeeded(Outcome(step))
      ensures received == if ok then Outcome(step).GotPacket? else receivedIn
      ensures !Outcome(step).GotPacket? ==> out == packet && packetBuffer.items == old(packetBuffer.items)
      ensures Outcome(step).GotPacket? ==>
        && packetBuffer.items == step.packet.data
        && out == packet.(
             data := packetBuffer,
             size := |step.packet.data|,
             pts := lib.rescaleTs(step.packet.pts, context.timeBase, Rational(1, context.sampleRate)),
             dts := lib.rescaleTs(step.packet.dts, context.timeBase, Rational(1, context.sampleRate)),
             kind := EncoderAudio,
             timebaseNum := 1,
             timebaseDen := context.sampleRate)
    {
      CopyPlanes(frame);
      ok, received, out := DoEncode(packet, receivedIn, step, lib);
    }

    /** enc_frame_size */
    function FrameSizeQuery(): (n: int)
      reads this
      requires Valid()
      ensures n > 0 && n == frameSize
    {
      frameSize
    }

    /** enc_audio_info: sets the format, rate and speakers of `info` and leaves the rest. */
    function AudioInfo(info: AudioConvertInfo, lib: Library): (r: AudioConvertInfo)
      reads this, context
      requires context != null
      ensures r.allowClipping == info.allowClipping
      ensures r.format == lib.convertSampleFormat(context.sampleFmt)
      ensures r.samplesPerSec == Uint32(context.sampleRate)
      ensures 0 <= context.sampleRate < TwoTo32 ==> r.samplesPerSec == context.sampleRate
      ensures r.speakers == SpeakersForChannels(context.layout.nbChannels)
      ensures var n := context.layout.nbChannels;
        && (r.speakers == SpeakersUnknown <==> n == 0 || n == 7 || n > 8)
        && (r.speakers != SpeakersUnknown ==> SpeakerValue(r.speakers) == n && SpeakerChannels(r.speakers) == n)
    {
      info.(
        format := lib.convertSampleFormat(context.sampleFmt),
        samplesPerSec := Uint32(context.sampleRate),
        speakers := SpeakersForChannels(context.layout.nbChannels))
    }

    /** enc_audio_info_float: the same answer, with clipping allowed. */
    function AudioInfoFloat(info: AudioConvertInfo, lib: Library): (r: AudioConvertInfo)
      reads this, context
      requires context != null
      ensures r.allowClipping
      ensures r.(allowClipping := info.allowClipping) == AudioInfo(info, lib)
    {
      AudioInfo(info, lib).(allowClipping := true)
    }
  }

  /**
   * enc_create: finds the encoder, checks the bitrate, fills the context, opens it
   * and allocates the buffers. Every failure destroys the partly built adapter
   * (`attempt`) and returns null.
   */
  method EncCreate(settingBitrate: int, primary: string, alt: Option<string>, host: HostAudio,
                   lib: Library, init: EngineInit)
    returns (enc: AudioEncoder?, ghost attempt: AudioEncoder)
    ensures fresh(attempt)
    ensures var r := Negotiate(settingBitrate, primary, alt, host, lib, init);
      && (enc == null <==> r.Failure?)
      && (enc == null ==> attempt.Released())
      && (enc != null ==>
            && enc == attempt && enc.Valid() && enc.Holds(r.value)
            && enc.totalSamples == 0 && enc.packetBuffer.items == []
            && |enc.samples| == enc.audioPlanes
            && fresh(enc.context) && fresh(enc.aframe) && fresh(enc.packetBuffer)
            && forall i :: 0 <= i < |enc.samples| ==> fresh(enc.samples[i]))
  {
    var bitrate := Int32(settingBitrate);
    enc := new AudioEncoder();
    attempt := enc;
    enc.codec := lib.findEncoder(primary);
    enc.codecType := primary;
    if enc.codec.None? && alt.Some? {
      enc.codec := lib.findEncoder(alt.value);
      enc.codecType := alt.value;
    }
    assert LookupCodec(lib.findEncoder, primary, alt) == Lookup(enc.codec, enc.codecType);
    if enc.codec.None? {
      enc.Destroy();
      return null, attempt;
    }
    var codec := enc.codec.value;
    if codec.descriptor.None? {
      enc.Destroy();
      return null, attempt;
    }
    var lossless := codec.descriptor.value.lossless;
    if bitrate == 0 && !lossless {
      enc.Destroy();
      return null, attempt;
    }
    if !init.contextAllocated {
      enc.Destroy();
      return null, attempt;
    }
    var ok := enc.FillAndInitialize(bitrate, lossless, host, lib, init);
    if ok {
      assert Negotiate(settingBitrate, primary, alt, host, lib, init)
        == Success(Settled(enc.codecType, codec, bitrate, lossless, host, lib, init));
      return enc, attempt;
    }
    enc.Destroy();
    return null, attempt;
  }
}
