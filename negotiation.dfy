/**
 * The parameters enc_create and initialize_codec settle on, as a function of
 * the settings, the host audio stream and the outcomes of the engine calls.
 */
module Negotiation {
  import opened Wrappers
  import opened Ffmpeg
  import opened Speakers
  import opened LayoutMapping
  import opened SampleRate

  /** The host audio stream: sample rate, channel count and speaker layout. */
  datatype HostAudio = HostAudio(sampleRate: int, channels: nat, speakers: SpeakerLayout)

  /** What the engine calls made during creation return. */
  datatype EngineInit = EngineInit(
    contextAllocated: bool,   // avcodec_alloc_context3 returned a context
    frameAllocated: bool,     // av_frame_alloc returned a frame
    openStatus: int,          // avcodec_open2
    openedFrameSize: nat,     // context->frame_size after the open
    openedTimeBase: Rational, // context->time_base after the open
    openedBitRate: int,       // context->bit_rate after the open, which a lossless encoder sets
    audioPlanes: nat,         // get_audio_planes for the context's sample format
    audioSize: nat,           // get_audio_size for the context's sample format
    samplesStatus: int)       // av_samples_alloc

  /** The reasons creation jumps to `fail`. */
  datatype CreateError =
    | CodecNotFound
    | NoDescriptor
    | InvalidBitrate
    | ContextAllocFailed
    | FrameAllocFailed
    | OpenFailed(status: int)
    | SamplesAllocFailed(status: int)

  /**
   * The configuration a successful creation leaves in the adapter and its context.
   * `bitRate` is the bit_rate requested before the open, `openedBitRate` the one the
   * context holds after it.
   */
  datatype Config = Config(
    codecType: string,
    codec: Codec,
    bitRate: int,
    openedBitRate: int,
    layout: ChannelLayout,
    sampleRate: int,
    sampleFmt: int,
    timeBase: Rational,
    frameSize: int,
    frameSizeBytes: int,
    audioPlanes: nat,
    audioSize: nat)

  /** The encoder found and the name recorded as `type`. */
  datatype Lookup = Lookup(codec: Option<Codec>, codecType: string)

  /** Look up the primary encoder name, and the alternate one when the primary is missing. */
  function LookupCodec(findEncoder: string -> Option<Codec>, primary: string, alt: Option<string>): (r: Lookup)
    ensures r.codec == findEncoder(r.codecType)
    ensures r.codecType == primary || (findEncoder(primary).None? && alt == Some(r.codecType))
    ensures findEncoder(primary).None? && alt.Some? ==> r.codecType == alt.value
    ensures r.codec.None? <==> findEncoder(primary).None? && (alt.None? || findEncoder(alt.value).None?)
  {
    var codec := findEncoder(primary);
    if codec.None? && alt.Some? then Lookup(findEncoder(alt.value), alt.value) else Lookup(codec, primary)
  }

  const TwoTo32: int := 0x1_0000_0000

  /** The C conversion to a 32-bit int: the value in [-2^31, 2^31) congruent to x modulo 2^32. */
  function Int32(x: int): (r: int)
    ensures -0x8000_0000 <= r < 0x8000_0000
    ensures (x - r) % TwoTo32 == 0
  {
    var r := (x + 0x8000_0000) % TwoTo32 - 0x8000_0000;
    assert x - r == (x + 0x8000_0000) / TwoTo32 * TwoTo32;
    r
  }

  /** The C conversion to uint32_t: the value in [0, 2^32) congruent to x modulo 2^32. */
  function Uint32(x: int): (r: int)
    ensures 0 <= r < TwoTo32
    ensures (x - r) % TwoTo32 == 0
  {
    var r := x % TwoTo32;
    assert x - r == x / TwoTo32 * TwoTo32;
    r
  }

  /**
   * A zero bitrate is refused unless the codec is lossless: exactly the settings
   * for which the context's bit_rate would be 0.
   */
  function BitrateAccepted(bitrate: int, lossless: bool): (ok: bool)
    ensures !ok <==> bitrate == 0 && !lossless
    ensures ok <==> ContextBitRate(bitrate, lossless) != 0
  {
    bitrate != 0 || lossless
  }

  /** The context's bit_rate: -1 (left to the encoder) for lossless codecs, else kbps times 1000. */
  function ContextBitRate(bitrate: int, lossless: bool): (b: int)
    ensures b == -1 <==> lossless
    ensures !lossless ==> b % 1000 == 0 && b / 1000 == bitrate
  {
    if lossless then -1 else bitrate * 1000
  }

  /**
   * The first sample format the codec lists, or planar float when it lists none;
   * an empty list yields its terminator AV_SAMPLE_FMT_NONE.
   */
  function ContextSampleFormat(sampleFmts: Option<FormatList>): (f: int)
    ensures sampleFmts.None? ==> f == SampleFmtFltp
    ensures sampleFmts.Some? && |sampleFmts.value| > 0 ==> f == sampleFmts.value[0]
    ensures sampleFmts == Some([]) ==> f == SampleFmtNone
    ensures sampleFmts.Some? ==> (f == SampleFmtNone <==> sampleFmts.value == [])
  {
    match sampleFmts
    case None => SampleFmtFltp
    case Some(fs) => if |fs| > 0 then fs[0] else SampleFmtNone
  }

  /** The engine's frame size, or 1024 when the engine leaves it 0. */
  function WorkingFrameSize(engineFrameSize: nat): (n: nat)
    ensures n > 0
    ensures engineFrameSize != 0 ==> n == engineFrameSize
  {
    if engineFrameSize != 0 then engineFrameSize else 1024
  }

  /** The outcome of enc_create: the configuration it settles on, or why it fails. */
  function Negotiate(settingBitrate: int, primary: string, alt: Option<string>, host: HostAudio,
                     lib: Library, init: EngineInit): (r: Result<Config, CreateError>)
    ensures r.Success? ==> r.value.codec.descriptor.Some? && lib.findEncoder(r.value.codecType) == Some(r.value.codec)
    ensures r.Success? ==> r.value.frameSize > 0 && r.value.frameSizeBytes == r.value.frameSize * r.value.audioSize
    ensures r.Success? ==> r.value.bitRate != 0 && (r.value.bitRate == -1 <==> r.value.codec.descriptor.value.lossless)
    ensures r.Success? ==>
      || r.value.sampleRate == host.sampleRate
      || (r.value.codec.supportedRates.Some? && r.value.sampleRate in r.value.codec.supportedRates.value)
    ensures r == Failure(InvalidBitrate) ==> Int32(settingBitrate) == 0
  {
    var bitrate := Int32(settingBitrate);
    var lookup := LookupCodec(lib.findEncoder, primary, alt);
    if lookup.codec.None? then Failure(CodecNotFound)
    else
      var codec := lookup.codec.value;
      if codec.descriptor.None? then Failure(NoDescriptor)
      else
        var lossless := codec.descriptor.value.lossless;
        if !BitrateAccepted(bitrate, lossless) then Failure(InvalidBitrate)
        else if !init.contextAllocated then Failure(ContextAllocFailed)
        else if !init.frameAllocated then Failure(FrameAllocFailed)
        else if init.openStatus < 0 then Failure(OpenFailed(init.openStatus))
        else if init.samplesStatus < 0 then Failure(SamplesAllocFailed(init.samplesStatus))
        else
          Success(Settled(lookup.codecType, codec, bitrate, lossless, host, lib, init))
  }

  /** The configuration of a creation whose every step succeeded. */
  function Settled(codecType: string, codec: Codec, bitrate: int, lossless: bool, host: HostAudio,
                   lib: Library, init: EngineInit): Config
  {
    var frameSize := WorkingFrameSize(init.openedFrameSize);
    Config(
      codecType, codec,
      ContextBitRate(bitrate, lossless),
      if lossless then init.openedBitRate else ContextBitRate(bitrate, lossless),
      ContextLayout(host.speakers, host.channels, lib.defaultLayout),
      SnappedRate(host.sampleRate, codec.supportedRates),
      ContextSampleFormat(codec.sampleFmts),
      init.openedTimeBase,
      frameSize, frameSize * init.audioSize,
      init.audioPlanes, init.audioSize)
  }

  /** Creation fails for want of an encoder exactly when neither name resolves. */
  lemma CreateNeedsCodec(settingBitrate: int, primary: string, alt: Option<string>, host: HostAudio,
                         lib: Library, init: EngineInit)
    ensures Negotiate(settingBitrate, primary, alt, host, lib, init) == Failure(CodecNotFound)
      <==> lib.findEncoder(primary).None? && (alt.None? || lib.findEncoder(alt.value).None?)
    ensures lib.findEncoder(primary).Some? && Negotiate(settingBitrate, primary, alt, host, lib, init).Success? ==>
      Negotiate(settingBitrate, primary, alt, host, lib, init).value.codecType == primary
  {
  }

  /**
   * With an encoder and its descriptor found, a zero bitrate fails creation exactly
   * for lossy codecs, and a successful creation sets bit_rate to -1 or kbps * 1000.
   * The open replaces the -1 of a lossless codec with the encoder's own value.
   */
  lemma CreateBitrate(settingBitrate: int, primary: string, alt: Option<string>, host: HostAudio,
                      lib: Library, init: EngineInit)
    requires LookupCodec(lib.findEncoder, primary, alt).codec.Some?
    requires LookupCodec(lib.findEncoder, primary, alt).codec.value.descriptor.Some?
    ensures var lossless := LookupCodec(lib.findEncoder, primary, alt).codec.value.descriptor.value.lossless;
      var r := Negotiate(settingBitrate, primary, alt, host, lib, init);
      && (r == Failure(InvalidBitrate) <==> Int32(settingBitrate) == 0 && !lossless)
      && (r.Success? ==> r.value.bitRate == if lossless then -1 else Int32(settingBitrate) * 1000)
      && (r.Success? ==> r.value.openedBitRate == if lossless then init.openedBitRate else r.value.bitRate)
  {
  }

  /**
   * The context sample format is the codec's first listed format, planar float when
   * the codec lists none, and the terminator when its list is empty.
   */
  lemma CreateSampleFormat(settingBitrate: int, primary: string, alt: Option<string>, host: HostAudio,
                           lib: Library, init: EngineInit)
    ensures var r := Negotiate(settingBitrate, primary, alt, host, lib, init);
      r.Success? ==>
        && (r.value.codec.sampleFmts.None? ==> r.value.sampleFmt == SampleFmtFltp)
        && (r.value.codec.sampleFmts.Some? && |r.value.codec.sampleFmts.value| > 0 ==>
              r.value.sampleFmt == r.value.codec.sampleFmts.value[0])
        && (r.value.codec.sampleFmts == Some([]) ==> r.value.sampleFmt == SampleFmtNone)
  {
  }

  /** The context sample rate is the host rate snapped to the codec's list. */
  lemma CreateSampleRate(settingBitrate: int, primary: string, alt: Option<string>, host: HostAudio,
                         lib: Library, init: EngineInit)
    ensures var r := Negotiate(settingBitrate, primary, alt, host, lib, init);
      r.Success? ==> r.value.sampleRate == SnappedRate(host.sampleRate, r.value.codec.supportedRates)
  {
  }

  /** The context layout: 4.1 and 2.1 overrides, else the engine's default for the channel count. */
  lemma CreateLayout(settingBitrate: int, primary: string, alt: Option<string>, host: HostAudio,
                     lib: Library, init: EngineInit)
    ensures var r := Negotiate(settingBitrate, primary, alt, host, lib, init);
      r.Success? ==>
        && (host.speakers == Speakers4Point1 ==> r.value.layout == NativeLayout(Mask4Point1))
        && (host.speakers == Speakers2Point1 ==> r.value.layout == NativeLayout(MaskSurround))
        && (host.speakers != Speakers4Point1 && host.speakers != Speakers2Point1 ==>
              r.value.layout == lib.defaultLayout(host.channels))
  {
  }

  /** The working frame size is the engine's when it sets one, else 1024. */
  lemma CreateFrameSize(settingBitrate: int, primary: string, alt: Option<string>, host: HostAudio,
                        lib: Library, init: EngineInit)
    ensures var r := Negotiate(settingBitrate, primary, alt, host, lib, init);
      r.Success? ==>
        && r.value.frameSize == (if init.openedFrameSize != 0 then init.openedFrameSize else 1024)
        && r.value.frameSizeBytes == r.value.frameSize * init.audioSize
  {
  }
}
