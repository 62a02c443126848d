/**
 * The part of the FFmpeg engine the adapter sees: channel layouts, sample
 * formats, status codes, codec capabilities and the library routines whose
 * bodies are not part of this model, the latter as function values.
 */
module Ffmpeg {
  import opened Wrappers

  /** AVRational. */
  datatype Rational = Rational(num: int, den: int)

  /** The channel bits of an FFmpeg native channel mask (AV_CH_*). */
  datatype Channel =
    | FrontLeft | FrontRight | FrontCenter | LowFrequency
    | BackLeft | BackRight | BackCenter | SideLeft | SideRight

  /** A native channel mask (a uint64_t in FFmpeg), as the set of its bits. */
  type ChannelMask = set<Channel>

  // The named masks (AV_CH_LAYOUT_*); + is the bitwise OR.
  const MaskMono: ChannelMask := {FrontCenter}
  const MaskStereo: ChannelMask := {FrontLeft, FrontRight}
  const MaskSurround: ChannelMask := MaskStereo + {FrontCenter}
  const Mask4Point0: ChannelMask := MaskSurround + {BackCenter}
  const Mask4Point1: ChannelMask := Mask4Point0 + {LowFrequency}
  const Mask5Point1Back: ChannelMask := MaskSurround + {LowFrequency, BackLeft, BackRight}
  const Mask5Point1: ChannelMask := MaskSurround + {LowFrequency, SideLeft, SideRight}
  const Mask7Point1: ChannelMask := Mask5Point1 + {BackLeft, BackRight}

  /** AVChannelOrder, restricted to the two orders the adapter can produce. */
  datatype ChannelOrder = OrderUnspec | OrderNative

  /** AVChannelLayout: an order, a channel count and (for native order) a mask. */
  datatype ChannelLayout = ChannelLayout(order: ChannelOrder, nbChannels: nat, mask: ChannelMask)

  /** AV_CHANNEL_LAYOUT_MASK: the native layout holding exactly the channels of `mask`. */
  function NativeLayout(mask: ChannelMask): ChannelLayout
  {
    ChannelLayout(OrderNative, |mask|, mask)
  }

  /** The zeroed AVChannelLayout of a freshly allocated context. */
  const NoLayout := ChannelLayout(OrderUnspec, 0, {})

  // AVSampleFormat values the adapter names.
  const SampleFmtNone: int := -1
  const SampleFmtFltp: int := 8

  // Soft status codes of avcodec_send_frame / avcodec_receive_packet:
  // AVERROR_EOF is FFERRTAG('E','O','F',' ') negated, AVERROR(EAGAIN) is -EAGAIN (11 on Linux).
  const ErrorEof: int := -0x20464F45
  const ErrorAgain: int := -11

  /** AVCodecDescriptor, reduced to the AV_CODEC_PROP_LOSSLESS property. */
  datatype Descriptor = Descriptor(lossless: bool)

  /**
   * AVCodec as the adapter reads it, with its descriptor attached. A list of
   * sample formats or rates is None when the pointer is NULL; a present list
   * holds the entries before its terminator (AV_SAMPLE_FMT_NONE, 0).
   */
  datatype Codec = Codec(
    name: string,
    descriptor: Option<Descriptor>,
    sampleFmts: Option<FormatList>,
    supportedRates: Option<RateList>)

  /** The entries of sample_fmts before its AV_SAMPLE_FMT_NONE terminator. */
  type FormatList = s: seq<int> | forall i :: 0 <= i < |s| ==> s[i] != SampleFmtNone

  /** The entries of supported_samplerates before its 0 terminator. */
  type RateList = s: seq<int> | forall i :: 0 <= i < |s| ==> s[i] != 0

  /** AVPacket as produced by avcodec_receive_packet. */
  datatype AvPacket = AvPacket(data: seq<bv8>, pts: int, dts: int)

  /**
   * Library routines whose bodies are outside this model: avcodec_find_encoder_by_name,
   * av_channel_layout_default, av_rescale_q, rescale_ts (value, context time base,
   * target time base) and OBS's convert_ffmpeg_sample_format.
   */
  datatype Library = Library(
    findEncoder: string -> Option<Codec>,
    defaultLayout: nat -> ChannelLayout,
    rescaleQ: (int, Rational, Rational) -> int,
    rescaleTs: (int, Rational, Rational) -> int,
    convertSampleFormat: int -> int)
}
