/**
 * Mapping between OBS speaker layouts and FFmpeg channel layouts, in both
 * directions: the one used when the encoder is created and the one reported
 * back to the host by the audio-info query.
 */
module LayoutMapping {
  import opened Ffmpeg
  import opened Speakers

  /** convert_speaker_layout: the channel mask of the older FFmpeg API for a speaker layout. */
  function ConvertSpeakerLayout(layout: SpeakerLayout): (mask: ChannelMask)
    ensures |mask| == SpeakerChannels(layout)
  {
    match layout
    case SpeakersUnknown => {}
    case SpeakersMono => MaskMono
    case SpeakersStereo => MaskStereo
    // 2.1 becomes the three front channels, not FL+FR+LFE
    case Speakers2Point1 => MaskSurround
    case Speakers4Point0 => Mask4Point0
    case Speakers4Point1 => Mask4Point1
    case Speakers5Point1 => Mask5Point1Back
    case Speakers7Point1 => Mask7Point1
  }

  /**
   * The context layout of the current FFmpeg API: the engine's default layout
   * for the channel count, except that 4.1 and 2.1 are replaced by the native
   * 4.1 and surround layouts.
   */
  function ContextLayout(speakers: SpeakerLayout, channels: nat, defaultLayout: nat -> ChannelLayout): (l: ChannelLayout)
    ensures speakers == Speakers4Point1 ==> l.nbChannels == 5 && l.mask == Mask4Point1
    ensures speakers == Speakers2Point1 ==> l.nbChannels == 3 && l.mask == MaskSurround
  {
    if speakers == Speakers4Point1 then NativeLayout(Mask4Point1)
    else if speakers == Speakers2Point1 then NativeLayout(MaskSurround)
    else defaultLayout(channels)
  }

  /** The speaker layout whose enum value is `v`. */
  function SpeakerOfValue(v: nat): SpeakerLayout
    requires v <= 8 && v != 7
  {
    match v
    case 0 => SpeakersUnknown
    case 1 => SpeakersMono
    case 2 => SpeakersStereo
    case 3 => Speakers2Point1
    case 4 => Speakers4Point0
    case 5 => Speakers4Point1
    case 6 => Speakers5Point1
    case 8 => Speakers7Point1
  }

  /**
   * The speaker layout enc_audio_info reports for a channel count: the
   * count read as an enum value, and UNKNOWN for 7 and for counts above 8.
   */
  function SpeakersForChannels(channels: nat): (s: SpeakerLayout)
    ensures s == SpeakersUnknown <==> channels == 0 || channels == 7 || channels > 8
    ensures s != SpeakersUnknown ==> SpeakerValue(s) == channels && SpeakerChannels(s) == channels
  {
    if channels != 7 && channels <= 8 then SpeakerOfValue(channels) else SpeakersUnknown
  }

  /** Reporting the channel count of a layout gives that layout back. */
  lemma SpeakersForChannelsInverts(s: SpeakerLayout)
    ensures SpeakersForChannels(SpeakerChannels(s)) == s
  {
  }

  /** The audio-info query reports the host layout back through the older API's mask. */
  lemma OldApiRoundTrip(s: SpeakerLayout)
    ensures SpeakersForChannels(|ConvertSpeakerLayout(s)|) == s
  {
    SpeakersForChannelsInverts(s);
  }

  /**
   * On the current API the 4.1 and 2.1 overrides agree with the older API's mask,
   * and every other layout keeps the engine's default for the channel count.
   */
  lemma NewApiOverridesAgreeWithOldApi(speakers: SpeakerLayout, channels: nat, defaultLayout: nat -> ChannelLayout)
    ensures speakers == Speakers4Point1 || speakers == Speakers2Point1 ==>
      ContextLayout(speakers, channels, defaultLayout) == NativeLayout(ConvertSpeakerLayout(speakers))
    ensures speakers != Speakers4Point1 && speakers != Speakers2Point1 ==>
      ContextLayout(speakers, channels, defaultLayout) == defaultLayout(channels)
  {
  }

  /**
   * When the host passes the channel count of its layout and the engine's default
   * layout has that many channels, the audio-info query reports the host layout back.
   */
  lemma NewApiRoundTrip(speakers: SpeakerLayout, defaultLayout: nat -> ChannelLayout)
    requires defaultLayout(SpeakerChannels(speakers)).nbChannels == SpeakerChannels(speakers)
    ensures SpeakersForChannels(ContextLayout(speakers, SpeakerChannels(speakers), defaultLayout).nbChannels) == speakers
  {
    var l := ContextLayout(speakers, SpeakerChannels(speakers), defaultLayout);
    assert l.nbChannels == SpeakerChannels(speakers);
    SpeakersForChannelsInverts(speakers);
  }
}
