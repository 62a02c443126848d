/** OBS's speaker layouts (enum speaker_layout of libobs/media-io/audio-io.h). */
module Speakers {

  datatype SpeakerLayout =
    | SpeakersUnknown
    | SpeakersMono
    | SpeakersStereo
    | Speakers2Point1
    | Speakers4Point0
    | Speakers4Point1
    | Speakers5Point1
    | Speakers7Point1

  /** The enum value of each layout; there is no layout with value 7. */
  function SpeakerValue(s: SpeakerLayout): nat
  {
    match s
    case SpeakersUnknown => 0
    case SpeakersMono => 1
    case SpeakersStereo => 2
    case Speakers2Point1 => 3
    case Speakers4Point0 => 4
    case Speakers4Point1 => 5
    case Speakers5Point1 => 6
    case Speakers7Point1 => 8
  }

  /** The number of channels OBS gives each layout (get_audio_channels). */
  function SpeakerChannels(s: SpeakerLayout): nat
  {
    match s
    case SpeakersUnknown => 0
    case SpeakersMono => 1
    case SpeakersStereo => 2
    case Speakers2Point1 => 3
    case Speakers4Point0 => 4
    case Speakers4Point1 => 5
    case Speakers5Point1 => 6
    case Speakers7Point1 => 8
  }
}
