# OBS FFmpeg audio encoder adapter, modelled in Dafny

This project models the core of OBS Studio's FFmpeg audio encoder adapter
(`plugins/obs-ffmpeg/obs-ffmpeg-audio-encoders.c`). The adapter takes the
host's raw audio, settles on parameters the FFmpeg encoder accepts, copies one
frame per plane into its own buffers on every call, drives FFmpeg's
send/receive protocol and hands the resulting packet back to the host.

The model has these parts:

- `Ffmpeg` (ffmpeg.dfy): the engine as the adapter sees it. It holds channel
  masks (a `uint64_t` mask is the set of its channel bits), `AVChannelLayout`,
  sample-format and status constants, and the codec capabilities. The library
  routines whose bodies are not modelled are function values in `Library`.
- `Speakers` (speakers.dfy): OBS's `enum speaker_layout`. Its values are 0 to 6
  and 8; there is no value 7.
- `LayoutMapping` (layout.dfy): `convert_speaker_layout` for the older FFmpeg
  API, the context layout for the current API (the engine's default layout,
  with 4.1 and 2.1 overridden), and the channel-count-to-speakers mapping of
  `enc_audio_info`. Round-trip lemmas connect the two directions.
- `SampleRate` (sample_rate.dfy): the supported-rate scan. The loop method is
  proved against a declarative specification: the first entry at minimal
  distance, adopted only when it is strictly closer to the host rate than 0 is.
  A codec's rate list is the entries before its 0 terminator, so no entry is 0.
- `Negotiation` (negotiation.dfy): what `enc_create` settles on, as one
  function of the settings, the host stream and the engine's answers. It
  covers codec lookup with an alternate name, bitrate validation, `bit_rate`,
  layout, sample format, sample rate, frame size and every failure.
- `EncodeCycle` (encode_cycle.dfy): the outcome of one `do_encode` call, given
  the engine's fill, send and receive statuses. It also defines the sample
  counter over a run of calls.
- `Encoder` (encoder.dfy): `struct enc_encoder` as a class. It has the fields
  `total_samples`, `frame_size`, `frame_size_bytes`, `audio_planes`,
  `samples` (one byte array per plane) and `packet_buffer` (a growable byte
  array). The context and the frame are objects too. The class has
  `enc_create`, `initialize_codec`, `enc_destroy`, `enc_encode` with its copy
  loop, `do_encode`, and the host queries. Each state-changing method states
  the whole new state. Creation is proved to produce exactly what `Negotiate`
  specifies, and to leave the partly built adapter released on every failure.

FFmpeg and the host are parameters. `Library` holds `avcodec_find_encoder_by_name`,
`av_channel_layout_default`, `av_rescale_q`, `rescale_ts` and
`convert_ffmpeg_sample_format`. `EngineInit` holds the outcomes of the
allocations, of `avcodec_open2` and of `av_samples_alloc`, the frame size and
time base the open leaves, and the values of `get_audio_planes` and
`get_audio_size`. `EngineStep` holds the statuses of `avcodec_fill_audio_frame`,
`avcodec_send_frame` and `avcodec_receive_packet`, and the packet received.

Constants taken from headers that are not part of this model:
- `AVERROR_EOF` is `-0x20464F45`.
- `AVERROR(EAGAIN)` is `-11`, the Linux value.
- `AV_SAMPLE_FMT_FLTP` is 8 and `AV_SAMPLE_FMT_NONE` is -1.
- The `AV_CH_LAYOUT_*` masks are FFmpeg's.
- The speaker enum values are those of libobs's `audio-io.h`.

Two details of the sample-rate check decide the negotiated rate:
- The scan starts with `closest = 0` (line 294). A listed rate is adopted only
  when it is strictly closer to the host rate than 0 is. Otherwise the host
  rate is kept, even when the codec does not list it.
- Ties go to the first listed entry at minimal distance, whatever the list's
  order, because the comparison at line 300 is a strict `<`.

## Model

| member | source | states |
|---|---|---|
| `LayoutMapping.ConvertSpeakerLayout` | plugins/obs-ffmpeg/obs-ffmpeg-audio-encoders.c:60-83 | total mapping of every speaker layout to an FFmpeg mask (2.1 to SURROUND, 5.1 to 5POINT1_BACK); the mask has as many channels as the layout |
| `LayoutMapping.OldApiRoundTrip` | plugins/obs-ffmpeg/obs-ffmpeg-audio-encoders.c:60-83 | the audio-info query, applied to the channel count of the converted mask, gives back the host layout, for every layout |
| `LayoutMapping.ContextLayout` | plugins/obs-ffmpeg/obs-ffmpeg-audio-encoders.c:275-282 | 4.1 yields the 5-channel 4POINT1 layout and 2.1 the 3-channel SURROUND layout |
| `LayoutMapping.NewApiOverridesAgreeWithOldApi` | plugins/obs-ffmpeg/obs-ffmpeg-audio-encoders.c:275-282 | the 4.1 and 2.1 overrides equal the native layout of the older API's mask; every other layout keeps the engine's default for the channel count |
| `LayoutMapping.NewApiRoundTrip` | plugins/obs-ffmpeg/obs-ffmpeg-audio-encoders.c:275-282 | if the default layout has the requested number of channels, the audio-info query reports the host layout back |
| `LayoutMapping.SpeakersForChannels` | plugins/obs-ffmpeg/obs-ffmpeg-audio-encoders.c:483-486 | UNKNOWN exactly for 0, 7 and counts above 8; otherwise the layout's enum value and channel count equal the count |
| `LayoutMapping.SpeakersForChannelsInverts` | plugins/obs-ffmpeg/obs-ffmpeg-audio-encoders.c:483-486 | reporting a layout's channel count gives that layout back |
| `SampleRate.FirstNearest` | plugins/obs-ffmpeg/obs-ffmpeg-audio-encoders.c:296-303 | an index at minimal distance from the host rate, strictly closer than every earlier entry (first match wins ties) |
| `SampleRate.ClosestRate` | plugins/obs-ffmpeg/obs-ffmpeg-audio-encoders.c:291-303 | `closest` is 0 exactly when no entry is strictly closer than the host rate's own magnitude; otherwise it is the first nearest entry |
| `SampleRate.ClosestRateStep` | plugins/obs-ffmpeg/obs-ffmpeg-audio-encoders.c:297-301 | one more entry updates `closest` exactly as one loop iteration does (strict `<` against the current `closest`) |
| `SampleRate.ClosestSupportedRate` | plugins/obs-ffmpeg/obs-ffmpeg-audio-encoders.c:291-303 | the loop over the entries before the 0 terminator returns the declarative `closest` |
| `SampleRate.SnappedRate` | plugins/obs-ffmpeg/obs-ffmpeg-audio-encoders.c:285-307 | no list keeps the host rate; the result is always the host rate or a listed rate |
| `SampleRate.SnapPicksFirstNearest` | plugins/obs-ffmpeg/obs-ffmpeg-audio-encoders.c:291-307 | when some entry is strictly closer than the host rate itself, the result is the first entry at minimal distance |
| `SampleRate.SnapKeepsRateWhenNoneCloser` | plugins/obs-ffmpeg/obs-ffmpeg-audio-encoders.c:294-306 | when no entry is strictly closer than that, the host rate is left unchanged |
| `SampleRate.SnapExactMatch` | plugins/obs-ffmpeg/obs-ffmpeg-audio-encoders.c:297-306 | a positive host rate that the codec lists is kept |
| `SampleRate.SnapExamples` | plugins/obs-ffmpeg/obs-ffmpeg-audio-encoders.c:291-307 | 48000 and 44100 both negotiate to 48000 against {8000, 12000, 16000, 24000, 48000} |
| `Negotiation.LookupCodec` | plugins/obs-ffmpeg/obs-ffmpeg-audio-encoders.c:225-231 | the recorded type always names the encoder found; it is the alternate exactly when the primary is missing and an alternate is given; no encoder iff neither name resolves |
| `Negotiation.Int32` | plugins/obs-ffmpeg/obs-ffmpeg-audio-encoders.c:216 | the `(int)` cast of the bitrate setting: in 32-bit range and congruent modulo 2^32 |
| `Negotiation.BitrateAccepted` | plugins/obs-ffmpeg/obs-ffmpeg-audio-encoders.c:248-251 | a bitrate is refused exactly when it is 0 and the codec is lossy, which is exactly when the context's bit_rate would be 0 |
| `Negotiation.ContextBitRate` | plugins/obs-ffmpeg/obs-ffmpeg-audio-encoders.c:259-263 | the bit_rate set before the open is -1 exactly for lossless codecs; otherwise it is a multiple of 1000 whose kbps is the setting |
| `Negotiation.ContextSampleFormat` | plugins/obs-ffmpeg/obs-ffmpeg-audio-encoders.c:286-288 | planar float when the codec lists no formats; the first listed format otherwise; AV_SAMPLE_FMT_NONE (the terminator) exactly when the list is empty |
| `Negotiation.WorkingFrameSize` | plugins/obs-ffmpeg/obs-ffmpeg-audio-encoders.c:180-182 | never 0, and the engine's frame size whenever that is nonzero |
| `Negotiation.Negotiate` | plugins/obs-ffmpeg/obs-ffmpeg-audio-encoders.c:212-334 | a successful configuration has a codec with a descriptor, found under the recorded type; frame_size > 0 and frame_size_bytes == frame_size * audio_size; bit_rate nonzero and -1 iff lossless; the rate is the host's or a listed one; InvalidBitrate only for a zero bitrate |
| `Negotiation.CreateNeedsCodec` | plugins/obs-ffmpeg/obs-ffmpeg-audio-encoders.c:225-238 | creation fails with CodecNotFound iff neither the primary nor the alternate resolves; a found primary is kept as type |
| `Negotiation.CreateBitrate` | plugins/obs-ffmpeg/obs-ffmpeg-audio-encoders.c:248-263 | with a codec and descriptor found: InvalidBitrate iff bitrate 0 and lossy; on success the requested bit_rate is -1 (lossless) or bitrate * 1000, and after the open a lossless codec's bit_rate is the encoder's own |
| `Negotiation.CreateSampleFormat` | plugins/obs-ffmpeg/obs-ffmpeg-audio-encoders.c:286-288 | the first listed sample format, planar float when the codec lists none, AV_SAMPLE_FMT_NONE for an empty list |
| `Negotiation.CreateSampleRate` | plugins/obs-ffmpeg/obs-ffmpeg-audio-encoders.c:285-307 | the context rate is the host rate snapped by the scan |
| `Negotiation.CreateLayout` | plugins/obs-ffmpeg/obs-ffmpeg-audio-encoders.c:275-282 | 4.1 and 2.1 get 4POINT1 and SURROUND; every other layout gets the engine's default for the channel count |
| `Negotiation.CreateFrameSize` | plugins/obs-ffmpeg/obs-ffmpeg-audio-encoders.c:180-184 | frame_size is the engine's if nonzero, else 1024; frame_size_bytes == frame_size * audio_size |
| `EncodeCycle.Outcome` | plugins/obs-ffmpeg/obs-ffmpeg-audio-encoders.c:390-421 | a packet exactly when the fill succeeds and send and receive both return 0; fill failure exactly when fill < 0; a hard failure only for a negative status other than EOF/EAGAIN |
| `EncodeCycle.SoftStatusesYieldNoPacket` | plugins/obs-ffmpeg/obs-ffmpeg-audio-encoders.c:402-409 | EAGAIN or EOF from send, or from receive after a send of 0, is success without a packet |
| `EncodeCycle.HardErrorsFail` | plugins/obs-ffmpeg/obs-ffmpeg-audio-encoders.c:414-417 | any other negative status fails the call |
| `EncodeCycle.ReceiveOnlyAfterSuccessfulSend` | plugins/obs-ffmpeg/obs-ffmpeg-audio-encoders.c:402-404 | after a nonzero send the receive's status and packet do not affect the outcome |
| `EncodeCycle.LookaheadNeverFails` | plugins/obs-ffmpeg/obs-ffmpeg-audio-encoders.c:402-421 | an engine that answers EAGAIN for its first L calls gives L successful calls without a packet, then packets |
| `EncodeCycle.TotalAfterFilledCalls` | plugins/obs-ffmpeg/obs-ffmpeg-audio-encoders.c:399 | N calls with filled frames advance total_samples by N * frame_size |
| `EncodeCycle.TotalAfterIgnoresEngineOutput` | plugins/obs-ffmpeg/obs-ffmpeg-audio-encoders.c:394-399 | the counter depends only on the fill statuses, not on send/receive results or packets |
| `Encoder.AllocPlanes` | plugins/obs-ffmpeg/obs-ffmpeg-audio-encoders.c:186-187 | one fresh, distinct buffer of the requested size per plane |
| `Encoder.AudioEncoder.constructor` | plugins/obs-ffmpeg/obs-ffmpeg-audio-encoders.c:223 | a zeroed adapter: no codec, context, frame or samples; counter 0; empty packet buffer |
| `Encoder.AudioEncoder.Destroy` | plugins/obs-ffmpeg/obs-ffmpeg-audio-encoders.c:128-143 | samples, context, frame and packet buffer released, adapter freed |
| `Encoder.AudioEncoder.ConfigureContext` | plugins/obs-ffmpeg/obs-ffmpeg-audio-encoders.c:253-326 | a fresh context with bit_rate, layout, snapped rate, sample format, strict compliance -2 and the global-header flag; planes and size from init_sizes |
| `Encoder.AudioEncoder.SetSampleRate` | plugins/obs-ffmpeg/obs-ffmpeg-audio-encoders.c:285-307 | the context rate becomes the snapped host rate |
| `Encoder.AudioEncoder.InitializeCodec` | plugins/obs-ffmpeg/obs-ffmpeg-audio-encoders.c:145-194 | succeeds iff frame allocation, open and sample allocation succeed; then the open has set frame size, time base and, for a lossless codec, bit_rate; the frame copies format, layout and rate, frame_size is the engine's or 1024, frame_size_bytes == frame_size * audio_size, one fresh buffer per plane |
| `Encoder.AudioEncoder.FillAndInitialize` | plugins/obs-ffmpeg/obs-ffmpeg-audio-encoders.c:259-329 | filling a fresh context and running initialize_codec succeeds iff the frame allocation, the open and the sample allocation do, and then leaves a valid adapter holding the settled configuration |
| `Encoder.EncCreate` | plugins/obs-ffmpeg/obs-ffmpeg-audio-encoders.c:212-334 | returns null iff `Negotiate` fails, and then the adapter is destroyed; otherwise a valid adapter holding exactly the negotiated configuration (context bit_rate as left by the open), counter 0 |
| `Encoder.AudioEncoder.CopyPlanes` | plugins/obs-ffmpeg/obs-ffmpeg-audio-encoders.c:442-443 | each plane below audio_planes gets the first frame_size_bytes bytes of the host plane, with its later bytes unchanged; higher planes unchanged |
| `Encoder.AudioEncoder.DoEncode` | plugins/obs-ffmpeg/obs-ffmpeg-audio-encoders.c:371-435 | the frame is stamped from the counter before the increment; the counter grows by frame_size once the fill succeeds; without a packet the host packet and the buffer are untouched; with one, the buffer holds the packet bytes and the packet points to it with its size, rescaled pts/dts, timebase {1, sample_rate} and type audio; `received_packet` is left alone on failure |
| `Encoder.AudioEncoder.EncEncode` | plugins/obs-ffmpeg/obs-ffmpeg-audio-encoders.c:437-446 | the plane copy followed by the encode step, with both contracts |
| `Encoder.AudioEncoder.FrameSizeQuery` | plugins/obs-ffmpeg/obs-ffmpeg-audio-encoders.c:495-499 | returns the adapter's frame_size, which is positive |
| `Encoder.AudioEncoder.AudioInfo` | plugins/obs-ffmpeg/obs-ffmpeg-audio-encoders.c:472-487 | sets the converted format and the rate cast to uint32 (the rate itself when in range); the speakers are UNKNOWN exactly for 0, 7 or more than 8 channels, otherwise the layout whose value and channel count equal the context's count; allow_clipping is untouched |
| `Encoder.AudioEncoder.AudioInfoFloat` | plugins/obs-ffmpeg/obs-ffmpeg-audio-encoders.c:489-493 | the same answer with clipping allowed |
| `Negotiation.Uint32` | plugins/obs-ffmpeg/obs-ffmpeg-audio-encoders.c:482 | the `(uint32_t)` cast of the sample rate: in [0, 2^32) and congruent modulo 2^32 |

## Left out

- The bodies of FFmpeg routines are not modelled. This covers the codec lookup, the context, frame and sample allocations, `avcodec_open2`, `avcodec_fill_audio_frame`, send/receive, `av_channel_layout_default`, `av_channel_layout_describe` and `av_free_packet`. Their results are inputs (`Library`, `EngineInit`, `EngineStep`).
- `av_rescale_q` and `rescale_ts` are function values without stated properties, because `obs-ffmpeg-compat.h` is not part of this model. Rounding, monotonicity and round-trips of timestamps are therefore not claimed.
- `get_audio_planes`, `get_audio_size` and `convert_ffmpeg_sample_format` are OBS helpers outside this file. `audio_planes` and `audio_size` are inputs. The format conversion is a function value.
- Only the current FFmpeg API is modelled: send/receive and `ch_layout`. The `#if` branches for older versions, `avcodec_encode_audio2` and `avcodec_register_all` are left out. `convert_speaker_layout` is kept as a pure function but no creation path uses it.
- `avcodec_descriptor_get` is modelled as a descriptor attached to the codec value.
- Logging, the last-error message text, the `*_getname` names, `enc_defaults`, `enc_properties` and the `obs_encoder_info` tables carry no logic and are left out.
- `enc_extra_data` is left out. It only hands out the context's `extradata` pointer and size.
- Memory is not freed in the model. `Destroy` drops references and records `freed`.
- `AllocPlanes` allocates exactly `frame_size_bytes` per plane and `audio_planes` planes. `av_samples_alloc`'s alignment padding and its own plane count are not modelled. `CopyPlanes` is stated for planes of any size of at least that length.
- `avcodec_fill_audio_frame`'s binding of the frame to `samples[0]` is not modelled; only its status is.
- Integer widths are explicit only where the code converts: `Int32` for the `(int)` bitrate cast and `Uint32` for `samples_per_sec`. The model does not capture overflow of `bitrate * 1000` (undefined in C above 2147483 kbps), of `abs(cur_rate - *rate)`, of `frame_size * audio_size` or of the `int64_t` counter.
- `avcodec_open2` is modelled as changing only the context's frame size, its time base and, for a lossless codec, its bit_rate (the value the encoder sets is an input). The model does not capture an encoder that rewrites a lossy codec's bit_rate, sample format, rate or layout while opening.
- There is no concurrency in the code.
