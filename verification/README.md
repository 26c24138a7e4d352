# rust-av, modelled in Dafny

This project models rust-av, a Rust binding over FFmpeg's libavcodec,
libavformat and libswscale. It covers the decisions the binding makes
itself:

- which FFmpeg return codes become which errors, and in what order the checks run;
- what the builders default to, and how `usize`/`u32` settings are cast to C `int`;
- how the encoders' send loops hand packets to the caller's handler, and when they stop;
- how the muxer opens, writes, flushes and closes;
- how the demuxer reads packets and validates their stream index;
- how the scalers cache and rebuild their swscale context;
- the custom-I/O callbacks;
- the small value types: media type, timebase, timestamp, frame, stream,
  and the profile and MIME-type iterators.

FFmpeg itself is not modelled. Every call into it becomes a parameter:

- a return code (`int`), with negative meaning failure;
- an `Option` for an allocation that may return null;
- or a function-typed oracle, such as `sws_getContext`, the plane count of
  a pixel format, `av_rescale_q`, or the codes of successive
  `avcodec_receive_packet` calls.

A Rust panic (`assert!`, `unwrap` on `None`, an out-of-bounds slice)
becomes a `requires`. The Rust `as` casts are written out explicitly
(`Ints.WrapI32`, `Ints.WrapU32`, `Ints.WrapUsize`). The FFmpeg constants
(`AVERROR(EAGAIN)`, `AVERROR_EOF`, `AV_TIME_BASE`, `AVFMT_GLOBALHEADER`,
`AV_CODEC_FLAG_GLOBAL_HEADER`, `AV_CODEC_CAP_DELAY`, `AVSEEK_SIZE`, …)
are in `Ffi`, with the values of the FFmpeg 3.x headers the binding is
generated from.

There is one module per source file:

| source file | modules |
|---|---|
| codec/media_type.rs | `MediaTypes` |
| codec/codec.rs | `Codecs` |
| codec/profile.rs | `Profiles` |
| codec/mime.rs | `MimeTypes` |
| common/timebase.rs | `Timebases` |
| common/ts.rs | `Timestamps` |
| common/stream.rs | `Streams` |
| common/encoder.rs | `EncoderCommon` |
| video/frame.rs | `VideoFrames` |
| audio/frame.rs | `AudioFrames` |
| frame/audio_frame.rs | `StandaloneAudioFrames` |
| generic/frame.rs, generic/ref_mut_frame.rs | `GenericFrames`, `RefMutFrames` |
| scaler.rs | `Scalers` |
| video/scaler.rs | `VideoScaling` |
| video/encoder.rs | `VideoEncoding` |
| codec/video_encoder.rs | `CodecVideoEncoding` |
| audio/encoder.rs | `AudioEncoding` |
| video/decoder.rs | `VideoDecoding` |
| generic/encoder.rs | `GenericEncoding` |
| generic/decoder.rs | `GenericDecoding` |
| format/muxer.rs | `Muxing` |
| format/demuxer.rs | `Demuxing` |
| io.rs | `AvIo` |
| util.rs | `PtrTake` |

Some modules hold shared pieces:

- `Draining` has the receive loops that several files share.
- `Sentinel` has the scan up to a terminator that `pixel_formats` and the
  profile and MIME iterators all perform.
- `Durations` has the seconds conversion shared by the muxer and the demuxer.
- `Wrappers`, `Ints`, `Ffi` and `AvErrors` hold the result types, the
  integer widths, the library constants and the error type of
  src/errors.rs.

## Model

| member | source | states |
|---|---|---|
| MediaTypes.FromRaw | src/codec/media_type.rs:18-28 | every raw `AVMediaType` maps to the variant that converts back to it |
| MediaTypes.AsRaw | src/codec/media_type.rs:30-40 | the raw value is VIDEO exactly for `Video` and AUDIO exactly for `Audio` |
| MediaTypes.RawRoundTrip | src/codec/media_type.rs:18-40 | `as_raw(from_raw(k)) == k` for every raw kind |
| MediaTypes.VariantRoundTrip | src/codec/media_type.rs:18-40 | `from_raw(as_raw(m)) == m` for every variant |
| MediaTypes.AsRawInjective | src/codec/media_type.rs:30-40 | distinct variants have distinct raw values |
| MediaTypes.ExactlyOnePredicate | src/codec/media_type.rs:42-89 | exactly one `is_*` predicate holds, and each agrees with the raw value |
| Codecs.FindEncoderById | src/codec/codec.rs:27-37 | fails exactly when the library finds no encoder, with the error naming the requested codec id; otherwise returns the codec found |
| Codecs.FindDecoderById | src/codec/codec.rs:39-49 | fails exactly when the library finds no decoder, with the error naming the requested codec id; otherwise returns the codec found |
| Codecs.LongName | src/codec/codec.rs:67-69 | `long_name` returns the codec's short name |
| Codecs.ScanPixelFormats | src/codec/codec.rs:75-88 | the loop returns the longest prefix free of AV_PIX_FMT_NONE, which is followed by the terminator |
| Codecs.PixelFormatsAsWritten | src/codec/codec.rs:75-88 | as written, the scan is only defined when the codec has a format list |
| Codecs.AudioCodecBreaksPixelFormats | src/codec/codec.rs:75-88 | an audio codec has no format list, so the as-written precondition fails for it |
| Codecs.PixelFormats | src/codec/codec.rs:75-88 | a codec without a list yields no formats; otherwise the prefix before AV_PIX_FMT_NONE |
| Sentinel.PrefixBeforeIsLongestClean | src/codec/codec.rs:80-84 | the sentinel prefix is a prefix, holds no terminator, and is followed by one when shorter than the input |
| Sentinel.CleanPrefixIsPrefixBefore | src/codec/codec.rs:80-84 | any terminator-free prefix ending at a terminator is the sentinel prefix |
| Profiles.FromPtr | src/codec/profile.rs:34-36 | the iterator starts at the first table entry |
| Profiles.Next | src/codec/profile.rs:42-52 | yields the next entry and advances, or stops for good at FF_PROFILE_UNKNOWN or a null table |
| Profiles.CollectIsPrefixBefore | src/codec/profile.rs:42-52 | iterating yields exactly the entries before the first FF_PROFILE_UNKNOWN |
| Profiles.TableYieldsPrefix | src/codec/profile.rs:34-52 | a null table yields nothing; a table yields its prefix before the terminator |
| Profiles.ExhaustedStaysExhausted | src/codec/profile.rs:42-52 | once `next` returns `None` it keeps returning `None` |
| MimeTypes.FromPtr | src/codec/mime.rs:9-11 | the iterator starts at the first entry |
| MimeTypes.Next | src/codec/mime.rs:17-27 | yields the next string and advances, or stops at a null entry or a null list |
| MimeTypes.CollectIsPrefixBefore | src/codec/mime.rs:17-27 | iterating yields exactly the strings before the first null entry |
| MimeTypes.NullYieldsNothing | src/codec/mime.rs:17-27 | a null list yields no MIME types |
| MimeTypes.ExhaustedStaysExhausted | src/codec/mime.rs:17-27 | once `next` returns `None` it keeps returning `None` |
| Timebases.New | src/common/timebase.rs:8-13 | `num()` and `den()` return the constructor's arguments |
| Timebases.FromPair | src/common/timebase.rs:39-41 | a `(num, den)` pair becomes that timebase |
| Timebases.FromDen | src/common/timebase.rs:45-47 | a bare denominator means `1/den` |
| Timebases.FromRational | src/common/timebase.rs:33-35 | an `AVRational` keeps numerator and denominator |
| Timebases.IntoRational | src/common/timebase.rs:51-53 | converting back gives the same numerator and denominator |
| Timebases.RationalRoundTrip | src/common/timebase.rs:33-53 | the two conversions are inverse to each other |
| Timestamps.New | src/common/ts.rs:13-18 | `index()` and `time_base()` return the constructor's arguments |
| Timestamps.Cmp | src/common/ts.rs:46-56 | `Less`, `Equal` and `Greater` exactly for `av_compare_ts` results -1, 0 and 1 |
| Timestamps.EqIffCmpEqual | src/common/ts.rs:30-56 | `==` holds exactly when `cmp` answers `Equal` |
| Timestamps.AddAssign | src/common/ts.rs:60-62 | `+=` adds to the index and keeps the timebase |
| Timestamps.AddAssignComposes | src/common/ts.rs:60-62 | adding `a` then `b` equals adding `a + b` |
| Streams.Index | src/common/stream.rs:19-21 | a non-negative stream index is returned unchanged |
| Streams.NumFrames | src/common/stream.rs:39-47 | `Some(nb_frames)` exactly when the count is positive |
| Streams.FromSlice | src/common/stream.rs:81-85 | the iterator starts at the first stream |
| Streams.Next | src/common/stream.rs:91-95 | yields the next stream and advances, or stops at the end of the slice |
| Streams.CollectIsRemainingSlice | src/common/stream.rs:91-95 | iterating yields the remaining streams in order |
| Streams.IterationYieldsSlice | src/common/stream.rs:81-95 | a fresh iterator yields every stream of the slice, in order |
| Streams.ExhaustedStaysExhausted | src/common/stream.rs:91-95 | once `next` returns `None` it keeps returning `None` |
| EncoderCommon.Init | src/common/encoder.rs:16-21 | adds AV_CODEC_FLAG_GLOBAL_HEADER exactly when the format has AVFMT_GLOBALHEADER, and changes nothing else |
| EncoderCommon.InitOnlyAdds | src/common/encoder.rs:16-21 | flags already set stay set, and afterwards the global-header flag is set exactly when it was already set or the output format has AVFMT_GLOBALHEADER |
| EncoderCommon.Open | src/common/encoder.rs:23-33 | a negative `avcodec_open2` result frees the context and reports the encoder kind |
| EncoderCommon.RequireIsEncoder | src/common/encoder.rs:35-41 | passes exactly for encoders; otherwise reports the codec id |
| EncoderCommon.RequireCodecType | src/common/encoder.rs:43-49 | passes exactly when the media types match; otherwise reports a mismatch |
| VideoFrames.New | src/video/frame.rs:29-55 | frame and buffer allocation failures give their two errors; a new frame has pts 0 and the requested format and size |
| VideoFrames.Linesizes | src/video/frame.rs:75-81 | the first MAX_PLANES line sizes, in order |
| VideoFrames.SetPts | src/video/frame.rs:87-89 | `pts()` afterwards returns the value set, and nothing else changes |
| VideoFrames.SetPtsKeepsRest | src/video/frame.rs:83-89 | setting pts keeps planes, sizes and format; the last set wins |
| VideoFrames.Channel | src/video/frame.rs:91-96 | a channel is the first `height * linesize` bytes of its plane |
| VideoFrames.Data | src/video/frame.rs:117-134 | one channel per plane, each of its plane's size |
| VideoFrames.FillRows | src/video/frame.rs:159-181 | copies each row to its place, the shorter of the two line sizes per row |
| VideoFrames.FillChannel | src/video/frame.rs:159-181 | only the chosen plane changes, every row gets its source row, and the bytes past the channel are kept |
| AudioFrames.Unbuffered | src/audio/frame.rs:28-56 | an unbuffered frame has line size 0 and no data |
| AudioFrames.Fill | src/audio/frame.rs:28-56 | the fields are set with the C casts, and a buffer is attached only for a non-zero sample count |
| AudioFrames.New | src/audio/frame.rs:28-56 | succeeds exactly when the frame allocates and any buffer request succeeds; gives the two errors otherwise |
| AudioFrames.EmptyFrameIgnoresBuffer | src/audio/frame.rs:28-56 | with zero samples, the buffer's code and contents do not matter |
| AudioFrames.NumSamplesRoundTrip | src/audio/frame.rs:28-95 | `num_samples()` gives back a count up to I32_MAX; 2^32 wraps to 0 |
| AudioFrames.SetPts | src/audio/frame.rs:97-99 | sets pts and nothing else |
| AudioFrames.SlotCount | src/audio/frame.rs:70-91 | planar audio has one slot per channel; interleaved has one slot |
| AudioFrames.DataMut | src/audio/frame.rs:70-91 | the used slots are `linesize[0]` bytes of their planes; the rest are empty |
| AudioFrames.InterleavedUsesOneSlot | src/audio/frame.rs:70-91 | interleaved audio exposes one slot; all the others are empty |
| StandaloneAudioFrames.New | src/frame/audio_frame.rs:22-50 | the same fields and error cases as the `audio::Frame` constructor, with string errors |
| StandaloneAudioFrames.AgreesWithAudioFrame | src/frame/audio_frame.rs:22-50 | it succeeds exactly when `audio::Frame::new` does, with the same frame |
| StandaloneAudioFrames.PtsAdd | src/frame/audio_frame.rs:83-85 | pts grows by the amount, and nothing else changes |
| StandaloneAudioFrames.PtsAddComposes | src/frame/audio_frame.rs:83-85 | two additions compose; adding 0 changes nothing |
| GenericFrames.IntoVideoFrame | src/generic/frame.rs:11-16 | `Some` exactly for a video frame |
| GenericFrames.IntoAudioFrame | src/generic/frame.rs:18-23 | `Some` exactly for an audio frame |
| GenericFrames.FromVideo | src/generic/frame.rs:41-43 | projects back to the same video frame, and never to audio |
| GenericFrames.FromAudio | src/generic/frame.rs:47-49 | projects back to the same audio frame, and never to video |
| GenericFrames.ProjectionsPartition | src/generic/frame.rs:11-49 | exactly one projection succeeds, and re-wrapping it gives the frame back |
| RefMutFrames.IntoVideoFrame | src/generic/ref_mut_frame.rs:10-15 | `Some` exactly for a video frame |
| RefMutFrames.IntoAudioFrame | src/generic/ref_mut_frame.rs:17-22 | `Some` exactly for an audio frame |
| RefMutFrames.FromVideo | src/generic/ref_mut_frame.rs:26-28 | projects back to the same video frame |
| RefMutFrames.FromAudio | src/generic/ref_mut_frame.rs:32-34 | projects back to the same audio frame |
| RefMutFrames.ExactlyOneProjection | src/generic/ref_mut_frame.rs:10-34 | exactly one projection succeeds, and re-wrapping it gives the frame back |
| Scalers.Request | src/scaler.rs:17-50 | asks for SWS_BICUBIC with the given formats; sizes that fit in `int` pass unchanged |
| Scalers.New | src/scaler.rs:17-50 | fails with "Could not create scaler context" exactly when `sws_getContext` returns null |
| Scalers.GettersReturnArguments | src/scaler.rs:71-93 | the six getters return what the scaler was built with |
| Scalers.ScaleFrame | src/scaler.rs:64-69 | scales the whole source, from row 0 over its height, with both frames' strides |
| Scalers.ScaleFrameIgnoresGeometry | src/scaler.rs:53-69 | the call depends only on the context, not on the recorded sizes |
| VideoScaling.New | src/video/scaler.rs:26-36 | a new scaler has no context, zero sizes and RGB24 formats |
| VideoScaling.NeedsRebuildIffStale | src/video/scaler.rs:40-66 | a rebuild happens exactly when there is no context or any size or format differs |
| VideoScaling.SwsContextNew | src/video/scaler.rs:176-212 | rejects non-positive source, then destination, sizes, then a null context |
| VideoScaling.InitContext | src/video/scaler.rs:40-66 | reuses a matching context; otherwise rebuilds and records the new sizes, and keeps the state on failure |
| VideoScaling.ReuseIgnoresLibrary | src/video/scaler.rs:40-66 | a cached context is reused without calling the library |
| VideoScaling.Pad | src/video/scaler.rs:78-146 | plane lists are padded with null and zero to four entries |
| VideoScaling.ScaleWith | src/video/scaler.rs:78-146 | the invalid-format error, then the source and then the target plane-count errors; otherwise one `sws_scale` call from row 0 over the source height (`as i32`), with every plane pointer and `as i32` line size in order, padded with null and zero to four entries |
| VideoScaling.Scale | src/video/scaler.rs:78-146 | a failed context build fails the scale; otherwise the plane checks decide |
| VideoScaling.PlaneSizesNeverFail | src/video/scaler.rs:78-146 | the plane-size checks never reject; only the plane count can |
| VideoScaling.PlaneFailureAfterRebuild | src/video/scaler.rs:89-94 | a format with no planes fails the scale, yet the new context stays cached |
| VideoScaling.MissingPlanesFailAfterRebuild | src/video/scaler.rs:288-295 | with no source plane slices (the `not_enough_planes` test), the new context is built and cached, then the scale fails with "Scale source has invalid number of planes" |
| VideoScaling.FailedRebuildKeepsState | src/video/scaler.rs:299-306 | a failed rebuild leaves the scaler as it was |
| VideoScaling.RepeatedScaleReusesContext | src/video/scaler.rs:240-284 | after one successful scale, repeating it keeps the same context |
| VideoScaling.RepeatedFromCached | src/video/scaler.rs:240-284 | from a cached context, any number of equal scales leaves the scaler unchanged |
| VideoScaling.FrameSideFits | src/video/scaler.rs:150-167 | a frame's channels, four line sizes and height never overflow the size products and never draw a "plane data too small" warning |
| VideoScaling.ScaleFrame | src/video/scaler.rs:150-167 | `scale` on both frames: a context failure leaves the scaler as it was; otherwise it succeeds exactly when both formats have 1 to 4 planes, prints nothing, records both frames' geometry and passes each frame's channels and line sizes |
| VideoScaling.ScaleFrameAgainReuses | src/video/scaler.rs:150-167 | scaling the same frames again after a success reuses the context and makes the same call |
| Draining.Next | src/video/encoder.rs:269-287 | EAGAIN and EOF end the iterator, other negative codes are errors, and other codes yield an item |
| Draining.EndCodesAreNegative | src/video/encoder.rs:269-287 | both end codes are negative |
| Draining.FailuresAppend | src/video/encoder.rs:291-294 | the failure count grows by one exactly for a non-end negative code |
| Draining.DrainOnDrop | src/video/encoder.rs:291-294 | dropping receives up to and including the first end code, through errors |
| Draining.HandledPackets | src/codec/video_encoder.rs:53-93 | the log of `n` handled packets has two events per packet |
| Draining.HandledPacketsLayout | src/codec/video_encoder.rs:53-93 | packet `k` is handed to the handler at position `2k` and unref'd right after, in order |
| Draining.Stop | src/codec/video_encoder.rs:53-93 | the loop stops at the first non-zero code or failed handler |
| Draining.PacketLoop | src/codec/video_encoder.rs:53-93 | a handler error, an end code and any other code give their three outcomes, after every earlier packet is handled |
| Draining.HandlerSeesPacketsInOrder | src/codec/video_encoder.rs:53-93 | packet `k` is handled once, at position `2k` |
| VideoEncoding.UpdateScaler | src/video/encoder.rs:121-129 | a scaler is (re)built only when the frame does not fit the current one, from the frame's to the encoder's geometry; it fails exactly when `Scaler::new` does, and afterwards the frame fits |
| VideoEncoding.InitTmpFrame | src/video/encoder.rs:131-136 | the temporary frame is allocated only when missing, succeeds exactly when the frame and its buffer allocate, and changes nothing else |
| VideoEncoding.InitTmpFrameIdempotent | src/video/encoder.rs:131-136 | a second call keeps the first frame |
| VideoEncoding.PrepareFrame | src/video/encoder.rs:62-97 | a compatible frame passes unchanged; otherwise `update_scaler` then `init_tmp_frame` run, each failure is passed on as it is, and on success the frame is scaled into the temporary frame, which takes the frame's pts and goes out |
| VideoEncoding.SameGeometryReusesScalerAndTmpFrame | src/video/encoder.rs:121-136 | after a scaled frame went out, another frame of the same format and size reuses the scaler and the temporary frame and is scaled with them |
| VideoEncoding.Encode | src/video/encoder.rs:62-97 | audio frames are refused; a failed scaling step is passed on and nothing is sent; otherwise the prepared frame is sent, it is always compatible, and a negative send code gives "Could not encode frame" |
| VideoEncoding.CompatibleFrameGoesOutUnchanged | src/video/encoder.rs:62-97 | a compatible frame is sent as it is, and the encoder does not change |
| VideoEncoding.Flush | src/video/encoder.rs:99-109 | succeeds exactly for a non-negative flush code |
| VideoEncoding.PacketsNext | src/video/encoder.rs:269-287 | received packets carry the encoder's timebase; errors read "Failed to receive packet" |
| VideoEncoding.Fresh | src/video/encoder.rs:172-184 | a new builder has only the codec set |
| VideoEncoding.FromCodec | src/video/encoder.rs:172-184 | only video encoders are accepted; the two checks run in order |
| VideoEncoding.SetWidth | src/video/encoder.rs:187-189 | stores the width cast to `int` |
| VideoEncoding.SetHeight | src/video/encoder.rs:192-194 | stores the height cast to `int` |
| VideoEncoding.SetPixelFormat | src/video/encoder.rs:196-198 | stores the pixel format and nothing else |
| VideoEncoding.Framerate | src/video/encoder.rs:200-202 | sets the timebase to `1/framerate` |
| VideoEncoding.FramerateRaw | src/video/encoder.rs:204-206 | sets the timebase to the given rational |
| VideoEncoding.Configure | src/video/encoder.rs:208-245 | the context gets the settings, the default bitrate and timebase, and the global-header flag |
| VideoEncoding.Open | src/video/encoder.rs:208-245 | missing width, height and pixel format are reported in that order; then allocation and open failures |
| VideoEncoding.OpenReportsSettings | src/video/encoder.rs:187-245 | an encoder opened with a width and height up to I32_MAX reports them back |
| CodecVideoEncoding.FromCodec | src/codec/video_encoder.rs:151-160 | a new builder has only the codec set, without any codec checks |
| CodecVideoEncoding.FromCodecAcceptsAnyCodec | src/codec/video_encoder.rs:151-160 | a non-encoder is accepted here, though `video::Encoder` refuses it |
| CodecVideoEncoding.Open | src/codec/video_encoder.rs:180-213 | the three missing-setting errors, then an allocation failure; an opened encoder has no scaler or temporary frame |
| CodecVideoEncoding.SendFrame | src/codec/video_encoder.rs:53-93 | a failed frame preparation sends nothing; otherwise the handler loop decides the result |
| AudioEncoding.FromCodec | src/audio/encoder.rs:124-131 | a new builder has only the codec set |
| AudioEncoding.SetSampleFormat | src/audio/encoder.rs:133-135 | stores the sample format and nothing else |
| AudioEncoding.SetSampleRate | src/audio/encoder.rs:138-140 | stores the sample rate and nothing else |
| AudioEncoding.SetChannelLayout | src/audio/encoder.rs:142-144 | stores the channel layout and nothing else |
| AudioEncoding.Open | src/audio/encoder.rs:146-173 | allocation, then open failure; the context gets rate, timebase `1/rate`, format, layout and channel count, with defaults S16, 44100 and stereo |
| AudioEncoding.SampleRateRoundTrip | src/audio/encoder.rs:138-173 | `sample_rate()` gives back the rate that was set |
| AudioEncoding.OpenDefaults | src/audio/encoder.rs:124-173 | an unconfigured builder opens with 44100 Hz S16 stereo |
| AudioEncoding.SendFrame | src/audio/encoder.rs:55-96 | a video frame is refused before anything is sent; an audio frame runs the handler loop |
| VideoDecoding.FromCodecParameters | src/video/decoder.rs:20-59 | lookup, media type, allocation, parameter copy and open are checked in order; the context is freed only after a copy or open failure |
| VideoDecoding.FreedIffAllocatedThenFailed | src/video/decoder.rs:20-59 | the context is freed exactly when it was allocated and a later step failed |
| VideoDecoding.FromStream | src/video/decoder.rs:61-63 | builds from the stream's codec parameters |
| VideoDecoding.Decode | src/video/decoder.rs:79-93 | EAGAIN from sending a packet is an error of its own; other negative codes give "Failed to decode packet" |
| VideoDecoding.Flush | src/video/decoder.rs:95-107 | EAGAIN is tolerated; other negative codes give "Failed to flush decoder" |
| VideoDecoding.DecodeAndFlushDifferOnlyOnEagain | src/video/decoder.rs:79-107 | decode and flush disagree exactly on EAGAIN |
| VideoDecoding.FramesNext | src/video/decoder.rs:132-151 | received frames carry the decoder's pixel format; errors read "Failed to receive frame" |
| GenericEncoding.IntoVideoEncoder | src/generic/encoder.rs:17-22 | `Some` exactly for a video encoder |
| GenericEncoding.IntoAudioEncoder | src/generic/encoder.rs:38-43 | `Some` exactly for an audio encoder |
| GenericEncoding.FromVideo | src/generic/encoder.rs:108-110 | projects back to the same video encoder |
| GenericEncoding.FromAudio | src/generic/encoder.rs:114-116 | projects back to the same audio encoder |
| GenericEncoding.ProjectionsPartition | src/generic/encoder.rs:17-116 | exactly one projection succeeds, and re-wrapping gives the encoder back |
| GenericEncoding.CodecOf | src/generic/encoder.rs:59-64 | the codec of whichever encoder is inside |
| GenericEncoding.TimeBase | src/generic/encoder.rs:66-71 | the timebase of whichever encoder is inside |
| GenericEncoding.ContextFlags | src/generic/encoder.rs:85-104 | the codec-context flags of whichever encoder is inside |
| GenericEncoding.SendFrame | src/generic/encoder.rs:73-81 | answers what the wrapped encoder answers: the other kind of frame is refused, a failed video scaling step is passed on, and otherwise EAGAIN/EOF give `Ok`, a handler failure gives its error and any other code "Error encoding packet" |
| GenericDecoding.FromStream | src/generic/decoder.rs:20-27 | video and audio streams get their decoder; any other media type is refused |
| GenericDecoding.FromStreamMatchesMediaType | src/generic/decoder.rs:20-27 | the decoder variant matches the stream's media type |
| GenericDecoding.IntoVideoDecoder | src/generic/decoder.rs:29-34 | `Some` exactly for a video decoder |
| GenericDecoding.IntoAudioDecoder | src/generic/decoder.rs:50-55 | `Some` exactly for an audio decoder |
| GenericDecoding.FromVideo | src/generic/decoder.rs:110-112 | projects back to the same video decoder |
| GenericDecoding.FromAudio | src/generic/decoder.rs:116-118 | projects back to the same audio decoder |
| GenericDecoding.ProjectionsPartition | src/generic/decoder.rs:29-118 | exactly one projection succeeds, and re-wrapping gives the decoder back |
| GenericDecoding.CodecOf | src/generic/decoder.rs:71-76 | the codec of whichever decoder is inside |
| GenericDecoding.TimeBase | src/generic/decoder.rs:78-83 | the timebase of whichever decoder is inside |
| Durations.SecondsAsWritten | src/format/muxer.rs:49-56 | as written, the result never exceeds 4294, because the cast to `u32` happens before the division |
| Durations.Seconds | src/format/muxer.rs:47-56 | corrected: the floor of the duration in seconds, whenever it fits in `u32` |
| Durations.AgreeBelowTwoTo32 | src/format/muxer.rs:49-56 | both versions agree below 2^32 microseconds |
| Durations.TruncationCounterexample | src/format/muxer.rs:49-56 | at 2^32 microseconds the as-written version gives 0 seconds, the corrected one 4294 |
| Muxing.NumStreams | src/format/muxer.rs:43-45 | one stream per encoder |
| Muxing.DurationAsWritten | src/format/muxer.rs:49-56 | the muxer's duration as the source computes it |
| Muxing.Duration | src/format/muxer.rs:47-56 | the floored duration in seconds |
| Muxing.New | src/format/muxer.rs:228-236 | a new builder has no name, format or encoders |
| Muxing.SetName | src/format/muxer.rs:244-246 | stores the name, which must contain no NUL, and nothing else |
| Muxing.SetFormatName | src/format/muxer.rs:254-256 | stores the format name, which must contain no NUL, and nothing else |
| Muxing.SetFormat | src/format/muxer.rs:259-261 | stores the output format and nothing else |
| Muxing.AddEncoder | src/format/muxer.rs:263-265 | appends the encoder and keeps the rest |
| Muxing.AddEncodersKeepsOrder | src/format/muxer.rs:263-265 | repeated adds keep the encoders in order |
| Muxing.CheckFromFindsFirstFailure | src/format/muxer.rs:283-311 | the stream setup succeeds exactly when every stream's checks do; otherwise the first failing stream reports |
| Muxing.CreateStreams | src/format/muxer.rs:283-311 | one stream per encoder, stream `k` with id `k` and the encoder's timebase; fails exactly with the first failing stream's error |
| Muxing.Open | src/format/muxer.rs:267-327 | "No format set", then allocation, stream and header failures, where the last two free the context; an opened muxer has stream `k` for encoder `k`, with its timebase |
| Muxing.WriteFrame | src/format/muxer.rs:160-172 | the timestamps are rescaled into the stream's timebase and the stream index is set; a negative write result gives "Failed to write frame" |
| Muxing.WriteHandler | src/format/muxer.rs:83-97 | the handler fails exactly when writing its packet fails |
| Muxing.SendFrame | src/format/muxer.rs:83-97 | only the chosen stream's encoder changes; the result is the encoder's `send_frame` outcome with the stream writer as handler, so the loop ending on EAGAIN/EOF gives `Ok`, a failed write gives its error, and on success every packet up to the end code was written |
| Muxing.SweepWritesDelayingStreamsInOrder | src/format/muxer.rs:118-157 | only codecs with AV_CODEC_CAP_DELAY are flushed, each at most once per sweep, in stream order |
| Muxing.SweepOnce | src/format/muxer.rs:118-157 | one pass of the flush loop equals the sweep over all streams |
| Muxing.Flush | src/format/muxer.rs:118-157 | flushing sweeps until a sweep writes nothing or fails, and reports that sweep's error |
| Muxing.FlushSweepsAreProductive | src/format/muxer.rs:118-157 | every sweep before the last writes at least one packet |
| Muxing.FlushSkipsCodecsWithoutDelay | src/format/muxer.rs:118-157 | every packet written while flushing comes from a codec with AV_CODEC_CAP_DELAY |
| Muxing.RealClose | src/format/muxer.rs:104-115 | flushes first; the trailer is written only after a good flush; a failed trailer gives "Failed to write trailer" |
| Muxing.Close | src/format/muxer.rs:99-102 | marks the muxer closed and performs the real close |
| Muxing.Drop | src/format/muxer.rs:196-206 | dropping closes an unclosed muxer, and always frees the context last |
| Muxing.CloseThenDropFinishesOnce | src/format/muxer.rs:99-206 | close then drop flushes once, writes the trailer at most once and frees once, last |
| Muxing.DropWithoutCloseFinishesOnce | src/format/muxer.rs:196-206 | a plain drop flushes once, then frees |
| Demuxing.Open | src/format/demuxer.rs:27-72 | allocation, open and stream-info failures in order; only the last one closes the input |
| Demuxing.StreamsOf | src/format/demuxer.rs:74-79 | the iterator starts at the first stream |
| Demuxing.StreamsYieldsAll | src/format/demuxer.rs:74-83 | `streams()` yields all `num_streams()` streams, in order |
| Demuxing.NthIsIndex | src/format/demuxer.rs:74-79 | `nth(n)` on the iterator is stream `n`, or `None` past the end |
| Demuxing.DurationAsWritten | src/format/demuxer.rs:87-94 | the demuxer's duration as the source computes it |
| Demuxing.Duration | src/format/demuxer.rs:85-94 | the floored duration in seconds |
| Demuxing.ReadPacket | src/format/demuxer.rs:117-142 | allocation failure, EOF (as `None`), read failure and invalid stream index (negative ones included) are told apart; a good packet carries its stream's timebase |
| AvIo.U64IntoInt64 | src/io.rs:176-182 | `Some` exactly for values up to I64_MAX, unchanged |
| AvIo.Int64IntoU64 | src/io.rs:184-190 | `Some` exactly for non-negative values, unchanged |
| AvIo.ConversionsRoundTrip | src/io.rs:176-190 | the two conversions are inverse where both are defined |
| AvIo.PositionReply | src/io.rs:156-174 | a position is returned as is, or -1 when it is unknown or too large |
| AvIo.SeekRequest | src/io.rs:156-174 | SEEK_SET, SEEK_CUR and SEEK_END map to the matching `SeekFrom`; a negative SEEK_SET offset and unknown whence values are refused |
| AvIo.FfiSeek | src/io.rs:156-174 | AVSEEK_SIZE answers the size without seeking; every other request is forwarded or answered -1 |
| AvIo.SeekSetReachesOffset | src/io.rs:156-174 | against an exact stream, SEEK_SET answers the requested offset |
| AvIo.FailingStreamAnswersMinusOne | src/io.rs:156-174 | a stream whose seeks all fail makes every seek answer -1 |
| AvIo.FfiReadPacket | src/io.rs:142-147 | a failed read answers -1; a count is cast to `int` |
| AvIo.FfiWritePacket | src/io.rs:149-154 | a failed write answers -1; a count is cast to `int` |
| AvIo.HonestCountsPassThrough | src/io.rs:142-154 | a count within the buffer passes through unchanged |
| AvIo.FromReader | src/io.rs:57-83 | a reader context is read-only, with read and seek callbacks |
| AvIo.FromWriter | src/io.rs:85-111 | a writer context is writable, with write and seek callbacks |
| AvIo.ReaderWriterMirror | src/io.rs:29-111 | both use 4096-byte buffers and differ only in direction |
| PtrTake.Take | src/util.rs:9-17 | `take` returns the pointer and leaves null behind |
| PtrTake.TakeIsIdempotentAfterFirst | src/util.rs:9-17 | a second `take` returns null and leaves null |
| PtrTake.ConstAndMutAlike | src/util.rs:9-17 | the const and mut versions behave the same |

## Left out

- FFmpeg itself: pixel conversion, encoding, decoding, muxing and `av_rescale_q` arithmetic are oracles and return codes, not computations.
- Memory management: `Drop` impls that only free (frames, codec contexts, scaler contexts, I/O contexts), `as_ptr`/`as_mut`/`from_ptr` accessors, and the `io_dropper` plumbing. The muxer's drop-time close is kept, because it decides when the trailer is written.
- `Timebase::as_f32` and `as_f64`: floating point.
- `dump_info` of the muxer and demuxer, and the `Debug` impls: they only print.
- The `AVRead`, `AVWrite` and `AVSeek` impls for `File`: operating-system I/O. The model takes what `read`, `write` and `seek` return as parameters.
- `Codec::descriptors`, `Profile::name` and the format names: they only read C strings. The muxer's and demuxer's `format_name` and `format_long_name` are plain field reads with no contract.
- `Stream::duration`, `Stream::codec_parameters` and the plain getters of the encoders and decoders: they are field reads with no contract.
- `VideoFrames.IsCompatibleWithEncoder` has no row. It is the predicate that `PrepareFrame`'s and `Encode`'s contracts are stated in.
- `channel_mut` and `data_mut` of `video::Frame`: these return mutable views. The model covers the writes made through them by `fill_channel`.
- `num_channels` and `is_planar` of the audio frames: these come from `av_get_channel_layout_nb_channels` and `av_sample_fmt_is_planar`, which are parameters to `DataMut`.
- `audio::Decoder`: src/audio/decoder.rs is not part of this model. `GenericDecoding.AudioDecoder` records only its codec and timebase.
- `GenericEncoding.SendFrame` sends video through the send loop of src/codec/video_encoder.rs. `video::Encoder` has no `send_frame`, so src/generic/encoder.rs calls a method that does not exist on it, and this is the nearest matching loop.
- Muxing.Open: does not model `avformat_write_header` changing the streams' timebases. The model keeps the encoders' timebases.
- Muxing.Open: requires at most I32_MAX encoders, because the stream id `k + 1` is cast to `int`.
- Demuxing.ReadPacket: `CowPacket` is modelled as the raw packet plus its stream's timebase. src/common/packet/ is not part of this model.
- Muxing.Flush: requires that some sweep writes nothing or fails. Without that, the source's loop does not end.
- The send loops of CodecVideoEncoding.SendFrame, AudioEncoding.SendFrame and Draining.PacketLoop likewise require an end code or a handler failure among the receive codes.
- Timestamps.AddAssign: requires that `index + rhs` fits in `i64`. A debug build panics on overflow, while a release build wraps it to 64 bits, and that wrap is not modelled.
- StandaloneAudioFrames.PtsAdd: requires that `pts + amount` fits in `i64`, for the same reason as `Timestamps.AddAssign`. The release-build wrap is not modelled.
- VideoScaling.ScaleFrame: the target's `data_mut` first calls `av_frame_make_writable`. The model assumes that call succeeds (on failure it panics) and passes the target's channels as they are.
- VideoFrames.FillChannel: `channel_mut` first calls `av_frame_make_writable` and panics if it fails. The model assumes that call succeeds and writes into the frame's own buffers.
- AudioFrames.DataMut: `data_mut` first calls `av_frame_make_writable` and panics if it fails. The model assumes that call succeeds.
- `data_mut` of src/frame/audio_frame.rs (lines 64-81) has no member of its own. It is `AudioFrames.DataMut` without the `av_frame_make_writable` call.
- VideoScaling.Scale: requires that the plane-size products `h * linesize[i]` fit in `usize`, but only on inputs that reach the size loop (a context is available and both plane checks pass). A debug build panics there on overflow, while a release build wraps the product, and that wrap is not modelled.
- Memory safety of the unsafe pointer code is not modelled. Slices are sequences, and out-of-bounds access is excluded by `requires`.

## Findings

| source | as written | input that shows it | evidently intended | confidence | as-written member | corrected member |
|---|---|---|---|---|---|---|
| src/format/muxer.rs:49-56 | `duration as u32 / AV_TIME_BASE` (here and in src/format/demuxer.rs:87-94) casts the microsecond count to `u32` before dividing, so any duration over 4294.97 s wraps | duration = 4294967296 µs (about 71.6 min) gives 0 s | `(duration / AV_TIME_BASE) as u32`, the floored seconds that the doc comment promises | not executed | Durations.TruncationCounterexample | Durations.Seconds |
| src/codec/codec.rs:75-88 | `pixel_formats` reads `pix_fmts` without a null check | an audio codec, such as aac, has `pix_fmts == NULL`, and the scan dereferences it | an empty slice when the codec lists no pixel formats | not executed | Codecs.AudioCodecBreaksPixelFormats | Codecs.PixelFormats |
