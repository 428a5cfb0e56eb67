# ClapTrap core, modelled in Dafny

ClapTrap listens to audio (a local microphone, an RTSP stream or a VBAN network
stream), passes it through a sound classifier and fires a "clap" event, over a
socket and an optional webhook, when the classifier's clap score beats a
threshold and the previous clap is far enough in the past. A web page keeps the
user's settings and a Flask back end stores them.

This project models the deterministic heart of that system:

- **VBAN ingestion** (`pcm.dfy`, `vban_header.dfy`, `vban_detector.dfy`,
  `vban_discovery.dfy`): the three VBAN header decoders, kept apart as the
  repository keeps them; the int16 payload decoding; the cleaning of stream
  names; the detector's receive step with its 48000-sample deque and hand-off
  of 16000-sample chunks; and the two source registries with their eviction by
  age.
- **Audio windows** (`windowing.dfy`, `circular_buffer.dfy`): padding or
  truncating to the classifier's 15600-sample window, decimation by three, the
  resampler's requested length, and a `CircularAudioBuffer` class over an array,
  specified against the repository's unit tests.
- **Detection** (`scoring.dfy`, `classify.dfy`, `vban_processor.dfy`,
  `audio_detector.dfy`): the composite clap score, the
  three best labels, the debounce gate, and the state of the three detectors
  that use them.
- **Settings** (`settings_validator.dfy`, `settings_store.dfy`,
  `app_settings.dfy`): schema validation with defaults, the browser-side merge
  and check, and the server's section copy, the check that a save stuck, and
  the VBAN source list.

Times, the classifier, the resampler, float32 decoding, `parseFloat`, `new URL`
and API responses are parameters. Socket emits, webhook posts and callback
calls are kept in logs that the methods append to. Bytes are integers 0 to 255.
Python's and JavaScript's value semantics are written out where the code relies
on them: truthiness, `in`, `.get`, `len`, spreading an object, and `==` between
`True` and `1`.

## Model

| member | source | states |
|---|---|---|
| Pcm.Int16At | vbantest.py:70 | a little-endian word reads as a value in [-32768, 32768), negative exactly when the high byte's top bit is set |
| Pcm.Int16RoundTrip | vbantest.py:70 | reading back the two bytes a sender writes for a sample gives the sample |
| Pcm.Int16Samples | vbantest.py:70 | an odd byte count is numpy's error; otherwise half as many samples, all in int16 range |
| Pcm.DecodeEncode | vbantest.py:70 | decoding what a sender encoded gives back its samples |
| Pcm.Normalise | vbantest.py:70 | each output sample times 32768 is the input sample |
| Pcm.DecodeFloat | vban_processor.py:269-272 | fails exactly on an odd byte count; otherwise half as many samples, each in [-1, 1) |
| Pcm.DecodeFloatSign | vban_processor.py:269-272 | a decoded sample is negative exactly when the int16 is, and equals -1 only for -32768 |
| VbanHeader.Protocol | vbantest.py:19 | a multiple of 32 that differs from byte 4 by less than 32 |
| VbanHeader.NbChannels | vbantest.py:22 | the channel count lies in [1, 32] |
| VbanHeader.DataFormat | vbantest.py:23 | the format is below 8 |
| VbanHeader.FieldMasks | vbantest.py:19-23 | the arithmetic fields equal the source's `& 0xE0`, `& 0x1F`, `(& 0x1F) + 1` and `>> 5` on bytes |
| VbanHeader.ParseHeader | vbantest.py:13-30 | the invalid-magic, truncated-packet and out-of-range-index errors each happen exactly when the source raises them; otherwise every field is its byte's field and the rate is the 21-entry table's |
| VbanHeader.EncodeHeader | vbantest.py:13-30 | a sender's header is eight bytes starting with the magic |
| VbanHeader.ParseEncode | vbantest.py:13-30 | parsing a header a sender wrote, whatever follows, gives back that header |
| VbanHeader.ParseThenEncode | vbantest.py:13-30 | a parsed header is well formed, and writing it out and parsing it again gives the same header |
| VbanHeader.RateAgainstDetector | vbantest.py:26-30 | agrees with the detector's rate below index 20, reads 705600 Hz at 20 where the detector reads 44100, and fails above |
| VbanHeader.PacketAudio | vbantest.py:68-70 | the payload after the 28-byte header fails on an odd length, else yields half as many samples in [-1, 1) |
| VbanHeader.PacketAudioRoundTrip | vbantest.py:68-70 | a packet carrying encoded samples after its header yields exactly those samples scaled by 1/32768 |
| VbanDetector.RateIndex | vban_detector_new.py:42 | the rate index is below 32 |
| VbanDetector.Channels | vban_detector_new.py:43 | the channel count lies in [1, 8] |
| VbanDetector.ByteFourMasks | vban_detector_new.py:42-43 | the two fields are `byte4 & 0x1F` and `((byte4 & 0xE0) >> 5) + 1` |
| VbanDetector.ByteFourFields | vban_detector_new.py:42-43 | the two fields together determine byte 4 |
| VbanDetector.SampleRate | vban_detector_new.py:48-55 | the rate is positive and one of the 20 table entries |
| VbanDetector.SampleRateExamples | vban_detector_new.py:48-55 | index 3 is 48000, 16 is 44100, 8 is 16000, and every index from 20 up silently reads 44100 |
| VbanDetector.FirstUnprintable | vban_detector_new.py:118-122 | every byte before the index is printable ASCII, and the byte at it, if any, is not |
| VbanDetector.AsciiIgnore | vban_detector_new.py:125 | no longer than its input, and holds only ASCII characters |
| VbanDetector.TrimJunk | vban_detector_new.py:132-133 | a prefix of its input that is empty or ends in an alphanumeric or whitespace character |
| VbanDetector.Tidy | vban_detector_new.py:125-133 | no longer than the bytes, ASCII only, empty for no bytes, and never ending in a character that is neither alphanumeric nor whitespace |
| VbanDetector.CleanedName | vban_detector_new.py:114-135 | `clean_vban_name` as written on a byte string: cut at `end_idx` only when it is above 0, then decoded, stripped and trimmed; `CleanVbanName` is the loop form proved equal to it |
| VbanDetector.CleanVbanName | vban_detector_new.py:114-135 | the loops compute the cleaned name, which ends in an alphanumeric or whitespace character (or is empty) and holds only ASCII |
| VbanDetector.FindCut | vban_detector_new.py:118-122 | the loop finds the first unprintable byte's index, or 0 when there is none |
| VbanDetector.TrimTrailingJunk | vban_detector_new.py:132-133 | the loop drops exactly the trailing characters that are neither alphanumeric nor whitespace |
| VbanDetector.TrimJunkStep | vban_detector_new.py:132-133 | one turn of the loop leaves the final result unchanged |
| VbanDetector.TrimJunkFixed | vban_detector_new.py:132-133 | the loop stops once the last character is kept |
| VbanDetector.FirstUnprintableAt | vban_detector_new.py:118-122 | the cut is the first unprintable byte |
| VbanDetector.CleanedNamePrintable | vban_detector_new.py:123-135 | with a cut past the first byte, the name holds only printable characters and is no longer than the cut |
| VbanDetector.TrimmedPrintable | vban_detector_new.py:125-133 | printable bytes stay printable and no more numerous through decode, strip and trim |
| VbanDetector.AsciiIgnorePrintable | vban_detector_new.py:125 | printable bytes decode one character each, all printable |
| VbanDetector.CleanedNameKeepsNulField | vban_detector_new.py:118-124 | an all-zero name field is not cut, and with a frame counter of 0x41 the name is sixteen NULs and "A" |
| VbanDetector.CleanedNameReadsFrameCounter | vban_detector_new.py:44 | a full 16-byte name followed by the counter 0x4241 cleans to the name plus "AB" |
| VbanDetector.CleanedNameCut | vban_detector_new.py:123-125 | with the cut inside the field, the name is built from the bytes before it |
| VbanDetector.FirstUnprintableAppend | vban_detector_new.py:118-122 | after an all-printable prefix, the cut is found in the rest |
| VbanDetector.StreamName | vban_detector_new.py:44 | the corrected name has at most 16 printable characters, ends in a kept character, and is empty when the name field starts with NUL or another unprintable byte |
| VbanDetector.StreamNameNulField | vban_detector_new.py:118-124 | the corrected name of an all-zero name field is empty |
| VbanDetector.StreamNameFullField | vban_detector_new.py:44 | the corrected name of a full field leaves the frame counter out |
| VbanDetector.NoJunkAtEnds | vban_detector_new.py:131-133 | a name that starts and ends with a letter is left alone by strip and trim |
| VbanDetector.SourceOf | vban_detector_new.py:75-80 | the record written for an accepted datagram is seen now, with 1 to 8 channels, a table rate, and the as-written name `clean_vban_name(data[8:28])`: at most 20 ASCII characters, ending in an alphanumeric or whitespace character or empty |
| VbanDetector.Live | vban_detector_new.py:86-92 | keeps exactly the records seen at most five seconds ago, unchanged |
| VbanDetector.LiveAfterRefresh | vban_detector_new.py:75-92 | a refreshed sender survives eviction exactly while within five seconds; other senders are unaffected |
| VbanDetector.LiveMonotone | vban_detector_new.py:86-92 | eviction is idempotent at the same time, and a later pass keeps no more |
| VbanDetector.IsVbanDatagram | vban_detector_new.py:40 | the receive guard: at least 28 bytes, the first four spelling "VBAN"; `OutcomeOf` and `Detector.Receive` state that nothing else is accepted |
| VbanDetector.Samples | vban_detector_new.py:58-63 | the float32 payload after the header, resampled to `int(n * 16000 / rate)` samples unless the rate is already 16 kHz |
| VbanDetector.OutcomeOf | vban_detector_new.py:40-63 | a datagram is ignored exactly when shorter than 28 bytes or without the magic, refused by numpy exactly when its payload is not a multiple of 4 bytes, and refused by the resampler exactly when its rate is not 16 kHz and `int(n * 16000 / rate)` is 0 |
| VbanDetector.OneSampleAt48kRefused | vban_detector_new.py:61-63 | a datagram with one float32 sample at 48 kHz asks for 0 resampled samples and is refused |
| VbanDetector.Detector.constructor | vban_detector_new.py:11-21 | an empty table and deque, no callback |
| VbanDetector.Detector.SetAudioCallback | vban_detector_new.py:106-108 | sets whether a chunk consumer is registered |
| VbanDetector.Detector.Receive | vban_detector_new.py:37-84 | a datagram that is not VBAN, or whose payload numpy or the resampler refuses, changes nothing; an accepted one keeps the newest 48000 samples, hands the first 16000 to the callback and empties the deque once there are that many; when that callback raises the sender's record is left as it was, otherwise only the sender's record is rewritten |
| VbanDetector.Detector.EvictStale | vban_detector_new.py:86-94 | removes exactly the senders silent for more than five seconds, returns them, and leaves the rest unchanged |
| VbanDetector.Detector.ActiveSources | vban_detector_new.py:102-104 | the copy equals the table |
| VbanDiscovery.IsVbanPacket | vban_discovery.py:57-59 | `_is_vban_packet`: at least four bytes, the first four spelling "VBAN"; `GuardWeakerThanDetector` compares it with the detector's guard |
| VbanDiscovery.GuardWeakerThanDetector | vban_discovery.py:57-59 | every datagram the detector accepts passes discovery's guard, and a bare magic passes it but not the detector's |
| VbanDiscovery.DecodeSampleRate | vban_discovery.py:89-94 | the table entry for indices 0 to 6, 48000 for every other index |
| VbanDiscovery.RateTablesCompared | vban_discovery.py:89-94 | the two listeners agree on indices below 7, and index 16 is 48000 here but 44100 in the detector |
| VbanDiscovery.AsciiStrict | vban_discovery.py:73 | succeeds exactly when every byte is below 128, mapping each byte to its character |
| VbanDiscovery.RstripNul | vban_discovery.py:73 | a prefix with only NULs removed after it, not ending in NUL |
| VbanDiscovery.RstripNulIdempotent | vban_discovery.py:73 | stripping twice is stripping once |
| VbanDiscovery.NameField | vban_discovery.py:73 | at most 16 bytes, exactly bytes 8 to 23 for a long enough packet |
| VbanDiscovery.DecodedStripped | vban_discovery.py:73 | an ASCII field decodes and strips to its stripped reading |
| VbanDiscovery.ParsePacket | vban_discovery.py:61-87 | fails exactly on a packet shorter than 8 bytes or a non-ASCII name byte; otherwise the address, time, `data[6] + 1` channels in [1, 256], the rate from byte 7 and the stripped name |
| VbanDiscovery.ParseFails | vban_discovery.py:61-87 | parsing fails exactly on a short packet or a byte above 127 among bytes 8 to 23 |
| VbanDiscovery.ShortPacketDropped | vban_discovery.py:57-87 | a packet that passes the guard but is shorter than 8 bytes is still dropped |
| VbanDiscovery.ParsePaddedName | vban_discovery.py:73 | a NUL-padded name comes out without its padding |
| VbanDiscovery.StrippedUnique | vban_discovery.py:73 | the stripped reading of a field is unique |
| VbanDiscovery.Key | vban_discovery.py:49 | the key is longer than the address plus the colon |
| VbanDiscovery.KeyInjective | vban_discovery.py:49 | for colon-free addresses, equal keys mean equal address and port |
| VbanDiscovery.Fresh | vban_discovery.py:96-103 | keeps exactly the entries seen at most `max_age` ago, unchanged |
| VbanDiscovery.FreshMonotone | vban_discovery.py:96-103 | cleanup is idempotent at the same time, and a later time or a stricter age keeps no more |
| VbanDiscovery.FreshMatchesDetector | vban_discovery.py:96-103 | with the default age the two registries keep the same senders |
| VbanDiscovery.ListedOnce | vban_discovery.py:105-108 | listing the records of all keys lists every record exactly once |
| VbanDiscovery.StoredThenCleaned | vban_discovery.py:48-103 | a stored record survives a default cleanup exactly while within five seconds; other keys are unaffected |
| VbanDiscovery.Discovery.constructor | vban_discovery.py:17-22 | an empty table |
| VbanDiscovery.Discovery.Receive | vban_discovery.py:42-50 | a packet that passes the guard and parses replaces the record under its `ip:port` key and touches no other; anything else changes nothing |
| VbanDiscovery.Discovery.CleanupOldSources | vban_discovery.py:96-103 | the table becomes its fresh entries |
| VbanDiscovery.Discovery.ActiveSources | vban_discovery.py:105-108 | a list of every record, each exactly once, as many as the table holds |
| Windowing.FitWindow | vban_processor.py:153-183 | exactly the window size: the prefix of a longer input, or the input followed by zeros |
| Windowing.FitWindowIdempotent | vban_processor.py:169-173 | fitting twice is fitting once |
| Windowing.Decimate3 | audio_detector.py:105-108 | ⌈n/3⌉ samples, the i-th being input sample 3i |
| Windowing.ResampledLength | vban_detector_new.py:62-63 | `int(len(audio_data) * 16000 / sample_rate)`, the length the resampler is asked for; `ResampledLengthFloor` characterises it |
| Windowing.ResampledLengthFloor | vbantest.py:73-76 | the requested length is the largest whose duration at the source rate does not exceed the input's at 16 kHz |
| Windowing.ResampledLengthExamples | vban_detector_new.py:61-63 | from 48 kHz a third of the samples, from 16 kHz all of them |
| Scoring.CompositeScore | classify.py:388-397 | `score_sum`: the Hands, Clapping and Cap gun scores summed, less the Finger snapping scores; the same generator expressions are at vban_processor.py:198-209 and audio_detector.py:51-60. Its properties are the `CompositeScore*` lemmas below |
| Scoring.CompositeScoreAppend | classify.py:386-397 | the positive sum, negative sum and score of a concatenation add up |
| Scoring.CompositeScoreWeights | classify.py:386-397 | the score is the sum of per-category weights: +score for Hands, Clapping, Cap gun; -score for Finger snapping; 0 otherwise |
| Scoring.CompositeScorePermutation | classify.py:386-397 | the score does not depend on the order of the categories |
| Scoring.CompositeScoreBounds | classify.py:386-397 | with scores in [0, 1], the score lies between minus the negative-label count and the positive-label count |
| Scoring.SortDescending | classify.py:400 | `sorted(..., key=score, reverse=True)` as a stable insertion sort; `SortDescendingSpec` proves it a non-increasing permutation |
| Scoring.SortDescendingSpec | classify.py:400 | the sort is a permutation with non-increasing scores |
| Scoring.Top3 | classify.py:400 | at most three labels, non-increasing, drawn from the categories, the last kept scoring at least as high as every one dropped |
| Scoring.Fires | classify.py:405-407 | the debounce gate: the score beats the threshold strictly and strictly more than `delay` seconds have passed since the last event (also vban_processor.py:212-214, and audio_detector.py:85 with 0.5 and 1.0) |
| Scoring.NextLastEvent | classify.py:427 | `last_clap_time` after one result: `now` when the gate fires, unchanged otherwise |
| Scoring.ClapLog | classify.py:405-427 | the invariant the gate keeps: no logged event after the last event time, consecutive events more than `delay` apart |
| Scoring.Stamps | vban_processor.py:212-216 | the times of a log of notifications or detections, one per event in order; the classes state `ClapLog` over it |
| Scoring.ClapLogStep | classify.py:405-427 | one result through the gate keeps a log of clap times well spaced and none later than the last clap time |
| Scoring.FiredTimes | vban_processor.py:212-216 | the times at which the gate fires over a run of results; `FiredTimesSpaced`, `FiredTimesSnoc` and `DebounceScenario` state its properties |
| Scoring.FiredTimesSpaced | vban_processor.py:212-216 | over a run of results, each fired time is more than `delay` after the previous event |
| Scoring.FiredTimesSnoc | vban_processor.py:212-216 | one more result adds its time exactly when the gate fires, and moves the last clap time as the gate says |
| Scoring.DebounceScenario | vban_processor.py:212-216 | with a 1 s cooldown, hits at t, t + 0.5, t + 1.2 fire at t and t + 1.2 |
| Windowing.LastN | vban_detector_new.py:18 | the newest `n` elements, a suffix of the input: what the bounded deque keeps and what the ring buffer holds |
| CircularBuffer.LastNChunking | test_circular_buffer.py:43-54 | writing in two pieces keeps what writing the concatenation keeps |
| CircularBuffer.Padded | test_circular_buffer.py:56-67 | exactly `n` frames: the newest ones, silence on the left when fewer are held |
| CircularBuffer.WrapIsMod | test_circular_buffer.py:43-54 | the cursor arithmetic is Python's `%` on the values reduced |
| CircularBuffer.Window | test_circular_buffer.py:17-29 | the frames a storage holds: the `filled` frames ending just before the write cursor, oldest first, as many as `filled` |
| CircularBuffer.Written | test_circular_buffer.py:43-54 | the storage after a write shorter than the capacity at the cursor, wrapping past the end, the same size as before |
| CircularBuffer.WindowAfterWrite | test_circular_buffer.py:43-54 | after a short write, the window at the new cursor holds the newest frames of the old contents and the data |
| CircularBuffer.PaddedWindowAt | test_circular_buffer.py:56-67 | slot by slot, a read returns silence before the held frames and storage slots counted back from the cursor after |
| CircularBuffer.CircularAudioBuffer.Contents | test_circular_buffer.py:17-81 | the held frames, as many as the fill count |
| CircularBuffer.CircularAudioBuffer.constructor | test_circular_buffer.py:6-15 | stores size and channels, cursor and fill count zero |
| CircularBuffer.CircularAudioBuffer.Write | test_circular_buffer.py:17-54 | reports success; the contents become the newest `buffer_size` frames of the old contents and the data; the fill count grows up to the capacity |
| CircularBuffer.CircularAudioBuffer.Read | test_circular_buffer.py:17-67 | the newest `n` frames, silence on the left when fewer are held |
| CircularBuffer.CircularAudioBuffer.Clear | test_circular_buffer.py:56-67 | cursor and fill count zero, nothing held |
| CircularBuffer.CircularAudioBuffer.Level | test_circular_buffer.py:69-81 | the held fraction of the capacity, in [0, 1], equal to 1 exactly when full |
| CircularBuffer.InitializationScenario | test_circular_buffer.py:11-15 | size 1000, 2 channels, cursor and fill count zero |
| CircularBuffer.SimpleScenario | test_circular_buffer.py:17-29 | 100 frames written come back from a read of 100, and the write succeeds |
| CircularBuffer.OverflowScenario | test_circular_buffer.py:31-41 | after 1500 frames, a read of 1000 gives the last 1000 |
| CircularBuffer.CircularScenario | test_circular_buffer.py:43-54 | after 500 then 700 frames, a read of 700 gives the second write |
| CircularBuffer.ClearScenario | test_circular_buffer.py:56-67 | after a write and a clear, cursor and fill count are zero and a read of 500 is silence |
| CircularBuffer.LevelScenario | test_circular_buffer.py:69-81 | the level is 0.0, then 0.5, then 1.0 |
| Classify.InferenceInterval | classify.py:216-227 | for an accepted overlap, strictly between zero and the 0.1 s input length |
| Classify.InferenceIntervalMonotone | classify.py:223-226 | a larger overlap infers more often, by a tenth of the overlap difference |
| Classify.ReloadedSource | classify.py:154-161 | fails exactly when the reloaded file is truthy but not a dict; the source changes only to an enabled microphone section's `audio_source` |
| Classify.Detection.constructor | classify.py:26-33 | not running, no source, no socket |
| Classify.Detection.StartDetection | classify.py:137-193 | refused without change while running or when the reload raises; otherwise starts exactly for an overlap in (0, 1) and a threshold in [0, 1], storing the source and socket either way |
| Classify.Detection.StopDetection | classify.py:442-473 | the flag always drops; it succeeds and resets the source exactly when no VBAN detector exists, since `cleanup` is missing; on success a `detection_status` "stopped" event is emitted when a socket is stored, and never otherwise; since `get_vban_detector` creates a detector whenever none exists, success needs that construction to have failed, so in practice every call fails |
| Classify.SourceId | classify.py:408-410 | `rtsp-<url>` when the audio source starts with "rtsp", `microphone` otherwise |
| Classify.Handle | classify.py:386-428 | one pass over `classification_result_list`: the first classification of the first result is scored, its top three labels emitted, the gate applied, and the list cleared; its properties are `HandleConsumes`, `HandleGate`, `HandleLabels` and `HandleKeepsLog` |
| Classify.HandleConsumes | classify.py:386-432 | results are cleared exactly when the first has a classification; a first result without one changes nothing; later results are never scored |
| Classify.HandleGate | classify.py:405-427 | the last clap time moves as the gate says; a clap event goes out exactly when the gate fires and a socket is set, the webhook exactly when it fires and a URL is set |
| Classify.HandleLabels | classify.py:399-403 | the labels go out first, on every scored result, exactly when a socket is set; at most three, best first |
| Classify.ClapTimes | classify.py:414-419 | the timestamps of the clap events in an emitted log, oldest first, never more than the log has entries |
| Classify.ClapTimesAppend | classify.py:405-427 | the clap times of a concatenated log concatenate |
| Classify.ClapTimesOut | classify.py:399-423 | labels carry no clap; a notification carries one exactly when a socket is set |
| Classify.HandleKeepsLog | classify.py:386-428 | handling results keeps the emitted clap log well spaced |
| Classify.HandleVbanAsWritten | classify.py:284-331 | the VBAN callback as written: labels go out, but a score above the threshold reads the local `last_clap_time` and raises, so nothing fires and the list stays; `VbanNeverClaps` states the consequence |
| Classify.VbanNeverClaps | classify.py:308-331 | as written, the VBAN callback never emits a clap, and a result that beats the threshold stays pending forever |
| Classify.VbanClapLost | classify.py:308-331 | a 0.9 Clapping score against 0.5 claps in the main loop but not in the VBAN callback |
| Classify.VbanWindow | classify.py:253-269 | no window for a sender missing from the active sources; otherwise exactly 15600 samples, the prefix or the input padded with zeros |
| Classify.InferenceLoop.constructor | classify.py:216-229 | the interval from the overlap, no results, no claps, the last clap time zero |
| Classify.InferenceLoop.SaveResult | classify.py:200-202 | appends the result, nothing else changes |
| Classify.InferenceLoop.Tick | classify.py:365-432 | too early a turn changes nothing; otherwise the inference time moves to now and the pending results are handled |
| Classify.InferenceLoop.HandlePending | classify.py:386-428 | emits, moves the last clap time and clears the results as the handling says, keeping the clap log well spaced |
| Classify.InferenceLoop.VbanCallback | classify.py:250-336 | as written: gated on the active sources, the window handed on, labels emitted, no clap, and a result that beats the threshold left pending |
| Classify.InferenceLoop.HandlePendingAsWritten | classify.py:284-331 | the VBAN callback's handling as written |
| Classify.InferenceLoop.VbanCallbackIntended | classify.py:250-336 | the same gate and window, then the results handled as the main loop does |
| VbanProcessor.Processor.constructor | vban_processor.py:17-52 | the arguments stored, a 15600-sample buffer, not running, no notifications |
| VbanProcessor.Processor.SetSocketio | vban_processor.py:104-111 | sets the socket, nothing else changes |
| VbanProcessor.Processor.Start | vban_processor.py:113-134 | refused without change while running; otherwise starts exactly when a detector comes back and registering succeeds |
| VbanProcessor.Processor.Stop | vban_processor.py:136-151 | refused without change when not running; otherwise stops unless unregistering an existing detector fails |
| VbanProcessor.Processor.DetectClaps | vban_processor.py:185-219 | a result without classifications changes nothing; otherwise a notification goes out and the last clap time moves exactly when the gate fires, and the notification log stays well spaced |
| VbanProcessor.Processor.AudioCallback | vban_processor.py:280-296 | the classifier gets exactly the 15600-sample window, and its result goes through the gate |
| AudioDetector.Truncate | audio_detector.py:14 | truncation toward zero |
| AudioDetector.BufferSizeFor | audio_detector.py:14-15 | `int(duration * rate)`: defined exactly when the product exceeds -1, and within one below the product |
| AudioDetector.DefaultBufferSize | audio_detector.py:11-15 | the defaults size the buffer to 16000 samples |
| AudioDetector.Prepared | audio_detector.py:105-108 | input longer than the buffer is every third sample, ⌈n/3⌉ of them; otherwise unchanged |
| AudioDetector.PreparedFromVban | audio_detector.py:105-108 | 48000 samples against a 16000-sample buffer give exactly 16000 |
| AudioDetector.Detector.constructor | audio_detector.py:11-21 | the buffer sized by `int(duration * rate)`, empty; no classifier, no callbacks, last detection time zero |
| AudioDetector.Detector.SetCallbacks | audio_detector.py:133-139 | sets which callbacks are present, nothing else changes |
| AudioDetector.Detector.HandleResult | audio_detector.py:42-99 | a missing or empty result changes nothing; otherwise the labels callback gets the top three, and on the fixed gate (0.5, 1.0 s) the detection callback gets the time and score and the last detection time moves even without a callback |
| AudioDetector.Detector.ProcessAudio | audio_detector.py:101-131 | with a classifier, non-empty audio is handed on prepared; nothing else changes |
| AudioDetector.Detector.Start | audio_detector.py:141-145 | raises without change exactly when no classifier is loaded and loading fails; otherwise running with a classifier |
| AudioDetector.Detector.Stop | audio_detector.py:147-154 | not running, no classifier, empty buffer |
| SettingsValidator.SchemaDistinct | static/js/modules/settingsValidator.js:2-52 | no section lists a field twice and no section appears twice |
| SettingsValidator.DefaultFor | static/js/modules/settingsValidator.js:75 | an object field gets its default; an item field gets `null` exactly when its default is absent or falsy |
| SettingsValidator.ItemDefaults | static/js/modules/settingsValidator.js:75 | of the item defaults only the port survives the `or null` fallback; every other item default becomes `null` |
| SettingsValidator.Fill | static/js/modules/settingsValidator.js:73-78 | the `forEach` over the required fields: a field not yet present gets its default and is reported; `FillSpec` states its meaning |
| SettingsValidator.FillSpec | static/js/modules/settingsValidator.js:83-88 | present fields are kept, exactly the missing required ones are added with their defaults, and exactly those are reported |
| SettingsValidator.FillReportsOnce | static/js/modules/settingsValidator.js:83-88 | each missing field is reported once |
| SettingsValidator.FillFields | static/js/modules/settingsValidator.js:83-88 | the loop computes the fill |
| SettingsValidator.InSection | static/js/modules/settingsValidator.js:86 | one section message per missing field |
| SettingsValidator.InItem | static/js/modules/settingsValidator.js:76 | one item message per missing field |
| SettingsValidator.Items | static/js/modules/settingsValidator.js:71-80 | the `map` over an array section's items, as many items out as in, each spread and filled, with their errors |
| SettingsValidator.ItemsAt | static/js/modules/settingsValidator.js:71-80 | item `k` of the output is item `k` spread and filled |
| SettingsValidator.ItemsClean | static/js/modules/settingsValidator.js:71-80 | the items pass reports nothing exactly when every item carries every required field |
| SettingsValidator.FillClean | static/js/modules/settingsValidator.js:83-88 | the object pass reports nothing exactly when every required field is present |
| SettingsValidator.ValidateItems | static/js/modules/settingsValidator.js:71-80 | the loop computes the items pass |
| SettingsValidator.SectionOutcome | static/js/modules/settingsValidator.js:61-89 | one section's pass: a falsy section replaced by `[]` or `{}`, a non-array array section reported and emptied, an object section completed, a truthy primitive the TypeError of `in` |
| SettingsValidator.ValidateSection | static/js/modules/settingsValidator.js:61-89 | the loop body computes one section's pass |
| SettingsValidator.SectionClean | static/js/modules/settingsValidator.js:61-89 | a section's pass reports nothing exactly when the section was complete |
| SettingsValidator.ArrayClean | static/js/modules/settingsValidator.js:65-80 | an array section reports nothing exactly when it is an array of complete items (or falsy) |
| SettingsValidator.ObjectClean | static/js/modules/settingsValidator.js:83-88 | an object section reports nothing exactly when it carries every required field |
| SettingsValidator.ValidateFromClean | static/js/modules/settingsValidator.js:60-90 | over distinct sections, nothing is reported exactly when every section was complete |
| SettingsValidator.ValidateFromKeys | static/js/modules/settingsValidator.js:56-90 | the result holds the input's keys and the section names, and no other |
| SettingsValidator.ValidateFromResult | static/js/modules/settingsValidator.js:56-90 | keys outside the schema keep their values; each section holds its own pass's output |
| SettingsValidator.FillComplete | static/js/modules/settingsValidator.js:83-88 | a complete object is unchanged and unreported |
| SettingsValidator.ItemsComplete | static/js/modules/settingsValidator.js:71-80 | complete items are unchanged and unreported |
| SettingsValidator.SectionIdempotent | static/js/modules/settingsValidator.js:61-89 | a section's output passes again unchanged and unreported, unless it was an array given to an object section |
| SettingsValidator.ValidateFromFixed | static/js/modules/settingsValidator.js:60-90 | settings whose sections all pass unchanged pass unchanged |
| SettingsValidator.ValidateWithIdempotent | static/js/modules/settingsValidator.js:55-97 | validating the output again reports nothing and changes nothing, unless an object section was given an array |
| SettingsValidator.SchemaNames | static/js/modules/settingsValidator.js:2-52 | the schema's section names are distinct |
| SettingsValidator.ValidExactly | static/js/modules/settingsValidator.js:92-96 | `isValid` holds exactly when no `in` throws and every section was complete |
| SettingsValidator.ValidateWithKeepsPresent | static/js/modules/settingsValidator.js:55-97 | keys outside the schema are kept, and an object section keeps its fields and gains each missing one with its default |
| SettingsValidator.ValidateKeepsPresent | static/js/modules/settingsValidator.js:55-97 | the same, for the schema of the page |
| SettingsValidator.ValidateIdempotent | static/js/modules/settingsValidator.js:55-97 | the same idempotence, for the schema of the page |
| SettingsValidator.ValidateWith | static/js/modules/settingsValidator.js:55-97 | `validateSettings` against any schema: the input spread, the sections validated in order, `isValid` exactly when no error was reported |
| SettingsValidator.Validate | static/js/modules/settingsValidator.js:55-97 | `validateSettings` against `settingsSchema`; `ValidExactly`, `ValidateKeepsPresent` and `ValidateIdempotent` state its properties |
| SettingsValidator.ValidateSettingsWith | static/js/modules/settingsValidator.js:55-97 | the loop over the sections computes the validation |
| SettingsValidator.ValidateSettings | static/js/modules/settingsValidator.js:55-97 | computes the validation, and `isValid` holds exactly when there are no errors |
| SettingsStore.Prop | static/js/modules/settings.js:28-33 | member access throws exactly on null and reads an object's field |
| SettingsStore.OrEmpty | static/js/modules/settings.js:29 | `value || {}`: a falsy section update reads as an empty object |
| SettingsStore.MergeSection | static/js/modules/settings.js:27-34 | every key of an object update section wins |
| SettingsStore.Merge | static/js/modules/settings.js:24-35 | an object with both sections; other keys from the update win over the current ones, and the two sections are merged one level down |
| SettingsStore.MergeSectionTwice | static/js/modules/settings.js:27-34 | merging a section twice is merging it once |
| SettingsStore.MergeIdempotent | static/js/modules/settings.js:24-35 | merging the same update twice is merging it once |
| SettingsStore.ValidSettings | static/js/modules/settings.js:78-106 | passing implies the threshold parses into [0, 1] and the delay to a non-negative number |
| SettingsStore.ValidFormSettings | static/js/modules/settings.js:78-106 | on form settings, passing holds exactly for a threshold in [0, 1], a non-negative delay, and an accepted URL when the microphone is enabled with one |
| SettingsStore.OrText | static/js/modules/settings.js:49-55 | the fallback, or the element's non-empty value |
| SettingsStore.IndexOf | static/js/modules/settings.js:55 | the first index of the character, or none when absent |
| SettingsStore.SecondPiece | static/js/modules/settings.js:55 | none exactly when there is no bar; otherwise a piece without bars |
| SettingsStore.SecondPieceOf | static/js/modules/settings.js:55 | an option value of the form index, bar, name yields its name |
| SettingsStore.FromForm | static/js/modules/settings.js:47-57 | an object of exactly the global and microphone sections |
| SettingsStore.Store.constructor | static/js/modules/settings.js:5-116 | starts from the page's settings or the default, then merges the session's saved settings |
| SettingsStore.Store.GetCurrentSettings | static/js/modules/settings.js:17-19 | a value equal to the current settings |
| SettingsStore.Store.UpdateSettings | static/js/modules/settings.js:21-42 | a null update changes nothing; otherwise the merge becomes current and is stored in the session |
| SettingsStore.Store.SaveSettings | static/js/modules/settings.js:44-76 | posts exactly when the local check passes; succeeds and merges exactly when it passes and the response reports success; otherwise nothing changes |
| AppSettings.PyIn | app.py:42 | raises exactly on None, booleans and numbers; on a dict tests its keys |
| AppSettings.Index | app.py:43 | answers exactly for a dict holding the key |
| AppSettings.PyGet | app.py:113 | answers exactly for a dict, with the fallback for a missing key |
| AppSettings.Len | app.py:130 | answers exactly for lists, strings and dicts |
| AppSettings.CopySection | app.py:41-55 | a present section replaces the stored one; an absent one changes nothing; dicts never raise |
| AppSettings.Save | app.py:41-55 | the four `if key in new_settings` copies in order, the first exception ending the route; `SaveReplacesSections` and `SaveWithoutSections` state what it keeps and replaces |
| AppSettings.SaveReplacesSections | app.py:41-55 | each of the four sections the request carries replaces the stored one; every other stored key keeps its value and no key appears |
| AppSettings.SaveWithoutSections | app.py:41-55 | a request without the four sections leaves the stored settings as they were |
| AppSettings.CopyInto | app.py:42-43 | one copy, as the function describes |
| AppSettings.SaveSettings | app.py:28-70 | the four copies in order, the first exception ending the merge |
| AppSettings.SaveAcceptsInvalid | app.py:292-300 | as written, the self-test's invalid request is stored although its global section is unusable |
| AppSettings.SaveChecked | app.py:292-300 | succeeds only as the plain save, with a usable global section, and exactly when the request's global section is absent or usable |
| AppSettings.SaveCheckedRefusesInvalid | app.py:292-300 | the checked save refuses the self-test's invalid request |
| AppSettings.FieldsMatch | app.py:111-117 | for a non-empty field list, a match exactly when both are dicts agreeing by Python `==` on every field |
| AppSettings.PairsMatch | app.py:133-139 | a match exactly when every pair agrees on name, url and webhook_url |
| AppSettings.SectionMatch | app.py:111-126 | one section check: skipped when the request lacks the section, otherwise each listed field compared with `.get` and `!=` |
| AppSettings.RtspMatch | app.py:129-139 | the RTSP check: a length comparison against `saved.get("rtsp_sources", [])`, then the zipped entries compared on name, url and webhook_url |
| AppSettings.VerifyRun | app.py:107-143 | the three checks in order, the first difference or exception ending the run |
| AppSettings.VerifySettingsSaved | app.py:107-147 | `True` only when every check passes; a difference or an exception gives `False`; `VerifyExactly` and `SaveThenVerify` state its meaning |
| AppSettings.VerifyExactly | app.py:107-147 | holds exactly when each of the global, microphone and RTSP sections the request carries agrees with the saved one |
| AppSettings.SectionMatchExactly | app.py:111-126 | a section check passes exactly when the request lacks it or the saved one agrees |
| AppSettings.RtspMatchExactly | app.py:129-139 | the RTSP check passes exactly when the request lacks the list or the saved one agrees in length and item by item |
| AppSettings.SaveThenVerify | app.py:28-147 | what the save stores passes the verification against its request, for well-shaped requests |
| AppSettings.SourceName | app.py:259 | answers exactly for a dict whose name, if any, is a string; a missing name is empty |
| AppSettings.SourceListBuilt | app.py:257-264 | the list is built exactly when every source's name can be read |
| AppSettings.SourceListSound | app.py:257-264 | every entry is that of a source with a non-blank name, and there are no more entries than sources |
| AppSettings.SourceListComplete | app.py:257-264 | every source with a non-blank name is listed with its `vban://` URL |
| AppSettings.SourceList | app.py:257-264 | the list `refresh_vban_sources` builds from the active sources, in their order, entries `VBAN: <name> (<ip>)` with url `vban://<ip>`; its properties are the `SourceList*` lemmas |
| AppSettings.SourceListExactly | app.py:257-264 | the list holds exactly the entries of the named sources |
| AppSettings.RefreshVbanSources | app.py:257-264 | the loop computes the list |
| AppSettings.SourceListPrefixErr | app.py:257-264 | once a prefix raises, the whole list raises with it |
| AppSettings.RtspUrl | app.py:172-173 | raises exactly for a non-string source; the URL is the source exactly when it starts with `rtsp://` |
| Text.TrimEnd | vban_detector_new.py:131 | `rstrip()`: the result is a prefix that does not end in whitespace, and only whitespace was removed |
| Text.TrimStart | vban_detector_new.py:131 | `lstrip()`: the result is a suffix that does not start with whitespace, and only whitespace was removed |
| Text.IsSpace | vban_detector_new.py:131-132 | Python's `str.isspace` on one character, as `strip` and the trimming loop test it |
| Text.Strip | vban_detector_new.py:131 | neither end is whitespace, no longer than the input, no new characters |
| Text.DecimalInjective | vban_discovery.py:49 | distinct numbers render differently |
| Json.Spread | static/js/modules/settingsValidator.js:56 | an object's fields; nothing for null, booleans and numbers |
| Json.PyEqReflexive | app.py:113 | every JSON value equals itself under Python `==` |
| Json.PyEqSymmetric | app.py:113 | Python `==` on JSON values is symmetric |

## Left out

- Sockets, threads, locks, sleeping and the running-flag loops around each receive step; one step is modelled, with time as a parameter.
- The classifier (mediapipe), `sounddevice`, `pyaudio`, ffmpeg RTSP reading and `cv2`: classifier results are inputs, and the audio read from them is a parameter.
- `scipy.signal.resample` and float32 decoding: parameters; only the requested length `int(n * 16000 / rate)` is modelled, together with the resampler's refusal of a request for 0 samples (`VbanDetector.OutcomeOf`). Any other failure of the resampler is not modelled.
- Floating point: scores, times and samples are reals, so float32 rounding and NaN are not modelled.
- Socket emits, webhook posts and callbacks are appended to logs and assumed to return. In classify.py (413-425, and 312-324 in the VBAN callback) and in `notify_clap` (vban_processor.py:229-254) a raising clap emit is caught but skips the webhook post that follows it; the logs assume the emit returns and record the webhook post, so that path is not modelled. A failing webhook post is the last step there, so its failure changes nothing modelled, and both callbacks in audio_detector.py (78-93) are caught one by one, so their failure changes nothing modelled either. A failing labels emit (classify.py:403) or `detection_status` emit (classify.py:456) ends that pass or that stop through the surrounding handler; that path is not modelled.
- VbanDetector.Detector.Receive: the audio callback at vban_detector_new.py:72 is not caught (the only handler is for `socket.timeout`), so a raising callback ends the receive loop before the record update; `callbackRaises` models that outcome. The only audio callback the repository registers (classify.py:250, registered at 342) takes two parameters while line 72 passes one, so with it every hand-off raises.
- VbanDetector.Detector.Receive: does not model the source callback (vban_detector_new.py:84 and 94), which only receives a copy of the table; a source callback that raises would end the loop after the record update, or part-way through an eviction pass.
- Python dictionary order: `VbanDiscovery.Discovery.ActiveSources` is specified up to order, and `AppSettings.RefreshVbanSources` takes the sources as an ordered sequence.
- Aliasing: `validateSettings` copies settings shallowly, so in the source it also writes defaults into the caller's nested section objects; the model returns values and does not capture that mutation.
- circular_buffer.py is not part of this model; `CircularBuffer.CircularAudioBuffer` is written against the assertions of `test_circular_buffer.py`.
- `compareWithDOMValues` and `validateDOM` in settingsValidator.js read the page's DOM and only log; they are not modelled.
- File reading and writing in `save_settings`, `reload_settings` and `verify_settings_saved`'s caller, `os.replace`, and the Flask routes around them; the file's content is a parameter, and a failed read or write is not modelled.
- `sessionStorage` failures and `JSON.parse` exceptions in settings.js: the stored value is a field, and the saved settings arrive parsed.
- `parseFloat`, `new URL` and the API call in settings.js are parameters.
- The RTSP reader and microphone recorder in `run_detection` and the classifier's `classify_async` call; the VBAN detector's missing methods (`start_listening`, `cleanup`, `add_callback`) appear only as the boolean outcome they cause.
- AudioDetector.Detector.constructor: requires `BufferSizeFor` to be defined: the `ValueError` a negative `deque` length raises is not modelled.
- AudioDetector.Detector.ProcessAudio: the `astype(np.float32)` conversion and the timestamp passed to the classifier are not modelled; errors raised by the classifier are caught in the source and change nothing modelled.
- CircularBuffer.CircularAudioBuffer.constructor: requires a positive capacity, and CircularBuffer.CircularAudioBuffer.Write requires frames of `channels` samples; circular_buffer.py is not available, so its behaviour outside the tests' inputs is unknown.
- The three rate decoders and two channel decoders disagree by design of the repository; each is modelled as written and `VbanHeader.RateAgainstDetector` and `VbanDiscovery.RateTablesCompared` state where they differ.

## Findings

| source | as written | input that shows it | evidently intended | confidence | as-written member | corrected member |
|---|---|---|---|---|---|---|
| vban_detector_new.py:118-124 | the name is cut only when `end_idx > 0`, so a NUL at index 0 cuts nothing | a name field of sixteen zero bytes followed by frame-counter byte 0x41 cleans to sixteen NULs and "A" | an empty name | not executed | VbanDetector.CleanedNameKeepsNulField | VbanDetector.StreamNameNulField |
| vban_detector_new.py:44 | the name is read from `data[8:28]`, which includes the 4-byte frame counter | a full 16-letter name followed by counter bytes 0x41 0x42 cleans to the name plus "AB" | the 16-byte field `data[8:24]` | not executed | VbanDetector.CleanedNameReadsFrameCounter | VbanDetector.StreamNameFullField |
| classify.py:308-328 | `last_clap_time` is assigned inside the VBAN callback, so it is local and the read at line 310 raises | a Clapping score of 0.9 against threshold 0.5 at time 10 after a last clap at 0 | the clap fires as in the main loop | not executed | Classify.VbanClapLost | Classify.InferenceLoop.VbanCallbackIntended |
| app.py:292-300 | `save_settings` never checks values, so the self-test's invalid request is saved | `{"global": {"threshold": "invalid", "delay": -1}}` | the request is refused | not executed | AppSettings.SaveAcceptsInvalid | AppSettings.SaveCheckedRefusesInvalid |
