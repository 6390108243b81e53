# LocalSampleTrack send pipeline, modelled in Dafny

This project models the send side of a LiveKit local sample track. A
`LocalSampleTrack` takes media samples from a sample provider and turns them
into RTP packets for the transport. The model covers:

- choosing the RTP payloader from the negotiated MIME type;
- one `WriteSample` call: it skips the sequence numbers and timestamp units
  of previously dropped packets, packetizes the sample, attaches the
  RFC 6464 audio level, writes each packet and returns the first error;
- the binding lifecycle (`Bind`, `Unbind`, `StartWrite`, `IsBound`) as a
  class whose methods change its fields;
- the pacing worker (`writeWorker`), modelled against an abstract clock (the script's clock readings);
- the simple sample providers: null, load-test and the file providers,
  including the H.264 fmtp round-robin.

Files and modules:

| file | module | contents |
|---|---|---|
| media.dfy | Media | bytes, fixed-width integer ranges, errors, samples, codec capabilities |
| payloaders.dfy | Payloaders | `payloaderForCodec` and its case-insensitivity |
| rtp.dfy | Rtp | the sequencer, the packetizer's sequence and timestamp bookkeeping, the audio-level payload |
| write.dfy | SampleWrite | what one `WriteSample` computes (`WriteSpec`) and lemmas about it |
| pacing.dfy | Pacing | the worker loop as a function (`Pace`) of what it observes, and lemmas about it |
| track.dfy | SampleTrack | the class `LocalSampleTrack`; its methods are proved against the functions above |
| providers.dfy | Providers | the sample providers and `NewFileSampleProvider` (package counter `c` as a class field) |

The model depends on these modelling choices:

- **Locks, atomics and goroutines.** The class's methods run one at a time.
  A worker's context is a numbered token. `StartWorker` cancels the previous
  token and installs a new one.
- **Unmodelled collaborators.** Payloader fragmentation, `Header.SetExtension`
  and the transport's `WriteRTP` are functions in an `Env` parameter. The
  transport's `Bind`/`Unbind` results and the provider hooks' errors are
  method parameters.
- **Random start values.** The starting sequence number and timestamp of a
  new packetizer are parameters.
- **The worker's observations.** The worker sees a `Script`:
  - the provider's results, in order;
  - the audio level of each iteration;
  - the clock reading after each write;
  - whether a cancellation arrives during each wait.
- **Library behaviour written out.** The model follows the library's
  behaviour for these:
  - The sequencer increments, wrapping at 2^16, and returns the new value.
  - `Packetize` of an empty payload returns no packets and does not advance
    the timestamp.
  - Otherwise each packet gets the next sequence number and the current
    timestamp. The last packet carries the marker bit. The timestamp then
    advances by the sample count, wrapping at 2^32.
  - `SkipSamples` advances the timestamp.
  - The audio-level `Marshal` rejects a level above 127.

Three behaviours of the code differ from what one might expect of a
track; the model follows the code:

- One might expect the timestamp increment to be rounded. The code
  truncates (`uint32(float)`), so a 1/30 s frame at 90 kHz is 2999 units.
  See `SampleWrite.FrameAtVideoClockTruncates`.
- One might expect unbinding to tear down the packetizer. `Unbind` leaves
  it in place, so `WriteSample` after `Unbind` still packetizes and writes.
  `Unbind` does not modify `assembly`.
- One might expect a cancelled worker to stop at its next wait without
  emitting more packets. The worker looks at its context only while
  waiting, and it never waits while behind schedule. So a cancelled worker
  that is behind schedule keeps pulling and writing. See
  `Pacing.BehindScheduleIgnoresCancel`.

## Model

| member | source | states |
|---|---|---|
| Payloaders.PayloaderForCodec | localsampletrack.go:304-321 | every MIME type without a payloader yields ErrNoPayloaderForCodec |
| Payloaders.PayloaderExactly | localsampletrack.go:305-320 | a MIME type selects payloader k if and only if its lower-cased form is one of k's types; PCMU and PCMA share G.711 |
| Payloaders.PayloaderIgnoresCase | localsampletrack.go:305 | a MIME type and its lower-cased form select the same payloader |
| Payloaders.LibraryMimeTypesSelect | localsampletrack.go:306-319 | the library's H264, Opus, VP8, VP9, G722, PCMU and PCMA constants select their own payloader; an unknown type is an error |
| Payloaders.MixedCaseSelect | localsampletrack.go:305-319 | "VIDEO/h264" and "v\u0130deo/H264" select H264 and "Audio/PCMA" selects G.711 |
| Payloaders.LowerChar | localsampletrack.go:305 | ASCII capitals become lower case, U+0130 becomes 'i' and U+212A becomes 'k', as unicode.ToLower does; the result is never an ASCII capital |
| Payloaders.ToLower | localsampletrack.go:305 | lower-casing keeps the length and lower-cases each character |
| Payloaders.ToLowerIdempotent | localsampletrack.go:305-316 | lower-casing a lower-cased string changes nothing |
| Rtp.NextSequenceNumber | localsampletrack.go:208-210 | the sequencer's next number is the previous one plus one, modulo 2^16 |
| Rtp.AdvanceSequenceIsAddition | localsampletrack.go:208-210 | n calls of the sequencer move the counter by n, modulo 2^16 |
| Rtp.TimestampUnitsIsFloor | localsampletrack.go:212 | short of wrap-around, the per-sample increment TimestampUnits is the floor of duration × clock rate |
| Rtp.SkipSamples | localsampletrack.go:213-215 | skipping moves only the timestamp, by the given units modulo 2^32 |
| Rtp.Packetize | localsampletrack.go:216 | an empty sample gives no packets and leaves the context unchanged; otherwise one packet per fragment, with the payloader kept |
| Rtp.PacketizeShape | localsampletrack.go:216 | one packet per fragment, consecutive sequence numbers, one shared timestamp, marker on the last only; afterwards the counters stand past the batch |
| Rtp.MarshalAudioLevel | localsampletrack.go:221-229 | marshalling succeeds exactly for levels up to 127 and otherwise reports an overflow |
| Rtp.UnmarshalAudioLevel | localsampletrack.go:221-229 | decoding fails exactly on an empty payload and yields a 7-bit level |
| Rtp.AudioLevelRoundTrip | localsampletrack.go:221-229 | decoding a marshalled level gives the level back, with no voice flag |
| SampleWrite.LevelToAttach | localsampletrack.go:220 | a level is attached if and only if the audio-level id is non-zero and the options carry a level |
| SampleWrite.Decorate | localsampletrack.go:220-230 | without a level the packet is unchanged; a level above 127 is an overflow error; an attached extension changes nothing else in the packet |
| SampleWrite.PacketOutcome | localsampletrack.go:219-238 | a packet kept back always reports an error |
| SampleWrite.FirstError | localsampletrack.go:241-245 | no error exactly when none was collected, otherwise the first |
| SampleWrite.EmitFirstError | localsampletrack.go:218-245 | the returned error is the error of the first failing packet in packet order, and there is none exactly when no packet failed |
| SampleWrite.EmitAttemptsEveryPacket | localsampletrack.go:218-239 | every packet is either sent or held back by its extension failure, each of which is reported, and every sent packet is the decoration of a batch packet |
| SampleWrite.SentIndices | localsampletrack.go:219-238 | the positions, strictly increasing, of packets whose extension could be attached |
| SampleWrite.SentIndicesComplete | localsampletrack.go:219-238 | every packet whose extension could be attached is among them |
| SampleWrite.EmitKeepsPacketOrder | localsampletrack.go:218-239 | the loop Emit hands packets over in packet order: the j-th packet sent is the decoration of the j-th packet whose extension could be attached |
| SampleWrite.EmitNumbering | localsampletrack.go:218-239 | of a consecutively numbered batch with one timestamp, the sent packets keep their numbers and the timestamp, so the numbers rise in sending order |
| SampleWrite.EmitCarriesAudioLevel | localsampletrack.go:220-234 | with a level, every sent packet carries the extension under the negotiated id and decodes to the exact level; without one, packets go out unchanged |
| SampleWrite.EmitLevelOverflow | localsampletrack.go:221-228 | a level above 127 sends nothing and reports one overflow per packet |
| SampleWrite.PacketizeSample | localsampletrack.go:207-216 | the payloader is kept and an empty sample gives no packets |
| SampleWrite.SkippedDropped | localsampletrack.go:207-215 | k dropped packets move the sequence counter by k and the timestamp by k increments, modulo 2^16 and 2^32 |
| SampleWrite.WriteAdvancesSequence | localsampletrack.go:207-216 | the sample's packets take the sequence numbers right after the k skipped ones, and the counter ends past them |
| SampleWrite.WriteAdvancesTimestamp | localsampletrack.go:212-216 | a non-empty sample moves the timestamp by k+1 increments, an empty one by k |
| SampleWrite.SamplePacketsNumbered | localsampletrack.go:207-216 | the sample's packets are numbered right after the skipped ones and share the timestamp held after the skip |
| SampleWrite.WriteSendsInSequenceOrder | localsampletrack.go:207-239 | the packets WriteSpec hands to the transport go out in sequence order, numbered right after the skipped ones, all with the timestamp held after the skip |
| SampleWrite.EmptySampleWritesNothing | localsampletrack.go:212-245 | an empty sample sends nothing and returns no error; only the skip of the dropped packets moves the context |
| SampleWrite.FrameAtVideoClockTruncates | localsampletrack.go:212 | a 1/30 s frame at 90 kHz is 2999 timestamp units |
| Pacing.ZeroSleepResetsTickerAsWritten | localsampletrack.go:286-291 | the guard as written lets a zero sleep reach ticker.Reset, which needs a positive duration |
| Pacing.ReachesReset | localsampletrack.go:286-291 | the corrected guard waits only for a positive sleep, so Reset never receives a duration it panics on |
| Pacing.Pace | localsampletrack.go:263-300 | the worker loop from iteration i on: its target time never moves back, and it writes at most the samples left |
| Pacing.Iteration | localsampletrack.go:264-272 | one iteration's pull, stopping on EOF or a provider error, with the same bounds as Pace |
| Pacing.WriteStep | localsampletrack.go:274-299 | one iteration's write, target update and wait, with the same bounds as Pace |
| Pacing.OptionsAt | localsampletrack.go:274-280 | the options carry a level exactly when the provider reports levels, and then the level of that iteration |
| Pacing.PaceTargetTime | localsampletrack.go:283-286 | a run writes a prefix of error-free samples, and its target time is the start plus their durations, never resynchronised to the clock |
| Pacing.PaceExit | localsampletrack.go:263-299 | a run stops at the first EOF, at the first other provider error, on a failed write, or on a cancellation seen while waiting after a write, and a cancelled worker had a positive sleep, so it was waiting |
| Pacing.BehindScheduleIgnoresCancel | localsampletrack.go:286-299 | a worker whose clock reading in each iteration is at or past that iteration's target never stops for a cancellation |
| Pacing.CompletionOnEveryExit | localsampletrack.go:256-258 | a given completion callback runs exactly when the worker left the loop before the observed results ran out, or was cancelled after its last write |
| SampleTrack.FirstAudioLevelID | localsampletrack.go:96-101 | the id of the first audio-level extension, truncated to 8 bits; none exactly when no extension has the URI |
| SampleTrack.FindAudioLevelID | localsampletrack.go:96-101 | the loop finds the first audio-level extension; it finds one if and only if one exists |
| SampleTrack.StartedWorker | localsampletrack.go:248-254 | starting a worker cancels the previous token and installs a fresh one for the new worker |
| SampleTrack.Activated | localsampletrack.go:118-127 | after the lock, a worker is started exactly when a provider is set; the binding fields are untouched |
| SampleTrack.BoundFields | localsampletrack.go:96-116 | the fields a successful Bind sets under the lock: bound, a fresh packetizer, the clock rate and the found audio-level id (otherwise the old one); provider, workers, hooks, notices and transmitted packets are kept |
| SampleTrack.AfterBind | localsampletrack.go:96-127 | a successful bind sets the bound flag, a fresh packetizer and the audio-level id if one was found (otherwise keeps it), and starts a worker only when a provider is set |
| SampleTrack.LocalSampleTrack.constructor | localsampletrack.go:49-61 | a new track is unbound, with no packetizer, provider or worker |
| SampleTrack.LocalSampleTrack.IsBound | localsampletrack.go:79-81 | whether the track is bound; a bound track always has a packetizer to write with |
| SampleTrack.LocalSampleTrack.SetOnBind | localsampletrack.go:184-188 | records the bind callback and nothing else |
| SampleTrack.LocalSampleTrack.SetOnUnbind | localsampletrack.go:191-195 | records the unbind callback and nothing else |
| SampleTrack.LocalSampleTrack.StartWorker | localsampletrack.go:248-254 | the state is StartedWorker of the old state; at most one worker stays live |
| SampleTrack.LocalSampleTrack.Bind | localsampletrack.go:84-128 | a transport or payloader error returns before any change; on success the state is AfterBind, IsBound() holds, and the hook's error is returned although the worker is started |
| SampleTrack.LocalSampleTrack.Attach | localsampletrack.go:96-116 | installs the bound flag, the packetizer, the clock rate and the found audio-level id |
| SampleTrack.LocalSampleTrack.Activate | localsampletrack.go:118-127 | runs OnBind and starts a worker exactly when a provider is set, returning the hook's error; then the notification |
| SampleTrack.LocalSampleTrack.Unbind | localsampletrack.go:131-155 | clears the bound flag, runs OnUnbind when a provider is set, cancels the current token so that every worker is cancelled, and returns the transport's error in preference to the hook's |
| SampleTrack.LocalSampleTrack.StartWrite | localsampletrack.go:157-181 | the same provider changes nothing; unbound, it only records; bound, an OnUnbind or OnBind error returns before the provider is recorded; otherwise a new worker replaces the old one |
| SampleTrack.LocalSampleTrack.WriteSample | localsampletrack.go:197-245 | before any Bind nothing is written and no error returned; otherwise the context, the transmitted packets and the error are those of WriteSpec |
| SampleTrack.LocalSampleTrack.WritePackets | localsampletrack.go:218-239 | the packet loop transmits and collects errors exactly as Emit says |
| SampleTrack.LocalSampleTrack.WritePacket | localsampletrack.go:219-238 | one packet: a marshal or SetExtension failure skips it, otherwise it is written and WriteRTP's error reported |
| SampleTrack.LocalSampleTrack.PaceOnce | localsampletrack.go:264-299 | one iteration moves the run of Pace one step on; a provider error ends it with EndOfStream or ProviderFailed and nothing sent; otherwise the packets sent and the new context are those of the sample's write, and a continuing iteration advances the target time by the sample's duration |
| SampleTrack.LocalSampleTrack.PaceWrite | localsampletrack.go:282-299 | the write, the target update and the wait of one iteration |
| SampleTrack.LocalSampleTrack.PaceLoop | localsampletrack.go:259-299 | the loop's exit, final context and transmitted packets are those of Pace |
| SampleTrack.LocalSampleTrack.RunWorker | localsampletrack.go:247-301 | the worker's run is Pace, and the completion count grows by one exactly when a callback was given and the loop exited |
| Providers.BytesPerSampleOf | sampleprovider.go:29 | bitrate/8/30 is the largest byte count whose bits, thirty times a second, stay within the bitrate |
| Providers.FrameDurationTruncates | sampleprovider.go:28 | time.Second/30 is 33 333 333 ns; thirty of them fall 10 ns short of a second |
| Providers.NewNullSampleProvider | sampleprovider.go:26-31 | a frame duration of a thirtieth of a second and bytes per sample from the bitrate |
| Providers.NullNextSample | sampleprovider.go:33-38 | never an error; BytesPerSample zero bytes lasting SampleDuration |
| Providers.NullProviderMeetsBitrate | sampleprovider.go:20-38 | a null provider's second of samples carries the bitrate rounded down to whole bytes per sample |
| Providers.NewLoadTestProvider | sampleprovider.go:45-55 | fails exactly when bitrate/8/30 < 8; otherwise that size and a thirtieth of a second |
| Providers.LoadTestMinimumBitrate | sampleprovider.go:46-49 | the provider is built exactly for bitrates of at least 1920 |
| Providers.LittleEndian | sampleprovider.go:59 | the encoding has n bytes |
| Providers.FromLittleEndian | sampleprovider.go:59 | an n-byte string stands for a number below 256^n |
| Providers.LittleEndianRoundTrip | sampleprovider.go:59 | decoding the little-endian encoding of a value that fits gives it back |
| Providers.FromLittleEndianRoundTrip | sampleprovider.go:59 | encoding a decoded byte string gives it back |
| Providers.PutUint64 | sampleprovider.go:58-59 | the buffer's first eight bytes become the little-endian encoding of the value; the rest is unchanged |
| Providers.LoadTestNextSample | sampleprovider.go:57-66 | exactly BytesPerSample bytes, zero but for the last eight, which decode to the clock reading as a uint64 |
| Providers.FmtpLine | sampleprovider.go:93-106 | call k offers packetization-mode k mod 2 and profile-level-id 42001f, 42e01f, 640032 by (k mod 6)/2 |
| Providers.FmtpRoundRobin | sampleprovider.go:93-107 | the lines repeat after six calls, and consecutive calls never offer the same line |
| Providers.H264Capability | sampleprovider.go:82-107 | the H.264 capability has clock rate 90000, the four feedback entries in order and the k-th fmtp line |
| Providers.FileProviders.constructor | sampleprovider.go:68 | the counter starts at zero |
| Providers.FileProviders.NewFileSampleProvider | sampleprovider.go:70-128 | exact MIME match; Opus is "coming soon"; H.264 returns a reader error as is, or the next fmtp line and counter + 1; VP8 the header's duration; others "format not supported"; errors come with no provider and the counter unchanged |
| Providers.OpusNextSample | sampleprovider.go:132-134 | an empty sample and no error |
| Providers.H264NextSample | sampleprovider.go:140-149 | a reader error comes with an empty sample; a NAL unit becomes a sample of a thirtieth of a second |
| Providers.VP8NextSample | sampleprovider.go:156-166 | a reader error comes with an empty sample; a frame lasts the header's duration |
| Providers.FixedDurationsAddUp | localsampletrack.go:286 | samples of one duration move the target time by that duration each |
| Providers.H264PacesAtFrameRate | sampleprovider.go:140-149 | fed by the H.264 provider, the target time after n NAL units is n thirtieths of a second on |

## Left out

- Goroutines, `sync.RWMutex`, atomics and `context`: methods run one at a time, and a worker's context is a token.
- The `go onBind()` / `go onUnbind()` notifications: they are recorded in order at the point they are issued. Their timing is not modelled.
- The worker's `select` when the tick and the cancellation are both ready: the model lets the cancellation win. Go picks one at random.
- The unlocked read of `cancelWrite` at the start of `writeWorker` is treated as atomic.
- `time.Now` and `time.Ticker`: the clock is the script's readings. The wait itself is not modelled, only whether a cancellation arrives during it.
- The payloaders' codec-specific fragmentation, whether `Header.SetExtension` or `WriteRTP` fails, and the results of the transport's `Bind`/`Unbind`: these are parameters. The header extension itself is modelled (`Decorate` and `WritePacket` put `Extension(audioLevelID, data)` on the header), and `transmitted` records every packet `WriteRTP` receives.
- The header-extension encoding of section 4.2 of RFC 8285 lives inside `SetExtension` and is not modelled.
- `NewRandomSequencer`'s random start is a parameter.
- `NewLocalSampleTrack`'s construction of the underlying RTP track, its error and the GUIDs are not modelled. So are `ID`, `StreamID`, `Kind` and `Codec`, which only delegate to it.
- The provider hooks `OnBind`/`OnUnbind` and the audio-level capability are optional capabilities. A hook's error is a parameter, and `Script.levelOf` says whether the provider reports levels.
- SampleTrack.LocalSampleTrack.StartWrite: a nil provider while bound is a nil method call in Go, which panics. It is modelled as the error `NilProvider` with only the old provider's hook recorded.
- Floating point: `Duration.Seconds() * clockRate` is modelled as integer floor of ns × rate / 10^9. The float64 rounding of that product is not modelled.
- The VP8 provider's `float32` frame duration from the IVF header is a parameter.
- Negative sample durations are not modelled: durations are `nat`.
- Providers.LoadTestNextSample requires at least 8 bytes per sample. A `LoadTestProvider` built without its constructor and given fewer would underflow `p.BytesPerSample-8` in uint32, and that is not modelled.
- `h264reader`, `ivfreader` and file I/O: what the readers return is a parameter.
- The package counter `c` is a Go `int`. Its wrap-around after 2^63 calls is not modelled.
- Logging is not modelled.
- Payloaders.ToLower and Payloaders.LowerChar: a non-ASCII character other than U+0130 and U+212A is kept as it is, whereas `strings.ToLower` maps it to its Unicode lower case. That lower case is never ASCII, and every MIME type the selector compares with is ASCII, so `Payloaders.PayloaderForCodec` answers as Go does on every input. The lower-cased string itself can differ from Go's.
- `SampleWrite.WriteSpec`, `SampleWrite.Emit` and `Rtp.TimestampUnits` have no contracts of their own. What they compute is stated by the lemmas about them in the table, such as `WriteSendsInSequenceOrder`, `EmitFirstError` and `TimestampUnitsIsFloor`.

## Findings

| source | as written | input that shows it | evidently intended | confidence | as-written member | corrected member |
|---|---|---|---|---|---|---|
| localsampletrack.go:286-291 | the worker skips the wait only when `sleepDuration < 0` and otherwise calls `ticker.Reset(sleepDuration)` | a clock reading exactly equal to the new target time gives `sleepDuration == 0`; `time.Ticker.Reset` panics for a duration that is not positive | wait only for a positive sleep (`sleepDuration <= 0` skips the wait); the worker model uses this guard | not executed | Pacing.ZeroSleepResetsTickerAsWritten | Pacing.ReachesReset |
