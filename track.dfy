/** LocalSampleTrack: the binding lifecycle (Bind, Unbind, StartWrite),
    the per-sample write and the pacing worker, as sequential state. The
    locks, the atomic bound flag and the goroutines of the Go type are
    replaced by one object whose methods run one at a time; a worker's
    context is a token that is either live or cancelled. */
module SampleTrack {
  import opened Media
  import opened Payloaders
  import opened Rtp
  import opened SampleWrite
  import opened Pacing

  /** Providers and callbacks are compared by identity in the Go code. */
  type ProviderRef = nat
  type CallbackRef = nat

  /** sdp.AudioLevelURI: the header extension of RFC 6464. */
  const AudioLevelURI: string := "urn:ietf:params:rtp-hdrext:ssrc-audio-level"

  /** A negotiated header extension: its URI and its numeric id. */
  datatype HeaderExtension = HeaderExtension(uri: string, id: int)

  /** The id of the first negotiated audio-level extension, truncated to
      eight bits as uint8(ext.ID) does. */
  function FirstAudioLevelID(exts: seq<HeaderExtension>): (r: Option<uint8>)
    ensures r.None? <==> forall i :: 0 <= i < |exts| ==> exts[i].uri != AudioLevelURI
    ensures r.Some? ==> exists i :: 0 <= i < |exts| && exts[i].uri == AudioLevelURI && r.value == exts[i].id % 256 &&
                                  forall j :: 0 <= j < i ==> exts[j].uri != AudioLevelURI
  {
    if exts == [] then None
    else if exts[0].uri == AudioLevelURI then Some(exts[0].id % 256)
    else
      var r := FirstAudioLevelID(exts[1..]);
      assert forall i :: 1 <= i < |exts| ==> exts[i] == exts[1..][i - 1];
      r
  }

  /** The loop of Bind that looks for the audio-level extension and stops
      at the first one. */
  method FindAudioLevelID(exts: seq<HeaderExtension>) returns (id: Option<uint8>)
    ensures id == FirstAudioLevelID(exts)
    ensures id.Some? <==> exists i :: 0 <= i < |exts| && exts[i].uri == AudioLevelURI
  {
    id := None;
    var i := 0;
    while i < |exts|
      invariant 0 <= i <= |exts|
      invariant forall j :: 0 <= j < i ==> exts[j].uri != AudioLevelURI
    {
      if exts[i].uri == AudioLevelURI {
        id := Some(exts[i].id % 256);
        return;
      }
      i := i + 1;
    }
  }

  /** A started pacing worker: the provider it pulls from and the
      completion callback it defers. Its token is its index. */
  datatype Worker = Worker(provider: ProviderRef, onComplete: Option<CallbackRef>)

  /** The provider hooks called, in order. */
  datatype HookCall = ProviderOnBind(bound: ProviderRef) | ProviderOnUnbind(unbound: ProviderRef)

  /** The asynchronous notifications issued (go onBind(), go onUnbind()). */
  datatype Notice = BindNotice(onBind: CallbackRef) | UnbindNotice(onUnbind: CallbackRef)

  /** All the state of a track, for stating what a method changes. */
  datatype TrackState = TrackState(
    bound: bool, assembly: Option<Assembly>, clockRate: uint32, audioLevelID: uint8,
    provider: Option<ProviderRef>, onBind: Option<CallbackRef>, onUnbind: Option<CallbackRef>,
    onWriteComplete: Option<CallbackRef>, cancelWrite: Option<nat>, cancelled: set<nat>,
    workers: seq<Worker>, hookCalls: seq<HookCall>, notices: seq<Notice>, completions: nat,
    transmitted: seq<Packet>)

  /** The state once writeWorker has cancelled the previous worker's
      context and installed a fresh one for a worker on `p`. */
  function StartedWorker(s: TrackState, p: ProviderRef, onComplete: Option<CallbackRef>): (t: TrackState)
    ensures t.workers == s.workers + [Worker(p, onComplete)]
    ensures t.cancelWrite == Some(|s.workers|)
    ensures s.cancelWrite.Some? ==> t.cancelled == s.cancelled + {s.cancelWrite.value}
    ensures s.cancelWrite.None? ==> t.cancelled == s.cancelled
  {
    s.(cancelled := if s.cancelWrite.Some? then s.cancelled + {s.cancelWrite.value} else s.cancelled,
       cancelWrite := Some(|s.workers|),
       workers := s.workers + [Worker(p, onComplete)])
  }

  /** The fields a successful Bind sets under the lock: the bound flag, a
      fresh packetizer, the clock rate and, when one was negotiated, the
      audio-level id. */
  function BoundFields(s: TrackState, k: Payloader, clockRate: uint32, found: Option<uint8>,
                       sequenceStart: uint16, timestampStart: uint32): (t: TrackState)
    ensures t.bound && t.assembly == Some(Assembly(k, sequenceStart, timestampStart)) && t.clockRate == clockRate
    ensures t.audioLevelID == if found.Some? then found.value else s.audioLevelID
    ensures t.provider == s.provider && t.workers == s.workers && t.cancelWrite == s.cancelWrite
    ensures t.hookCalls == s.hookCalls && t.notices == s.notices && t.transmitted == s.transmitted
  {
    s.(bound := true, assembly := Some(Assembly(k, sequenceStart, timestampStart)), clockRate := clockRate,
       audioLevelID := if found.Some? then found.value else s.audioLevelID)
  }

  /** What Bind does once the lock is released: when a provider is set, its
      OnBind hook and a new worker on it; and the bind notification when a
      callback is registered. */
  function Activated(s: TrackState): (t: TrackState)
    ensures t.bound == s.bound && t.assembly == s.assembly && t.audioLevelID == s.audioLevelID
    ensures t.provider == s.provider && t.transmitted == s.transmitted
    ensures t.workers == s.workers + if s.provider.Some? then [Worker(s.provider.value, s.onWriteComplete)] else []
  {
    var s1 := if s.provider.Some? then
                StartedWorker(s, s.provider.value, s.onWriteComplete).(hookCalls := s.hookCalls + [ProviderOnBind(s.provider.value)])
              else s;
    s1.(notices := s.notices + if s.onBind.Some? then [BindNotice(s.onBind.value)] else [])
  }

  /** The whole state after a successful Bind: the bound fields, then the
      hook, the worker and the notification. */
  function AfterBind(s: TrackState, k: Payloader, clockRate: uint32, found: Option<uint8>,
                     sequenceStart: uint16, timestampStart: uint32): (t: TrackState)
    ensures t.bound && t.assembly == Some(Assembly(k, sequenceStart, timestampStart))
    ensures t.provider == s.provider && t.transmitted == s.transmitted
    ensures found.Some? ==> t.audioLevelID == found.value
    ensures found.None? ==> t.audioLevelID == s.audioLevelID
    ensures t.workers == s.workers + if s.provider.Some? then [Worker(s.provider.value, s.onWriteComplete)] else []
  {
    Activated(BoundFields(s, k, clockRate, found, sequenceStart, timestampStart))
  }

  class LocalSampleTrack {
    var bound: bool
    /** The packetizer and its sequencer; None until the first Bind. */
    var assembly: Option<Assembly>
    var clockRate: uint32
    var audioLevelID: uint8
    var provider: Option<ProviderRef>
    var onBind: Option<CallbackRef>
    var onUnbind: Option<CallbackRef>
    var onWriteComplete: Option<CallbackRef>
    /** The token of the most recently started worker. */
    var cancelWrite: Option<nat>
    var cancelled: set<nat>
    var workers: seq<Worker>
    var hookCalls: seq<HookCall>
    var notices: seq<Notice>
    /** How many times a deferred completion callback has run. */
    var completions: nat
    /** The packets handed to WriteRTP, in order. */
    var transmitted: seq<Packet>

    ghost function State(): TrackState
      reads this
    {
      TrackState(bound, assembly, clockRate, audioLevelID, provider, onBind, onUnbind, onWriteComplete,
                 cancelWrite, cancelled, workers, hookCalls, notices, completions, transmitted)
    }

    /** The track's invariant: a bound track has a packetizer, and every
        worker except the most recent one has had its context cancelled, so
        at most one worker is live. */
    ghost predicate Valid()
      reads this
    {
      && (bound ==> assembly.Some?)
      && (|workers| > 0 ==> assembly.Some?)
      && cancelWrite == (if |workers| == 0 then None else Some(|workers| - 1))
      && (forall t :: 0 <= t < |workers| - 1 ==> t in cancelled)
    }

    /** IsBound: whether the last Bind succeeded and no Unbind followed;
        a bound track always has a packetizer to write with. */
    function IsBound(): (r: bool)
      reads this
      ensures r && Valid() ==> assembly.Some?
    {
      bound
    }

    /** NewLocalSampleTrack: unbound, with no packetizer and no provider. */
    constructor ()
      ensures Valid()
      ensures State() == TrackState(false, None, 0, 0, None, None, None, None, None, {}, [], [], [], 0, [])
    {
      bound, assembly, clockRate, audioLevelID := false, None, 0, 0;
      provider, onBind, onUnbind, onWriteComplete := None, None, None, None;
      cancelWrite, cancelled, workers := None, {}, [];
      hookCalls, notices, completions, transmitted := [], [], 0, [];
    }

    /** OnBind(f): records the bind notification callback. */
    method SetOnBind(f: Option<CallbackRef>)
      requires Valid()
      modifies this
      ensures Valid()
      ensures State() == old(State()).(onBind := f)
    {
      onBind := f;
    }

    /** OnUnbind(f): records the unbind notification callback. */
    method SetOnUnbind(f: Option<CallbackRef>)
      requires Valid()
      modifies this
      ensures Valid()
      ensures State() == old(State()).(onUnbind := f)
    {
      onUnbind := f;
    }

    /** The first lines of writeWorker: cancel the previous worker's
        context, if any, and install a fresh one. */
    method StartWorker(p: ProviderRef, onComplete: Option<CallbackRef>)
      requires Valid() && assembly.Some?
      modifies this
      ensures Valid()
      ensures State() == StartedWorker(old(State()), p, onComplete)
    {
      if cancelWrite.Some? {
        cancelled := cancelled + {cancelWrite.value};
      }
      cancelWrite := Some(|workers|);
      workers := workers + [Worker(p, onComplete)];
    }

    /** Bind: the transport's negotiation result, then the payloader; on
        success the audio-level id, a fresh packetizer whose sequencer and
        timestamp start at the given random values, the bound flag, and,
        when a provider is set, its OnBind hook and a new worker. The
        hook's error is returned, but the worker is started regardless. */
    method Bind(exts: seq<HeaderExtension>, negotiated: Result<Codec>, onBindErr: Option<Error>,
                sequenceStart: uint16, timestampStart: uint32)
      returns (codec: Option<Codec>, err: Option<Error>)
      requires Valid()
      modifies this
      ensures Valid()
      ensures negotiated.Err? ==> codec.None? && err == Some(negotiated.error) && State() == old(State())
      ensures negotiated.Ok? && PayloaderForCodec(negotiated.value.mimeType).Err? ==>
                codec == Some(negotiated.value) && err == Some(NoPayloaderForCodec) && State() == old(State())
      ensures negotiated.Ok? && PayloaderForCodec(negotiated.value.mimeType).Ok? ==>
                var s := old(State());
                && codec == Some(negotiated.value)
                && err == (if s.provider.Some? then onBindErr else None)
                && State() == AfterBind(s, PayloaderForCodec(negotiated.value.mimeType).value, negotiated.value.clockRate,
                                        FirstAudioLevelID(exts), sequenceStart, timestampStart)
      ensures negotiated.Ok? && PayloaderForCodec(negotiated.value.mimeType).Ok? ==> IsBound()
    {
      if negotiated.Err? {
        return None, Some(negotiated.error);
      }
      var c := negotiated.value;
      codec := Some(c);
      var payloader := PayloaderForCodec(c.mimeType);
      if payloader.Err? {
        return codec, Some(payloader.error);
      }
      var found := FindAudioLevelID(exts);
      Attach(payloader.value, c.clockRate, found, sequenceStart, timestampStart);
      err := Activate(onBindErr);
    }

    /** The part of Bind after the lock: the provider's OnBind hook, whose
        error is returned, and a worker on the provider started regardless;
        then the bind notification. */
    method Activate(onBindErr: Option<Error>) returns (err: Option<Error>)
      requires Valid() && assembly.Some?
      modifies this
      ensures Valid()
      ensures err == (if old(provider).Some? then onBindErr else None)
      ensures State() == Activated(old(State()))
    {
      ghost var s := State();
      var onBindCallback := onBind;
      var p := provider;
      err := None;
      if p.Some? {
        err := onBindErr;
        hookCalls := hookCalls + [ProviderOnBind(p.value)];
        StartWorker(p.value, onWriteComplete);
      }
      assert p.Some? ==> State() == StartedWorker(s, p.value, s.onWriteComplete).(hookCalls := s.hookCalls + [ProviderOnBind(p.value)]);
      if onBindCallback.Some? {
        notices := notices + [BindNotice(onBindCallback.value)];
      }
    }

    /** The part of Bind done under the lock: record the audio-level id
        when one was found, install the packetizer, the clock rate and the
        bound flag. */
    method Attach(k: Payloader, rate: uint32, found: Option<uint8>, sequenceStart: uint16, timestampStart: uint32)
      requires Valid()
      modifies this`bound, this`assembly, this`clockRate, this`audioLevelID
      ensures Valid()
      ensures bound && assembly == Some(Assembly(k, sequenceStart, timestampStart)) && clockRate == rate
      ensures audioLevelID == if found.Some? then found.value else old(audioLevelID)
    {
      if found.Some? {
        audioLevelID := found.value;
      }
      assembly := Some(Assembly(k, sequenceStart, timestampStart));
      clockRate := rate;
      bound := true;
    }

    /** Unbind: clear the bound flag, run the provider's OnUnbind hook,
        cancel the current worker and notify; the transport's Unbind error
        wins over the hook's. The packetizer is left in place. */
    method Unbind(transportErr: Option<Error>, onUnbindErr: Option<Error>) returns (err: Option<Error>)
      requires Valid()
      modifies this`bound, this`hookCalls, this`cancelled, this`notices
      ensures Valid()
      ensures !IsBound()
      ensures err == (if transportErr.Some? then transportErr else if provider.Some? then onUnbindErr else None)
      ensures hookCalls == old(hookCalls) + if provider.Some? then [ProviderOnUnbind(provider.value)] else []
      ensures cancelled == if cancelWrite.Some? then old(cancelled) + {cancelWrite.value} else old(cancelled)
      ensures notices == old(notices) + if onUnbind.Some? then [UnbindNotice(onUnbind.value)] else []
      ensures forall t :: 0 <= t < |workers| ==> t in cancelled
    {
      var p := provider;
      var onUnbindCallback := onUnbind;
      bound := false;
      var cancel := cancelWrite;

      err := None;
      if p.Some? {
        err := onUnbindErr;
        hookCalls := hookCalls + [ProviderOnUnbind(p.value)];
      }
      if cancel.Some? {
        cancelled := cancelled + {cancel.value};
      }
      if onUnbindCallback.Some? {
        notices := notices + [UnbindNotice(onUnbindCallback.value)];
      }
      if transportErr.Some? {
        return transportErr;
      }
    }

    /** StartWrite: replace the provider. The same provider changes nothing.
        Unbound, the provider and callback are only recorded. Bound, the old
        provider's OnUnbind and the new one's OnBind run first, and an error
        from either returns before anything is recorded; otherwise a new
        worker replaces the old one. A nil provider while bound is the nil
        method call of the Go code. */
    method StartWrite(p: Option<ProviderRef>, onComplete: Option<CallbackRef>,
                      oldUnbindErr: Option<Error>, newBindErr: Option<Error>) returns (err: Option<Error>)
      requires Valid()
      modifies this
      ensures Valid()
      ensures var s := old(State());
        var unbound := s.hookCalls + if s.provider.Some? then [ProviderOnUnbind(s.provider.value)] else [];
        && (s.provider == p ==> err.None? && State() == s)
        && (s.provider != p && !s.bound ==>
              err.None? && State() == s.(provider := p, onWriteComplete := onComplete))
        && (s.provider != p && s.bound && s.provider.Some? && oldUnbindErr.Some? ==>
              err == oldUnbindErr && State() == s.(hookCalls := unbound))
        && (s.provider != p && s.bound && !(s.provider.Some? && oldUnbindErr.Some?) && p.None? ==>
              err == Some(NilProvider) && State() == s.(hookCalls := unbound))
        && (s.provider != p && s.bound && !(s.provider.Some? && oldUnbindErr.Some?) && p.Some? && newBindErr.Some? ==>
              err == newBindErr && State() == s.(hookCalls := unbound + [ProviderOnBind(p.value)]))
        && (s.provider != p && s.bound && !(s.provider.Some? && oldUnbindErr.Some?) && p.Some? && newBindErr.None? ==>
              err.None? &&
              State() == StartedWorker(s, p.value, onComplete).(hookCalls := unbound + [ProviderOnBind(p.value)],
                                                                provider := p, onWriteComplete := onComplete))
    {
      if provider == p {
        return None;
      }
      if bound {
        if provider.Some? {
          hookCalls := hookCalls + [ProviderOnUnbind(provider.value)];
          if oldUnbindErr.Some? {
            return oldUnbindErr;
          }
        }
        if p.None? {
          return Some(NilProvider);
        }
        hookCalls := hookCalls + [ProviderOnBind(p.value)];
        if newBindErr.Some? {
          return newBindErr;
        }
        StartWorker(p.value, onComplete);
      }
      provider := p;
      onWriteComplete := onComplete;
      return None;
    }

    /** WriteSample: before any Bind nothing is written and there is no
        error; otherwise the packetization context and the transmitted
        packets change as WriteSpec says, and the first error is returned. */
    method WriteSample(sample: Sample, opts: Option<WriteOptions>, env: Env) returns (err: Option<Error>)
      requires Valid()
      modifies this`assembly, this`transmitted
      ensures Valid()
      ensures old(assembly).None? ==> err.None? && assembly == old(assembly) && transmitted == old(transmitted)
      ensures old(assembly).Some? ==>
                var r := WriteSpec(old(assembly).value, clockRate, audioLevelID, sample, opts, env);
                && err == r.err && assembly == Some(r.assembly) && transmitted == old(transmitted) + r.sent
    {
      if assembly.None? {
        return None;
      }
      var a := assembly.value;
      ghost var a0 := a;
      var i := 0;
      while i < sample.prevDroppedPackets
        invariant 0 <= i <= sample.prevDroppedPackets
        invariant a == a0.(sequenceNumber := AdvanceSequence(a0.sequenceNumber, i))
      {
        a := a.(sequenceNumber := NextSequenceNumber(a.sequenceNumber));
        i := i + 1;
      }
      var samples := TimestampUnits(sample.duration, clockRate);
      if sample.prevDroppedPackets > 0 {
        a := SkipSamples(a, (samples * sample.prevDroppedPackets) % Uint32Modulus);
      }
      assert a == SkippedDropped(a0, clockRate, sample);
      var (packets, a') := Packetize(a, sample.data, samples, env.fragment(a.payloader, PayloadMtu, sample.data));
      assembly := Some(a');

      var writeErrs := WritePackets(packets, opts, env);
      assert (packets, a') == PacketizeSample(a0, clockRate, sample, env);
      err := FirstError(writeErrs);
    }

    /** The packet loop of WriteSample: every packet is attempted, one whose
        extension cannot be attached is skipped, and each error is kept in
        packet order. */
    method WritePackets(packets: seq<Packet>, opts: Option<WriteOptions>, env: Env) returns (writeErrs: seq<Error>)
      modifies this`transmitted
      ensures var b := Emit(packets, audioLevelID, LevelToAttach(audioLevelID, opts), env);
        transmitted == old(transmitted) + b.sent && writeErrs == b.errs
    {
      ghost var level := LevelToAttach(audioLevelID, opts);
      ghost var t0 := transmitted;
      writeErrs := [];
      var j := 0;
      while j < |packets|
        invariant 0 <= j <= |packets|
        invariant transmitted == t0 + Emit(packets[..j], audioLevelID, level, env).sent
        invariant writeErrs == Emit(packets[..j], audioLevelID, level, env).errs
      {
        assert packets[..j + 1][..j] == packets[..j];
        var packetErr := WritePacket(packets[j], opts, env);
        writeErrs := writeErrs + OptionToSeq(packetErr);
        j := j + 1;
      }
      assert packets[..|packets|] == packets;
    }

    /** One iteration of WriteSample's packet loop: with a level to attach,
        a failing Marshal or SetExtension reports its error and skips the
        packet; otherwise the packet goes to WriteRTP, whose error is
        reported. */
    method WritePacket(packet: Packet, opts: Option<WriteOptions>, env: Env) returns (packetErr: Option<Error>)
      modifies this`transmitted
      ensures var o := PacketOutcome(packet, audioLevelID, LevelToAttach(audioLevelID, opts), env);
        transmitted == old(transmitted) + OptionToSeq(o.sent) && packetErr == o.err
    {
      var p := packet;
      if audioLevelID != 0 && opts.Some? && opts.value.audioLevel.Some? {
        var data := MarshalAudioLevel(opts.value.audioLevel.value);
        if data.Err? {
          return Some(data.error);
        }
        var extErr := env.setExtension(p, audioLevelID, data.value);
        if extErr.Some? {
          return extErr;
        }
        p := p.(extension := Some(Extension(audioLevelID, data.value)));
      }
      packetErr := env.writeRtp(p);
      transmitted := transmitted + [p];
    }

    /** One iteration of writeWorker's loop: pull a sample and stop on EOF
        or a provider error; otherwise write it (PaceWrite). `written` tells
        whether the sample went out without error. */
    method PaceOnce(token: nat, script: Script, env: Env, i: nat, next: int)
      returns (exit: Exit, done: bool, written: bool, next': int, ghost sent: seq<Packet>)
      requires Valid() && assembly.Some? && i < |script.pulls|
      modifies this`assembly, this`transmitted
      ensures Valid() && assembly.Some? && transmitted == old(transmitted) + sent
      ensures !done ==> exit == StillRunning && written
      ensures script.pulls[i].err.Some? ==>
        && done && !written && sent == [] && assembly == old(assembly) && next' == next
        && exit == (if script.pulls[i].err == Some(EOF) then EndOfStream else ProviderFailed(script.pulls[i].err.value))
      ensures script.pulls[i].err.None? ==>
        var w := WriterOf(clockRate, audioLevelID, env)(old(assembly).value, script.pulls[i].sample, OptionsAt(script, i));
        && sent == w.sent && assembly.value == w.assembly
        && (!done ==> next' == next + script.pulls[i].sample.duration)
      ensures var write := WriterOf(clockRate, audioLevelID, env);
        Pace(old(assembly).value, write, script, token in cancelled, i, next) ==
        Prepend(sent, if written then 1 else 0,
                if done then Run(assembly.value, [], next', exit, 0)
                else Pace(assembly.value, write, script, token in cancelled, i + 1, next'))
    {
      var pulled := script.pulls[i];
      if pulled.err == Some(EOF) {
        exit, done, written, next', sent := EndOfStream, true, false, next, [];
      } else if pulled.err.Some? {
        exit, done, written, next', sent := ProviderFailed(pulled.err.value), true, false, next, [];
      } else {
        ghost var write := WriterOf(clockRate, audioLevelID, env);
        assert Pace(assembly.value, write, script, token in cancelled, i, next)
            == WriteStep(assembly.value, write, script, token in cancelled, i, next);
        exit, done, written, next', sent := PaceWrite(token, script, env, i, next);
      }
    }

    /** The rest of an iteration once the provider gave a sample: write it
        and stop on a write error; otherwise move the target time on by the
        sample's duration and, unless behind schedule, wait, stopping if a
        cancellation arrives. */
    method PaceWrite(token: nat, script: Script, env: Env, i: nat, next: int)
      returns (exit: Exit, done: bool, written: bool, next': int, ghost sent: seq<Packet>)
      requires Valid() && assembly.Some? && i < |script.pulls| && script.pulls[i].err.None?
      modifies this`assembly, this`transmitted
      ensures Valid() && assembly.Some? && transmitted == old(transmitted) + sent
      ensures !done ==> exit == StillRunning && written
      ensures var write := WriterOf(clockRate, audioLevelID, env);
        var w := write(old(assembly).value, script.pulls[i].sample, OptionsAt(script, i));
        && sent == w.sent && assembly.value == w.assembly
        && (w.err.Some? ==> done && !written && exit == WriteFailed(w.err.value) && next' == next)
        && (w.err.None? ==>
              && written && next' == next + script.pulls[i].sample.duration
              && (if ReachesReset(next' - script.now(i)) && (token in cancelled || script.cancelAt(i))
                  then done && exit == Cancelled else !done))
    {
      var pulled := script.pulls[i];
      var opts := OptionsAt(script, i);
      ghost var w := WriteSpec(assembly.value, clockRate, audioLevelID, pulled.sample, opts, env);
      var writeErr := WriteSample(pulled.sample, opts, env);
      sent, next', written, done, exit := w.sent, next, false, true, StillRunning;
      if writeErr.Some? {
        exit := WriteFailed(writeErr.value);
      } else {
        written := true;
        next' := next + pulled.sample.duration;
        if ReachesReset(next' - script.now(i)) && (token in cancelled || script.cancelAt(i)) {
          exit := Cancelled;
        } else {
          done := false;
        }
      }
    }

    /** writeWorker for the worker with token `token`: its loop, then the
        deferred completion callback, which runs once on every way out. */
    method RunWorker(token: nat, script: Script, env: Env, start: int) returns (exit: Exit)
      requires Valid() && token < |workers|
      modifies this`assembly, this`transmitted, this`completions
      ensures Valid()
      ensures var r := Pace(old(assembly).value, WriterOf(clockRate, audioLevelID, env), script,
                            token in cancelled, 0, start);
        && exit == r.exit && assembly == Some(r.assembly) && transmitted == old(transmitted) + r.sent
        && completions == old(completions) + if CompletionFires(workers[token].onComplete.Some?, exit) then 1 else 0
    {
      exit := PaceLoop(token, script, env, start);
      if CompletionFires(workers[token].onComplete.Some?, exit) {
        completions := completions + 1;
      }
    }

    /** The loop of writeWorker: pull, write, advance the target time, wait
        unless behind schedule, and stop on EOF, a provider or write error,
        or a cancellation seen while waiting. */
    method PaceLoop(token: nat, script: Script, env: Env, start: int) returns (exit: Exit)
      requires Valid() && assembly.Some?
      modifies this`assembly, this`transmitted
      ensures Valid()
      ensures var r := Pace(old(assembly).value, WriterOf(clockRate, audioLevelID, env), script,
                            token in cancelled, 0, start);
        && exit == r.exit && assembly == Some(r.assembly) && transmitted == old(transmitted) + r.sent
    {
      ghost var a0 := assembly.value;
      ghost var write := WriterOf(clockRate, audioLevelID, env);
      ghost var isCancelled := token in cancelled;
      ghost var t0 := transmitted;
      ghost var acc: seq<Packet> := [];
      var i := 0;
      var next := start;
      var done := false;
      exit := StillRunning;
      while !done && i < |script.pulls|
        invariant 0 <= i <= |script.pulls|
        invariant Valid() && assembly.Some?
        invariant transmitted == t0 + acc
        invariant !done ==> exit == StillRunning
        invariant Pace(a0, write, script, isCancelled, 0, start) ==
                  Prepend(acc, i, if done then Run(assembly.value, [], next, exit, 0)
                                  else Pace(assembly.value, write, script, isCancelled, i, next))
        decreases |script.pulls| - i, if done then 0 else 1
      {
        var written, next';
        ghost var sent;
        exit, done, written, next', sent := PaceOnce(token, script, env, i, next);
        assert t0 + acc + sent == t0 + (acc + sent);
        PrependPrepend(acc, i, sent, if written then 1 else 0,
                       if done then Run(assembly.value, [], next', exit, 0)
                       else Pace(assembly.value, write, script, isCancelled, i + 1, next'));
        acc := acc + sent;
        if written {
          i := i + 1;
        }
        next := next';
      }
    }
  }

}
