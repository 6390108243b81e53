/** What one WriteSample call does to the packetization context and what it
    hands to the transport: skip the sequence numbers and timestamp units
    of previously dropped packets, packetize, attach the audio level where
    one was negotiated and supplied, and write every packet, keeping the
    first error. */
module SampleWrite {
  import opened Media
  import opened Payloaders
  import opened Rtp

  /** SampleWriteOptions: an optional audio level for the sample. */
  datatype WriteOptions = WriteOptions(audioLevel: Option<uint8>)

  /** The collaborators whose behaviour is not modelled: the payloader's
      fragmentation of a sample (given the payload MTU), Header.SetExtension
      and the transport's WriteRTP, each reporting an optional error. */
  datatype Env = Env(fragment: (Payloader, nat, seq<byte>) -> seq<seq<byte>>,
                     setExtension: (Packet, nat, seq<byte>) -> Option<Error>,
                     writeRtp: Packet -> Option<Error>)

  /** The level to attach to every packet of the sample, when an audio-level
      extension id was negotiated (non-zero) and the options carry a level. */
  function LevelToAttach(audioLevelID: uint8, opts: Option<WriteOptions>): (r: Option<uint8>)
    ensures r.Some? <==> audioLevelID != 0 && opts.Some? && opts.value.audioLevel.Some?
    ensures r.Some? ==> r == opts.value.audioLevel
  {
    if audioLevelID != 0 && opts.Some? && opts.value.audioLevel.Some? then opts.value.audioLevel else None
  }

  /** The packet as it goes to WriteRTP, or the error that keeps it back:
      a failing Marshal or SetExtension. */
  function Decorate(p: Packet, audioLevelID: uint8, level: Option<uint8>, env: Env): (r: Result<Packet>)
    ensures level.None? ==> r == Ok(p)
    ensures level.Some? && level.value > 127 ==> r == Err(AudioLevelOverflow)
    ensures r.Ok? ==> r.value.(extension := p.extension) == p
  {
    if level.None? then Ok(p)
    else match MarshalAudioLevel(level.value)
      case Err(e) => Err(e)
      case Ok(data) =>
        match env.setExtension(p, audioLevelID, data)
        case Some(e) => Err(e)
        case None => Ok(p.(extension := Some(Extension(audioLevelID, data))))
  }

  /** What one packet contributes: the packet handed to WriteRTP (if its
      extension succeeded) and the error it reports (if any). */
  datatype Outcome = Outcome(sent: Option<Packet>, err: Option<Error>)

  function PacketOutcome(p: Packet, audioLevelID: uint8, level: Option<uint8>, env: Env): (o: Outcome)
    ensures o.sent.None? ==> o.err.Some?
  {
    match Decorate(p, audioLevelID, level, env)
    case Err(e) => Outcome(None, Some(e))
    case Ok(q) => Outcome(Some(q), env.writeRtp(q))
  }

  /** The packets handed to the transport and the errors collected, in
      packet order, after every packet of the batch was attempted. */
  datatype Batch = Batch(sent: seq<Packet>, errs: seq<Error>)

  function OptionToSeq<T>(o: Option<T>): (s: seq<T>)
    ensures o.None? ==> s == []
    ensures o.Some? ==> s == [o.value]
  {
    if o.Some? then [o.value] else []
  }

  /** The packet loop of WriteSample: every packet of the batch is
      attempted, in packet order. */
  function Emit(ps: seq<Packet>, audioLevelID: uint8, level: Option<uint8>, env: Env): Batch
  {
    if ps == [] then Batch([], [])
    else
      var b := Emit(ps[..|ps| - 1], audioLevelID, level, env);
      var o := PacketOutcome(ps[|ps| - 1], audioLevelID, level, env);
      Batch(b.sent + OptionToSeq(o.sent), b.errs + OptionToSeq(o.err))
  }

  /** The first error of the batch, which is what WriteSample returns. */
  function FirstError(errs: seq<Error>): (r: Option<Error>)
    ensures r.None? <==> errs == []
    ensures r.Some? ==> r.value == errs[0]
  {
    if errs == [] then None else Some(errs[0])
  }

  /** The error WriteSample returns is the error of the first failing packet,
      in packet order, and there is none exactly when no packet failed. */
  lemma {:induction false} EmitFirstError(ps: seq<Packet>, audioLevelID: uint8, level: Option<uint8>, env: Env)
    ensures var e := FirstError(Emit(ps, audioLevelID, level, env).errs);
      && (e.None? <==> forall i :: 0 <= i < |ps| ==> PacketOutcome(ps[i], audioLevelID, level, env).err.None?)
      && (e.Some? ==> exists i :: 0 <= i < |ps| && PacketOutcome(ps[i], audioLevelID, level, env).err == e &&
                              forall j :: 0 <= j < i ==> PacketOutcome(ps[j], audioLevelID, level, env).err.None?)
  {
    if ps != [] {
      var n := |ps| - 1;
      var init := ps[..n];
      EmitFirstError(init, audioLevelID, level, env);
      assert forall i :: 0 <= i < |init| ==> init[i] == ps[i];
      var errs0 := Emit(init, audioLevelID, level, env).errs;
      var o := PacketOutcome(ps[n], audioLevelID, level, env);
      assert Emit(ps, audioLevelID, level, env).errs == errs0 + OptionToSeq(o.err);
      if errs0 == [] {
        assert FirstError(errs0 + OptionToSeq(o.err)) == o.err;
      } else {
        assert FirstError(errs0 + OptionToSeq(o.err)) == FirstError(errs0);
      }
    }
  }

  /** The number of packets whose extension could not be attached. */
  function ExtensionFailures(ps: seq<Packet>, audioLevelID: uint8, level: Option<uint8>, env: Env): (n: nat)
    ensures n <= |ps|
  {
    if ps == [] then 0
    else ExtensionFailures(ps[..|ps| - 1], audioLevelID, level, env)
         + (if Decorate(ps[|ps| - 1], audioLevelID, level, env).Err? then 1 else 0)
  }

  /** Every packet is attempted: each one is either handed to the transport,
      decorated, or held back by its extension failure, and each handed-over
      packet is the decoration of one of the batch's packets. */
  lemma {:induction false} EmitAttemptsEveryPacket(ps: seq<Packet>, audioLevelID: uint8, level: Option<uint8>, env: Env)
    ensures var b := Emit(ps, audioLevelID, level, env);
      && |b.sent| + ExtensionFailures(ps, audioLevelID, level, env) == |ps|
      && (forall q :: q in b.sent ==> exists i :: 0 <= i < |ps| && Decorate(ps[i], audioLevelID, level, env) == Ok(q))
      && |b.errs| >= ExtensionFailures(ps, audioLevelID, level, env)
  {
    if ps != [] {
      var init := ps[..|ps| - 1];
      EmitAttemptsEveryPacket(init, audioLevelID, level, env);
      assert forall i :: 0 <= i < |init| ==> init[i] == ps[i];
    }
  }

  /** The positions of the packets whose extension could be attached, in
      increasing order. */
  function SentIndices(ps: seq<Packet>, audioLevelID: uint8, level: Option<uint8>, env: Env): (idx: seq<nat>)
    ensures forall j :: 0 <= j < |idx| ==> idx[j] < |ps| && Decorate(ps[idx[j]], audioLevelID, level, env).Ok?
    ensures forall j, j' :: 0 <= j < j' < |idx| ==> idx[j] < idx[j']
  {
    if ps == [] then []
    else
      var init := SentIndices(ps[..|ps| - 1], audioLevelID, level, env);
      if Decorate(ps[|ps| - 1], audioLevelID, level, env).Ok? then init + [|ps| - 1] else init
  }

  /** The packets reach the transport in packet order: the j-th packet
      handed over is the decoration of the j-th packet whose extension
      could be attached. */
  lemma {:induction false} EmitKeepsPacketOrder(ps: seq<Packet>, audioLevelID: uint8, level: Option<uint8>, env: Env)
    ensures var b := Emit(ps, audioLevelID, level, env);
      var idx := SentIndices(ps, audioLevelID, level, env);
      && |b.sent| == |idx|
      && forall j :: 0 <= j < |idx| ==> Decorate(ps[idx[j]], audioLevelID, level, env) == Ok(b.sent[j])
  {
    if ps != [] {
      var n := |ps| - 1;
      var init := ps[..n];
      EmitKeepsPacketOrder(init, audioLevelID, level, env);
      var b0 := Emit(init, audioLevelID, level, env);
      var idx0 := SentIndices(init, audioLevelID, level, env);
      var b := Emit(ps, audioLevelID, level, env);
      var idx := SentIndices(ps, audioLevelID, level, env);
      var o := PacketOutcome(ps[n], audioLevelID, level, env);
      var d := Decorate(ps[n], audioLevelID, level, env);
      assert b.sent == b0.sent + OptionToSeq(o.sent);
      if d.Ok? {
        assert o.sent == Some(d.value);
        assert idx == idx0 + [n];
      } else {
        assert o.sent.None?;
        assert idx == idx0;
      }
      forall j | 0 <= j < |idx|
        ensures Decorate(ps[idx[j]], audioLevelID, level, env) == Ok(b.sent[j])
      {
        if j < |idx0| {
          assert idx[j] == idx0[j] && b.sent[j] == b0.sent[j];
          assert ps[idx0[j]] == init[idx0[j]];
        }
      }
    }
  }

  /** Every packet whose extension could be attached is handed over. */
  lemma {:induction false} SentIndicesComplete(ps: seq<Packet>, audioLevelID: uint8, level: Option<uint8>, env: Env, i: nat)
    requires i < |ps| && Decorate(ps[i], audioLevelID, level, env).Ok?
    ensures i in SentIndices(ps, audioLevelID, level, env)
  {
    var n := |ps| - 1;
    if i < n {
      SentIndicesComplete(ps[..n], audioLevelID, level, env, i);
    }
  }

  /** With a level to attach, every packet handed to the transport carries
      the audio-level extension under the negotiated id, and decoding it
      gives back the exact level; without one, packets go out unchanged. */
  lemma EmitCarriesAudioLevel(ps: seq<Packet>, audioLevelID: uint8, level: Option<uint8>, env: Env)
    requires forall i :: 0 <= i < |ps| ==> ps[i].extension.None?
    ensures var b := Emit(ps, audioLevelID, level, env);
      && (level.None? ==> b.sent == ps)
      && (level.Some? ==> forall q :: q in b.sent ==>
            && q.extension.Some? && q.extension.value.id == audioLevelID as nat
            && UnmarshalAudioLevel(q.extension.value.payload) == Ok(AudioLevel(level.value, false)))
  {
    if level.None? {
      EmitWithoutLevel(ps, audioLevelID, env);
    } else {
      EmitWithLevel(ps, audioLevelID, level.value, env);
    }
  }

  /** Without a level every packet goes to the transport as it is. */
  lemma {:induction false} EmitWithoutLevel(ps: seq<Packet>, audioLevelID: uint8, env: Env)
    ensures Emit(ps, audioLevelID, None, env).sent == ps
  {
    if ps != [] {
      var n := |ps| - 1;
      EmitWithoutLevel(ps[..n], audioLevelID, env);
      var o := PacketOutcome(ps[n], audioLevelID, None, env);
      assert o.sent == Some(ps[n]);
      assert Emit(ps, audioLevelID, None, env).sent == ps[..n] + [ps[n]];
      assert ps == ps[..n] + [ps[n]];
    }
  }

  /** With a level, every packet sent carries its encoding under the id. */
  lemma {:induction false} EmitWithLevel(ps: seq<Packet>, audioLevelID: uint8, level: uint8, env: Env)
    ensures forall q :: q in Emit(ps, audioLevelID, Some(level), env).sent ==>
      && q.extension.Some? && q.extension.value.id == audioLevelID as nat
      && UnmarshalAudioLevel(q.extension.value.payload) == Ok(AudioLevel(level, false))
  {
    if ps != [] {
      var n := |ps| - 1;
      EmitWithLevel(ps[..n], audioLevelID, level, env);
      if level <= 127 {
        AudioLevelRoundTrip(level);
      }
    }
  }

  /** A level that does not fit 7 bits fails every packet: nothing reaches
      the transport and there is one overflow error per packet. */
  lemma {:induction false} EmitLevelOverflow(ps: seq<Packet>, audioLevelID: uint8, level: Option<uint8>, env: Env)
    requires level.Some? && level.value > 127
    ensures Emit(ps, audioLevelID, level, env) == Batch([], seq(|ps|, _ => AudioLevelOverflow))
  {
    if ps != [] {
      EmitLevelOverflow(ps[..|ps| - 1], audioLevelID, level, env);
    }
  }

  /** What WriteSample computes from a bound packetization context. */
  datatype WriteResult = WriteResult(assembly: Assembly, packets: seq<Packet>, sent: seq<Packet>, err: Option<Error>)

  /** The context once the sequence numbers and timestamp units of the
      previously dropped packets are skipped. */
  function SkippedDropped(a: Assembly, clockRate: uint32, sample: Sample): (r: Assembly)
    ensures r.payloader == a.payloader
    ensures r.sequenceNumber == (a.sequenceNumber + sample.prevDroppedPackets) % Uint16Modulus
    ensures r.timestamp == (a.timestamp + (TimestampUnits(sample.duration, clockRate) * sample.prevDroppedPackets)
                             % Uint32Modulus) % Uint32Modulus
  {
    var dropped := sample.prevDroppedPackets;
    AdvanceSequenceIsAddition(a.sequenceNumber, dropped, a.sequenceNumber);
    var a1 := a.(sequenceNumber := AdvanceSequence(a.sequenceNumber, dropped));
    var samples := TimestampUnits(sample.duration, clockRate);
    if dropped > 0 then SkipSamples(a1, (samples * dropped) % Uint32Modulus) else a1
  }

  /** The packets of the sample and the context after them. */
  function PacketizeSample(a: Assembly, clockRate: uint32, sample: Sample, env: Env): (r: (seq<Packet>, Assembly))
    ensures r.1.payloader == a.payloader
    ensures |sample.data| == 0 ==> r.0 == []
  {
    var a2 := SkippedDropped(a, clockRate, sample);
    Packetize(a2, sample.data, TimestampUnits(sample.duration, clockRate),
              env.fragment(a2.payloader, PayloadMtu, sample.data))
  }

  /** WriteSample on a bound context: skip, packetize, emit, and return
      the first error. */
  function WriteSpec(a: Assembly, clockRate: uint32, audioLevelID: uint8, sample: Sample,
                     opts: Option<WriteOptions>, env: Env): WriteResult
  {
    var (packets, a3) := PacketizeSample(a, clockRate, sample, env);
    var b := Emit(packets, audioLevelID, LevelToAttach(audioLevelID, opts), env);
    WriteResult(a3, packets, b.sent, FirstError(b.errs))
  }

  lemma ModAddMul(t: nat, s: nat, k: nat)
    ensures ((t + (s * k) % Uint32Modulus) % Uint32Modulus + s) % Uint32Modulus == (t + s * (k + 1)) % Uint32Modulus
  {
    var M := Uint32Modulus;
    var q := (s * k) / M;
    assert s * k == q * M + (s * k) % M;
    var x := t + (s * k) % M;
    assert x % M + s == x + s - (x / M) * M;
    assert t + s * (k + 1) == x + s + q * M;
    ModShift(x + s, (x / M), q);
  }

  lemma ModShift(y: int, p: int, q: int)
    requires 0 <= y - p * Uint32Modulus
    ensures (y - p * Uint32Modulus) % Uint32Modulus == (y + q * Uint32Modulus) % Uint32Modulus
  {
  }

  /** A sample that follows `k` dropped packets moves the sequence counter
      past the `k` numbers the dropped packets would have used and then by
      one per packet, and its packets take the numbers right after the gap. */
  lemma WriteAdvancesSequence(a: Assembly, clockRate: uint32, sample: Sample, env: Env)
    ensures var (packets, a') := PacketizeSample(a, clockRate, sample, env);
      var k := sample.prevDroppedPackets;
      && a'.payloader == a.payloader
      && (|sample.data| == 0 ==> packets == [])
      && a'.sequenceNumber == (a.sequenceNumber + k + |packets|) % Uint16Modulus
      && (forall i :: 0 <= i < |packets| ==>
            packets[i].sequenceNumber == (a.sequenceNumber + k + i + 1) % Uint16Modulus)
  {
    var (packets, a') := PacketizeSample(a, clockRate, sample, env);
    var k := sample.prevDroppedPackets;
    var samples := TimestampUnits(sample.duration, clockRate);
    var a2 := SkippedDropped(a, clockRate, sample);
    var frags := env.fragment(a2.payloader, PayloadMtu, sample.data);
    if |sample.data| > 0 {
      PacketizeShape(a2, sample.data, samples, frags, a.sequenceNumber + k);
    }
  }


  /** A non-empty sample that follows `k` dropped packets moves the
      timestamp by `k + 1` sample durations (modulo 2^32), an empty one
      by `k`. */
  lemma WriteAdvancesTimestamp(a: Assembly, clockRate: uint32, audioLevelID: uint8, sample: Sample,
                               opts: Option<WriteOptions>, env: Env)
    ensures var r := WriteSpec(a, clockRate, audioLevelID, sample, opts, env);
      var k := sample.prevDroppedPackets;
      var samples := TimestampUnits(sample.duration, clockRate);
      && (|sample.data| == 0 ==> r.assembly.timestamp == (a.timestamp + samples * k) % Uint32Modulus)
      && (|sample.data| > 0 ==> r.assembly.timestamp == (a.timestamp + samples * (k + 1)) % Uint32Modulus)
  {
    var r := WriteSpec(a, clockRate, audioLevelID, sample, opts, env);
    assert (r.packets, r.assembly) == PacketizeSample(a, clockRate, sample, env);
    SampleTimestamp(a, clockRate, sample, env);
  }

  /** The timestamp arithmetic of WriteAdvancesTimestamp, on the
      packetization alone. */
  lemma SampleTimestamp(a: Assembly, clockRate: uint32, sample: Sample, env: Env)
    ensures var t := PacketizeSample(a, clockRate, sample, env).1.timestamp;
      var k := sample.prevDroppedPackets;
      var samples := TimestampUnits(sample.duration, clockRate);
      && (|sample.data| == 0 ==> t == (a.timestamp + samples * k) % Uint32Modulus)
      && (|sample.data| > 0 ==> t == (a.timestamp + samples * (k + 1)) % Uint32Modulus)
  {
    var k := sample.prevDroppedPackets;
    var samples := TimestampUnits(sample.duration, clockRate);
    var a2 := SkippedDropped(a, clockRate, sample);
    if |sample.data| > 0 {
      assert PacketizeSample(a, clockRate, sample, env).1.timestamp == (a2.timestamp + samples) % Uint32Modulus;
      ModAddMul(a.timestamp, samples, k);
    } else {
      ModOfMod(a.timestamp, samples * k);
    }
  }

  lemma ModOfMod(t: nat, x: nat)
    ensures (t + x % Uint32Modulus) % Uint32Modulus == (t + x) % Uint32Modulus
  {
    ModShift(t + x, x / Uint32Modulus, 0);
  }

  /** Of a batch numbered consecutively from base + 1 and sharing one
      timestamp, the j-th packet handed over is numbered base + idx[j] + 1
      and keeps the timestamp. */
  lemma EmitNumbering(ps: seq<Packet>, audioLevelID: uint8, level: Option<uint8>, env: Env, base: nat, ts: uint32)
    requires forall i :: 0 <= i < |ps| ==> ps[i].sequenceNumber == (base + i + 1) % Uint16Modulus && ps[i].timestamp == ts
    ensures var b := Emit(ps, audioLevelID, level, env);
      var idx := SentIndices(ps, audioLevelID, level, env);
      && |b.sent| == |idx|
      && (forall j :: 0 <= j < |idx| ==> b.sent[j].sequenceNumber == (base + idx[j] + 1) % Uint16Modulus)
      && (forall j :: 0 <= j < |idx| ==> b.sent[j].timestamp == ts)
  {
    var b := Emit(ps, audioLevelID, level, env);
    var idx := SentIndices(ps, audioLevelID, level, env);
    EmitKeepsPacketOrder(ps, audioLevelID, level, env);
    forall j | 0 <= j < |idx|
      ensures b.sent[j].sequenceNumber == (base + idx[j] + 1) % Uint16Modulus && b.sent[j].timestamp == ts
    {
      assert Decorate(ps[idx[j]], audioLevelID, level, env) == Ok(b.sent[j]);
    }
  }

  /** The sample's packets are numbered right after the skipped ones and
      share the timestamp the packetizer held after the skip. */
  lemma SamplePacketsNumbered(a: Assembly, clockRate: uint32, sample: Sample, env: Env)
    ensures var ps := PacketizeSample(a, clockRate, sample, env).0;
      forall i :: 0 <= i < |ps| ==>
        && ps[i].sequenceNumber == (a.sequenceNumber + sample.prevDroppedPackets + i + 1) % Uint16Modulus
        && ps[i].timestamp == SkippedDropped(a, clockRate, sample).timestamp
  {
    if |sample.data| > 0 {
      var a2 := SkippedDropped(a, clockRate, sample);
      var frags := env.fragment(a2.payloader, PayloadMtu, sample.data);
      PacketizeShape(a2, sample.data, TimestampUnits(sample.duration, clockRate), frags,
                     a.sequenceNumber + sample.prevDroppedPackets);
    }
  }

  /** The packets of one sample reach the transport in sequence order:
      the j-th packet handed over (WriteSpec's `sent` is this batch's) is
      the idx[j]-th of the sample, numbered right after the skipped ones,
      and all carry the timestamp the packetizer held after the skip. */
  lemma WriteSendsInSequenceOrder(a: Assembly, clockRate: uint32, audioLevelID: uint8, sample: Sample,
                                  opts: Option<WriteOptions>, env: Env)
    ensures var level := LevelToAttach(audioLevelID, opts);
      var ps := PacketizeSample(a, clockRate, sample, env).0;
      var sent := Emit(ps, audioLevelID, level, env).sent;
      var idx := SentIndices(ps, audioLevelID, level, env);
      && |sent| == |idx|
      && (forall j :: 0 <= j < |idx| ==>
            sent[j].sequenceNumber == (a.sequenceNumber + sample.prevDroppedPackets + idx[j] + 1) % Uint16Modulus)
      && (forall j :: 0 <= j < |sent| ==>
            sent[j].timestamp == SkippedDropped(a, clockRate, sample).timestamp)
  {
    SamplePacketsNumbered(a, clockRate, sample, env);
    EmitNumbering(PacketizeSample(a, clockRate, sample, env).0, audioLevelID, LevelToAttach(audioLevelID, opts), env,
                  a.sequenceNumber + sample.prevDroppedPackets, SkippedDropped(a, clockRate, sample).timestamp);
  }

  /** An empty sample sends nothing and reports no error; only the skip of
      the dropped packets moves the context. */
  lemma EmptySampleWritesNothing(a: Assembly, clockRate: uint32, audioLevelID: uint8, sample: Sample,
                                 opts: Option<WriteOptions>, env: Env)
    requires |sample.data| == 0
    ensures var r := WriteSpec(a, clockRate, audioLevelID, sample, opts, env);
      r.packets == [] && r.sent == [] && r.err.None? && r.assembly == SkippedDropped(a, clockRate, sample)
  {
  }

  /** The increment is truncated, not rounded: a 1/30 s frame at the
      90 kHz video clock is 2999 units, not 3000. */
  lemma FrameAtVideoClockTruncates()
    ensures TimestampUnits(FrameDuration, 90000) == 2999
  {
  }
}
