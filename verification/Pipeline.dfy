/** The uplink of one portal: the client's frame queue, the writer pump, the byte stream, the reader
    pump, the server's inlet queue, the relay, the portal task's call queue and the task itself.
    Frames are the serialized bytes; every stage may fail at any time. Whether the bytes of a frame
    deserialize is a function of the bytes, `parses`. */
module Pipeline {
  import opened Outcomes
  import opened Framing
  import opened Seqs

  const CLIENT_CAPACITY: nat := 1024
  const INLET_CAPACITY: nat := 128
  const CALL_CAPACITY: nat := 1024

  /** The call queue of the portal task is shared with calls that carry no inbound frame. */
  datatype Call = FrameIn(frame: Bytes) | OtherCall

  /** The inbound frame of a call, if it has one. */
  function Carried(call: Call): seq<Bytes> {
    match call
    case FrameIn(frame) => [frame]
    case OtherCall => []
  }

  datatype Pipe = Pipe(
    accepted: seq<Bytes>,    // every frame `TcpInlet` ever took, in order
    clientQueue: seq<Bytes>,
    writerUp: bool,
    wire: Bytes,             // written and not yet read
    readerUp: bool,
    inletQueue: seq<Bytes>,
    callQueue: seq<Call>,
    taskUp: bool,
    processed: seq<Bytes>)   // every frame the portal task ever handled, in order

  const START := Pipe([], [], true, [], true, [], [], true, [])

  datatype Step =
    | SendFrame(frame: Bytes)  // `TcpInlet::send_frame`
    | Write(room: nat)         // writer pump: the socket takes `room` more bytes before it breaks
    | WriteRefused             // writer pump: the frame does not serialize
    | Read                     // reader pump: a whole frame is on the wire
    | ReadFails                // reader pump: the socket fails
    | Relay                    // inlet queue to call queue
    | QueueOther               // some other call enters the call queue
    | Process                  // the portal task takes one call
    | TaskEnds                 // the portal task stops and its queue is dropped

  predicate Enabled(p: Pipe, step: Step) {
    match step
    case SendFrame(_) => true
    case Write(_) => p.writerUp && p.clientQueue != []
    case WriteRefused => p.writerUp && p.clientQueue != []
    case Read => p.readerUp && Decode(p.wire).Some?
    case ReadFails => p.readerUp
    case Relay => p.inletQueue != [] && (p.taskUp ==> |p.callQueue| < CALL_CAPACITY)
    case QueueOther => p.taskUp && |p.callQueue| < CALL_CAPACITY
    case Process => p.taskUp && p.callQueue != []
    case TaskEnds => p.taskUp
  }

  function Next(parses: Bytes -> bool, p: Pipe, step: Step): Pipe
    requires Enabled(p, step)
  {
    match step
    case SendFrame(frame) =>
      if p.writerUp && |p.clientQueue| < CLIENT_CAPACITY then
        p.(accepted := p.accepted + [frame], clientQueue := p.clientQueue + [frame])
      else p
    case Write(room) =>
      var bytes := Encode(p.clientQueue[0]);
      var written := p.(clientQueue := p.clientQueue[1..]);
      if |bytes| <= room then written.(wire := p.wire + bytes)
      else written.(wire := p.wire + bytes[..room], writerUp := false)
    case WriteRefused => p.(clientQueue := p.clientQueue[1..], writerUp := false)
    case Read =>
      var (frame, rest) := Decode(p.wire).value;
      if parses(frame) && |p.inletQueue| < INLET_CAPACITY then
        p.(wire := rest, inletQueue := p.inletQueue + [frame])
      else p.(wire := rest, readerUp := false)
    case ReadFails => p.(readerUp := false)
    case Relay =>
      var relayed := p.(inletQueue := p.inletQueue[1..]);
      if p.taskUp then relayed.(callQueue := p.callQueue + [FrameIn(p.inletQueue[0])]) else relayed
    case QueueOther => p.(callQueue := p.callQueue + [OtherCall])
    case Process =>
      p.(callQueue := p.callQueue[1..], processed := p.processed + Carried(p.callQueue[0]))
    case TaskEnds => p.(taskUp := false, callQueue := [])
  }

  /** The pipe after a run of steps from the start, or None when some step was not enabled. */
  function Run(parses: Bytes -> bool, steps: seq<Step>): Option<Pipe> {
    if steps == [] then Some(START)
    else
      match Run(parses, steps[..|steps| - 1])
      case None => None
      case Some(p) =>
        var step := steps[|steps| - 1];
        if Enabled(p, step) then Some(Next(parses, p, step)) else None
  }

  ghost predicate Reached(parses: Bytes -> bool, steps: seq<Step>, p: Pipe) { Run(parses, steps) == Some(p) }

  function Frames(calls: seq<Call>): seq<Bytes> {
    if calls == [] then [] else Carried(calls[0]) + Frames(calls[1..])
  }

  predicate AllUp(p: Pipe) { p.writerUp && p.readerUp && p.taskUp }

  // ----- what the reader makes of the stream

  /** What is read of a frame whose length does not survive the cast, if anything. */
  function Cut(frame: Bytes): Bytes { frame[..|frame| % U32_MODULUS] }

  /** A frame does no harm when it is read as it was written, or stops the reader. */
  predicate Safe(parses: Bytes -> bool, frame: Bytes) { Sized(frame) || !parses(Cut(frame)) }

  ghost predicate AllSafe(parses: Bytes -> bool, frames: seq<Bytes>) {
    forall i :: 0 <= i < |frames| ==> Safe(parses, frames[i])
  }

  /** A part, but not all, of a written frame. */
  ghost predicate PartOf(frame: Bytes, torn: Bytes) { |torn| < |Encode(frame)| && torn == Encode(frame)[..|torn|] }

  ghost predicate Torn(parses: Bytes -> bool, torn: Bytes) {
    torn == [] || exists frame :: Safe(parses, frame) && PartOf(frame, torn)
  }

  /** A stream that begins like a written frame, as far as its header says the frame goes, is read as its cut. */
  lemma ReadsCut(frame: Bytes, stream: Bytes, n: nat)
    requires 4 + |frame| % U32_MODULUS <= n <= |stream| && n <= |Encode(frame)| && stream[..n] == Encode(frame)[..n]
    ensures Decode(stream).Some? && Decode(stream).value.0 == Cut(frame)
  {
    var encoded, end := Encode(frame), 4 + |frame| % U32_MODULUS;
    forall i | 0 <= i < n ensures stream[i] == encoded[i] {
      assert stream[..n][i] == encoded[..n][i];
    }
    assert stream[..4] == Header(|frame|);
    HeaderRoundTrip(|frame|);
    assert forall i :: 4 <= i < end ==> stream[i] == frame[i - 4];
    assert stream[4..end] == Cut(frame);
  }

  /** Nothing that deserializes is read out of a torn frame. */
  lemma TornReads(parses: Bytes -> bool, torn: Bytes)
    requires Torn(parses, torn) && Decode(torn).Some?
    ensures !parses(Decode(torn).value.0)
  {
    var frame :| Safe(parses, frame) && PartOf(frame, torn);
    if Sized(frame) {
      TornFrame(frame, |torn|);
      assert false;
    } else {
      assert torn[..4] == Header(|frame|);
      HeaderRoundTrip(|frame|);
      ReadsCut(frame, torn, |torn|);
    }
  }

  /** What deserializes is read as it was written. */
  lemma WholeReads(parses: Bytes -> bool, frame: Bytes, rest: Bytes)
    requires Safe(parses, frame)
    ensures Decode(Encode(frame) + rest).Some?
    ensures parses(Decode(Encode(frame) + rest).value.0) ==> Decode(Encode(frame) + rest) == Some((frame, rest))
  {
    DecodeEncode(frame, rest);
    if !Sized(frame) {
      assert (Encode(frame) + rest)[..|Encode(frame)|] == Encode(frame) == Encode(frame)[..|Encode(frame)|];
      ReadsCut(frame, Encode(frame) + rest, |Encode(frame)|);
    }
  }

  /** The next frame that is read and deserializes is the first of those on the stream. */
  lemma ReadHead(parses: Bytes -> bool, onWire: seq<Bytes>, torn: Bytes)
    requires AllSafe(parses, onWire) && Torn(parses, torn) && Decode(EncodeAll(onWire) + torn).Some?
    ensures parses(Decode(EncodeAll(onWire) + torn).value.0) ==>
              onWire != [] && Decode(EncodeAll(onWire) + torn) == Some((onWire[0], EncodeAll(onWire[1..]) + torn))
  {
    if onWire == [] {
      assert EncodeAll(onWire) + torn == torn;
      TornReads(parses, torn);
    } else {
      Assoc(Encode(onWire[0]), EncodeAll(onWire[1..]), torn);
      WholeReads(parses, onWire[0], EncodeAll(onWire[1..]) + torn);
    }
  }

  // ----- the invariant

  /** The frames that can still reach the task, when `onWire` are those on the stream: what lies behind a
      failed stage cannot. */
  function InFlight(p: Pipe, onWire: seq<Bytes>): seq<Bytes> { Frames(p.callQueue) + AtInlet(p, onWire) }

  function AtInlet(p: Pipe, onWire: seq<Bytes>): seq<Bytes> {
    if p.taskUp then p.inletQueue + AtReader(p, onWire) else []
  }

  function AtReader(p: Pipe, onWire: seq<Bytes>): seq<Bytes> { if p.readerUp then onWire + AtClient(p) else [] }

  function AtClient(p: Pipe): seq<Bytes> { if p.writerUp then p.clientQueue else [] }

  /** The stream is the encoding of `onWire` and, once the writer has stopped, perhaps a part of one more. */
  ghost predicate Stream(parses: Bytes -> bool, p: Pipe, onWire: seq<Bytes>, torn: Bytes) {
    && p.wire == EncodeAll(onWire) + torn && AllSafe(parses, onWire)
    && Torn(parses, torn) && (p.writerUp ==> torn == [])
  }

  ghost predicate Flow(p: Pipe, onWire: seq<Bytes>) {
    && p.processed + InFlight(p, onWire) <= p.accepted
    && (AllUp(p) ==> p.processed + InFlight(p, onWire) == p.accepted)
  }

  ghost predicate Inv(parses: Bytes -> bool, p: Pipe, onWire: seq<Bytes>, torn: Bytes) {
    && AllSafe(parses, p.clientQueue) && (p.readerUp ==> Stream(parses, p, onWire, torn)) && Flow(p, onWire)
  }

  lemma {:induction false} FramesConcat(a: seq<Call>, b: seq<Call>)
    ensures Frames(a + b) == Frames(a) + Frames(b)
  {
    if a == [] {
      assert a + b == b;
    } else {
      FramesConcat(a[1..], b);
      DropFirst(a, b);
      Assoc(Carried(a[0]), Frames(a[1..]), Frames(b));
    }
  }

  /** A step that takes the frames `lost` off the far end of what is in flight keeps the order of the rest. */
  lemma Shortened(p: Pipe, onWire: seq<Bytes>, p': Pipe, onWire': seq<Bytes>, lost: seq<Bytes>)
    requires Flow(p, onWire) && p'.accepted == p.accepted && (AllUp(p') ==> AllUp(p) && lost == [])
    requires p.processed + InFlight(p, onWire) == p'.processed + InFlight(p', onWire') + lost
    ensures Flow(p', onWire')
  {}

  lemma WholeWriteKeeps(parses: Bytes -> bool, p: Pipe, onWire: seq<Bytes>, torn: Bytes, room: nat)
    requires Inv(parses, p, onWire, torn) && Enabled(p, Write(room)) && |Encode(p.clientQueue[0])| <= room
    ensures Inv(parses, Next(parses, p, Write(room)), onWire + [p.clientQueue[0]], torn)
  {
    var p', frame := Next(parses, p, Write(room)), p.clientQueue[0];
    EncodeAllConcat(onWire, [frame]);
    assert EncodeAll([frame]) == Encode(frame) + EncodeAll([]) == Encode(frame);
    if p.readerUp {
      assert p.wire == EncodeAll(onWire);
      assert p'.wire == EncodeAll(onWire + [frame]) + torn;
    }
    MoveHead(onWire, p.clientQueue, []);
    assert p.clientQueue[1..] + [] == p.clientQueue[1..] && p.clientQueue + [] == p.clientQueue;
    assert AtReader(p', onWire + [frame]) == AtReader(p, onWire);
  }

  lemma TornWriteKeeps(parses: Bytes -> bool, p: Pipe, onWire: seq<Bytes>, torn: Bytes, room: nat)
    requires Inv(parses, p, onWire, torn) && Enabled(p, Write(room)) && |Encode(p.clientQueue[0])| > room
    ensures Inv(parses, Next(parses, p, Write(room)), onWire, Encode(p.clientQueue[0])[..room])
  {
    var p', part := Next(parses, p, Write(room)), Encode(p.clientQueue[0])[..room];
    LostAtClient(p, p', onWire);
    assert PartOf(p.clientQueue[0], part);
    if p.readerUp {
      assert p.wire == EncodeAll(onWire);
    }
  }

  /** When the writer stops, what the client still held is lost. */
  lemma LostAtClient(p: Pipe, p': Pipe, onWire: seq<Bytes>)
    requires Flow(p, onWire) && p.writerUp && !p'.writerUp
    requires p' == p.(clientQueue := p'.clientQueue, writerUp := false, wire := p'.wire)
    ensures Flow(p', onWire)
  {
    var lost := if p.taskUp && p.readerUp then p.clientQueue else [];
    assert AtReader(p, onWire) == AtReader(p', onWire) + if p.readerUp then p.clientQueue else [];
    if p.taskUp {
      Assoc(p.inletQueue, AtReader(p', onWire), lost);
    }
    assert AtInlet(p, onWire) == AtInlet(p', onWire) + lost;
    Assoc(Frames(p.callQueue), AtInlet(p', onWire), lost);
    Assoc(p.processed, InFlight(p', onWire), lost);
    Shortened(p, onWire, p', onWire, lost);
  }

  lemma ReadKeeps(parses: Bytes -> bool, p: Pipe, onWire: seq<Bytes>, torn: Bytes)
    requires Inv(parses, p, onWire, torn) && Enabled(p, Read)
    ensures var p' := Next(parses, p, Read);
            if p'.readerUp then onWire != [] && Inv(parses, p', onWire[1..], torn) else Inv(parses, p', onWire, torn)
  {
    var p' := Next(parses, p, Read);
    ReadHead(parses, onWire, torn);
    if p'.readerUp {
      var frame, later := onWire[0], onWire[1..];
      assert onWire == [frame] + later;
      Assoc([frame], later, AtClient(p));
      Assoc(p.inletQueue, [frame], AtReader(p', later));
      assert InFlight(p', later) == InFlight(p, onWire);
    } else {
      LostOnWire(p, p', onWire);
    }
  }

  /** When the reader stops, what it had not handed on is lost. */
  lemma LostOnWire(p: Pipe, p': Pipe, onWire: seq<Bytes>)
    requires Flow(p, onWire) && p.readerUp && !p'.readerUp && p' == p.(wire := p'.wire, readerUp := false)
    ensures Flow(p', onWire)
  {
    var lost := if p.taskUp then AtReader(p, onWire) else [];
    assert AtInlet(p, onWire) == AtInlet(p', onWire) + lost;
    Assoc(Frames(p.callQueue), AtInlet(p', onWire), lost);
    Assoc(p.processed, InFlight(p', onWire), lost);
    Shortened(p, onWire, p', onWire, lost);
  }

  lemma RelayKeeps(parses: Bytes -> bool, p: Pipe, onWire: seq<Bytes>)
    requires Flow(p, onWire) && Enabled(p, Relay)
    ensures Flow(Next(parses, p, Relay), onWire)
  {
    var frame := p.inletQueue[0];
    if p.taskUp {
      FramesConcat(p.callQueue, [FrameIn(frame)]);
      assert Frames([FrameIn(frame)]) == [frame] + Frames([]);
      assert Frames(p.callQueue) + ([frame] + []) == Frames(p.callQueue) + [frame];
      MoveHead(Frames(p.callQueue), p.inletQueue, AtReader(p, onWire));
    }
  }

  lemma QueueOtherKeeps(parses: Bytes -> bool, p: Pipe, onWire: seq<Bytes>)
    requires Flow(p, onWire) && Enabled(p, QueueOther)
    ensures Flow(Next(parses, p, QueueOther), onWire)
  {
    FramesConcat(p.callQueue, [OtherCall]);
    assert Frames([OtherCall]) == [] + Frames([]);
    assert Frames(p.callQueue) + [] == Frames(p.callQueue);
  }

  lemma ProcessKeeps(parses: Bytes -> bool, p: Pipe, onWire: seq<Bytes>)
    requires Flow(p, onWire) && Enabled(p, Process)
    ensures Flow(Next(parses, p, Process), onWire)
  {
    var p', carried := Next(parses, p, Process), Carried(p.callQueue[0]);
    Assoc(carried, Frames(p'.callQueue), AtInlet(p, onWire));
    Assoc(p.processed, carried, InFlight(p', onWire));
    assert p.processed + InFlight(p, onWire) == p'.processed + InFlight(p', onWire);
  }

  lemma TaskEndsKeeps(parses: Bytes -> bool, p: Pipe, onWire: seq<Bytes>)
    requires Flow(p, onWire) && Enabled(p, TaskEnds)
    ensures Flow(Next(parses, p, TaskEnds), onWire)
  {
    var p' := Next(parses, p, TaskEnds);
    assert p'.processed + InFlight(p', onWire) == p.processed;
    assert p.processed <= p.processed + InFlight(p, onWire);
  }

  lemma SendKeeps(parses: Bytes -> bool, p: Pipe, onWire: seq<Bytes>, frame: Bytes)
    requires Flow(p, onWire)
    ensures Flow(Next(parses, p, SendFrame(frame)), onWire)
  {
    var p' := Next(parses, p, SendFrame(frame));
    if p' != p && AllUp(p) {
      Assoc(onWire, p.clientQueue, [frame]);
      Assoc(p.inletQueue, AtReader(p, onWire), [frame]);
      Assoc(Frames(p.callQueue), AtInlet(p, onWire), [frame]);
      Assoc(p.processed, InFlight(p, onWire), [frame]);
    }
  }

  /** Every step of every stage keeps the invariant, for some frames on the stream, as long as what is sent
      is safe. */
  lemma StepKeeps(parses: Bytes -> bool, p: Pipe, onWire: seq<Bytes>, torn: Bytes, step: Step)
    returns (onWire': seq<Bytes>, torn': Bytes)
    requires Inv(parses, p, onWire, torn) && Enabled(p, step) && (step.SendFrame? ==> Safe(parses, step.frame))
    ensures Inv(parses, Next(parses, p, step), onWire', torn')
  {
    onWire', torn' := onWire, torn;
    match step
    case Write(room) =>
      if |Encode(p.clientQueue[0])| <= room {
        WholeWriteKeeps(parses, p, onWire, torn, room);
        onWire' := onWire + [p.clientQueue[0]];
      } else {
        TornWriteKeeps(parses, p, onWire, torn, room);
        torn' := Encode(p.clientQueue[0])[..room];
      }
    case Read =>
      ReadKeeps(parses, p, onWire, torn);
      if Next(parses, p, Read).readerUp {
        onWire' := onWire[1..];
      }
    case _ => FlowKeeps(parses, p, onWire, step);
  }

  /** The steps that leave the stream alone. */
  lemma FlowKeeps(parses: Bytes -> bool, p: Pipe, onWire: seq<Bytes>, step: Step)
    requires Flow(p, onWire) && Enabled(p, step) && !step.Write? && !step.Read?
    ensures Flow(Next(parses, p, step), onWire)
  {
    match step
    case SendFrame(frame) => SendKeeps(parses, p, onWire, frame);
    case WriteRefused => LostAtClient(p, Next(parses, p, step), onWire);
    case ReadFails => LostOnWire(p, Next(parses, p, step), onWire);
    case Relay => RelayKeeps(parses, p, onWire);
    case QueueOther => QueueOtherKeeps(parses, p, onWire);
    case Process => ProcessKeeps(parses, p, onWire);
    case TaskEnds => TaskEndsKeeps(parses, p, onWire);
  }

  // ----- whole runs

  /** Only frames from `frames` are given to `TcpInlet`. */
  ghost predicate Sends(steps: seq<Step>, frames: set<Bytes>) {
    forall i :: 0 <= i < |steps| && steps[i].SendFrame? ==> steps[i].frame in frames
  }

  ghost predicate SafeSet(parses: Bytes -> bool, frames: set<Bytes>) { forall f :: f in frames ==> Safe(parses, f) }

  lemma {:induction false} RunKeeps(parses: Bytes -> bool, steps: seq<Step>, p: Pipe, frames: set<Bytes>)
    returns (onWire: seq<Bytes>, torn: Bytes)
    requires Reached(parses, steps, p) && Sends(steps, frames) && SafeSet(parses, frames)
    ensures Inv(parses, p, onWire, torn)
  {
    if steps == [] {
      onWire, torn := [], [];
    } else {
      var before := Run(parses, steps[..|steps| - 1]).value;
      onWire, torn := RunKeeps(parses, steps[..|steps| - 1], before, frames);
      onWire, torn := StepKeeps(parses, before, onWire, torn, steps[|steps| - 1]);
    }
  }

  /** Whichever stages failed and whenever they did, the frames the portal task has processed are a
      prefix of the frames `TcpInlet` accepted: in order, without gap and without repetition. So are those
      together with the ones that wait in its call queue. */
  lemma ProcessedIsPrefix(parses: Bytes -> bool, steps: seq<Step>, p: Pipe, frames: set<Bytes>)
    requires Reached(parses, steps, p) && Sends(steps, frames) && SafeSet(parses, frames)
    ensures p.processed <= p.accepted
    ensures p.processed + Frames(p.callQueue) <= p.accepted
  {
    var onWire, _ := RunKeeps(parses, steps, p, frames);
    Assoc(p.processed, Frames(p.callQueue), AtInlet(p, onWire));
    assert p.processed + Frames(p.callQueue) <= p.processed + InFlight(p, onWire);
  }

  /** While no stage has failed, every accepted frame is processed or still under way, in order; the stream
      holds whole frames, and they will be read from it when they are shorter than 2^32 bytes. */
  lemma NothingLost(parses: Bytes -> bool, steps: seq<Step>, p: Pipe, frames: set<Bytes>) returns (onWire: seq<Bytes>)
    requires Reached(parses, steps, p) && Sends(steps, frames) && SafeSet(parses, frames) && AllUp(p)
    ensures p.accepted == p.processed + (Frames(p.callQueue) + (p.inletQueue + (onWire + p.clientQueue)))
    ensures p.wire == EncodeAll(onWire)
    ensures AllSized(onWire) ==> DecodeAll(p.wire) == (onWire, [])
  {
    var torn;
    onWire, torn := RunKeeps(parses, steps, p, frames);
    assert EncodeAll(onWire) + [] == EncodeAll(onWire);
    StreamRoundTrip(onWire);
  }

  lemma Extend(parses: Bytes -> bool, steps: seq<Step>, p: Pipe, step: Step, p': Pipe)
    requires Reached(parses, steps, p) && Enabled(p, step) && Next(parses, p, step) == p'
    ensures Reached(parses, steps + [step], p')
  {
    assert (steps + [step])[..|steps|] == steps;
  }

  /** A frame of 2^32 bytes or more whose cut deserializes reaches the portal task as that cut. */
  lemma CutArrives(parses: Bytes -> bool, frame: Bytes) returns (steps: seq<Step>, p: Pipe)
    requires !Safe(parses, frame)
    ensures Reached(parses, steps, p) && Sends(steps, {frame})
    ensures p.accepted == [frame] && p.processed == [Cut(frame)] && Cut(frame) != frame
  {
    var bytes, cut := Encode(frame), Cut(frame);
    assert bytes[..|bytes|] == bytes;
    ReadsCut(frame, bytes, |bytes|);
    var rest := Decode(bytes).value.1;
    var sent := START.(accepted := [frame], clientQueue := [frame]);
    var written := sent.(clientQueue := [], wire := bytes);
    var arrived := written.(wire := rest, inletQueue := [cut]);
    var called := arrived.(inletQueue := [], callQueue := [FrameIn(cut)]);
    p := called.(callQueue := [], processed := [cut]);
    assert [SendFrame(frame)] == [] + [SendFrame(frame)];
    Extend(parses, [], START, SendFrame(frame), sent);
    Extend(parses, [SendFrame(frame)], sent, Write(|bytes|), written);
    steps := [SendFrame(frame)] + [Write(|bytes|)];
    Extend(parses, steps, written, Read, arrived);
    steps := steps + [Read];
    Extend(parses, steps, arrived, Relay, called);
    steps := steps + [Relay];
    Extend(parses, steps, called, Process, p);
    steps := steps + [Process];
  }

  /** The pipeline delivers a prefix of what it accepted, in every run, exactly when each frame it may be given
      is shorter than 2^32 bytes or has a cut that does not deserialize. */
  lemma PrefixExactly(parses: Bytes -> bool, frames: set<Bytes>)
    ensures (forall steps, p :: Reached(parses, steps, p) && Sends(steps, frames) ==> p.processed <= p.accepted)
            <==> SafeSet(parses, frames)
  {
    if SafeSet(parses, frames) {
      forall steps, p | Reached(parses, steps, p) && Sends(steps, frames) ensures p.processed <= p.accepted {
        ProcessedIsPrefix(parses, steps, p, frames);
      }
    } else {
      var f :| f in frames && !Safe(parses, f);
      var steps, p := CutArrives(parses, f);
      assert Sends(steps, frames) && p.processed[0] != f;
      assert !(p.processed <= p.accepted);
    }
  }

  /** No proper prefix of the frame deserializes. */
  ghost predicate SelfDelimiting(parses: Bytes -> bool, frame: Bytes) {
    forall n :: 0 <= n < |frame| ==> !parses(frame[..n])
  }

  /** With frames no proper prefix of which deserializes there is no bound on their length. */
  lemma PrefixUnbounded(parses: Bytes -> bool, steps: seq<Step>, p: Pipe, frames: set<Bytes>)
    requires Reached(parses, steps, p) && Sends(steps, frames)
    requires forall f :: f in frames ==> SelfDelimiting(parses, f)
    ensures p.processed <= p.accepted
  {
    forall f | f in frames ensures Safe(parses, f) {
      assert |f| >= U32_MODULUS ==> |f| % U32_MODULUS < |f|;
    }
    ProcessedIsPrefix(parses, steps, p, frames);
  }

  // ----- stages that stop

  /** A stage that has stopped never goes on, and passes nothing more: the stream only gets shorter without its
      writer, the inlet queue without its reader, and nothing is processed without the task, whose queue is
      dropped. */
  lemma StoppedStaysStopped(parses: Bytes -> bool, p: Pipe, step: Step)
    requires Enabled(p, step)
    ensures var p' := Next(parses, p, step);
            && (!p.writerUp ==> !p'.writerUp && |p'.wire| <= |p.wire| && p'.wire == p.wire[|p.wire| - |p'.wire|..])
            && (!p.readerUp ==> !p'.readerUp && |p'.inletQueue| <= |p.inletQueue|
                                && p'.inletQueue == p.inletQueue[|p.inletQueue| - |p'.inletQueue|..])
            && (!p.taskUp ==> !p'.taskUp && p'.processed == p.processed && p'.callQueue == p.callQueue)
  {}

  /** Stages stop when their part fails: the writer on a frame that does not serialize or a socket that breaks,
      the reader on its socket, on a frame that does not deserialize or on a full queue, and the task when it
      ends; not otherwise. */
  lemma StopsExactly(parses: Bytes -> bool, p: Pipe, step: Step)
    requires Enabled(p, step)
    ensures var p' := Next(parses, p, step);
            && (p.writerUp && !p'.writerUp <==>
                  step.WriteRefused? || (step.Write? && step.room < 4 + |p.clientQueue[0]|))
            && (p.readerUp && !p'.readerUp <==>
                  step.ReadFails? || (step.Read? && (!parses(Decode(p.wire).value.0) || |p.inletQueue| >= 128)))
            && (p.taskUp && !p'.taskUp <==> step.TaskEnds?)
            && (step.TaskEnds? ==> p'.callQueue == [])
  {}

  // ----- the queues have bounds

  predicate Bounded(p: Pipe) { |p.clientQueue| <= 1024 && |p.inletQueue| <= 128 && |p.callQueue| <= 1024 }

  lemma StaysBounded(parses: Bytes -> bool, p: Pipe, step: Step)
    requires Bounded(p) && Enabled(p, step)
    ensures Bounded(Next(parses, p, step))
  {}

  /** No queue ever holds more than its channel was made for. */
  lemma {:induction false} QueuesBounded(parses: Bytes -> bool, steps: seq<Step>, p: Pipe)
    requires Reached(parses, steps, p)
    ensures |p.clientQueue| <= 1024 && |p.inletQueue| <= 128 && |p.callQueue| <= 1024
  {
    if steps != [] {
      var before := Run(parses, steps[..|steps| - 1]).value;
      QueuesBounded(parses, steps[..|steps| - 1], before);
      StaysBounded(parses, before, steps[|steps| - 1]);
    }
  }

  /** The call queue can get as long as that. */
  lemma {:induction false} CallQueueFills(parses: Bytes -> bool, n: nat) returns (steps: seq<Step>, p: Pipe)
    requires n <= 1024
    ensures Reached(parses, steps, p) && p == START.(callQueue := p.callQueue) && |p.callQueue| == n
  {
    if n == 0 {
      steps, p := [], START;
    } else {
      var before;
      steps, before := CallQueueFills(parses, n - 1);
      p := Next(parses, before, QueueOther);
      Extend(parses, steps, before, QueueOther, p);
      steps := steps + [QueueOther];
    }
  }

  /** And up to there `TcpInlet` takes every frame: of frames sent before the writer writes any, the first 1024. */
  lemma {:induction false} TakesFirst(parses: Bytes -> bool, frames: seq<Bytes>) returns (steps: seq<Step>, p: Pipe)
    ensures Reached(parses, steps, p) && |steps| == |frames|
    ensures forall i :: 0 <= i < |frames| ==> steps[i] == SendFrame(frames[i])
    ensures p == START.(accepted := p.accepted, clientQueue := p.accepted)
    ensures p.accepted == if |frames| <= 1024 then frames else frames[..1024]
  {
    if frames == [] {
      steps, p := [], START;
    } else {
      var last := |frames| - 1;
      var before;
      steps, before := TakesFirst(parses, frames[..last]);
      p := Next(parses, before, SendFrame(frames[last]));
      Extend(parses, steps, before, SendFrame(frames[last]), p);
      steps := steps + [SendFrame(frames[last])];
      assert frames[..last] + [frames[last]] == frames;
      if |frames| > 1024 {
        assert frames[..last][..1024] == frames[..1024];
      }
    }
  }
}
