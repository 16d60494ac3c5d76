/** The uplink stages as running code. Each method is one stage; the loop of a pump task is written out,
    and its body is a step of `Pipeline`. */
module Uplink {
  import opened Framing
  import opened Pipeline
  import opened Seqs

  /** The frames in front of the first that fails. */
  function Leading(frames: seq<Bytes>, ok: Bytes -> bool): (r: seq<Bytes>)
    ensures r <= frames
  {
    if frames == [] || !ok(frames[0]) then [] else [frames[0]] + Leading(frames[1..], ok)
  }

  class Stages {
    const parses: Bytes -> bool
    ghost var accepted: seq<Bytes>
    var clientQueue: seq<Bytes>
    var writerUp: bool
    var wire: Bytes
    var readerUp: bool
    var inletQueue: seq<Bytes>
    var callQueue: seq<Call>
    var taskUp: bool
    ghost var processed: seq<Bytes>

    ghost function State(): Pipe
      reads this
    {
      Pipe(accepted, clientQueue, writerUp, wire, readerUp, inletQueue, callQueue, taskUp, processed)
    }

    /** `parses` is the deserialization of the server's reader. */
    constructor (parses: Bytes -> bool)
      ensures State() == START && this.parses == parses
    {
      this.parses := parses;
      accepted, clientQueue, writerUp, wire, readerUp := [], [], true, [], true;
      inletQueue, callQueue, taskUp, processed := [], [], true, [];
    }

    /** `TcpInlet::send_frame`: `try_send` fails on a full queue and on one whose pump is gone. */
    method Send(frame: Bytes) returns (taken: bool)
      modifies this`accepted, this`clientQueue
      ensures taken <==> old(writerUp) && |old(clientQueue)| < 1024
      ensures accepted == if taken then old(accepted) + [frame] else old(accepted)
      ensures State() == Next(parses, old(State()), SendFrame(frame))
    {
      taken := writerUp && |clientQueue| < CLIENT_CAPACITY;
      if taken {
        clientQueue := clientQueue + [frame];
        accepted := accepted + [frame];
      }
    }

    /** One turn of the writer pump; `serializes` tells whether the frame can be serialized. */
    method WriteOne(room: nat, serializes: bool)
      requires writerUp && clientQueue != []
      modifies this`clientQueue, this`wire, this`writerUp
      ensures State() == Next(parses, old(State()), if serializes then Write(room) else WriteRefused)
      ensures var head := Encode(old(clientQueue)[0]);
              && clientQueue == old(clientQueue)[1..] && writerUp == (serializes && |head| <= room)
              && wire == old(wire) + if !serializes then [] else if |head| <= room then head else head[..room]
    {
      var bytes := Encode(clientQueue[0]);
      clientQueue := clientQueue[1..];
      if !serializes {
        writerUp := false;
        assert wire + [] == wire;
      } else if |bytes| <= room {
        wire := wire + bytes;
      } else {
        wire := wire + bytes[..room];
        writerUp := false;
      }
    }

    /** The writer pump until its queue is empty, a frame does not serialize, or the socket, which takes
        `room` more bytes, breaks: the stream gets the encoding of the queued frames up to the first that
        does not serialize, cut off where the socket broke. */
    method PumpWriter(room: nat, serializes: Bytes -> bool)
      requires writerUp
      modifies this`clientQueue, this`wire, this`writerUp
      ensures var good := Leading(old(clientQueue), serializes);
              var bytes := EncodeAll(good);
              && writerUp == (|bytes| <= room && good == old(clientQueue))
              && wire == old(wire) + (if |bytes| <= room then bytes else bytes[..room])
              && (writerUp ==> clientQueue == [])
    {
      ghost var bytes, done := EncodeAll(Leading(clientQueue, serializes)), [];
      var left := room;
      while writerUp && clientQueue != []
        invariant 0 <= left <= room
        invariant writerUp ==> |done| == room - left && bytes == done + EncodeAll(Leading(clientQueue, serializes))
        invariant writerUp ==> wire == old(wire) + done
        invariant writerUp ==> (Leading(clientQueue, serializes) == clientQueue
                                <==> Leading(old(clientQueue), serializes) == old(clientQueue))
        invariant !writerUp ==> |bytes| > room || Leading(old(clientQueue), serializes) != old(clientQueue)
        invariant !writerUp ==> wire == old(wire) + if |bytes| <= room then bytes else bytes[..room]
        decreases writerUp, |clientQueue|
      {
        var next := clientQueue[0];
        ghost var more := EncodeAll(Leading(clientQueue[1..], serializes));
        LeadingStep(clientQueue, serializes);
        WriteOne(left, serializes(next));
        if writerUp {
          Assoc(done, Encode(next), more);
          Assoc(old(wire), done, Encode(next));
          done := done + Encode(next);
          left := left - |Encode(next)|;
        } else if serializes(next) {
          CutBehind(done, Encode(next) + more, room);
          CutInside(Encode(next), more, left);
          Assoc(old(wire), done, Encode(next)[..left]);
        } else {
          assert bytes == done;
        }
      }
    }

    static lemma LeadingStep(frames: seq<Bytes>, ok: Bytes -> bool)
      requires frames != []
      ensures ok(frames[0]) ==> EncodeAll(Leading(frames, ok)) == Encode(frames[0]) + EncodeAll(Leading(frames[1..], ok))
      ensures ok(frames[0]) ==> (Leading(frames, ok) == frames <==> Leading(frames[1..], ok) == frames[1..])
      ensures !ok(frames[0]) ==> Leading(frames, ok) == [] && EncodeAll(Leading(frames, ok)) == []
    {
      if ok(frames[0]) {
        var longer := [frames[0]] + Leading(frames[1..], ok);
        assert longer[1..] == Leading(frames[1..], ok);
        assert frames == [frames[0]] + frames[1..];
      }
    }

    /** One turn of the reader pump on a whole frame, which may fail to deserialize. */
    method ReadOne()
      requires readerUp && Decode(wire).Some?
      modifies this`wire, this`inletQueue, this`readerUp
      ensures State() == Next(parses, old(State()), Read)
      ensures var (frame, rest) := Decode(old(wire)).value;
              && wire == rest && readerUp == (parses(frame) && |old(inletQueue)| < 128)
              && inletQueue == if readerUp then old(inletQueue) + [frame] else old(inletQueue)
    {
      var (frame, rest) := Decode(wire).value;
      wire := rest;
      if parses(frame) && |inletQueue| < INLET_CAPACITY {
        inletQueue := inletQueue + [frame];
      } else {
        readerUp := false;
      }
    }

    /** The reader pump until the wire holds no whole frame, a frame does not deserialize, or the inlet queue
        overflows: the inlet queue gets the frames of the stream in order, up to the first that does not
        deserialize, as far as there is room. */
    method PumpReader()
      requires readerUp && |inletQueue| <= INLET_CAPACITY
      modifies this`wire, this`inletQueue, this`readerUp
      ensures var frames := DecodeAll(old(wire)).0;
              var good, room := Leading(frames, parses), 128 - |old(inletQueue)|;
              && readerUp == (|frames| <= room && good == frames)
              && inletQueue == old(inletQueue) + (if |good| <= room then good else good[..room])
              && (readerUp ==> wire == DecodeAll(old(wire)).1)
    {
      ghost var frames := DecodeAll(wire).0;
      ghost var k := 0;
      while readerUp && Decode(wire).Some?
        invariant 0 <= k <= |frames| && |inletQueue| <= INLET_CAPACITY
        invariant inletQueue == old(inletQueue) + frames[..k]
        invariant forall i :: 0 <= i < k ==> parses(frames[i])
        invariant readerUp ==> DecodeAll(wire) == (frames[k..], DecodeAll(old(wire)).1)
        invariant !readerUp ==> k < |frames| && (parses(frames[k]) ==> |inletQueue| == INLET_CAPACITY)
        decreases readerUp, |wire|
      {
        ghost var frame, more := Decode(wire).value.0, DecodeAll(Decode(wire).value.1).0;
        assert frames[k..] == [frame] + more;
        assert frames[k] == frames[k..][0];
        ReadOne();
        if readerUp {
          assert frames[k + 1..] == frames[k..][1..] == more;
          assert frames[..k + 1] == frames[..k] + [frames[k]];
          k := k + 1;
        }
      }
      Pumped(frames, parses, k, INLET_CAPACITY - |old(inletQueue)|);
    }

    /** The first `k` frames are what a pump takes that stops where a frame fails or there is no more room. */
    static lemma Pumped(frames: seq<Bytes>, ok: Bytes -> bool, k: nat, room: nat)
      requires k <= |frames| && k <= room && forall i :: 0 <= i < k ==> ok(frames[i])
      requires k == |frames| || !ok(frames[k]) || k == room
      ensures var good := Leading(frames, ok);
              && frames[..k] == (if |good| <= room then good else good[..room])
              && (k == |frames| <==> |frames| <= room && good == frames)
    {
      LeadingUpTo(frames, ok, k);
      assert frames[..|frames|] == frames;
    }

    /** Frames that all pass lead, and no more than they if the next one fails. */
    static lemma {:induction false} LeadingUpTo(frames: seq<Bytes>, ok: Bytes -> bool, k: nat)
      requires k <= |frames| && forall i :: 0 <= i < k ==> ok(frames[i])
      ensures k <= |Leading(frames, ok)| && Leading(frames, ok)[..k] == frames[..k]
      ensures k == |frames| ==> Leading(frames, ok) == frames
      ensures k < |frames| && !ok(frames[k]) ==> Leading(frames, ok) == frames[..k]
    {
      if k > 0 {
        LeadingUpTo(frames[1..], ok, k - 1);
        assert frames == [frames[0]] + frames[1..];
        assert frames[..k] == [frames[0]] + frames[1..][..k - 1];
      }
    }

    /** One turn of the relay: `send` waits for room and fails only when the task is gone. */
    method RelayOne()
      requires inletQueue != [] && (taskUp ==> |callQueue| < CALL_CAPACITY)
      modifies this`inletQueue, this`callQueue
      ensures State() == Next(parses, old(State()), Relay)
      ensures inletQueue == old(inletQueue)[1..]
      ensures callQueue == if taskUp then old(callQueue) + [FrameIn(old(inletQueue)[0])] else old(callQueue)
    {
      var frame := inletQueue[0];
      inletQueue := inletQueue[1..];
      if taskUp {
        callQueue := callQueue + [FrameIn(frame)];
      }
    }

    /** One turn of the portal task. */
    method TakeCall() returns (call: Call)
      requires taskUp && callQueue != []
      modifies this`callQueue, this`processed
      ensures call == old(callQueue)[0] && callQueue == old(callQueue)[1..]
      ensures State() == Next(parses, old(State()), Process)
    {
      call := callQueue[0];
      callQueue := callQueue[1..];
      processed := processed + Carried(call);
    }
  }
}
