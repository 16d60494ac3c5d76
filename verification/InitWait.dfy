/** `Portal::init`: the wait for a Ready or Panic status, and the guard against a second init. */
module InitWait {
  import opened Outcomes
  import opened Messages

  /** What one receive on the status stream can give. */
  datatype Reception = Got(status: Status) | Broken | TimedOut

  datatype Report = ReportReady | ReportFailure

  /** Does the loop end on this reception? Two receptions make one turn of the loop, and of a turn only
      the second status is looked at. */
  predicate Decisive(stream: seq<Reception>, i: nat)
    requires i < |stream|
  {
    match stream[i]
    case Broken => true
    case TimedOut => true
    case Got(status) => i % 2 == 1 && (status.Ready? || status.Panicked?)
  }

  function ReportOf(reception: Reception): Report {
    if reception == Got(Ready) then ReportReady else ReportFailure
  }

  /** `i` is the first reception the loop ends on. */
  ghost predicate FirstDecisive(stream: seq<Reception>, i: nat) {
    i < |stream| && Decisive(stream, i) && forall j :: 0 <= j < i ==> !Decisive(stream, j)
  }

  /** Only the first receive of a turn is timed, and only with a positive timeout. */
  predicate Timed(stream: seq<Reception>, initTimeout: nat) {
    forall i :: 0 <= i < |stream| && stream[i].TimedOut? ==> initTimeout > 0 && i % 2 == 0
  }

  /** The waiting loop on what the stream has given so far; no report means it still waits. It reports once
      at most, on the first reception that is decisive. */
  method Await(stream: seq<Reception>, initTimeout: nat) returns (report: Option<Report>)
    requires Timed(stream, initTimeout)
    ensures report.None? <==> forall i :: 0 <= i < |stream| ==> !Decisive(stream, i)
    ensures forall i: nat :: FirstDecisive(stream, i) ==> report == Some(ReportOf(stream[i]))
  {
    var next := 0;
    while next + 1 < |stream|
      invariant next % 2 == 0 && next <= |stream|
      invariant forall i :: 0 <= i < next ==> !Decisive(stream, i)
    {
      if !stream[next].Got? {
        assert FirstDecisive(stream, next);
        return Some(ReportFailure);
      }
      if stream[next + 1].Broken? {
        assert FirstDecisive(stream, next + 1);
        return Some(ReportFailure);
      }
      var status := stream[next + 1].status;
      if status.Ready? {
        assert FirstDecisive(stream, next + 1);
        return Some(ReportReady);
      }
      if status.Panicked? {
        assert FirstDecisive(stream, next + 1);
        return Some(ReportFailure);
      }
      next := next + 2;
    }
    if next < |stream| && !stream[next].Got? {
      assert FirstDecisive(stream, next);
      return Some(ReportFailure);
    }
    report := None;
  }

  /** The first status of a turn is never looked at: however it reads, a stream that gave another one in its
      place would be decided alike, and a Ready there goes unseen. */
  lemma FirstOfTurnUnseen(stream: seq<Reception>, i: nat, status: Status)
    requires i < |stream| && i % 2 == 0 && stream[i].Got?
    ensures !Decisive(stream, i)
    ensures forall j: nat :: FirstDecisive(stream[i := Got(status)], j) <==> FirstDecisive(stream, j)
    ensures forall j: nat :: FirstDecisive(stream, j) ==> stream[i := Got(status)][j] == stream[j]
  {
    var other := stream[i := Got(status)];
    assert forall j :: 0 <= j < |stream| ==> Decisive(other, j) == Decisive(stream, j);
    forall j: nat ensures FirstDecisive(other, j) <==> FirstDecisive(stream, j) {
      assert FirstDecisive(other, j) <==> FirstDecisive(stream, j);
    }
  }

  /** On an unbroken stream without panics the wait ends in success exactly when some Ready comes in an
      even-numbered reception. */
  lemma ReadySeen(stream: seq<Reception>)
    requires forall i :: 0 <= i < |stream| ==> stream[i].Got? && !stream[i].status.Panicked?
    ensures (exists i: nat :: FirstDecisive(stream, i) && ReportOf(stream[i]) == ReportReady) <==>
            exists i :: 0 <= i < |stream| && i % 2 == 1 && stream[i] == Got(Ready)
  {
    if i :| 0 <= i < |stream| && i % 2 == 1 && stream[i] == Got(Ready) {
      var k := Least(stream, i);
      assert FirstDecisive(stream, k) && ReportOf(stream[k]) == ReportReady;
    }
    if i: nat :| FirstDecisive(stream, i) && ReportOf(stream[i]) == ReportReady {
      assert i % 2 == 1 && stream[i] == Got(Ready);
    }
  }

  /** Nothing is seen in front of `i`: no failure of the stream, and in second position of a turn neither Ready
      nor Panic. */
  predicate QuietUpTo(stream: seq<Reception>, i: nat) {
    i <= |stream| && forall j :: 0 <= j < i ==>
      stream[j].Got? && (j % 2 == 1 ==> !stream[j].status.Ready? && !stream[j].status.Panicked?)
  }

  /** On any stream the wait ends in success exactly at a Ready in second position, and in failure exactly at a
      Panic there or at a failure of the stream anywhere, with nothing seen in front. */
  lemma EndsExactly(stream: seq<Reception>, i: nat, report: Report)
    ensures FirstDecisive(stream, i) && ReportOf(stream[i]) == report <==>
            && i < |stream| && QuietUpTo(stream, i)
            && match report
               case ReportReady => i % 2 == 1 && stream[i] == Got(Ready)
               case ReportFailure => !stream[i].Got? || (i % 2 == 1 && stream[i].status.Panicked?)
  {
    if i < |stream| {
      forall j | 0 <= j < i
        ensures !Decisive(stream, j) <==>
                stream[j].Got? && (j % 2 == 1 ==> !stream[j].status.Ready? && !stream[j].status.Panicked?)
      {}
      assert QuietUpTo(stream, i) <==> forall j :: 0 <= j < i ==> !Decisive(stream, j);
    }
  }

  /** Does this reception say how the init went: Ready, Panic, or that nothing more is to come? */
  predicate Telling(reception: Reception) {
    reception.Got? ==> reception.status.Ready? || reception.status.Panicked?
  }

  /** Does the loop look at what this reception says? */
  predicate LookedAt(stream: seq<Reception>, i: nat)
    requires i < |stream|
  {
    i % 2 == 1 || !stream[i].Got?
  }

  /** The loop goes by the first reception that tells, a Ready, a Panic or a failure of the stream, however
      the stream goes on, exactly when that reception is one the loop looks at: a failure, or a status in
      second position of a turn. One in first position can be belied by the next reception. */
  lemma FirstTellingDecides(stream: seq<Reception>)
    requires stream != [] && Telling(stream[|stream| - 1])
    requires forall i :: 0 <= i < |stream| - 1 ==> !Telling(stream[i])
    ensures (forall more, d: nat :: FirstDecisive(stream + more, d) ==>
               ReportOf((stream + more)[d]) == ReportOf(stream[|stream| - 1]))
            <==> LookedAt(stream, |stream| - 1)
  {
    var f := |stream| - 1;
    if LookedAt(stream, f) {
      forall more, d: nat | FirstDecisive(stream + more, d)
        ensures ReportOf((stream + more)[d]) == ReportOf(stream[f])
      {
        assert (stream + more)[f] == stream[f] && Decisive(stream + more, f);
        assert d <= f && (stream + more)[d] == stream[d];
      }
    } else {
      var belied := if stream[f] == Got(Ready) then Broken else Got(Ready);
      var longer := stream + [belied];
      assert longer[f] == stream[f] && longer[f + 1] == belied;
      assert forall i :: 0 <= i < f ==> longer[i] == stream[i];
      assert FirstDecisive(longer, f + 1);
      assert ReportOf(longer[f + 1]) != ReportOf(stream[f]);
    }
  }

  lemma {:induction false} Least(stream: seq<Reception>, i: nat) returns (k: nat)
    requires i < |stream| && Decisive(stream, i)
    ensures k <= i && FirstDecisive(stream, k)
  {
    if j :| 0 <= j < i && Decisive(stream, j) {
      k := Least(stream, j);
    } else {
      k := i;
    }
  }

  datatype PortalStatus = NotInit | InitStarted | InitPanicked

  /** The server portal as far as `init` goes. */
  class InitGate {
    var status: PortalStatus
    var outlet: seq<OutletFrame>
    const info: Info

    constructor (info: Info)
      ensures status == NotInit && outlet == [] && this.info == info
    {
      status, outlet := NotInit, [];
      this.info := info;
    }

    /** `init`: refused once the status has left its initial value, which it never takes again. A wait that
        fails ends in panic and a Close frame; one that succeeds leaves the status as it is. */
    method Init(stream: seq<Reception>, initTimeout: nat, room: bool, roomForClose: bool) returns (ok: Option<bool>)
      requires Timed(stream, initTimeout)
      modifies this`status, this`outlet
      ensures status != NotInit
      ensures old(status) != NotInit ==> ok == Some(false) && status == old(status) && outlet == old(outlet)
      ensures old(status) == NotInit && !room ==> ok == Some(false) && status == InitStarted && outlet == old(outlet)
      ensures old(status) == NotInit && room ==>
                && outlet == old(outlet) + [OutInit(info)] + (if ok == Some(false) && roomForClose then [OutClose] else [])
                && status == (if ok == Some(false) then InitPanicked else InitStarted)
                && (ok.None? <==> forall i :: 0 <= i < |stream| ==> !Decisive(stream, i))
                && (forall i: nat :: FirstDecisive(stream, i) ==> ok == Some(ReportOf(stream[i]) == ReportReady))
    {
      if status != NotInit {
        return Some(false);
      }
      status := InitStarted;
      if !room {
        return Some(false);
      }
      outlet := outlet + [OutInit(info)];
      var report := Await(stream, initTimeout);
      match report {
        case None => ok := None;
        case Some(ReportReady) => ok := Some(true);
        case Some(ReportFailure) =>
          status := InitPanicked;
          if roomForClose {
            outlet := outlet + [OutClose];
          }
          ok := Some(false);
      }
    }
  }
}
