/** The grading side of the report stream: producers fill a buffer, and a reporter sends what is in it to
    the hub, over as many streams as it takes. Whatever breaks when, each report is sent once and in
    order. */
module SubmissionReporter {
  import opened Options
  import opened ReportMailbox

  /** Reports with container metadata are bookkeeping and do not go over the stream. */
  predicate IsMetadata(r: Report) {
    r.docker.Some?
  }

  function Streamed(reports: seq<Report>): seq<Report> {
    if reports == [] then []
    else if IsMetadata(reports[0]) then Streamed(reports[1..])
    else [reports[0]] + Streamed(reports[1..])
  }

  lemma {:induction false} StreamedConcat(a: seq<Report>, b: seq<Report>)
    ensures Streamed(a + b) == Streamed(a) + Streamed(b)
    decreases |a|
  {
    if a == [] {
      assert a + b == b;
    } else {
      assert (a + b)[1..] == a[1..] + b;
      StreamedConcat(a[1..], b);
    }
  }

  class ReportBuffer {
    var reports: seq<Report>
    var closed: bool
    /** Everything the buffer ever took in, and everything that was drained from it. */
    ghost var accepted: seq<Report>
    ghost var drained: seq<Report>

    ghost predicate Valid() reads this {
      drained + reports == accepted
    }

    constructor ()
      ensures Valid() && !closed && reports == [] && accepted == []
    {
      reports, closed, accepted, drained := [], false, [], [];
    }

    method Close()
      requires Valid()
      modifies `closed
      ensures Valid() && closed
    {
      closed := true;
    }

    /** What is sent after the close is dropped. */
    method Send(report: Report)
      requires Valid()
      modifies `reports, `accepted
      ensures Valid()
      ensures accepted == if closed then old(accepted) else old(accepted) + [report]
      ensures reports == if closed then old(reports) else old(reports) + [report]
    {
      if closed {
        return;
      }
      reports := reports + [report];
      accepted := accepted + [report];
      assert drained + reports == old(drained + reports) + [report];
    }

    /** What the producers do while the reporter waits. */
    method Arrive(arrivals: seq<Report>, closes: bool)
      requires Valid()
      modifies `reports, `accepted, `closed
      ensures Valid() && closed == (old(closed) || closes)
      ensures accepted == if old(closed) then old(accepted) else old(accepted) + arrivals
      ensures reports == if old(closed) then old(reports) else old(reports) + arrivals
    {
      for i := 0 to |arrivals|
        invariant Valid() && closed == old(closed)
        invariant accepted == if closed then old(accepted) else old(accepted) + arrivals[..i]
        invariant reports == if closed then old(reports) else old(reports) + arrivals[..i]
      {
        Send(arrivals[i]);
        assert arrivals[..i + 1] == arrivals[..i] + [arrivals[i]];
      }
      assert arrivals[..|arrivals|] == arrivals;
      if closes {
        Close();
      }
    }

    /** Everything that is there; the end, when the buffer is closed and empty; or a timeout. */
    method WaitAndDrain(arrivals: seq<Report>, closes: bool) returns (pending: seq<Report>, open: bool, timedOut: bool)
      requires Valid()
      modifies this
      ensures Valid() && reports == [] && drained == accepted == old(drained) + pending
      ensures closed == (old(closed) || closes)
      ensures pending == if old(closed) then old(reports) else old(reports) + arrivals
      ensures !open <==> closed && pending == []
      ensures timedOut <==> open && pending == []
    {
      Arrive(arrivals, closes);
      if |reports| == 0 {
        pending, open, timedOut := [], !closed, !closed;
        return;
      }
      pending, open, timedOut := reports, true, false;
      drained := drained + reports;
      reports := [];
    }
  }

  datatype Code = PermissionDenied | Unauthenticated | EndOfStream | OtherError

  /** How the world answers one interaction: with or without an error, and what the producers did
      meanwhile. */
  datatype Answer = Answer(error: Option<Code>, arrivals: seq<Report>, closes: bool)

  /** `Cut` means that the answers ran out: the run is not over yet. */
  datatype Sending = Sent | SendFailed(code: Code) | SendCut

  datatype Session = Retry | Stop | Cut

  predicate Permanent(code: Code) {
    code.PermissionDenied? || code.Unauthenticated?
  }

  // ---------- Scripts ----------

  /** What is left of a script. */
  ghost predicate Suffix(rest: seq<Answer>, script: seq<Answer>) {
    |rest| <= |script| && rest == script[|script| - |rest|..]
  }

  lemma SuffixTransitive(a: seq<Answer>, b: seq<Answer>, c: seq<Answer>)
    requires Suffix(a, b) && Suffix(b, c)
    ensures Suffix(a, c)
  {
  }

  lemma SuffixRest(rest: seq<Answer>, script: seq<Answer>)
    requires Suffix(rest, script) && rest != []
    ensures Suffix(rest[1..], script) && script[|script| - |rest|] == rest[0] && |rest| <= |script|
  {
  }

  lemma SuffixAt(a: seq<Answer>, b: seq<Answer>, c: seq<Answer>)
    requires Suffix(a, b) && Suffix(b, c) && |a| < |b|
    ensures Suffix(a, c) && |a| < |c| && c[|c| - |a| - 1] == b[|b| - |a| - 1]
  {
  }

  lemma SuffixSelf(script: seq<Answer>)
    ensures Suffix(script, script)
  {
  }

  lemma SuffixLength(rest: seq<Answer>, script: seq<Answer>)
    requires Suffix(rest, script)
    ensures |rest| <= |script|
  {
  }

  /** One of the answers is an error, and at most one more was used after it. */
  ghost predicate BrokeOff(script: seq<Answer>, left: nat) {
    exists i :: 0 <= i < |script| && script[i].error.Some? && |script| - left <= i + 2
  }

  /** One of the answers is a refusal for good. */
  ghost predicate Refuses(script: seq<Answer>) {
    exists i :: 0 <= i < |script| && script[i].error.Some? && Permanent(script[i].error.value)
  }

  /** The last answers of a script are all without an error. */
  ghost predicate EndsWell(script: seq<Answer>, tail: nat) {
    forall i :: 0 <= i < |script| && |script| - tail <= i ==> script[i].error.None?
  }

  /** Among the last answers of a script at most so many at its end come without an error. */
  ghost predicate GoodEndWithin(script: seq<Answer>, last: nat, most: int) {
    forall tail: nat :: tail <= last && EndsWell(script, tail) ==> tail <= most
  }

  /** A session that broke off has left no more than that. */
  lemma BrokenWithin(rest: seq<Answer>, script: seq<Answer>, last: nat, left: nat)
    requires Suffix(rest, script) && BrokeOff(rest, left) && GoodEndWithin(script, last, |rest| + 1)
    ensures GoodEndWithin(script, last, left + 1)
  {
    var i :| 0 <= i < |rest| && rest[i].error.Some? && |rest| - left <= i + 2;
    assert rest[i] == script[|script| - |rest| + i];
  }

  lemma Within(script: seq<Answer>, last: nat, most: int, more: int)
    requires (last <= more || GoodEndWithin(script, last, most)) && most <= more
    ensures GoodEndWithin(script, last, more)
  {
  }

  /** The answer that leaves so many behind it is one with which the buffer was closed. */
  ghost predicate ClosesAt(script: seq<Answer>, left: nat) {
    left < |script| && script[|script| - left - 1].closes
  }

  lemma ClosesBefore(rest: seq<Answer>, script: seq<Answer>, left: nat)
    requires Suffix(rest, script) && ClosesAt(rest, left)
    ensures ClosesAt(script, left)
  {
  }

  lemma ClosesWithin(script: seq<Answer>, left: nat)
    requires ClosesAt(script, left)
    ensures left < |script|
  {
  }

  lemma RefusedBefore(rest: seq<Answer>, script: seq<Answer>)
    requires Suffix(rest, script) && Refuses(rest)
    ensures Refuses(script)
  {
    var i :| 0 <= i < |rest| && rest[i].error.Some? && Permanent(rest[i].error.value);
    assert rest[i] == script[|script| - |rest| + i];
  }

  /** The status a stream was closed with, or else the error seen on this side. */
  function Status(closing: Answer, code: Code): Code {
    if closing.error.Some? then closing.error.value else code
  }

  class SubmissionReporter {
    const buffer: ReportBuffer
    /** Drained from the buffer but not sent yet. */
    var reports: seq<Report>
    /** The answers still to come. */
    var script: seq<Answer>
    /** The reports sent without an error, over all streams, without the probes. */
    ghost var delivered: seq<Report>
    /** The hub refused a stream for good. */
    ghost var refused: bool
    /** How many answers were left when the buffer was found closed. */
    ghost var left: nat

    ghost predicate Valid() reads this, buffer {
      && buffer.Valid()
      && delivered + Streamed(reports) == Streamed(buffer.drained)
      && |reports| <= |buffer.drained|
    }

    constructor (buffer: ReportBuffer, script: seq<Answer>)
      requires buffer.Valid() && buffer.drained == []
      ensures Valid() && this.buffer == buffer && this.script == script
      ensures delivered == [] && !refused
    {
      this.buffer, this.reports, this.script := buffer, [], script;
      this.delivered, this.refused, this.left := [], false, |script|;
    }

    /** Sent, retained and buffered together are what was accepted, in order: nothing is lost, sent
        twice or overtaken. */
    lemma Accounted()
      requires Valid()
      ensures delivered + Streamed(reports) + Streamed(buffer.reports) == Streamed(buffer.accepted)
    {
      StreamedConcat(buffer.drained, buffer.reports);
    }

    method Ask() returns (a: Answer)
      requires script != []
      modifies `script
      ensures a == old(script)[0] && script == old(script)[1..]
    {
      a := script[0];
      script := script[1..];
    }

    /** A probe is sent like any report, but it is none. */
    method SendReport(report: Report, ghost probe: bool) returns (outcome: Sending)
      modifies `script, `delivered
      ensures if IsMetadata(report) then outcome.Sent? && script == old(script)
              else if old(script) == [] then outcome.SendCut? && script == []
              else
                && script == old(script)[1..]
                && outcome == if old(script)[0].error.None? then Sent else SendFailed(old(script)[0].error.value)
      ensures delivered == if outcome.Sent? && !probe then old(delivered) + Streamed([report]) else old(delivered)
    {
      if report.docker.Some? {
        return Sent;
      }
      if script == [] {
        return SendCut;
      }
      var a := Ask();
      if a.error.Some? {
        return SendFailed(a.error.value);
      }
      if !probe {
        delivered := delivered + [report];
      }
      return Sent;
    }

    /** In order, until one fails; then that one and all behind it are kept. */
    method SendReports() returns (outcome: Sending, ghost done: nat)
      requires Valid()
      modifies `script, `delivered, `reports
      ensures Valid() && Suffix(script, old(script)) && done <= |old(reports)|
      ensures outcome.Sent? <==> done == |old(reports)|
      ensures reports == old(reports)[done..]
      ensures delivered == old(delivered) + Streamed(old(reports)[..done])
      ensures |old(script)| - |script| <= |old(reports)|
      ensures outcome.SendCut? ==> script == []
      ensures outcome.SendFailed? ==>
        |script| < |old(script)| && old(script)[|old(script)| - |script| - 1].error == Some(outcome.code)
    {
      var sent;
      outcome, sent := SendInOrder();
      done := sent;
      assert reports == reports[..sent] + reports[sent..];
      StreamedConcat(reports[..sent], reports[sent..]);
      reports := reports[sent..];
    }

    /** The loop: how many were sent before one failed. */
    method SendInOrder() returns (outcome: Sending, sent: nat)
      modifies `script, `delivered
      ensures Suffix(script, old(script)) && sent <= |reports| && (outcome.Sent? <==> sent == |reports|)
      ensures delivered == old(delivered) + Streamed(reports[..sent])
      ensures |old(script)| - |script| <= sent + if outcome.SendFailed? then 1 else 0
      ensures outcome.SendCut? ==> script == []
      ensures outcome.SendFailed? ==>
        |script| < |old(script)| && old(script)[|old(script)| - |script| - 1].error == Some(outcome.code)
    {
      assert Streamed(reports[..0]) == [];
      SuffixSelf(script);
      hide Streamed, Suffix;
      sent := 0;
      outcome := Sent;
      while sent < |reports|
        invariant 0 <= sent <= |reports| && outcome == Sent
        invariant Suffix(script, old(script)) && |old(script)| - |script| <= sent
        invariant delivered == old(delivered) + Streamed(reports[..sent])
      {
        if script != [] {
          SuffixRest(script, old(script));
        }
        outcome := SendReport(reports[sent], false);
        SuffixLength(script, old(script));
        if !outcome.Sent? {
          return;
        }
        assert reports[..sent + 1] == reports[..sent] + [reports[sent]];
        StreamedConcat(reports[..sent], [reports[sent]]);
        sent := sent + 1;
      }
    }

    method ShouldRetryCallback(code: Code) returns (retry: bool)
      modifies `refused
      ensures retry <==> !Permanent(code)
      ensures refused == (old(refused) || Permanent(code))
    {
      if code == PermissionDenied || code == Unauthenticated {
        refused := true;
        return false;
      }
      return true;
    }

    /** A failed send: the status with which the hub closed the stream counts, if there is one. */
    method AfterFailure(code: Code) returns (end: Session)
      modifies `script, `refused
      ensures script == if old(script) == [] then [] else old(script)[1..]
      ensures end == if old(script) == [] then Cut
                     else if Permanent(Status(old(script)[0], code)) then Stop else Retry
      ensures refused == (old(refused) || end.Stop?)
    {
      if script == [] {
        return Cut;
      }
      var a := Ask();
      var retry := ShouldRetryCallback(Status(a, code));
      return if retry then Retry else Stop;
    }

    /** Takes over what the buffer holds. */
    method TakePending(a: Answer) returns (open: bool, timedOut: bool)
      requires Valid() && reports == []
      modifies `reports, buffer
      ensures Valid()
      ensures !open ==> buffer.closed && buffer.reports == [] && reports == []
      ensures timedOut ==> reports == []
      ensures old(buffer.closed) ==> buffer.accepted == old(buffer.accepted)
      ensures old(buffer.closed) ==>
        buffer.closed && !timedOut && reports == old(buffer.reports) && buffer.reports == [] && (open <==> reports != [])
      ensures !old(buffer.closed) && buffer.closed ==> a.closes && !timedOut && buffer.reports == []
    {
      ghost var before := buffer.drained;
      var pending;
      pending, open, timedOut := buffer.WaitAndDrain(a.arrivals, a.closes);
      StreamedConcat(before, pending);
      reports := reports + pending;
      assert reports == pending;
    }

    /** The reports that are not sent yet. */
    ghost function Unsent(): nat reads this, buffer {
      |reports| + |buffer.reports|
    }

    /** One stream. It is cut short only when no answers are left; it asks for another one only after an
        error; and with the buffer closed it needs five answers more than there are reports, at most. */
    method ReportSession() returns (end: Session)
      requires Valid()
      modifies this, buffer
      ensures Valid() && Suffix(script, old(script)) && (end.Retry? ==> |script| < |old(script)|)
      ensures end.Stop? ==> refused || (buffer.closed && buffer.reports == [] && reports == [])
      ensures refused ==> old(refused) || (end.Stop? && Refuses(old(script)))
      ensures end.Cut? ==> |script| < 2
      ensures end.Retry? ==> BrokeOff(old(script), |script|)
      ensures old(buffer.closed) ==> buffer.closed && Unsent() <= old(Unsent()) && left == old(left)
      ensures old(buffer.closed) ==> buffer.accepted == old(buffer.accepted)
      ensures old(buffer.closed) && end.Cut? ==> |old(script)| < old(Unsent()) + 5
      ensures !old(buffer.closed) && buffer.closed ==>
        ClosesAt(old(script), left) && (end.Cut? ==> left < |buffer.accepted| + 5)
    {
      if |script| < 2 {
        return Cut;
      }
      var dial := Ask();
      if dial.error.Some? {
        assert old(script)[0].error.Some?;
        return Retry;
      }
      var stream := Ask();
      if stream.error.Some? {
        assert old(script)[1].error.Some?;
        var retry := ShouldRetryCallback(stream.error.value);
        return if retry then Retry else Stop;
      }
      hide BrokeOff, Refuses, Streamed, ClosesAt;
      var done := false;
      end := Cut;
      while !done
        invariant Valid() && Suffix(script, old(script)) && |script| <= |old(script)| - 2
        invariant !done ==> refused == old(refused)
        invariant done ==> Ended(old(script), end, old(refused))
        invariant old(buffer.closed) ==> buffer.closed && Unsent() <= old(Unsent()) && left == old(left)
        invariant old(buffer.closed) ==> buffer.accepted == old(buffer.accepted)
        invariant !old(buffer.closed) && buffer.closed ==> ClosesAt(old(script), left)
        invariant !old(buffer.closed) && buffer.closed && !done ==> left == |script| && buffer.reports == []
        invariant !old(buffer.closed) && buffer.closed && done && end.Cut? ==> left < |buffer.accepted| + 5
        invariant old(buffer.closed) && !done ==>
          || (Unsent() == old(Unsent()) && |reports| == |old(reports)| && |old(script)| - |script| <= 2)
          || (buffer.reports == [] && |reports| == |old(buffer.reports)| && |old(script)| - |script| <= 3 + |old(reports)|)
        invariant old(buffer.closed) && done && end.Cut? ==> |old(script)| < old(Unsent()) + 5
        decreases !done, |script|
      {
        done, end := Turn(old(script));
      }
    }

    /** How a session may end. */
    ghost predicate Ended(whole: seq<Answer>, end: Session, refusedBefore: bool) reads this, buffer {
      && (end.Stop? ==> refused || (buffer.closed && buffer.reports == [] && reports == []))
      && (refused ==> refusedBefore || (end.Stop? && Refuses(whole)))
      && (end.Cut? ==> |script| < 2)
      && (end.Retry? ==> BrokeOff(whole, |script|))
    }

    /** Everything retained is sent, and then what the buffer holds is taken over; or the session is done. */
    method Turn(ghost whole: seq<Answer>) returns (done: bool, end: Session)
      requires Valid() && Suffix(script, whole)
      modifies this, buffer
      ensures Valid() && Suffix(script, whole) && |script| <= |old(script)|
      ensures !done ==> |script| < |old(script)| && refused == old(refused)
      ensures done ==> Ended(whole, end, old(refused))
      ensures old(buffer.closed) ==> buffer.closed && Unsent() <= old(Unsent()) && left == old(left)
      ensures old(buffer.closed) ==> buffer.accepted == old(buffer.accepted)
      ensures old(buffer.closed) && !done ==>
        old(buffer.reports) != [] && buffer.reports == [] && reports == old(buffer.reports)
        && |old(script)| - |script| <= 1 + |old(reports)|
      ensures old(buffer.closed) && done && end.Cut? ==> |old(script)| <= 1 + |old(reports)|
      ensures !old(buffer.closed) && buffer.closed ==>
        ClosesAt(whole, left) && (if done then end.Cut? ==> left == 0 else left == |script| && buffer.reports == [])
    {
      SuffixLength(script, whole);
      hide BrokeOff, Refuses, Streamed, Suffix, ClosesAt;
      done, end := true, Cut;
      ghost var before := script;
      var outcome, sent := SendReports();
      SuffixTransitive(script, before, whole);
      SuffixLength(script, before);
      if outcome.SendFailed? {
        SuffixAt(script, before, whole);
        end := Broken(outcome.code, whole);
      } else if outcome.Sent? && script != [] {
        done, end := Await(whole);
      }
    }

    /** Nothing is retained: wait for reports, for the end, or for a probe to be due. */
    method Await(ghost whole: seq<Answer>) returns (done: bool, end: Session)
      requires Valid() && Suffix(script, whole) && reports == [] && script != []
      modifies this, buffer
      ensures Valid() && Suffix(script, whole) && |script| < |old(script)|
      ensures !done ==> refused == old(refused)
      ensures done ==> Ended(whole, end, old(refused))
      ensures old(buffer.closed) ==> buffer.closed && Unsent() <= old(Unsent()) && left == old(left)
      ensures old(buffer.closed) ==> buffer.accepted == old(buffer.accepted)
      ensures old(buffer.closed) && !done ==>
        old(buffer.reports) != [] && buffer.reports == [] && reports == old(buffer.reports) && |old(script)| - |script| <= 1
      ensures old(buffer.closed) && done && end.Cut? ==> |old(script)| <= 1
      ensures !old(buffer.closed) && buffer.closed ==>
        ClosesAt(whole, left) && (if done then end.Cut? ==> left == 0 else left == |script| && buffer.reports == [])
    {
      SuffixRest(script, whole);
      hide BrokeOff, Refuses, Streamed, Suffix;
      done, end := false, Cut;
      var a := Ask();
      var open, timedOut := TakePending(a);
      left := if buffer.closed && !old(buffer.closed) then |script| else left;
      if !open {
        done := true;
        end := Finish(whole);
      } else if timedOut {
        done, end := Probe(whole);
      }
    }

    /** A probe of a stream on which nothing happens. */
    method Probe(ghost whole: seq<Answer>) returns (done: bool, end: Session)
      requires Valid() && Suffix(script, whole)
      modifies `script, `delivered, `refused
      ensures Valid() && Suffix(script, whole) && |script| <= |old(script)|
      ensures !done ==> refused == old(refused)
      ensures done ==> !end.Stop? || refused
      ensures done ==> Ended(whole, end, old(refused))
    {
      done, end := true, Cut;
      ghost var i := |whole| - |script|;
      assert script != [] ==> script[0] == whole[i];
      var outcome := SendReport(EMPTY, true);
      if outcome.SendFailed? {
        end := Broken(outcome.code, whole);
        return;
      }
      done := outcome.SendCut?;
    }

    /** A send failed with the last answer. */
    method Broken(code: Code, ghost whole: seq<Answer>) returns (end: Session)
      requires Suffix(script, whole) && |script| < |whole| && whole[|whole| - |script| - 1].error == Some(code)
      modifies `script, `refused
      ensures Suffix(script, whole) && |script| <= |old(script)|
      ensures end.Cut? ==> old(script) == [] && script == []
      ensures end.Retry? ==> BrokeOff(whole, |script|) && refused == old(refused)
      ensures end.Stop? ==> refused && Refuses(whole)
      ensures end.Cut? ==> refused == old(refused)
    {
      ghost var i := |whole| - |script| - 1;
      assert whole[i].error.Some?;
      assert script != [] ==> script[0] == whole[i + 1];
      end := AfterFailure(code);
      assert end.Retry? ==> |whole| - |script| <= i + 2;
    }

    /** The buffer is closed and everything is sent: the stream ends well unless the hub says otherwise. */
    method Finish(ghost whole: seq<Answer>) returns (end: Session)
      requires Suffix(script, whole)
      modifies `script, `refused
      ensures script == if old(script) == [] then [] else old(script)[1..]
      ensures end == if old(script) == [] then Cut
                     else if old(script)[0].error in {None, Some(EndOfStream), Some(PermissionDenied), Some(Unauthenticated)} then Stop
                     else Retry
      ensures refused == (old(refused) || (old(script) != [] && old(script)[0].error in {Some(PermissionDenied), Some(Unauthenticated)}))
      ensures Suffix(script, whole) && (end.Retry? ==> BrokeOff(whole, |script|))
      ensures refused && !old(refused) ==> Refuses(whole)
    {
      if script == [] {
        return Cut;
      }
      ghost var i := |whole| - |script|;
      assert script[0] == whole[i];
      var a := Ask();
      if a.error.Some? && a.error.value != EndOfStream {
        assert whole[i].error.Some? && |whole| - |script| <= i + 2;
        var retry := ShouldRetryCallback(a.error.value);
        return if retry then Retry else Stop;
      }
      return Stop;
    }

    /** The reporter goes on until the hub refuses for good or everything is sent: it stops without a
        refusal only when the buffer is closed and every report it ever accepted was sent once, in
        order. It does not give up before the answers run out. And once the buffer is closed, and unless
        the hub refuses for good, however often the connection breaks: a good end of the script with six
        answers more than there are reports is enough for it to stop with everything sent. */
    method Run() returns (end: Session)
      requires Valid() && !refused
      modifies this, buffer
      ensures Valid() && !end.Retry?
      ensures end.Stop? && !refused ==>
        buffer.closed && buffer.reports == [] && reports == [] && delivered == Streamed(buffer.accepted)
      ensures refused ==> end.Stop? && Refuses(old(script))
      ensures end.Cut? ==> |script| < 2
      ensures if old(buffer.closed) then left == |old(script)| else buffer.closed ==> ClosesAt(old(script), left)
      ensures end.Cut? && buffer.closed ==> GoodEndWithin(old(script), left, |buffer.accepted| + 5)
    {
      left := |script|;
      SuffixSelf(script);
      Within(script, left, |script|, |script| + 1);
      hide EndsWell, GoodEndWithin, BrokeOff, Refuses, ClosesAt, Suffix, Streamed;
      while true
        invariant Valid() && !refused && Suffix(script, old(script))
        invariant old(buffer.closed) ==> buffer.closed && left == |old(script)|
        invariant !old(buffer.closed) && buffer.closed ==> ClosesAt(old(script), left)
        invariant buffer.closed ==> GoodEndWithin(old(script), left, |script| + 1)
        decreases |script|
      {
        ghost var before, was := script, buffer.closed;
        end := ReportSession();
        SuffixTransitive(script, before, old(script));
        if !was && buffer.closed {
          ClosesBefore(before, old(script), left);
          ClosesWithin(before, left);
          Within(old(script), left, |before|, |before| + 1);
        }
        if !end.Retry? {
          if refused {
            RefusedBefore(before, old(script));
          } else if end.Stop? {
            Accounted();
            assert delivered == Streamed(buffer.accepted);
          } else if buffer.closed {
            Within(old(script), left, if was then |before| + 1 else left, |buffer.accepted| + 5);
          }
          return;
        }
        if buffer.closed {
          BrokenWithin(before, old(script), left, |script|);
        }
      }
    }
  }
}
