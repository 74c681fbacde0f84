/** One client follows one submission while any number of hub threads persist, publish and finish. Every
    interleaving of their steps is a run: a client is never left waiting after the submission was
    finished, and a stream that ends on its own ends with the final status. */
module SubmissionStream {
  import opened Options
  import opened SubmissionStatus
  import opened ReportMailbox

  /** Where SubscribeSubmission is. A stream that ended because of an error or because the client went
      away did not end on its own. */
  datatype Client =
    | Away
    | Subscribed
    | HasRead(first: Status)
    | Waiting
    | SawEnd
    | HasFinal(last: Status)
    | Ended(onItsOwn: bool)

  /** Where a thread of the hub is that has something to tell about the submission. `included` tells
      whether the client's mailbox is in its copy of the list. */
  datatype Thread =
    | Persisted(report: Report)
    | Sending(report: Report, included: bool)
    | Finishing
    | Closing(included: bool)
    | Done

  /** `over` remembers that a terminal brief was persisted. */
  datatype Stream = Stream(
    brief: Option<Brief>,
    over: bool,
    threads: seq<Thread>,
    registered: bool,
    slot: Option<Report>,
    closed: bool,
    client: Client,
    sent: seq<Status>)

  const START := Stream(None, false, [], false, None, false, Away, [])

  datatype Event =
    // the hub
    | Start(report: Report)
    | RunSubmission
    | Advance(thread: nat)
    // the client's stream; `ok` tells whether the read or the send succeeds
    | Subscribe
    | ReadBrief(ok: bool)
    | SendFirst(ok: bool)
    | Receive(ok: bool)
    | Disconnect
    | ReadFinal(ok: bool)
    | SendFinal(ok: bool)

  predicate Over(brief: Option<Brief>) {
    brief.Some? && Terminal(brief.value.status)
  }

  /** The status of a brief that was never written reads as Queued. */
  function StatusOf(brief: Option<Brief>): Status {
    if brief.Some? then brief.value.status else Queued
  }

  predicate Can(s: Stream, e: Event) {
    match e
    case Start(_) => true
    case RunSubmission => true
    case Advance(i) => i < |s.threads| && !s.threads[i].Done?
    case Subscribe => s.client.Away?
    case ReadBrief(_) => s.client.Subscribed?
    case SendFirst(_) => s.client.HasRead?
    case Receive(_) => s.client.Waiting? && (s.slot.Some? || s.closed)
    case Disconnect => s.client.Waiting?
    case ReadFinal(ok) => s.client.SawEnd? && (ok ==> s.brief.Some?)
    case SendFinal(_) => s.client.HasFinal?
  }

  function After(s: Stream, e: Event): Stream
    requires Can(s, e)
  {
    match e
    case Start(r) => Write(s, r.brief).(threads := s.threads + [Persisted(r)])
    case RunSubmission => Write(s, Some(Brief(Queued, 0, 0)))
    case Advance(i) => AdvanceThread(s, i)
    case Subscribe => s.(registered := true, client := Subscribed)
    case ReadBrief(ok) => if ok then s.(client := HasRead(StatusOf(s.brief))) else End(s, false)
    case SendFirst(ok) =>
      if !ok then End(s, false)
      else if Terminal(s.client.first) then End(s.(sent := s.sent + [s.client.first]), true)
      else s.(sent := s.sent + [s.client.first], client := Waiting)
    case Receive(ok) => if s.slot.None? then s.(client := SawEnd) else Relay(s.(slot := None), s.slot.value, ok)
    case Disconnect => End(s, false)
    case ReadFinal(ok) => if ok then s.(client := HasFinal(StatusOf(s.brief))) else End(s, false)
    case SendFinal(ok) => if ok then End(s.(sent := s.sent + [s.client.last]), true) else End(s, false)
  }

  function Write(s: Stream, brief: Option<Brief>): Stream {
    if brief.None? then s else s.(brief := brief, over := s.over || Over(brief))
  }

  /** The stream ends and unsubscribes. */
  function End(s: Stream, onItsOwn: bool): Stream {
    s.(registered := false, closed := true, client := Ended(onItsOwn))
  }

  /** A report is passed on, unless it says nothing about status or rank. A rank alone means that the
      submission is queued. */
  function Relay(s: Stream, r: Report, ok: bool): Stream {
    if r.brief.None? && r.rank.None? then s
    else if !ok then End(s, false)
    else
      var n := s.(sent := s.sent + [StatusOf(r.brief)]);
      if Over(r.brief) then End(n, true) else n
  }

  /** Copy the list of mailboxes; publish to them; after a terminal brief take the list away; close. */
  function AdvanceThread(s: Stream, i: nat): Stream
    requires i < |s.threads|
  {
    match s.threads[i]
    case Persisted(r) => s.(threads := s.threads[i := Sending(r, s.registered)])
    case Sending(r, included) =>
      s.(threads := s.threads[i := if Over(r.brief) then Finishing else Done],
         slot := if included && !s.closed then Some(Put(s.slot, r)) else s.slot)
    case Finishing => s.(threads := s.threads[i := Closing(s.registered)], registered := false)
    case Closing(included) => s.(threads := s.threads[i := Done], closed := s.closed || included)
    case Done => s
  }

  // ---------- Never left waiting ----------

  /** The client relies on the mailbox to learn how the submission ends. */
  predicate Relies(s: Stream) {
    s.client.Waiting? || (s.client.HasRead? && !Terminal(s.client.first))
  }

  predicate Listening(s: Stream) {
    s.client.Subscribed? || s.client.HasRead? || s.client.Waiting?
  }

  /** The thread is going to take the list and close what is on it. */
  predicate WillClose(t: Thread) {
    match t
    case Persisted(r) => Over(r.brief)
    case Sending(r, _) => Over(r.brief)
    case Finishing => true
    case Closing(included) => included
    case Done => false
  }

  ghost predicate Attended(s: Stream) {
    && (Listening(s) && !s.closed && !s.registered ==> exists i :: 0 <= i < |s.threads| && s.threads[i] == Closing(true))
    && (Relies(s) && !s.closed && Over(s.brief) ==> exists i :: 0 <= i < |s.threads| && WillClose(s.threads[i]))
    && (s.client.Away? ==> !s.closed && !s.registered && s.slot.None? && forall i :: 0 <= i < |s.threads| ==> !Included(s.threads[i]))
  }

  predicate Included(t: Thread) {
    (t.Sending? || t.Closing?) && t.included
  }

  lemma AdvanceAttended(s: Stream, i: nat)
    requires Attended(s) && i < |s.threads|
    ensures Attended(AdvanceThread(s, i))
  {
    var n := AdvanceThread(s, i);
    assert n.threads != s.threads ==> forall k :: 0 <= k < |s.threads| && k != i ==> n.threads[k] == s.threads[k];
    if Listening(s) && !s.closed && !s.registered {
      var k :| 0 <= k < |s.threads| && s.threads[k] == Closing(true);
      assert n.closed || n.threads[k] == Closing(true);
    } else if s.threads[i].Finishing? {
      assert n.threads[i] == Closing(s.registered);
    }
    if Relies(s) && !s.closed && Over(s.brief) {
      var k :| 0 <= k < |s.threads| && WillClose(s.threads[k]);
      if n.threads[i].Closing? && !s.registered {
        assert exists l :: 0 <= l < |n.threads| && n.threads[l] == Closing(true);
      } else {
        assert n.closed || WillClose(n.threads[k]);
      }
    }
  }

  lemma StartAttended(s: Stream, r: Report)
    requires Attended(s)
    ensures Attended(After(s, Start(r)))
  {
    var n := After(s, Start(r));
    assert forall k :: 0 <= k < |s.threads| ==> n.threads[k] == s.threads[k];
    assert n.threads[|s.threads|] == Persisted(r);
  }

  lemma EventAttended(s: Stream, e: Event)
    requires Attended(s) && Can(s, e)
    ensures Attended(After(s, e))
  {
    match e
    case Start(r) => StartAttended(s, r);
    case Advance(i) => AdvanceAttended(s, i);
    case _ =>
  }

  // ---------- The end is final ----------

  /** After a terminal brief was persisted the brief stays terminal, and it was persisted before anything
      is closed. */
  ghost predicate Final(s: Stream) {
    && (s.over ==> Over(s.brief))
    && (forall i :: 0 <= i < |s.threads| && (WillClose(s.threads[i]) || s.threads[i].Closing?) ==> s.over)
    && (s.closed && !s.client.Ended? ==> s.over)
    && (s.client.SawEnd? ==> s.over)
    && (s.client.HasFinal? ==> Terminal(s.client.last))
    && (s.client == Ended(true) ==> s.sent != [] && Terminal(s.sent[|s.sent| - 1]))
  }

  /** Nothing but a terminal brief is written after a terminal brief: no regrade, no late report, no late
      request to cancel. */
  predicate Settled(s: Stream, e: Event) {
    match e
    case Start(r) => s.over && r.brief.Some? ==> Over(r.brief)
    case RunSubmission => !s.over
    case _ => true
  }

  lemma AdvanceFinal(s: Stream, i: nat)
    requires Final(s) && i < |s.threads|
    ensures Final(AdvanceThread(s, i))
  {
    var n := AdvanceThread(s, i);
    forall k | 0 <= k < |n.threads| && (WillClose(n.threads[k]) || n.threads[k].Closing?) ensures s.over {
      assert WillClose(s.threads[k]) || s.threads[k].Closing?;
    }
  }

  /** The exact condition. */
  lemma EventFinal(s: Stream, e: Event)
    requires Final(s) && Can(s, e)
    ensures Final(After(s, e)) <==> Settled(s, e)
  {
    match e
    case Start(r) =>
      var n := After(s, e);
      if Settled(s, e) {
        forall k | 0 <= k < |n.threads| && (WillClose(n.threads[k]) || n.threads[k].Closing?) ensures n.over {
          if k < |s.threads| {
            assert n.threads[k] == s.threads[k];
          }
        }
      }
    case Advance(i) => AdvanceFinal(s, i);
    case _ =>
  }

  // ---------- Runs ----------

  ghost predicate Path(ss: seq<Stream>, events: seq<Event>) {
    && |ss| == |events| + 1
    && (forall i :: 0 <= i < |events| ==> Can(ss[i], events[i]) && ss[i + 1] == After(ss[i], events[i]))
  }

  ghost predicate IsRun(ss: seq<Stream>, events: seq<Event>) {
    Path(ss, events) && ss[0] == START
  }

  /** A run leads from one state to another. */
  ghost predicate LeadsTo(s: Stream, n: Stream) {
    exists ss: seq<Stream>, events: seq<Event> :: Path(ss, events) && ss[0] == s && ss[|events|] == n
  }

  lemma LeadsToItself(s: Stream)
    ensures LeadsTo(s, s)
  {
    var ss, events: seq<Event> := [s], [];
    assert Path(ss, events) && ss[0] == s && ss[|events|] == s;
  }

  lemma LeadsOn(s: Stream, n: Stream, e: Event)
    requires LeadsTo(s, n) && Can(n, e)
    ensures LeadsTo(s, After(n, e))
  {
    hide After, Can;
    var ss: seq<Stream>, events: seq<Event> :| Path(ss, events) && ss[0] == s && ss[|events|] == n;
    var ss', events' := ss + [After(n, e)], events + [e];
    forall i | 0 <= i < |events'| ensures Can(ss'[i], events'[i]) && ss'[i + 1] == After(ss'[i], events'[i]) {
      if i < |events| {
        assert ss'[i] == ss[i] && ss'[i + 1] == ss[i + 1] && events'[i] == events[i];
      }
    }
    assert Path(ss', events') && ss'[0] == s && ss'[|events'|] == After(n, e);
  }

  lemma {:induction false} RunAttended(ss: seq<Stream>, events: seq<Event>, i: nat)
    requires IsRun(ss, events) && i < |ss|
    ensures Attended(ss[i])
  {
    hide After, Can;
    if i > 0 {
      RunAttended(ss, events, i - 1);
      EventAttended(ss[i - 1], events[i - 1]);
    }
  }

  /** A client that waits on an open mailbox means that the hub has not completed finishing the
      submission: it is not over yet, or a thread is still going to close the mailbox. It holds in every
      state of every run, whatever is written when. */
  lemma NeverLeftWaiting(ss: seq<Stream>, events: seq<Event>, i: nat)
    requires IsRun(ss, events) && i < |ss|
    requires ss[i].client.Waiting? && !ss[i].closed && Over(ss[i].brief)
    ensures exists k :: 0 <= k < |ss[i].threads| && WillClose(ss[i].threads[k])
  {
    RunAttended(ss, events, i);
  }

  lemma {:induction false} SettledRunFinal(ss: seq<Stream>, events: seq<Event>, i: nat)
    requires IsRun(ss, events) && i < |ss|
    requires forall k :: 0 <= k < i ==> Settled(ss[k], events[k])
    ensures Final(ss[i])
  {
    hide After, Can, Settled;
    if i > 0 {
      SettledRunFinal(ss, events, i - 1);
      EventFinal(ss[i - 1], events[i - 1]);
    }
  }

  /** The brief stays final throughout a run if and only if every write of the run is settled. */
  lemma RunFinal(ss: seq<Stream>, events: seq<Event>)
    requires IsRun(ss, events)
    ensures (forall i :: 0 <= i < |ss| ==> Final(ss[i])) <==> (forall i :: 0 <= i < |events| ==> Settled(ss[i], events[i]))
  {
    hide After, Can, Settled, Final;
    if forall i :: 0 <= i < |events| ==> Settled(ss[i], events[i]) {
      forall i | 0 <= i < |ss| ensures Final(ss[i]) { SettledRunFinal(ss, events, i); }
    }
    if forall i :: 0 <= i < |ss| ==> Final(ss[i]) {
      forall i | 0 <= i < |events| ensures Settled(ss[i], events[i]) {
        assert ss[i + 1] == After(ss[i], events[i]);
        EventFinal(ss[i], events[i]);
      }
    }
  }

  /** A stream that ends on its own ends with a terminal status. */
  lemma EndsWithTerminalStatus(ss: seq<Stream>, events: seq<Event>, i: nat)
    requires IsRun(ss, events) && i < |ss| && ss[i].client == Ended(true)
    requires forall k :: 0 <= k < i ==> Settled(ss[k], events[k])
    ensures ss[i].sent != [] && Terminal(ss[i].sent[|ss[i].sent| - 1])
  {
    SettledRunFinal(ss, events, i);
  }

  const FINISHED := Report(None, Some(Brief(Finished, 1, 1)), None, None)
  const CANCELLING := Report(None, Some(Brief(Cancelling, 0, 0)), None, None)

  /** A client waits; a grader reports the end, and at once a request to cancel writes Cancelling. Both
      reports are in the slot, merged. */
  lemma BothPublished() returns (s: Stream)
    ensures LeadsTo(START, s)
    ensures s == Stream(CANCELLING.brief, true, [Finishing, Done], true, Some(CANCELLING), false, Waiting, [Queued])
  {
    hide LeadsTo;
    LeadsToItself(START);
    LeadsOn(START, START, Subscribe);
    var s1 := After(START, Subscribe);
    LeadsOn(START, s1, ReadBrief(true));
    var s2 := After(s1, ReadBrief(true));
    LeadsOn(START, s2, SendFirst(true));
    var s3 := After(s2, SendFirst(true));
    LeadsOn(START, s3, Start(FINISHED));
    var s4 := After(s3, Start(FINISHED));
    LeadsOn(START, s4, Start(CANCELLING));
    var s5 := After(s4, Start(CANCELLING));
    assert s5.threads == [Persisted(FINISHED), Persisted(CANCELLING)];
    s := s5;
    for k := 0 to 4
      invariant LeadsTo(START, s) && s.(threads := [], slot := None) == s5.(threads := [], slot := None)
      invariant k == 0 ==> s == s5
      invariant k == 1 ==> s.threads == [Sending(FINISHED, true), Persisted(CANCELLING)] && s.slot == None
      invariant k == 2 ==> s.threads == [Finishing, Persisted(CANCELLING)] && s.slot == Some(FINISHED)
      invariant k == 3 ==> s.threads == [Finishing, Sending(CANCELLING, true)] && s.slot == Some(FINISHED)
      invariant k == 4 ==> s.threads == [Finishing, Done] && s.slot == Some(CANCELLING)
    {
      LeadsOn(START, s, Advance(k / 2));
      s := After(s, Advance(k / 2));
    }
  }

  /** Without that condition it may not: a late request to cancel overwrites the final brief, and the
      stream ends on its own with the status Cancelling. */
  lemma LateCancelEndsUnfinished()
    ensures exists s :: LeadsTo(START, s) && s.client == Ended(true) && s.sent == [Queued, Cancelling, Cancelling]
  {
    hide LeadsTo;
    var s := BothPublished();
    LeadsOn(START, s, Advance(0));
    var s1 := After(s, Advance(0));
    LeadsOn(START, s1, Advance(0));
    var s2 := After(s1, Advance(0));
    LeadsOn(START, s2, Receive(true));
    var s3 := After(s2, Receive(true));
    LeadsOn(START, s3, Receive(true));
    var s4 := After(s3, Receive(true));
    LeadsOn(START, s4, ReadFinal(true));
    var s5 := After(s4, ReadFinal(true));
    LeadsOn(START, s5, SendFinal(true));
    var s6 := After(s5, SendFinal(true));
    assert s6.sent == [Queued, Cancelling, Cancelling];
  }

  // ---------- From any such write ----------

  /** The client waits, with an open mailbox that is registered. */
  predicate Following(s: Stream) {
    s.client.Waiting? && s.registered && !s.closed
  }

  /** A thread that will close the mailbox comes to the point where it takes the list. */
  lemma ComesToFinishing(from: Stream, s: Stream, k: nat) returns (n: Stream)
    requires LeadsTo(from, s) && Following(s) && k < |s.threads| && WillClose(s.threads[k])
    ensures LeadsTo(from, n) && |n.threads| == |s.threads| && n == s.(threads := s.threads[k := n.threads[k]], slot := n.slot)
    ensures n.threads[k] == Finishing || n.threads[k] == Closing(true)
    decreases s.threads[k].Persisted?, s.threads[k].Sending?
  {
    hide LeadsTo;
    if s.threads[k].Finishing? || s.threads[k].Closing? {
      n := s;
    } else {
      LeadsOn(from, s, Advance(k));
      var m := After(s, Advance(k));
      n := ComesToFinishing(from, m, k);
    }
  }

  /** A report is published to the client. */
  lemma Published(from: Stream, s: Stream, i: nat) returns (n: Stream)
    requires LeadsTo(from, s) && Following(s) && i < |s.threads| && s.threads[i].Persisted?
    requires s.threads[i].report.brief.Some? && !Over(s.threads[i].report.brief)
    ensures LeadsTo(from, n)
    ensures n == s.(threads := s.threads[i := Done], slot := Some(Put(s.slot, s.threads[i].report)))
  {
    hide LeadsTo;
    LeadsOn(from, s, Advance(i));
    var m := After(s, Advance(i));
    LeadsOn(from, m, Advance(i));
    n := After(m, Advance(i));
  }

  /** The list is taken, and the mailbox closed. */
  lemma Closes(from: Stream, s: Stream, k: nat) returns (n: Stream)
    requires LeadsTo(from, s) && Following(s) && k < |s.threads|
    requires s.threads[k] == Finishing || s.threads[k] == Closing(true)
    ensures LeadsTo(from, n)
    ensures n.client.Waiting? && n.closed && n.slot == s.slot && n.brief == s.brief
  {
    hide LeadsTo;
    LeadsOn(from, s, Advance(k));
    n := After(s, Advance(k));
    if s.threads[k] == Finishing {
      LeadsOn(from, n, Advance(k));
      n := After(n, Advance(k));
    }
  }

  /** The client reads what is in the slot, and then the brief. */
  lemma ReadsToTheEnd(from: Stream, s: Stream) returns (n: Stream)
    requires LeadsTo(from, s) && s.client.Waiting? && s.closed && s.slot.Some? && s.brief.Some?
    requires s.slot.value.brief.Some? && !Over(s.slot.value.brief)
    ensures LeadsTo(from, n) && n.client == Ended(true)
    ensures n.sent != [] && n.sent[|n.sent| - 1] == s.brief.value.status
  {
    hide LeadsTo;
    LeadsOn(from, s, Receive(true));
    var s1 := After(s, Receive(true));
    LeadsOn(from, s1, Receive(true));
    var s2 := After(s1, Receive(true));
    LeadsOn(from, s2, ReadFinal(true));
    var s3 := After(s2, ReadFinal(true));
    LeadsOn(from, s3, SendFinal(true));
    n := After(s3, SendFinal(true));
  }

  /** The condition is needed: in every state in which a client follows a submission that is over, a
      published write of a brief that is not terminal lets its stream end on its own with that brief's
      status. */
  lemma UnsettledWriteMisleads(s: Stream, r: Report) returns (end: Stream)
    requires Attended(s) && Following(s) && Over(s.brief) && r.brief.Some? && !Over(r.brief)
    ensures LeadsTo(After(s, Start(r)), end) && end.client == Ended(true)
    ensures end.sent != [] && end.sent[|end.sent| - 1] == r.brief.value.status
  {
    var k :| 0 <= k < |s.threads| && WillClose(s.threads[k]);
    var i := |s.threads|;
    var from := After(s, Start(r));
    assert from.threads[i] == Persisted(r) && from.threads[k] == s.threads[k];
    LeadsToItself(from);
    hide LeadsTo;
    var s1 := ComesToFinishing(from, from, k);
    var s2 := Published(from, s1, i);
    var s3 := Closes(from, s2, k);
    end := ReadsToTheEnd(from, s3);
  }

  // ---------- What the client is told ----------

  /** One event tells the client at most one status: the one it read, the one of the report it received,
      or Queued when that report says nothing but a rank. The stream ends there exactly when that is a
      terminal status. */
  lemma TellsOne(s: Stream, e: Event)
    requires Can(s, e)
    ensures e == SendFirst(true) ==> After(s, e).sent == s.sent + [s.client.first]
    ensures e == SendFinal(true) ==> After(s, e).sent == s.sent + [s.client.last]
    ensures e == Receive(true) && s.slot.Some? && s.slot.value.brief.Some? ==>
              After(s, e).sent == s.sent + [s.slot.value.brief.value.status]
    ensures e == Receive(true) && s.slot.Some? && s.slot.value.brief.None? && s.slot.value.rank.Some? ==>
              After(s, e).sent == s.sent + [Queued]
    ensures e == Receive(true) && s.slot.Some? && s.slot.value.brief.None? && s.slot.value.rank.None? ==>
              After(s, e).sent == s.sent
    ensures e == Receive(true) && s.slot.None? ==> After(s, e).sent == s.sent
    ensures e != SendFirst(true) && e != SendFinal(true) && e != Receive(true) ==> After(s, e).sent == s.sent
    ensures var n := After(s, e);
            |n.sent| > |s.sent| && !e.SendFinal? ==>
              n.client == if Terminal(n.sent[|s.sent|]) then Ended(true) else Waiting
  {
  }

  /** What a thread publishes is in the mailbox of every client it had on its copy of the list: all that
      the report says, over what an earlier one said that was not received yet. Only the client takes it
      out. */
  lemma SlotAfter(s: Stream, e: Event)
    requires Can(s, e)
    ensures var n := After(s, e);
            if e.Advance? && s.threads[e.thread].Sending? && s.threads[e.thread].included && !s.closed then
              var r := s.threads[e.thread].report;
              && n.slot.Some?
              && (r.brief.Some? ==> n.slot.value.brief == r.brief)
              && (r.rank.Some? ==> n.slot.value.rank == r.rank)
              && (r.brief.None? ==> n.slot.value.brief == if s.slot.Some? then s.slot.value.brief else None)
              && (r.rank.None? ==> n.slot.value.rank == if s.slot.Some? then s.slot.value.rank else None)
            else if e.Receive? then n.slot.None?
            else n.slot == s.slot
    ensures e.Advance? && s.threads[e.thread].Persisted? ==>
              After(s, e).threads[e.thread] == Sending(s.threads[e.thread].report, s.registered)
  {
  }

  function Says(report: Report): set<Status> {
    if report.brief.Some? then {report.brief.value.status} else {}
  }

  /** The statuses the hub started to tell, and Queued. */
  function Said(events: seq<Event>): set<Status> {
    if events == [] then {Queued}
    else
      Said(events[..|events| - 1]) + SaidBy(events[|events| - 1])
  }

  function SaidBy(e: Event): set<Status> {
    if e.Start? then Says(e.report) else {}
  }

  ghost predicate Known(s: Stream, said: set<Status>) {
    && Queued in said && StatusOf(s.brief) in said
    && (forall i :: 0 <= i < |s.threads| ==> KnownThread(s.threads[i], said))
    && (s.slot.Some? ==> Says(s.slot.value) <= said)
    && (s.client.HasRead? ==> s.client.first in said)
    && (s.client.HasFinal? ==> s.client.last in said)
    && (forall i :: 0 <= i < |s.sent| ==> s.sent[i] in said)
  }

  predicate KnownThread(t: Thread, said: set<Status>) {
    t.Persisted? || t.Sending? ==> Says(t.report) <= said
  }

  lemma StartKnown(s: Stream, r: Report, said: set<Status>)
    requires Known(s, said)
    ensures Known(After(s, Start(r)), said + Says(r))
  {
    var n := After(s, Start(r));
    forall i | 0 <= i < |n.threads| ensures KnownThread(n.threads[i], said + Says(r)) {
      if i < |s.threads| {
        assert n.threads[i] == s.threads[i];
      }
    }
  }

  lemma AdvanceKnown(s: Stream, i: nat, said: set<Status>)
    requires Known(s, said) && i < |s.threads|
    ensures Known(AdvanceThread(s, i), said)
  {
    var n := AdvanceThread(s, i);
    forall k | 0 <= k < |n.threads| ensures KnownThread(n.threads[k], said) {
      assert KnownThread(s.threads[k], said);
    }
  }

  lemma ReceiveKnown(s: Stream, ok: bool, said: set<Status>)
    requires Known(s, said) && Can(s, Receive(ok))
    ensures Known(After(s, Receive(ok)), said)
  {
    hide AdvanceThread, KnownThread;
  }

  /** The other steps of the client's stream. */
  lemma ClientKnown(s: Stream, e: Event, said: set<Status>)
    requires Known(s, said) && Can(s, e) && !e.Start? && !e.Advance? && !e.Receive?
    ensures Known(After(s, e), said)
  {
    hide AdvanceThread, KnownThread, Relay, Terminal;
  }

  lemma EventKnown(s: Stream, e: Event, said: set<Status>)
    requires Known(s, said) && Can(s, e)
    ensures Known(After(s, e), said + SaidBy(e))
  {
    hide Known;
    match e
    case Start(r) => StartKnown(s, r, said);
    case Advance(i) =>
      AdvanceKnown(s, i, said);
      assert said + {} == said;
    case Receive(ok) =>
      ReceiveKnown(s, ok, said);
      assert said + {} == said;
    case _ =>
      ClientKnown(s, e, said);
      assert said + {} == said;
  }

  lemma {:induction false} RunKnown(ss: seq<Stream>, events: seq<Event>, i: nat)
    requires IsRun(ss, events) && i < |ss|
    ensures Known(ss[i], Said(events[..i]))
  {
    hide After, Can, Known;
    if i == 0 {
      StartsKnown();
    } else {
      RunKnown(ss, events, i - 1);
      EventKnown(ss[i - 1], events[i - 1], Said(events[..i - 1]));
      assert events[..i][..i - 1] == events[..i - 1];
      assert events[..i][i - 1] == events[i - 1];
    }
  }

  lemma StartsKnown()
    ensures Known(START, {Queued})
  {
  }

  lemma {:induction false} SaidBySomebody(events: seq<Event>, status: Status) returns (j: int)
    requires status in Said(events) && status != Queued
    ensures 0 <= j < |events| && events[j].Start? && Says(events[j].report) == {status}
  {
    j := |events| - 1;
    var e := events[j];
    if !(e.Start? && status in Says(e.report)) {
      j := SaidBySomebody(events[..|events| - 1], status);
    }
  }

  /** A client is told nothing that the hub did not say: in every run every status sent is Queued, or the
      one of a report that a thread had started to tell before. */
  lemma ToldWasSaid(ss: seq<Stream>, events: seq<Event>, i: nat, k: nat) returns (j: int)
    requires IsRun(ss, events) && i < |ss| && k < |ss[i].sent| && ss[i].sent[k] != Queued
    ensures 0 <= j < i && events[j].Start? && Says(events[j].report) == {ss[i].sent[k]}
  {
    hide After, Can;
    RunKnown(ss, events, i);
    j := SaidBySomebody(events[..i], ss[i].sent[k]);
  }

  // ---------- The client comes to an end ----------

  /** What the client's stream does next when nothing fails. */
  function NextOf(s: Stream): Event
    requires !s.client.Ended? && !s.client.Away?
  {
    match s.client
    case Subscribed => ReadBrief(true)
    case HasRead(_) => SendFirst(true)
    case Waiting => Receive(true)
    case SawEnd => ReadFinal(true)
    case _ => SendFinal(true)
  }

  function StepsLeft(s: Stream): nat {
    match s.client
    case Subscribed => 6
    case HasRead(_) => 5
    case Waiting => if s.slot.Some? then 4 else 3
    case SawEnd => 2
    case HasFinal(_) => 1
    case _ => 0
  }

  /** When the hub is done with a submission, the client's own steps lead to the end, in six steps at
      most, and the last status sent is terminal. */
  lemma {:induction false} ClientEnds(s: Stream) returns (end: Stream, events: seq<Event>)
    requires Attended(s) && Final(s) && Over(s.brief) && forall i :: 0 <= i < |s.threads| ==> s.threads[i].Done?
    requires !s.client.Away? && !s.client.Ended?
    ensures |events| <= StepsLeft(s) && end == Follow(s, events)
    ensures end.client == Ended(true) && end.sent != [] && Terminal(end.sent[|end.sent| - 1])
    decreases StepsLeft(s)
  {
    var e := NextOf(s);
    assert Can(s, e);
    var n := After(s, e);
    EventAttended(s, e);
    EventFinal(s, e);
    if n.client.Ended? {
      end, events := n, [e];
      assert Follow(n, []) == n;
    } else {
      var rest;
      end, rest := ClientEnds(n);
      events := [e] + rest;
      assert events[1..] == rest;
    }
  }

  function Follow(s: Stream, events: seq<Event>): Stream
    decreases |events|
  {
    if events == [] then s
    else if !Can(s, events[0]) then s
    else Follow(After(s, events[0]), events[1..])
  }
}
