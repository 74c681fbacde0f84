/** The hub as a transition system. A state holds what the hub keeps in memory, what it has
    written to the store, and which submissions are between two of its writes. */
module HubModel {
  import opened Options
  import opened PendingQueue
  import opened Scheduling
  import opened SubmissionStatus

  datatype GraderInfo = GraderInfo(concurrency: nat, tags: seq<string>)

  datatype Item = Grade(req: Request) | CancelGrading(sub: nat) | StreamLog(sub: nat)

  /** A cancel request that did not find its submission on the list: before it looks up the owner, and
      before it asks the owner it found. */
  datatype Cancel = Missed(sub: nat) | Asking(sub: nat, g: nat)

  datatype Hub = Hub(
    // In memory. An outbox that was closed is no longer in `outbox`.
    queue: Queue,
    running: map<nat, Request>,
    online: map<nat, GraderInfo>,
    outbox: map<nat, seq<Item>>,
    wake: bool,
    // In the store: the owner of each claimed submission, the brief status, the unfinished markers.
    claim: map<nat, nat>,
    brief: map<nat, Status>,
    unfinished: set<nat>,
    // Where the threads are, one occurrence for each thread. On the way to the list: marked by
    // runSubmission; and with the first brief written, to be pushed; collected from a lost grader, to
    // be tested; and tested, to be pushed. Cancel requests: the submission taken off the list, to be
    // finalised; or not found there. Briefs that are to be written: by a report whose sender was found
    // to be the owner, by a cancel request that has decided, and by a push. At the end of a submission:
    // the terminal brief is written and the marker is to be deleted; the claim is to be released; the
    // entry in the running table is to be removed.
    arriving: multiset<nat>,
    ready: multiset<nat>,
    requeueing: map<nat, Request>,
    cleared: map<nat, Request>,
    cancelling: multiset<nat>,
    cancels: multiset<Cancel>,
    writes: multiset<(nat, Status)>,
    unmarking: multiset<nat>,
    releasing: multiset<nat>,
    dropping: multiset<nat>,
    // History: the request with which each submission was last submitted, as runSubmission
    // rebuilds it from the stored submission and assignment.
    accepted: map<nat, Request>)

  const INITIAL := Hub(EMPTY, map[], map[], map[], false, map[], map[], {}, multiset{}, multiset{}, map[], map[],
                       multiset{}, multiset{}, multiset{}, multiset{}, multiset{}, multiset{}, map[])

  // ---------- Outboxes ----------

  /** The submissions an outbox asks its grader to grade. */
  function GradeSubs(items: seq<Item>): set<nat> {
    set i | 0 <= i < |items| && items[i].Grade? :: items[i].req.sub
  }

  /** The first request for a submission in an outbox. */
  function BoxRequest(items: seq<Item>, sub: nat): (r: Request)
    requires sub in GradeSubs(items)
    ensures r.sub == sub && Grade(r) in items
  {
    if items[0].Grade? && items[0].req.sub == sub then items[0].req
    else
      assert sub in GradeSubs(items[1..]) by {
        var i :| 0 <= i < |items| && items[i].Grade? && items[i].req.sub == sub;
        assert items[1..][i - 1] == items[i];
      }
      BoxRequest(items[1..], sub)
  }

  function Box(h: Hub, g: nat): seq<Item> {
    if g in h.outbox then h.outbox[g] else []
  }

  function Owned(h: Hub, g: nat): set<nat> {
    set s | s in h.claim && h.claim[s] == g
  }

  // ---------- Steps ----------

  /** runSubmission writes the unfinished marker. */
  function WriteMarker(h: Hub, req: Request): Hub {
    h.(unfinished := h.unfinished + {req.sub}, arriving := h.arriving + multiset{req.sub},
       accepted := h.accepted[req.sub := req])
  }

  /** ... and the first Queued brief. */
  function WriteQueued(h: Hub, sub: nat): Hub {
    h.(brief := h.brief[sub := Queued], arriving := h.arriving - multiset{sub}, ready := h.ready + multiset{sub})
  }

  /** The request joins the list; its Queued brief follows in a step of its own. */
  function QueueGradeRequest(h: Hub, req: Request): Hub {
    h.(queue := Push(h.queue, req), wake := true, writes := h.writes + multiset{(req.sub, Queued)})
  }

  /** runSubmission hands the request to the hub. */
  function EnqueueGrade(h: Hub, sub: nat): Hub
    requires sub in h.accepted
  {
    QueueGradeRequest(h.(ready := h.ready - multiset{sub}), h.accepted[sub])
  }

  /** One message on a GradeCallback stream: only the owner of the claim may report, and what is reported
      is written in a step of its own. A message without a brief writes none. */
  function Report(h: Hub, g: nat, sub: nat, status: Option<Status>): Hub {
    if sub !in h.claim || h.claim[sub] != g || status.None? then h
    else h.(writes := h.writes + multiset{(sub, status.value)})
  }

  /** A brief is persisted. */
  function SetBrief(h: Hub, sub: nat, status: Status): Hub {
    h.(brief := h.brief[sub := status],
       unmarking := if Terminal(status) then h.unmarking + multiset{sub} else h.unmarking)
  }

  /** A thread writes the brief it has decided on; after a terminal one onSubmissionFinished follows. */
  function WriteBrief(h: Hub, sub: nat, status: Status): Hub {
    SetBrief(h.(writes := h.writes - multiset{(sub, status)}), sub, status)
  }

  function DeleteMarker(h: Hub, sub: nat): Hub {
    h.(unfinished := h.unfinished - {sub}, unmarking := h.unmarking - multiset{sub},
       releasing := h.releasing + multiset{sub})
  }

  function ReleaseClaim(h: Hub, sub: nat): Hub {
    h.(claim := h.claim - {sub}, releasing := h.releasing - multiset{sub}, dropping := h.dropping + multiset{sub})
  }

  function DropRunning(h: Hub, sub: nat): Hub {
    h.(running := h.running - {sub}, wake := true, dropping := h.dropping - multiset{sub})
  }

  /** CancelGrade finds the submission on the list and takes it off. */
  function CancelPending(h: Hub, sub: nat): Hub {
    h.(queue := Remove(h.queue, sub), cancelling := h.cancelling + multiset{sub})
  }

  /** ... and then persists Cancelled. */
  function FinaliseCancelled(h: Hub, sub: nat): Hub {
    SetBrief(h.(cancelling := h.cancelling - multiset{sub}), sub, Cancelled)
  }

  /** CancelGrade does not find it on the list, and gives the lock back ... */
  function CancelMiss(h: Hub, sub: nat): Hub {
    h.(cancels := h.cancels + multiset{Missed(sub)})
  }

  /** ... looks up the owner, and decides to write Cancelled when there is none ... */
  function CancelLookup(h: Hub, sub: nat): Hub {
    var rest := h.cancels - multiset{Missed(sub)};
    if sub in h.claim then h.(cancels := rest + multiset{Asking(sub, h.claim[sub])})
    else h.(cancels := rest, writes := h.writes + multiset{(sub, Cancelled)})
  }

  /** ... asks the one it found to stop, and decides to write Cancelling, or Cancelled when there is no
      outbox to ask through. */
  function CancelAsk(h: Hub, sub: nat, g: nat): Hub {
    var rest := h.cancels - multiset{Asking(sub, g)};
    if g in h.outbox then
      h.(outbox := h.outbox[g := h.outbox[g] + [CancelGrading(sub)]], cancels := rest,
         writes := h.writes + multiset{(sub, Cancelling)})
    else h.(cancels := rest, writes := h.writes + multiset{(sub, Cancelled)})
  }

  /** What onGraderOffline takes from a grader: its running submissions, then what its outbox still
      holds beyond them. */
  function Taken(h: Hub, g: nat): (r: map<nat, Request>)
    ensures r.Keys == h.running.Keys * Owned(h, g) + GradeSubs(Box(h, g))
  {
    var box := Box(h, g);
    map s | s in h.running.Keys * Owned(h, g) + GradeSubs(box) ::
      if s in h.running && s in Owned(h, g) then h.running[s] else BoxRequest(box, s)
  }

  function Collect(h: Hub, g: nat): Hub {
    h.(online := h.online - {g}, outbox := h.outbox - {g},
       running := h.running - Owned(h, g) - GradeSubs(Box(h, g)),
       claim := h.claim - Owned(h, g),
       requeueing := h.requeueing + Taken(h, g))
  }

  /** A collected submission that is over is forgotten; any other one is cleared for the list. */
  function TestRequeue(h: Hub, sub: nat): Hub
    requires sub in h.requeueing
  {
    var rest := h.requeueing - {sub};
    if sub in h.brief && Terminal(h.brief[sub]) then h.(requeueing := rest)
    else h.(requeueing := rest, cleared := h.cleared[sub := h.requeueing[sub]])
  }

  function PushRequeued(h: Hub, sub: nat): Hub
    requires sub in h.cleared
  {
    QueueGradeRequest(h.(cleared := h.cleared - {sub}), h.cleared[sub])
  }

  /** The send loop drains an outbox. */
  function SendRequests(h: Hub, g: nat): Hub {
    h.(outbox := h.outbox[g := []])
  }

  /** A heartbeat stream starts with an outbox of its own. */
  function Connect(h: Hub, g: nat): Hub {
    h.(outbox := h.outbox[g := []], wake := true)
  }

  function Register(h: Hub, g: nat, info: GraderInfo): Hub {
    h.(online := h.online[g := info])
  }

  /** The process stops at any point and starts again: memory is lost, the claims are cleared, and a
      runSubmission starts for every marker. */
  function Restart(h: Hub): Hub {
    INITIAL.(brief := h.brief, unfinished := h.unfinished, accepted := h.accepted,
             arriving := multiset(h.unfinished))
  }

  // ---------- The scheduling pass ----------

  function Snapshot(h: Hub): Loads {
    map g | g in h.online :: Load(h.online[g].concurrency, h.online[g].tags, |Owned(h, g)|)
  }

  /** A grader offered a request in this pass may have gone away: it has no outbox, or the outbox
      refuses the push (`accepts`). It is then dropped from the loads for the rest of the pass. */
  ghost function Choose(outbox: set<nat>, loads: Loads, req: Request, accepts: (nat, nat) -> bool): (r: (nat, Loads))
    requires 0 !in loads
    ensures r.1.Keys <= loads.Keys
    decreases |loads|
  {
    var g := Pick(loads, req.tags);
    if g == 0 then (0, loads)
    else if g in outbox && accepts(req.sub, g) then (g, Bump(loads, g))
    else
      assert (loads - {g}).Keys + {g} == loads.Keys;
      Choose(outbox, loads - {g}, req, accepts)
  }

  /** A grader owns the request before it is pushed to its outbox ... */
  function ClaimFor(h: Hub, req: Request, g: nat): Hub {
    h.(running := h.running[req.sub := req], claim := h.claim[req.sub := g])
  }

  /** ... and no longer when the outbox refuses it. */
  function UndoClaim(h: Hub, sub: nat): Hub {
    h.(running := h.running - {sub}, claim := h.claim - {sub})
  }

  /** The request is claimed, pushed and taken off the list. */
  function Assign(h: Hub, req: Request, g: nat): Hub {
    ClaimFor(h, req, g).(queue := Remove(h.queue, req.sub), outbox := h.outbox[g := Box(h, g) + [Grade(req)]])
  }

  /** The rest of a pass, from the entries still to visit. */
  ghost function PassFrom(h: Hub, loads: Loads, todo: seq<Entry>, accepts: (nat, nat) -> bool): (r: (Hub, Loads))
    requires 0 !in loads
    ensures r.1.Keys <= loads.Keys
    decreases |todo|
  {
    if todo == [] then (h, loads)
    else
      var (g, after) := Choose(h.outbox.Keys, loads, todo[0].req, accepts);
      PassFrom(if g == 0 then h else Assign(h, todo[0].req, g), after, todo[1..], accepts)
  }

  ghost function Pass(h: Hub, accepts: (nat, nat) -> bool): (Hub, Loads)
    requires 0 !in h.online
  {
    PassFrom(h, Snapshot(h), h.queue.list, accepts)
  }

  // ---------- Transitions ----------

  datatype Step =
    | DoWriteMarker(req: Request)
    | DoWriteQueued(sub: nat)
    | DoEnqueueGrade(sub: nat)
    | DoReport(g: nat, sub: nat, report: Option<Status>)
    | DoWriteBrief(sub: nat, status: Status)
    | DoDeleteMarker(sub: nat)
    | DoReleaseClaim(sub: nat)
    | DoDropRunning(sub: nat)
    | DoCancelPending(sub: nat)
    | DoFinaliseCancelled(sub: nat)
    | DoCancelMiss(sub: nat)
    | DoCancelLookup(sub: nat)
    | DoCancelAsk(sub: nat, g: nat)
    | DoCollect(g: nat)
    | DoTestRequeue(sub: nat)
    | DoPushRequeued(sub: nat)
    | DoSendRequests(g: nat)
    | DoConnect(g: nat)
    | DoRegister(g: nat, info: GraderInfo)
    | DoPass(accepts: (nat, nat) -> bool)
    | DoRestart

  /** A thread is at the step, or the code's own test lets it happen. */
  ghost predicate Enabled(h: Hub, step: Step) {
    match step
    case DoWriteQueued(s) => s in h.arriving
    case DoEnqueueGrade(s) => s in h.ready && s in h.accepted
    case DoWriteBrief(s, status) => (s, status) in h.writes
    case DoDeleteMarker(s) => s in h.unmarking
    case DoReleaseClaim(s) => s in h.releasing
    case DoDropRunning(s) => s in h.dropping
    case DoCancelPending(s) => s in h.queue.index
    case DoFinaliseCancelled(s) => s in h.cancelling
    case DoCancelMiss(s) => s !in h.queue.index
    case DoCancelLookup(s) => Missed(s) in h.cancels
    case DoCancelAsk(s, g) => Asking(s, g) in h.cancels
    case DoTestRequeue(s) => s in h.requeueing
    case DoPushRequeued(s) => s in h.cleared
    case DoSendRequests(g) => g in h.outbox
    case DoRegister(g, _) => g != 0
    case DoPass(_) => 0 !in h.online
    case _ => true
  }

  ghost function Next(h: Hub, step: Step): Hub
    requires Enabled(h, step)
  {
    match step
    case DoWriteMarker(req) => WriteMarker(h, req)
    case DoWriteQueued(s) => WriteQueued(h, s)
    case DoEnqueueGrade(s) => EnqueueGrade(h, s)
    case DoReport(g, s, report) => Report(h, g, s, report)
    case DoWriteBrief(s, status) => WriteBrief(h, s, status)
    case DoDeleteMarker(s) => DeleteMarker(h, s)
    case DoReleaseClaim(s) => ReleaseClaim(h, s)
    case DoDropRunning(s) => DropRunning(h, s)
    case DoCancelPending(s) => CancelPending(h, s)
    case DoFinaliseCancelled(s) => FinaliseCancelled(h, s)
    case DoCancelMiss(s) => CancelMiss(h, s)
    case DoCancelLookup(s) => CancelLookup(h, s)
    case DoCancelAsk(s, g) => CancelAsk(h, s, g)
    case DoCollect(g) => Collect(h, g)
    case DoTestRequeue(s) => TestRequeue(h, s)
    case DoPushRequeued(s) => PushRequeued(h, s)
    case DoSendRequests(g) => SendRequests(h, g)
    case DoConnect(g) => Connect(h, g)
    case DoRegister(g, info) => Register(h, g, info)
    case DoPass(accepts) => Pass(h, accepts).0
    case DoRestart => Restart(h)
  }

  // ---------- The invariant ----------

  predicate Finishing(h: Hub, s: nat) {
    s in h.unmarking || s in h.releasing || s in h.dropping
  }

  predicate Live(h: Hub, s: nat) {
    s in h.brief && !Terminal(h.brief[s])
  }

  /** On the list, or about to be pushed to it whatever its brief says. */
  predicate Bound(h: Hub, s: nat) {
    s in h.queue.index || s in h.ready || s in h.cleared
  }

  /** In how many places a submission is. */
  function Places(h: Hub, s: nat): nat {
    (if s in h.queue.index then 1 else 0) + (if s in h.claim then 1 else 0) + h.arriving[s] + h.ready[s]
    + (if s in h.requeueing then 1 else 0) + (if s in h.cleared then 1 else 0) + h.cancelling[s]
  }

  /** What always holds of one submission. It is in one place at most, and in one exactly while it is
      live. A claimed one is running, and a running one is claimed unless a thread is about to remove it
      from the table. One that is listed or about to be is live, and so is a claimed one unless a thread
      is finishing it. Whatever is live or arriving has its marker, and a marker is there for no other
      reason than that a thread has yet to delete it. */
  predicate SubOk(h: Hub, s: nat) {
    && (s in h.claim ==> s in h.running)
    && (s in h.running ==> s in h.claim || s in h.dropping)
    && (s in h.dropping ==> s !in h.claim)
    && Places(h, s) <= 1
    && (Live(h, s) ==> Places(h, s) == 1)
    && (Bound(h, s) ==> Live(h, s))
    && (s in h.claim ==> Live(h, s) || Finishing(h, s))
    && (s in h.requeueing ==> s in h.brief)
    && (Finishing(h, s) ==> s in h.brief && !Live(h, s) && s !in h.arriving)
    && (Live(h, s) || s in h.arriving ==> s in h.unfinished)
    && (s in h.unfinished ==> Live(h, s) || s in h.arriving || s in h.unmarking)
    && Remembered(h, s)
  }

  /** Whatever happens to a submission happens to the request it was submitted with. */
  predicate Remembered(h: Hub, s: nat) {
    && (s in h.unfinished ==> s in h.accepted)
    && (s in h.accepted ==> h.accepted[s].sub == s)
    && (s in h.running ==> s in h.accepted && h.running[s] == h.accepted[s])
    && (s in h.requeueing ==> s in h.accepted && h.requeueing[s] == h.accepted[s])
    && (s in h.cleared ==> s in h.accepted && h.cleared[s] == h.accepted[s])
  }

  /** Every listed request is the one that was submitted. */
  ghost predicate Listed(list: seq<Entry>, accepted: map<nat, Request>) {
    forall i :: 0 <= i < |list| ==>
      list[i].req.sub in accepted && accepted[list[i].req.sub] == list[i].req
  }

  predicate Unsent(h: Hub, g: nat, s: nat) {
    g in h.outbox && s in GradeSubs(h.outbox[g])
  }

  /** An unsent request is claimed for its outbox, or its submission is over. */
  predicate BoxOk(h: Hub, g: nat, s: nat) {
    Unsent(h, g, s) ==>
      if s in h.claim then h.claim[s] == g
      else s in h.brief && !Live(h, s) && Places(h, s) == 0
  }

  /** No two outboxes ask for the same submission. */
  predicate SoleBox(h: Hub, g: nat, g': nat, s: nat) {
    Unsent(h, g, s) && Unsent(h, g', s) ==> g == g'
  }

  predicate RequestOk(h: Hub, g: nat, req: Request) {
    g in h.outbox && Grade(req) in h.outbox[g] ==> req.sub in h.accepted && h.accepted[req.sub] == req
  }

  /** The invariant apart from the order of the list. */
  ghost predicate Core(h: Hub) {
    && 0 !in h.online
    && (forall s :: SubOk(h, s))
    && (forall g, s :: BoxOk(h, g, s))
    && (forall g, g', s :: SoleBox(h, g, g', s))
    && (forall g, req :: RequestOk(h, g, req))
  }

  ghost predicate Inv(h: Hub) {
    Ok(h.queue) && Listed(h.queue.list, h.accepted) && Core(h)
  }

  /** What the code does not enforce: a submission is run again only when nothing of its last run is
      left; a terminal brief is not written while the submission is on the list or on its way to it; and
      no other brief is written once the submission is over. */
  ghost predicate Orderly(h: Hub, step: Step) {
    match step
    case DoWriteMarker(req) =>
      var s := req.sub;
      Places(h, s) == 0 && !Finishing(h, s) && forall g :: !Unsent(h, g, s)
    case DoWriteBrief(s, status) =>
      if Terminal(status) then !Bound(h, s) && s !in h.arriving
      else Live(h, s) || s in h.arriving
    case _ => true
  }
}
