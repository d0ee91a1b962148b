/** Runs of the whole proxy in which clients and databases behave: exact
    attribution, progress, and a reply to every request.  What the databases
    answer and what the cache holds is left open. */
module Runs {
  import opened Basics
  import Protocol
  import opened Meta
  import opened Handler
  import opened Session
  import opened Conservation
  import opened Streams
  import opened Discipline
  import opened System
  import Deadlock

  /** Client and database of the stepping session behave; session `i` meets the
      database as `servers(i)`. */
  predicate InOrder(servers: nat -> Server, p: Proxy, step: Step) {
    step.SessionSteps? && step.i < |p.sessions| ==> Orderly(servers(step.i), p.sessions[step.i], step.move)
  }

  predicate OrderlyRun(lib: Library, servers: nat -> Server, steps: seq<Step>) {
    Execute(lib, steps).Some? &&
    (steps != [] ==>
       var before := steps[..|steps| - 1];
       OrderlyRun(lib, servers, before) && InOrder(servers, Execute(lib, before).value, steps[|steps| - 1]))
  }

  predicate AllDisciplined(lib: Library, servers: nat -> Server, p: Proxy) {
    forall i :: 0 <= i < |p.sessions| ==> Disciplined(lib, servers(i), p.sessions[i])
  }

  /** The discipline of each session is nobody else's business. */
  lemma DisciplineStep(lib: Library, servers: nat -> Server, p: Proxy, step: Step)
    requires AllDisciplined(lib, servers, p) && CanStep(lib, p, step) && InOrder(servers, p, step)
    ensures AllDisciplined(lib, servers, After(lib, p, step))
  {
    var inv := (i: nat, s: Session) => Disciplined(lib, servers(i), s);
    if step.SessionSteps? {
      assert inv(step.i, p.sessions[step.i]);
      DisciplinedStep(lib, servers(step.i), p.sessions[step.i], step.move);
    } else {
      DisciplinedStart(lib, servers(|p.sessions|));
    }
    SessionsStep(lib, p, step, inv);
    assert forall i :: 0 <= i < |After(lib, p, step).sessions| ==> inv(i, After(lib, p, step).sessions[i]);
  }

  lemma {:induction false} AlwaysDisciplined(lib: Library, servers: nat -> Server, steps: seq<Step>)
    requires OrderlyRun(lib, servers, steps)
    ensures AllDisciplined(lib, servers, Execute(lib, steps).value)
  {
    if steps != [] {
      var before := steps[..|steps| - 1];
      AlwaysDisciplined(lib, servers, before);
      DisciplineStep(lib, servers, Execute(lib, before).value, steps[|steps| - 1]);
    }
  }

  /** What the theorems below take from the discipline of a session. */
  lemma DisciplineGives(lib: Library, srv: Server, s: Session)
    requires Disciplined(lib, srv, s)
    ensures Locks(s) && Contexts(s) && Loggable(lib, s) && Partition(s) && Reports(lib, s)
    ensures Requests(srv, s) && Delivered(s) && Flow(srv, s) && Attributed(srv, s) && Waiting(srv, s)
  {
  }

  // ---- attribution ------------------------------------------------------------------------

  /** For every orderly run, however the databases answer and split their answers
      and whatever the cache replies: the `k`-th body a session has finished is
      exactly the response to the chunk of the `k`-th finished context, behind the
      greeting if it is the first, and that chunk is the `k`-th the database received. */
  lemma RunAttribution(lib: Library, servers: nat -> Server, steps: seq<Step>, i: nat, k: nat)
    requires OrderlyRun(lib, servers, steps)
    requires i < |Execute(lib, steps).value.sessions| && k < |Execute(lib, steps).value.sessions[i].bodies|
    ensures var s, srv := Execute(lib, steps).value.sessions[i], servers(i);
            && k < |s.finished| && k < |s.toRemote| && s.finished[k].id < |s.clientRead|
            && s.toRemote[k] == s.clientRead[s.finished[k].id]
            && s.bodies[k] == (if k == 0 then srv.greeting else []) + srv.response(s.finished[k].id)
  {
    AlwaysDisciplined(lib, servers, steps);
    DisciplineGives(lib, servers(i), Execute(lib, steps).value.sessions[i]);
    ExactAttribution(servers(i), Execute(lib, steps).value.sessions[i], k);
  }

  /** For every orderly run: a session at rest has given its client the whole
      reply to every request, in order, and no other byte; before that, a prefix. */
  lemma RunReplies(lib: Library, servers: nat -> Server, steps: seq<Step>, i: nat)
    requires OrderlyRun(lib, servers, steps) && i < |Execute(lib, steps).value.sessions|
    ensures var s, srv := Execute(lib, steps).value.sessions[i], servers(i);
            && Received(s.toClient) <= Replies(srv, s.verdicts) + Ahead(s.client)
            && (AtRest(srv, s) ==> |s.verdicts| == |s.clientRead| && Received(s.toClient) == Replies(srv, s.verdicts))
  {
    AlwaysDisciplined(lib, servers, steps);
    DisciplineGives(lib, servers(i), Execute(lib, steps).value.sessions[i]);
    AllReceived(servers(i), Execute(lib, steps).value.sessions[i]);
  }

  // ---- progress ------------------------------------------------------------------------------

  /** The step to take for a session that wants to make `l`: `l` itself, or what
      makes room in a full queue. */
  function StepFor(p: Proxy, i: nat, l: Label): Step {
    if l.RemoteSendsTask? && |p.tasks| >= QUEUE_SIZE then
      if p.worker.Some? then WorkerStores else WorkerReceives
    else if (l.ClientLogs? || l.RemoteLogs?) && |p.logs| >= QUEUE_SIZE then JobReceives
    else SessionSteps(i, l)
  }

  lemma StepForCan(lib: Library, p: Proxy, i: nat, l: Label)
    requires i < |p.sessions| && Enabled(lib, p.sessions[i], l)
    requires l.ClientTakesHandler? ==> l.entities == p.entities
    requires l.ExistsReplies? ==> l.exists_ == Got(Present(p.redis, Asked(p.sessions[i]), p.now))
    requires l.GetReplies? ==> l.get == Got(Lookup(p.redis, Asked(p.sessions[i]), p.now))
    ensures CanStep(lib, p, StepFor(p, i, l))
  {
  }

  /** The key a session is asking Redis for. */
  function Asked(s: Session): string {
    if s.client.WantsExists? || s.client.WantsGet? then s.client.key else ""
  }

  /** The move of a session when templates and Redis are as they are in `p`. */
  function MoveIn(lib: Library, srv: Server, p: Proxy, s: Session): Label
    requires Loggable(lib, s)
  {
    Move(lib, srv, s, p.entities, Got(Present(p.redis, Asked(s), p.now)), Got(Lookup(p.redis, Asked(s), p.now)))
  }

  lemma MoveShape(lib: Library, srv: Server, p: Proxy, s: Session)
    requires Loggable(lib, s)
    ensures var l := MoveIn(lib, srv, p, s);
            && (l.ClientTakesHandler? ==> l.entities == p.entities)
            && (l.ExistsReplies? ==> l.exists_ == Got(Present(p.redis, Asked(s), p.now)))
            && (l.GetReplies? ==> l.get == Got(Lookup(p.redis, Asked(s), p.now)))
  {
  }

  /** A step that helps session `i`: its own, bringing it closer to rest, or one
      that makes room in a full queue. */
  predicate Helps(lib: Library, servers: nat -> Server, p: Proxy, i: nat, step: Step)
    requires i < |p.sessions|
  {
    && CanStep(lib, p, step) && InOrder(servers, p, step)
    && match step
       case SessionSteps(j, l) =>
         j == i && !l.ClientReads? && !l.Ends?
         && Rank(servers(i), Next(lib, p.sessions[i], l)) < Rank(servers(i), p.sessions[i])
       case WorkerStores => |p.tasks| >= QUEUE_SIZE
       case WorkerReceives => |p.tasks| >= QUEUE_SIZE
       case JobReceives => |p.logs| >= QUEUE_SIZE
       case _ => false
  }

  lemma StepForHelps(lib: Library, servers: nat -> Server, p: Proxy, i: nat, l: Label)
    requires i < |p.sessions| && CanStep(lib, p, StepFor(p, i, l)) && Enabled(lib, p.sessions[i], l)
    requires Orderly(servers(i), p.sessions[i], l) && !l.ClientReads? && !l.Ends?
    requires Rank(servers(i), Next(lib, p.sessions[i], l)) < Rank(servers(i), p.sessions[i])
    ensures Helps(lib, servers, p, i, StepFor(p, i, l))
  {
  }

  lemma MoveHelps(lib: Library, servers: nat -> Server, p: Proxy, i: nat)
    requires i < |p.sessions| && !p.sessions[i].ended && !AtRest(servers(i), p.sessions[i])
    requires var s, srv := p.sessions[i], servers(i);
             && Locks(s) && Contexts(s) && Loggable(lib, s)
             && Requests(srv, s) && Flow(srv, s) && Waiting(srv, s)
    ensures Helps(lib, servers, p, i, StepFor(p, i, MoveIn(lib, servers(i), p, p.sessions[i])))
  {
    var s, srv := p.sessions[i], servers(i);
    var l := MoveIn(lib, srv, p, s);
    MoveEnabled(lib, srv, s, p.entities, Got(Present(p.redis, Asked(s), p.now)), Got(Lookup(p.redis, Asked(s), p.now)));
    MoveShape(lib, srv, p, s);
    StepForCan(lib, p, i, l);
    RankDecreases(lib, srv, s, l);
    StepForHelps(lib, servers, p, i, l);
  }

  /** Progress: in every orderly run, a session that has not ended and is not at
      rest has a step of its own other than a new request or the end, which
      brings it closer to rest, or the queue it needs is full and its consumer
      has a step; no send of a context ever blocks. */
  lemma Progress(lib: Library, servers: nat -> Server, steps: seq<Step>, i: nat) returns (step: Step)
    requires OrderlyRun(lib, servers, steps) && i < |Execute(lib, steps).value.sessions|
    requires !Execute(lib, steps).value.sessions[i].ended
    requires !AtRest(servers(i), Execute(lib, steps).value.sessions[i])
    ensures Helps(lib, servers, Execute(lib, steps).value, i, step)
    ensures !Deadlock.SendBlocked(Execute(lib, steps).value.sessions[i])
  {
    var p := Execute(lib, steps).value;
    AlwaysDisciplined(lib, servers, steps);
    DisciplineGives(lib, servers(i), p.sessions[i]);
    if p.sessions[i].client.SendsContext? {
      SendNeverBlocks(servers(i), p.sessions[i]);
    }
    MoveHelps(lib, servers, p, i);
    step := StepFor(p, i, MoveIn(lib, servers(i), p, p.sessions[i]));
  }

  // ---- every request can be answered ---------------------------------------------------------

  /** What the queues' consumers still have to do. */
  function Load(p: Proxy): nat {
    2 * |p.tasks| + |Opt(p.worker)| + |p.logs|
  }

  lemma OrderlySnoc(lib: Library, servers: nat -> Server, steps: seq<Step>, step: Step)
    requires OrderlyRun(lib, servers, steps)
    requires var p := Execute(lib, steps).value; CanStep(lib, p, step) && InOrder(servers, p, step)
    ensures OrderlyRun(lib, servers, steps + [step])
    ensures Execute(lib, steps + [step]) == Some(After(lib, Execute(lib, steps).value, step))
  {
    assert (steps + [step])[..|steps|] == steps;
  }

  lemma SameRequests(lib: Library, s: Session, l: Label)
    requires Enabled(lib, s, l) && !l.ClientReads? && !l.Ends?
    ensures Next(lib, s, l).clientRead == s.clientRead && !Next(lib, s, l).ended
  {
    if !ByClient(l) {
      RemoteFrame(lib, s, l);
    }
  }

  /** A helpful step keeps the session's requests, and brings the session closer
      to rest or lightens the load on the queues. */
  lemma HelpfulStep(lib: Library, servers: nat -> Server, p: Proxy, i: nat, step: Step)
    requires i < |p.sessions| && !p.sessions[i].ended && Helps(lib, servers, p, i, step)
    ensures var p', srv := After(lib, p, step), servers(i);
            && |p'.sessions| == |p.sessions| && !p'.sessions[i].ended
            && p'.sessions[i].clientRead == p.sessions[i].clientRead
            && (|| Rank(srv, p'.sessions[i]) < Rank(srv, p.sessions[i])
                || (p'.sessions == p.sessions && Load(p') < Load(p)))
  {
    if step.SessionSteps? {
      SameRequests(lib, p.sessions[i], step.move);
    }
  }

  /** A step of session `i` other than a new request, or of a queue's consumer. */
  predicate Onward(i: nat, step: Step) {
    match step
    case SessionSteps(j, l) => j == i && !l.ClientReads?
    case WorkerReceives => true
    case WorkerStores => true
    case JobReceives => true
    case _ => false
  }

  predicate OnwardFrom(i: nat, steps: seq<Step>, n: nat) {
    forall k :: n <= k < |steps| ==> Onward(i, steps[k])
  }

  /** One step on: what `Completes` repeats. */
  lemma StepOn(lib: Library, servers: nat -> Server, steps: seq<Step>, i: nat) returns (step: Step)
    requires OrderlyRun(lib, servers, steps) && i < |Execute(lib, steps).value.sessions|
    requires !Execute(lib, steps).value.sessions[i].ended
    requires !AtRest(servers(i), Execute(lib, steps).value.sessions[i])
    ensures OrderlyRun(lib, servers, steps + [step]) && Onward(i, step)
    ensures var p, p', srv := Execute(lib, steps).value, Execute(lib, steps + [step]).value, servers(i);
            && i < |p'.sessions| && !p'.sessions[i].ended && p'.sessions[i].clientRead == p.sessions[i].clientRead
            && (|| Rank(srv, p'.sessions[i]) < Rank(srv, p.sessions[i])
                || (p'.sessions == p.sessions && Load(p') < Load(p)))
  {
    step := Progress(lib, servers, steps, i);
    OrderlySnoc(lib, servers, steps, step);
    HelpfulStep(lib, servers, Execute(lib, steps).value, i, step);
  }

  /** An orderly run after which session `i` has read `requests`, is at rest, and
      has given its client the whole reply to each. */
  predicate Settled(lib: Library, servers: nat -> Server, steps: seq<Step>, i: nat, requests: seq<Bytes>) {
    && OrderlyRun(lib, servers, steps) && i < |Execute(lib, steps).value.sessions|
    && var t, srv := Execute(lib, steps).value.sessions[i], servers(i);
    && !t.ended && AtRest(srv, t) && t.clientRead == requests
    && |t.verdicts| == |t.clientRead| && Received(t.toClient) == Replies(srv, t.verdicts)
  }

  /** Every orderly run can be continued, without a new request of session `i`,
      until that session is at rest; its client then has the whole reply to every
      request. */
  lemma Completes(lib: Library, servers: nat -> Server, steps: seq<Step>, i: nat) returns (longer: seq<Step>)
    requires OrderlyRun(lib, servers, steps)
    requires i < |Execute(lib, steps).value.sessions| && !Execute(lib, steps).value.sessions[i].ended
    ensures steps <= longer && OnwardFrom(i, longer, |steps|)
    ensures Settled(lib, servers, longer, i, Execute(lib, steps).value.sessions[i].clientRead)
    decreases Rank(servers(i), Execute(lib, steps).value.sessions[i]), Load(Execute(lib, steps).value)
  {
    if AtRest(servers(i), Execute(lib, steps).value.sessions[i]) {
      longer := steps;
      RunReplies(lib, servers, steps, i);
    } else {
      var step := StepOn(lib, servers, steps, i);
      longer := Completes(lib, servers, steps + [step], i);
      assert longer[|steps|] == (steps + [step])[|steps|];
    }
  }

  /** The first request, or one whose predecessor got a response, may be sent. */
  predicate MaySend(srv: Server, s: Session, request: Bytes) {
    && !s.ended && AtRest(srv, s) && ValidRequest(request)
    && (s.sent != [] ==> srv.response(Last(s.sent).id) != [])
  }

  lemma RequestInOrder(lib: Library, servers: nat -> Server, steps: seq<Step>, i: nat, request: Bytes)
    requires OrderlyRun(lib, servers, steps) && i < |Execute(lib, steps).value.sessions|
    requires MaySend(servers(i), Execute(lib, steps).value.sessions[i], request)
    ensures var step, s := SessionSteps(i, ClientReads(request)), Execute(lib, steps).value.sessions[i];
            && OrderlyRun(lib, servers, steps + [step])
            && Execute(lib, steps + [step]) == Some(After(lib, Execute(lib, steps).value, step))
            && Execute(lib, steps + [step]).value.sessions[i] == s.(
                 client := WantsHandler(Tagged(|s.clientRead|, [], FreshContext(TextOf(lib, request))),
                                        Protocol.Packet(request).PacketType().value),
                 readBuf := request, clientRead := s.clientRead + [request])
  {
    AlwaysDisciplined(lib, servers, steps);
    RunReplies(lib, servers, steps, i);
    var s := Execute(lib, steps).value.sessions[i];
    DisciplineGives(lib, servers(i), s);
    RequestEffect(lib, s, request);
    OrderlySnoc(lib, servers, steps, SessionSteps(i, ClientReads(request)));
  }

  /** A client whose session is at rest may send any valid request, and can be
      answered: it then has the reply to that request too, which is the database's
      response or a body from the cache. */
  lemma Replied(lib: Library, servers: nat -> Server, steps: seq<Step>, i: nat, request: Bytes) returns (longer: seq<Step>)
    requires OrderlyRun(lib, servers, steps) && i < |Execute(lib, steps).value.sessions|
    requires MaySend(servers(i), Execute(lib, steps).value.sessions[i], request)
    ensures steps + [SessionSteps(i, ClientReads(request))] <= longer && OnwardFrom(i, longer, |steps| + 1)
    ensures Settled(lib, servers, longer, i, Execute(lib, steps).value.sessions[i].clientRead + [request])
  {
    RequestInOrder(lib, servers, steps, i, request);
    longer := Completes(lib, servers, steps + [SessionSteps(i, ClientReads(request))], i);
  }
}
