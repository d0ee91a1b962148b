/** Cache transparency: sessions that share one Redis cannot tell it from the
    database, as long as the requests that are looked up have answers their
    text determines. */
module Sharing {
  import opened Basics
  import opened Meta
  import opened Handler
  import opened Session
  import opened Conservation
  import opened Streams
  import opened Discipline
  import opened Truth
  import opened System
  import opened Runs
  import Comments
  import Keys

  predicate HonestStep(lib: Library, servers: nat -> Server, texts: string -> Bytes, p: Proxy, step: Step) {
    step.SessionSteps? && step.i < |p.sessions| ==>
      HonestLookup(lib, servers(step.i), texts, p.sessions[step.i], step.move)
  }

  predicate HonestRun(lib: Library, servers: nat -> Server, texts: string -> Bytes, steps: seq<Step>) {
    steps != [] ==>
      var before := steps[..|steps| - 1];
      && HonestRun(lib, servers, texts, before)
      && (Execute(lib, before).Some? ==>
            HonestStep(lib, servers, texts, Execute(lib, before).value, steps[|steps| - 1]))
  }

  // ---- the shared cache ------------------------------------------------------------

  /** Every queued, held or stored body is the answer of the text of its key. */
  predicate CacheTruthful(texts: string -> Bytes, p: Proxy) {
    && (forall i :: 0 <= i < |p.tasks| ==> Truthful(texts, p.tasks[i].task))
    && (p.worker.Some? ==> Truthful(texts, p.worker.value.task))
    && (forall key :: key in p.redis ==> Truthful(texts, p.redis[key].origin.task))
  }

  predicate Honest(srv: Server, texts: string -> Bytes, s: Session) {
    Lookups(srv, texts, s) && TrueHits(srv, s)
  }

  predicate AllHonest(servers: nat -> Server, texts: string -> Bytes, p: Proxy) {
    forall i :: 0 <= i < |p.sessions| ==> Honest(servers(i), texts, p.sessions[i])
  }

  /** What a looked-up key leads to is the answer of the text that was looked up. */
  lemma StoredTruthful(lib: Library, texts: string -> Bytes, p: Proxy, sql: string, response: Bytes)
    requires CacheTruthful(texts, p) && Kept(lib, p) && Cacheable(texts, sql, response)
    requires Keys.LookupKey(sql) in p.redis
    ensures p.redis[Keys.LookupKey(sql)].value == response
  {
    var key := Keys.LookupKey(sql);
    assert EntryOk(lib, p.now, key, p.redis[key]);
    Keys.KeySound(lib.plain, p.redis[key].origin.task.sql, sql);
  }

  lemma LookedUp(lib: Library, srv: Server, texts: string -> Bytes, s: Session)
    requires Lookups(srv, texts, s) && Tags(lib, s) && s.client.WantsGet?
    ensures s.client.tag.ctx.sql.Some? && s.client.key == Keys.LookupKey(s.client.tag.ctx.sql.value)
    ensures Cacheable(texts, s.client.tag.ctx.sql.value, srv.response(s.client.tag.id))
  {
    assert Consulting(s.client);
  }

  /** Redis's reply to a looked-up request is empty or the database's own response
      to it. */
  lemma ReplyTruthful(lib: Library, srv: Server, texts: string -> Bytes, p: Proxy, s: Session, l: Label)
    requires CacheTruthful(texts, p) && Kept(lib, p)
    requires Lookups(srv, texts, s) && Tags(lib, s) && Enabled(lib, s, l) && Agrees(p, s, l)
    ensures TruthfulReply(srv, s, l)
  {
    if s.client.WantsGet? && l.GetReplies? && l.get.Got? && l.get.value != [] {
      LookedUp(lib, srv, texts, s);
      StoredTruthful(lib, texts, p, s.client.tag.ctx.sql.value, srv.response(s.client.tag.id));
    }
  }

  lemma NewTaskTruthful(srv: Server, texts: string -> Bytes, i: nat, s: Session, l: Label)
    requires Contexts(s) && Attributed(srv, s) && Lookups(srv, texts, s) && |s.bodies| == |s.finished|
    requires l.RemoteSendsTask? ==> s.remote.SendsTask?
    ensures forall k :: 0 <= k < |NewTasks(i, s, l)| ==> Truthful(texts, NewTasks(i, s, l)[k].task)
  {
    if l.RemoteSendsTask? {
      CurrentTruthful(srv, texts, s);
    }
  }

  lemma CacheStep(lib: Library, texts: string -> Bytes, p: Proxy, step: Step)
    requires CacheTruthful(texts, p) && CanStep(lib, p, step)
    requires step.SessionSteps? ==>
               forall k :: 0 <= k < |NewTasks(step.i, p.sessions[step.i], step.move)| ==>
                 Truthful(texts, NewTasks(step.i, p.sessions[step.i], step.move)[k].task)
    ensures CacheTruthful(texts, After(lib, p, step))
  {
  }

  /** One session's step, with all it takes from its own discipline. */
  lemma HonestSession(lib: Library, srv: Server, texts: string -> Bytes, p: Proxy, i: nat, s: Session, l: Label)
    requires CacheTruthful(texts, p) && Kept(lib, p) && Tags(lib, s) && Contexts(s) && |s.bodies| == |s.finished|
    requires Requests(srv, s) && Attributed(srv, s) && Lookups(srv, texts, s) && TrueHits(srv, s)
    requires Enabled(lib, s, l) && Agrees(p, s, l) && HonestLookup(lib, srv, texts, s, l)
    ensures Lookups(srv, texts, Next(lib, s, l)) && TrueHits(srv, Next(lib, s, l))
    ensures forall k :: 0 <= k < |NewTasks(i, s, l)| ==> Truthful(texts, NewTasks(i, s, l)[k].task)
  {
    ReplyTruthful(lib, srv, texts, p, s, l);
    LookupsStep(lib, srv, texts, s, l);
    TrueHitsStep(lib, srv, s, l);
    NewTaskTruthful(srv, texts, i, s, l);
  }

  lemma DisciplineTags(lib: Library, srv: Server, s: Session)
    requires Disciplined(lib, srv, s)
    ensures Tags(lib, s) && Contexts(s) && |s.bodies| == |s.finished| && Requests(srv, s) && Attributed(srv, s)
  {
    SoundTags(lib, s);
  }

  lemma HonestStart(srv: Server, texts: string -> Bytes)
    ensures Honest(srv, texts, INITIAL)
  {
  }

  /** Every honest step, of a session, the worker, the clock or a job, keeps the
      shared cache and every answer from it truthful. */
  lemma HonestKept(lib: Library, servers: nat -> Server, texts: string -> Bytes, p: Proxy, step: Step)
    requires CacheTruthful(texts, p) && AllHonest(servers, texts, p) && Kept(lib, p)
    requires AllDisciplined(lib, servers, p) && CanStep(lib, p, step) && HonestStep(lib, servers, texts, p, step)
    ensures CacheTruthful(texts, After(lib, p, step)) && AllHonest(servers, texts, After(lib, p, step))
  {
    var inv := (i: nat, s: Session) => Honest(servers(i), texts, s);
    if step.SessionSteps? {
      HonestOne(lib, servers(step.i), texts, p, step.i, step.move);
    } else {
      HonestStart(servers(|p.sessions|), texts);
    }
    CacheStep(lib, texts, p, step);
    SessionsStep(lib, p, step, inv);
    assert forall i :: 0 <= i < |After(lib, p, step).sessions| ==> inv(i, After(lib, p, step).sessions[i]);
  }

  lemma HonestOne(lib: Library, srv: Server, texts: string -> Bytes, p: Proxy, i: nat, l: Label)
    requires i < |p.sessions| && Enabled(lib, p.sessions[i], l) && Agrees(p, p.sessions[i], l)
    requires CacheTruthful(texts, p) && Kept(lib, p)
    requires Honest(srv, texts, p.sessions[i]) && Disciplined(lib, srv, p.sessions[i])
    requires HonestLookup(lib, srv, texts, p.sessions[i], l)
    ensures Honest(srv, texts, Next(lib, p.sessions[i], l))
    ensures forall k :: 0 <= k < |NewTasks(i, p.sessions[i], l)| ==> Truthful(texts, NewTasks(i, p.sessions[i], l)[k].task)
  {
    DisciplineTags(lib, srv, p.sessions[i]);
    HonestSession(lib, srv, texts, p, i, p.sessions[i], l);
  }

  lemma {:induction false} AlwaysHonest(lib: Library, servers: nat -> Server, texts: string -> Bytes, steps: seq<Step>)
    requires OrderlyRun(lib, servers, steps) && HonestRun(lib, servers, texts, steps)
    ensures CacheTruthful(texts, Execute(lib, steps).value) && AllHonest(servers, texts, Execute(lib, steps).value)
  {
    if steps != [] {
      var before := steps[..|steps| - 1];
      AlwaysHonest(lib, servers, texts, before);
      AlwaysKept(lib, before);
      AlwaysDisciplined(lib, servers, before);
      HonestKept(lib, servers, texts, Execute(lib, before).value, steps[|steps| - 1]);
    }
  }

  // ---- transparency ------------------------------------------------------------------

  lemma HonestGives(lib: Library, srv: Server, texts: string -> Bytes, s: Session)
    requires Disciplined(lib, srv, s) && Honest(srv, texts, s)
    ensures Contexts(s) && Reports(lib, s) && Requests(srv, s) && Flow(srv, s) && Attributed(srv, s)
    ensures Lookups(srv, texts, s) && TrueHits(srv, s)
  {
  }

  /** Cache transparency: in every orderly, honest run of any number of sessions,
      each client has read a prefix of what a direct connection would have given
      it, and exactly that whenever its session is at rest. */
  lemma Transparency(lib: Library, servers: nat -> Server, texts: string -> Bytes, steps: seq<Step>, i: nat)
    requires OrderlyRun(lib, servers, steps) && HonestRun(lib, servers, texts, steps)
    requires i < |Execute(lib, steps).value.sessions|
    ensures var s, srv := Execute(lib, steps).value.sessions[i], servers(i);
            && Received(s.toClient) <= Direct(srv, |s.clientRead|)
            && (AtRest(srv, s) ==> Received(s.toClient) == Direct(srv, |s.clientRead|))
  {
    AlwaysHonest(lib, servers, texts, steps);
    AlwaysDisciplined(lib, servers, steps);
    HonestGives(lib, servers(i), texts, Execute(lib, steps).value.sessions[i]);
    SessionTransparent(servers(i), Execute(lib, steps).value.sessions[i]);
  }

  /** For every orderly, honest run: each cache write of each session holds the
      answer of its own text. */
  lemma RunTasks(lib: Library, servers: nat -> Server, texts: string -> Bytes, steps: seq<Step>, i: nat)
    requires OrderlyRun(lib, servers, steps) && HonestRun(lib, servers, texts, steps)
    requires i < |Execute(lib, steps).value.sessions|
    ensures forall task :: task in Execute(lib, steps).value.sessions[i].tasks ==> Truthful(texts, task)
  {
    AlwaysHonest(lib, servers, texts, steps);
    AlwaysDisciplined(lib, servers, steps);
    HonestGives(lib, servers(i), texts, Execute(lib, steps).value.sessions[i]);
    TasksTruthful(lib, servers(i), texts, Execute(lib, steps).value.sessions[i]);
  }

  // ---- honest runs go on ------------------------------------------------------------------

  /** A request that waits for its decision is cacheable, should it be looked up. */
  predicate HonestPending(lib: Library, srv: Server, texts: string -> Bytes, s: Session) {
    s.client.WantsHandler? && s.client.kind.ComQuery? && s.client.tag.ctx.sql.Some?
    && IsSelect(lib, s.client.tag.ctx.sql.value) ==>
      s.sent != [] && Cacheable(texts, s.client.tag.ctx.sql.value, srv.response(s.client.tag.id))
  }

  lemma PendingLookup(lib: Library, srv: Server, texts: string -> Bytes, s: Session, l: Label)
    requires HonestPending(lib, srv, texts, s) && Enabled(lib, s, l) && !l.ClientReads?
    ensures HonestLookup(lib, srv, texts, s, l) && HonestPending(lib, srv, texts, Next(lib, s, l))
  {
    if !ByClient(l) {
      RemoteFrame(lib, s, l);
    } else if Deciding(l) {
      DecisionEffect(lib, s, l);
    } else {
      SendEffect(lib, s, l);
    }
  }

  lemma HonestSnoc(lib: Library, servers: nat -> Server, texts: string -> Bytes, steps: seq<Step>, step: Step)
    requires HonestRun(lib, servers, texts, steps)
    requires Execute(lib, steps).Some? ==> HonestStep(lib, servers, texts, Execute(lib, steps).value, step)
    ensures HonestRun(lib, servers, texts, steps + [step])
  {
    assert (steps + [step])[..|steps|] == steps;
  }

  lemma PendingOnward(lib: Library, servers: nat -> Server, texts: string -> Bytes, p: Proxy, i: nat, step: Step)
    requires i < |p.sessions| && HonestPending(lib, servers(i), texts, p.sessions[i])
    requires CanStep(lib, p, step) && Onward(i, step)
    ensures HonestStep(lib, servers, texts, p, step)
    ensures i < |After(lib, p, step).sessions| && HonestPending(lib, servers(i), texts, After(lib, p, step).sessions[i])
  {
    if step.SessionSteps? {
      PendingLookup(lib, servers(i), texts, p.sessions[i], step.move);
    }
  }

  /** A run stays honest when a session whose request is cacheable goes on. */
  lemma {:induction false} HonestOnward(lib: Library, servers: nat -> Server, texts: string -> Bytes, steps: seq<Step>, i: nat, longer: seq<Step>)
    requires steps <= longer && Execute(lib, longer).Some? && OnwardFrom(i, longer, |steps|)
    requires HonestRun(lib, servers, texts, steps)
    requires Execute(lib, steps).Some? && i < |Execute(lib, steps).value.sessions|
    requires HonestPending(lib, servers(i), texts, Execute(lib, steps).value.sessions[i])
    ensures HonestRun(lib, servers, texts, longer) && i < |Execute(lib, longer).value.sessions|
    ensures HonestPending(lib, servers(i), texts, Execute(lib, longer).value.sessions[i])
  {
    if steps != longer {
      var before, last := longer[..|longer| - 1], longer[|longer| - 1];
      HonestOnward(lib, servers, texts, steps, i, before);
      PendingOnward(lib, servers, texts, Execute(lib, before).value, i, last);
    }
  }

  /** A client whose session is at rest may send any valid request that is
      cacheable if it is a SELECT, and can be answered exactly as the database
      itself would, in a run that stays honest. */
  lemma RepliedTruly(lib: Library, servers: nat -> Server, texts: string -> Bytes, steps: seq<Step>, i: nat, request: Bytes)
    returns (longer: seq<Step>)
    requires OrderlyRun(lib, servers, steps) && HonestRun(lib, servers, texts, steps)
    requires i < |Execute(lib, steps).value.sessions| && MaySend(servers(i), Execute(lib, steps).value.sessions[i], request)
    requires HonestRequest(lib, servers(i), texts, Execute(lib, steps).value.sessions[i], request)
    ensures steps <= longer && HonestRun(lib, servers, texts, longer)
    ensures Settled(lib, servers, longer, i, Execute(lib, steps).value.sessions[i].clientRead + [request])
    ensures var n, srv := |Execute(lib, steps).value.sessions[i].clientRead|, servers(i);
            Received(Execute(lib, longer).value.sessions[i].toClient) == Direct(srv, n) + srv.response(n)
  {
    var step := SessionSteps(i, ClientReads(request));
    RequestInOrder(lib, servers, steps, i, request);
    HonestSnoc(lib, servers, texts, steps, step);
    RequestPending(lib, servers, texts, steps, i, request);
    longer := Replied(lib, servers, steps, i, request);
    HonestOnward(lib, servers, texts, steps + [step], i, longer);
    Transparency(lib, servers, texts, longer, i);
  }

  predicate HonestRequest(lib: Library, srv: Server, texts: string -> Bytes, s: Session, request: Bytes)
    requires ValidRequest(request)
  {
    var sql := TextOf(lib, request);
    sql.Some? && IsSelect(lib, sql.value) ==> s.sent != [] && Cacheable(texts, sql.value, srv.response(|s.clientRead|))
  }

  lemma RequestPending(lib: Library, servers: nat -> Server, texts: string -> Bytes, steps: seq<Step>, i: nat, request: Bytes)
    requires OrderlyRun(lib, servers, steps)
    requires i < |Execute(lib, steps).value.sessions| && MaySend(servers(i), Execute(lib, steps).value.sessions[i], request)
    requires HonestRequest(lib, servers(i), texts, Execute(lib, steps).value.sessions[i], request)
    ensures var first := steps + [SessionSteps(i, ClientReads(request))];
            && Execute(lib, first).Some? && i < |Execute(lib, first).value.sessions|
            && HonestPending(lib, servers(i), texts, Execute(lib, first).value.sessions[i])
  {
    RequestInOrder(lib, servers, steps, i, request);
  }
}
