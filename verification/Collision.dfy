/** Why the hypothesis of transparency is needed: whenever the key one request
    is looked up under is the key another text is stored under, there is an
    orderly run in which a client is answered with the other text's body. */
module Collision {
  import opened Basics
  import opened Protocol
  import opened Meta
  import opened Handler
  import opened Session
  import opened Conservation
  import opened Streams
  import opened Discipline
  import opened System
  import opened Runs
  import opened Loops
  import opened Truth
  import opened Tokens
  import Comments
  import Deadlock
  import Keys

  /** An orderly run to a proxy whose only session is `s`. */
  predicate At(lib: Library, servers: nat -> Server, steps: seq<Step>, p: Proxy, s: Session) {
    OrderlyRun(lib, servers, steps) && Execute(lib, steps) == Some(p) && p.sessions == [s]
  }

  /** What a step of the session leaves alone. */
  predicate SameShared(p: Proxy, p': Proxy) {
    && p'.now == p.now && p'.entities == p.entities && p'.redis == p.redis && p'.worker == p.worker
    && |p'.logs| <= |p.logs| + 1
  }

  lemma Do(lib: Library, servers: nat -> Server, steps: seq<Step>, p: Proxy, s: Session, l: Label)
    returns (steps': seq<Step>, p': Proxy, s': Session)
    requires At(lib, servers, steps, p, s)
    requires Enabled(lib, s, l) && Agrees(p, s, l) && Orderly(servers(0), s, l)
    ensures At(lib, servers, steps', p', s') && s' == Next(lib, s, l)
    ensures SameShared(p, p') && p'.tasks == p.tasks + NewTasks(0, s, l) && (NewLogs(l) == [] ==> p'.logs == p.logs)
  {
    OrderlySnoc(lib, servers, steps, SessionSteps(0, l));
    steps', p', s' := steps + [SessionSteps(0, l)], After(lib, p, SessionSteps(0, l)), Next(lib, s, l);
  }

  // ---- a request that is forwarded -------------------------------------------------

  /** At rest, with every byte of the database read. */
  predicate Even(srv: Server, s: Session) {
    && Idle(s) && s.channel == [] && s.readBuf == []
    && Concat(s.remoteRead) == Stream(srv, s.sent)
  }

  /** The context of a request that is forwarded when the cache has nothing. */
  function ForwardedTag(lib: Library, p: Proxy, n: nat, request: Bytes): Tagged
    requires ValidRequest(request)
  {
    var ctx := FreshContext(TextOf(lib, request));
    Tagged(n, p.entities, Decide(lib, p.entities, ctx, Packet(request).PacketType().value, Got(false), Failed).ctx)
  }

  predicate Misses(lib: Library, p: Proxy, request: Bytes)
    requires ValidRequest(request)
  {
    TextOf(lib, request).Some? ==> !Present(p.redis, Keys.LookupKey(TextOf(lib, request).value), p.now)
  }

  /** A request that has just been read. */
  predicate Pending(lib: Library, s: Session, request: Bytes) {
    && ValidRequest(request) && s.clientRead != []
    && s.client == WantsHandler(Tagged(|s.clientRead| - 1, [], FreshContext(TextOf(lib, request))),
                                Packet(request).PacketType().value)
  }

  function Sends(lib: Library, p: Proxy, s: Session, request: Bytes): Session
    requires Pending(lib, s, request)
  {
    s.(handler := ClientLoop, client := SendsContext(ForwardedTag(lib, p, |s.clientRead| - 1, request)))
  }

  lemma DecideEffect(lib: Library, p: Proxy, s: Session, request: Bytes)
    requires Pending(lib, s, request)
    ensures var t := TakeHandler(lib, s, p.entities);
            || t == Sends(lib, p, s, request)
            || (&& t.client.WantsExists? && t.ended == s.ended && TextOf(lib, request).Some?
                && t.client.key == Keys.LookupKey(TextOf(lib, request).value)
                && AtStage(t, t.client.tag, OnExists(t.client.tag.ctx, t.client.key, t.client.duration, Got(false)))
                   == Sends(lib, p, s, request))
  {
  }

  lemma Decides(lib: Library, servers: nat -> Server, steps: seq<Step>, p: Proxy, s: Session, request: Bytes)
    returns (steps': seq<Step>, p': Proxy, s': Session)
    requires At(lib, servers, steps, p, s) && Pending(lib, s, request) && Misses(lib, p, request)
    requires !s.ended && s.handler == Free
    ensures At(lib, servers, steps', p', s') && SameShared(p, p') && p'.tasks == p.tasks && p'.logs == p.logs
    ensures s' == Sends(lib, p, s, request)
  {
    DecideEffect(lib, p, s, request);
    steps', p', s' := Do(lib, servers, steps, p, s, ClientTakesHandler(p.entities));
    if s' != Sends(lib, p, s, request) {
      steps', p', s' := Do(lib, servers, steps', p', s', ExistsReplies(Got(false)));
    }
  }

  lemma Reads(lib: Library, servers: nat -> Server, steps: seq<Step>, p: Proxy, s: Session, request: Bytes)
    returns (steps': seq<Step>, p': Proxy, s': Session)
    requires At(lib, servers, steps, p, s) && Even(servers(0), s) && MaySend(servers(0), s, request)
    ensures At(lib, servers, steps', p', s') && SameShared(p, p') && p'.tasks == p.tasks && p'.logs == p.logs
    ensures Pending(lib, s', request) && s' == s.(client := s'.client, readBuf := request, clientRead := s.clientRead + [request])
  {
    RunReplies(lib, servers, steps, 0);
    RequestEffect(lib, s, request);
    steps', p', s' := Do(lib, servers, steps, p, s, ClientReads(request));
  }

  lemma SendsOn(lib: Library, servers: nat -> Server, steps: seq<Step>, p: Proxy, s: Session)
    returns (steps': seq<Step>, p': Proxy, s': Session)
    requires At(lib, servers, steps, p, s) && !s.ended && s.client.SendsContext? && s.channel == []
    ensures At(lib, servers, steps', p', s') && SameShared(p, p') && p'.tasks == p.tasks && p'.logs == p.logs
    ensures s' == Forwards(s)
  {
    steps', p', s' := Do(lib, servers, steps, p, s, ClientSendsContext);
    steps', p', s' := Do(lib, servers, steps', p', s', ClientWritesRemote);
  }

  /** The client loop reads a request, finds nothing in the cache and forwards it. */
  lemma ForwardTurn(lib: Library, servers: nat -> Server, steps: seq<Step>, p: Proxy, s: Session, request: Bytes)
    returns (steps': seq<Step>, p': Proxy, s': Session)
    requires At(lib, servers, steps, p, s) && Even(servers(0), s) && MaySend(servers(0), s, request)
    requires Misses(lib, p, request)
    ensures At(lib, servers, steps', p', s') && SameShared(p, p') && p'.tasks == p.tasks && p'.logs == p.logs
    ensures Idle(s') && s'.readBuf == [] && SameRemoteSide(s, s') && s'.clientRead == s.clientRead + [request]
    ensures s'.channel == [ForwardedTag(lib, p, |s.clientRead|, request)] && s'.sent == s.sent + s'.channel
    ensures s'.verdicts == s.verdicts + [Forwarded]
  {
    var steps1, p1, s1 := Reads(lib, servers, steps, p, s, request);
    var steps2, p2, s2 := Decides(lib, servers, steps1, p1, s1, request);
    ForwardsEffect(s2);
    steps', p', s' := SendsOn(lib, servers, steps2, p2, s2);
  }

  // ---- a response -----------------------------------------------------------------------

  predicate Room(p: Proxy) {
    |p.tasks| < QUEUE_SIZE && |p.logs| < QUEUE_SIZE
  }

  /** What finishing the current context puts into the queue of cache writes. */
  function Finished(s: Session): seq<Queued> {
    if s.cachedCtx.Some? && TaskOf(s.cachedCtx.value.ctx, s.cachedBuf).Some?
    then [Queued(TaskOf(s.cachedCtx.value.ctx, s.cachedBuf).value, s.cachedCtx.value.seen, 0)]
    else []
  }

  /** The state after the current context is finished and `log` is written. */
  function Adopted(s: Session, log: Option<ExecLog>): Session
    requires s.remote.WantsHandlerToFinish? && s.cachedCtx.Some?
  {
    Adopt(s.(tasks := s.tasks + Opt(TaskOf(s.cachedCtx.value.ctx, s.cachedBuf)), logged := s.logged + Opt(log)),
          s.remote.data, s.remote.next)
  }

  /** The cache write is sent, if there is one. */
  lemma Tasks(lib: Library, servers: nat -> Server, steps: seq<Step>, p: Proxy, s: Session)
    returns (steps': seq<Step>, p': Proxy, s': Session)
    requires At(lib, servers, steps, p, s) && Room(p)
    requires !s.ended && s.client.Reading? && s.handler == Free && s.remote.WantsHandlerToFinish? && s.cachedCtx.Some?
    ensures At(lib, servers, steps', p', s') && SameShared(p, p') && p'.tasks == p.tasks + Finished(s) && p'.logs == p.logs
    ensures s' == Adopted(s, None)
         || (&& s'.remote.LogsFinished? && s'.cachedCtx == s.cachedCtx && !s'.ended
             && ContextPattern(lib, s.cachedCtx.value.ctx).Some?
             && forall log :: Adopt(s'.(logged := s'.logged + [log]), s'.remote.data, s'.remote.next) == Adopted(s, Some(log)))
  {
    AppendNothing(s.tasks);
    AppendNothing(s.logged);
    AppendNothing(p.tasks);
    steps', p', s' := Do(lib, servers, steps, p, s, RemoteTakesHandler);
    if s'.remote.SendsTask? {
      steps', p', s' := Do(lib, servers, steps', p', s', RemoteSendsTask);
    }
  }

  lemma AdoptedEffect(s: Session, log: Option<ExecLog>)
    requires s.remote.WantsHandlerToFinish? && s.cachedCtx.Some? && s.client.Reading?
    ensures var t := Adopted(s, log);
            && SameClientSide(s, t) && t.ended == s.ended && t.handler == Free && t.writer == s.writer
            && t.channel == s.channel && t.remote == WantsHandlerToRespond(s.remote.data)
            && t.remoteRead == s.remoteRead && t.cachedCtx == Some(s.remote.next) && t.cachedBuf == s.remote.data
  {
  }

  /** The new context is adopted; the old one is finished. */
  lemma Adopts(lib: Library, servers: nat -> Server, steps: seq<Step>, p: Proxy, s: Session)
    returns (steps': seq<Step>, p': Proxy, s': Session, log: Option<ExecLog>)
    requires At(lib, servers, steps, p, s) && Room(p)
    requires !s.ended && s.client.Reading? && s.handler == Free && s.remote.WantsHandlerToFinish? && s.cachedCtx.Some?
    ensures At(lib, servers, steps', p', s') && SameShared(p, p') && p'.tasks == p.tasks + Finished(s)
    ensures s' == Adopted(s, log)
  {
    steps', p', s' := Tasks(lib, servers, steps, p, s);
    log := None;
    if s' != Adopted(s, None) {
      log := Some(Deadlock.LogEntry(lib, s.cachedCtx.value));
      steps', p', s' := Do(lib, servers, steps', p', s', RemoteLogs(log.value));
    }
  }

  lemma RelaysOn(lib: Library, servers: nat -> Server, steps: seq<Step>, p: Proxy, s: Session)
    returns (steps': seq<Step>, p': Proxy, s': Session)
    requires At(lib, servers, steps, p, s)
    requires !s.ended && s.client.Reading? && s.handler == Free && s.writer == Free
    requires s.remote.WantsHandlerToRespond? || s.remote.WantsWriterToRelay?
    ensures At(lib, servers, steps', p', s') && SameShared(p, p') && p'.tasks == p.tasks && p'.logs == p.logs
    ensures SameClientSide(s, s') && Idle(s') && s'.channel == s.channel && s'.remoteRead == s.remoteRead
    ensures s'.cachedCtx == s.cachedCtx && s'.cachedBuf == s.cachedBuf
  {
    steps', p', s' := steps, p, s;
    if s.remote.WantsHandlerToRespond? {
      steps', p', s' := Do(lib, servers, steps', p', s', RemoteTakesHandler);
    }
    steps', p', s' := Do(lib, servers, steps', p', s', RemoteTakesWriter);
    steps', p', s' := Do(lib, servers, steps', p', s', RemoteRelays);
  }

  /** The remote loop reads one chunk and relays it. */
  lemma ResponseTurn(lib: Library, servers: nat -> Server, steps: seq<Step>, p: Proxy, s: Session, chunk: Bytes)
    returns (steps': seq<Step>, p': Proxy, s': Session)
    requires At(lib, servers, steps, p, s) && Room(p) && Idle(s) && |s.channel| <= 1
    requires 1 <= |chunk| <= BUFFER_SIZE && Concat(s.remoteRead) + chunk <= Stream(servers(0), s.sent)
    ensures At(lib, servers, steps', p', s') && SameShared(p, p')
    ensures p'.tasks == p.tasks + (if s.channel == [] then [] else Finished(s))
    ensures SameClientSide(s, s') && Idle(s') && s'.channel == [] && s'.remoteRead == s.remoteRead + [chunk]
    ensures s.channel == [] ==> s'.cachedCtx == s.cachedCtx
    ensures s.channel != [] ==> s'.cachedCtx == Some(s.channel[0])
    ensures s.channel != [] && s.cachedCtx.Some? ==> s'.cachedBuf == chunk
  {
    steps', p', s' := Do(lib, servers, steps, p, s, RemoteReads(chunk));
    if s'.remote.WantsHandlerToFinish? {
      var mid := s';
      var log;
      steps', p', s', log := Adopts(lib, servers, steps', p', s');
      AdoptedEffect(mid, log);
    }
    steps', p', s' := RelaysOn(lib, servers, steps', p', s');
  }

  /** A request is forwarded, its response is relayed. */
  lemma Exchange(lib: Library, servers: nat -> Server, steps: seq<Step>, p: Proxy, s: Session, request: Bytes)
    returns (steps': seq<Step>, p': Proxy, s': Session)
    requires At(lib, servers, steps, p, s) && Even(servers(0), s) && Room(p) && MaySend(servers(0), s, request)
    requires Misses(lib, p, request) && 1 <= |servers(0).response(|s.clientRead|)| <= BUFFER_SIZE
    ensures At(lib, servers, steps', p', s') && Even(servers(0), s') && SameShared(p, p')
    ensures p'.tasks == p.tasks + Finished(s)
    ensures s'.clientRead == s.clientRead + [request] && s'.verdicts == s.verdicts + [Forwarded]
    ensures s'.sent != [] && Last(s'.sent).id == |s.clientRead|
    ensures s'.cachedCtx == Some(ForwardedTag(lib, p, |s.clientRead|, request))
    ensures s.cachedCtx.Some? ==> s'.cachedBuf == servers(0).response(|s.clientRead|)
  {
    var tag := ForwardedTag(lib, p, |s.clientRead|, request);
    var steps1, p1, s1 := ForwardTurn(lib, servers, steps, p, s, request);
    SameFinished(s, s1);
    steps', p', s' := Responds(lib, servers, steps1, p1, s, s1, tag);
  }

  /** The forwarded request gets its response. */
  lemma Responds(lib: Library, servers: nat -> Server, steps: seq<Step>, p: Proxy, past: Session, s: Session, tag: Tagged)
    returns (steps': seq<Step>, p': Proxy, s': Session)
    requires At(lib, servers, steps, p, s) && Room(p) && Idle(s) && s.readBuf == [] && s.channel == [tag]
    requires Even(servers(0), past) && s.sent == past.sent + [tag] && s.remoteRead == past.remoteRead
    requires 1 <= |servers(0).response(tag.id)| <= BUFFER_SIZE
    ensures At(lib, servers, steps', p', s') && Even(servers(0), s') && SameShared(p, p')
    ensures p'.tasks == p.tasks + Finished(s)
    ensures s'.clientRead == s.clientRead && s'.verdicts == s.verdicts && s'.sent == s.sent
    ensures s'.cachedCtx == Some(tag)
    ensures s.cachedCtx.Some? ==> s'.cachedBuf == servers(0).response(tag.id)
  {
    var response := servers(0).response(tag.id);
    ResponseReady(servers(0), past, s, tag, response);
    steps', p', s' := ResponseTurn(lib, servers, steps, p, s, response);
    EvenAgain(servers(0), past, s', tag, response);
  }

  lemma ResponseReady(srv: Server, s: Session, t: Session, tag: Tagged, response: Bytes)
    requires Even(srv, s) && response == srv.response(tag.id)
    requires t.sent == s.sent + [tag] && t.remoteRead == s.remoteRead
    ensures Concat(t.remoteRead) + response <= Stream(srv, t.sent)
  {
    StreamSnoc(srv, s.sent, tag);
  }

  lemma SameFinished(s: Session, t: Session)
    requires t.cachedCtx == s.cachedCtx && t.cachedBuf == s.cachedBuf
    ensures Finished(t) == Finished(s)
  {
  }

  lemma EvenAgain(srv: Server, s: Session, t: Session, tag: Tagged, response: Bytes)
    requires Even(srv, s) && response == srv.response(tag.id)
    requires Idle(t) && t.channel == [] && t.readBuf == []
    requires t.sent == s.sent + [tag] && t.remoteRead == s.remoteRead + [response]
    ensures Even(srv, t) && Last(t.sent) == tag
  {
    StreamSnoc(srv, s.sent, tag);
    ConcatSnoc(s.remoteRead, response);
  }

  lemma EvenRests(lib: Library, servers: nat -> Server, s: Session, request: Bytes)
    requires Even(servers(0), s) && ValidRequest(request) && (s.sent != [] ==> servers(0).response(Last(s.sent).id) != [])
    ensures AtRest(servers(0), s) && MaySend(servers(0), s, request)
  {
  }

  // ---- a request that is answered from the cache ---------------------------------------

  /** The request of a text that the current templates send to the cache. */
  predicate Lookable(lib: Library, entities: seq<CacheConfigEntity>, request: Bytes, text: string) {
    && ValidRequest(request) && Packet(request).PacketType() == Some(ComQuery)
    && TextOf(lib, request) == Some(text)
    && OnRequest(lib, entities, FreshContext(Some(text)), ComQuery).AskingExists?
  }

  lemma HitEffects(lib: Library, p: Proxy, s: Session, request: Bytes, text: string, body: Bytes)
    requires Pending(lib, s, request) && Lookable(lib, p.entities, request, text) && body != []
    ensures var t := TakeHandler(lib, s, p.entities);
            && t.client.WantsExists? && t == s.(handler := ClientLoop, client := t.client)
            && t.client.key == Keys.LookupKey(text)
            && var u := AtStage(t, t.client.tag, OnExists(t.client.tag.ctx, t.client.key, t.client.duration, Got(true)));
            && u.client.WantsGet? && u == t.(client := u.client) && u.client.key == Keys.LookupKey(text)
            && var v := AtStage(u, u.client.tag, OnGet(u.client.tag.ctx, u.client.duration, Got(body)));
            v.client.WantsWriter? && v.client.body == body && v == u.(client := v.client, hits := v.hits)
  {
  }

  lemma Answers(lib: Library, servers: nat -> Server, steps: seq<Step>, p: Proxy, s: Session)
    returns (steps': seq<Step>, p': Proxy, s': Session)
    requires At(lib, servers, steps, p, s) && |p.logs| < QUEUE_SIZE
    requires !s.ended && s.client.WantsWriter? && s.remote.Listening? && s.writer == Free
    ensures At(lib, servers, steps', p', s') && Idle(s')
    ensures SameRemoteSide(s, s') && s'.sent == s.sent && s'.clientRead == s.clientRead
    ensures s'.verdicts == s.verdicts + [Answered(s.client.body)]
  {
    steps', p', s' := Do(lib, servers, steps, p, s, ClientTakesWriter);
    steps', p', s' := Do(lib, servers, steps', p', s', ClientWritesClient);
    if s'.client.LogsHit? {
      steps', p', s' := Do(lib, servers, steps', p', s', ClientLogs(Deadlock.LogEntry(lib, s.client.tag)));
    }
  }

  /** The client loop reads a request and answers it with what Redis holds. */
  lemma HitTurn(lib: Library, servers: nat -> Server, steps: seq<Step>, p: Proxy, s: Session, request: Bytes, text: string)
    returns (steps': seq<Step>, p': Proxy, s': Session)
    requires At(lib, servers, steps, p, s) && Even(servers(0), s) && MaySend(servers(0), s, request) && Room(p)
    requires Lookable(lib, p.entities, request, text)
    requires Present(p.redis, Keys.LookupKey(text), p.now) && Lookup(p.redis, Keys.LookupKey(text), p.now) != []
    ensures At(lib, servers, steps', p', s') && Idle(s') && AtRest(servers(0), s')
    ensures s'.clientRead == s.clientRead + [request]
    ensures s'.verdicts == s.verdicts + [Answered(Lookup(p.redis, Keys.LookupKey(text), p.now))]
  {
    var body := Lookup(p.redis, Keys.LookupKey(text), p.now);
    var steps1, p1, s1 := Reads(lib, servers, steps, p, s, request);
    HitEffects(lib, p1, s1, request, text, body);
    var steps2, p2, s2 := Do(lib, servers, steps1, p1, s1, ClientTakesHandler(p1.entities));
    var steps3, p3, s3 := Do(lib, servers, steps2, p2, s2, ExistsReplies(Got(true)));
    var steps4, p4, s4 := Do(lib, servers, steps3, p3, s3, GetReplies(Got(body)));
    steps', p', s' := Answers(lib, servers, steps4, p4, s4);
  }

  // ---- the run ------------------------------------------------------------------------------

  lemma Greets(lib: Library, servers: nat -> Server, rows: seq<Row>)
    returns (steps: seq<Step>, p: Proxy, s: Session)
    requires 1 <= |servers(0).greeting| <= BUFFER_SIZE
    ensures At(lib, servers, steps, p, s) && Even(servers(0), s)
    ensures p.now == 0.0 && p.entities == Loaded(lib, rows) && p.redis == map[] && p.worker == None
    ensures p.tasks == [] && |p.logs| <= 1
    ensures s.clientRead == [] && s.verdicts == [] && s.sent == [] && s.cachedCtx == None
  {
    steps := [];
    OrderlySnoc(lib, servers, steps, Reloads(rows));
    steps := steps + [Reloads(rows)];
    OrderlySnoc(lib, servers, steps, Accepts);
    steps := steps + [Accepts];
    p, s := Execute(lib, steps).value, INITIAL;
    assert [] + servers(0).greeting == servers(0).greeting;
    steps, p, s := ResponseTurn(lib, servers, steps, p, s, servers(0).greeting);
    assert s.remoteRead == [] + [servers(0).greeting];
    ConcatSnoc([], servers(0).greeting);
  }

  /** The worker stores the only task that is queued. */
  lemma Works(lib: Library, servers: nat -> Server, steps: seq<Step>, p: Proxy, s: Session, q: Queued)
    returns (steps': seq<Step>, p': Proxy)
    requires At(lib, servers, steps, p, s) && p.tasks == [q] && p.worker == None
    ensures At(lib, servers, steps', p', s) && p'.entities == p.entities && p'.logs == p.logs && p'.tasks == []
    ensures Present(p'.redis, Keys.StoreKey(lib.plain, q.task.sql), p'.now)
    ensures Lookup(p'.redis, Keys.StoreKey(lib.plain, q.task.sql), p'.now) == q.task.body
  {
    OrderlySnoc(lib, servers, steps, WorkerReceives);
    steps' := steps + [WorkerReceives];
    OrderlySnoc(lib, servers, steps', WorkerStores);
    steps' := steps' + [WorkerStores];
    p' := Execute(lib, steps').value;
  }

  lemma PingForwards(lib: Library, p: Proxy, n: nat)
    ensures ValidRequest(Deadlock.PING)
    ensures !ForwardedTag(lib, p, n, Deadlock.PING).ctx.shouldUpdateCache
  {
  }

  lemma LookedUpWrites(lib: Library, p: Proxy, n: nat, request: Bytes, text: string)
    requires Lookable(lib, p.entities, request, text)
    ensures var ctx := ForwardedTag(lib, p, n, request).ctx; ctx.shouldUpdateCache && !ctx.skip && ctx.sql == Some(text)
  {
  }

  lemma Two<T>(a: T, b: T)
    ensures [] + [a] == [a] && [a] + [b] == [a, b]
  {
  }

  lemma Three<T>(a: T, b: T, c: T)
    ensures [a, b] + [c] == [a, b, c]
  {
  }

  lemma MissesAll(lib: Library, p: Proxy, request: Bytes)
    requires p.redis == map[] && ValidRequest(request)
    ensures Misses(lib, p, request)
  {
  }

  lemma NothingFinished(s: Session)
    requires s.cachedCtx.Some? ==> !s.cachedCtx.value.ctx.shouldUpdateCache
    ensures Finished(s) == []
  {
  }

  lemma SomethingFinished(s: Session, text: string)
    requires s.cachedCtx.Some? && s.cachedCtx.value.ctx.sql == Some(text)
    requires s.cachedCtx.value.ctx.shouldUpdateCache && !s.cachedCtx.value.ctx.skip
    ensures |Finished(s)| == 1 && Finished(s)[0].task.sql == text && Finished(s)[0].task.body == s.cachedBuf
  {
  }

  /** A login, and the request of one text. */
  lemma AsksFirst(lib: Library, servers: nat -> Server, rows: seq<Row>, request: Bytes, text: string)
    returns (steps: seq<Step>, p: Proxy, s: Session)
    requires Lookable(lib, Loaded(lib, rows), request, text) && 1 <= |servers(0).greeting| <= BUFFER_SIZE
    requires forall k :: 0 <= k < 3 ==> 1 <= |servers(0).response(k)| <= BUFFER_SIZE
    ensures At(lib, servers, steps, p, s) && Even(servers(0), s)
    ensures p.entities == Loaded(lib, rows) && p.redis == map[] && p.worker == None && p.tasks == [] && |p.logs| <= 3
    ensures s.clientRead == [Deadlock.PING, request] && s.verdicts == [Verdict.Forwarded, Verdict.Forwarded]
    ensures s.sent != [] && Last(s.sent).id == 1
    ensures |Finished(s)| == 1 && Finished(s)[0].task.sql == text && Finished(s)[0].task.body == servers(0).response(1)
  {
    var ping := Deadlock.PING;
    var steps0, p0, s0 := Greets(lib, servers, rows);
    PingForwards(lib, p0, 0);
    EvenRests(lib, servers, s0, ping);
    NothingFinished(s0);
    var steps1, p1, s1 := Exchange(lib, servers, steps0, p0, s0, ping);
    NothingFinished(s1);
    EvenRests(lib, servers, s1, request);
    LookedUpWrites(lib, p1, 1, request, text);
    Two(Deadlock.PING, request);
    Two(Verdict.Forwarded, Verdict.Forwarded);
    steps, p, s := Exchange(lib, servers, steps1, p1, s1, request);
    SomethingFinished(s, text);
  }

  lemma AsksMore(lib: Library, servers: nat -> Server, rows: seq<Row>, request: Bytes, text: string)
    returns (steps: seq<Step>, p: Proxy, s: Session, q: Queued)
    requires Lookable(lib, Loaded(lib, rows), request, text) && 1 <= |servers(0).greeting| <= BUFFER_SIZE
    requires forall k :: 0 <= k < 3 ==> 1 <= |servers(0).response(k)| <= BUFFER_SIZE
    ensures At(lib, servers, steps, p, s) && Even(servers(0), s)
    ensures p.entities == Loaded(lib, rows) && p.worker == None && p.tasks == [q] && |p.logs| <= 4
    ensures s.clientRead == [Deadlock.PING, request, Deadlock.PING]
    ensures s.verdicts == [Verdict.Forwarded, Verdict.Forwarded, Verdict.Forwarded]
    ensures s.sent != [] && Last(s.sent).id == 2
    ensures q.task.sql == text && q.task.body == servers(0).response(1)
  {
    var steps2, p2, s2 := AsksFirst(lib, servers, rows, request, text);
    q := Finished(s2)[0];
    PingForwards(lib, p2, 2);
    EvenRests(lib, servers, s2, Deadlock.PING);
    assert |s2.clientRead| == 2 && 1 <= |servers(0).response(2)| <= BUFFER_SIZE;
    MissesAll(lib, p2, Deadlock.PING);
    var done := Finished(s2);
    steps, p, s := Exchange(lib, servers, steps2, p2, s2, Deadlock.PING);
    AppendNothing(done);
    Three(Deadlock.PING, request, Deadlock.PING);
    Three(Verdict.Forwarded, Verdict.Forwarded, Verdict.Forwarded);
    assert p.tasks == done && done == [q];
  }

  /** A login, the request of one text, and another request: the text's response is
      in Redis. */
  lemma StoresFirst(lib: Library, servers: nat -> Server, rows: seq<Row>, request: Bytes, text: string)
    returns (steps: seq<Step>, p: Proxy, s: Session)
    requires Lookable(lib, Loaded(lib, rows), request, text) && 1 <= |servers(0).greeting| <= BUFFER_SIZE
    requires forall k :: 0 <= k < 3 ==> 1 <= |servers(0).response(k)| <= BUFFER_SIZE
    ensures At(lib, servers, steps, p, s) && Even(servers(0), s) && Room(p) && p.entities == Loaded(lib, rows)
    ensures s.clientRead == [Deadlock.PING, request, Deadlock.PING]
    ensures s.verdicts == [Verdict.Forwarded, Verdict.Forwarded, Verdict.Forwarded]
    ensures s.sent != [] && Last(s.sent).id == 2
    ensures Present(p.redis, Keys.StoreKey(lib.plain, text), p.now)
    ensures Lookup(p.redis, Keys.StoreKey(lib.plain, text), p.now) == servers(0).response(1)
  {
    var q;
    steps, p, s, q := AsksMore(lib, servers, rows, request, text);
    steps, p := Works(lib, servers, steps, p, s, q);
  }

  /** For any two texts such that the second is looked up under the key the first
      is stored under, and whatever the database answers: there is an orderly run
      in which the client, at rest, has read the first text's response in answer to
      the second text. */
  lemma CollisionServed(lib: Library, servers: nat -> Server, rows: seq<Row>,
                        stored: Bytes, storedText: string, asked: Bytes, askedText: string)
    returns (steps: seq<Step>)
    requires Lookable(lib, Loaded(lib, rows), stored, storedText)
    requires Lookable(lib, Loaded(lib, rows), asked, askedText)
    requires Keys.StoreKey(lib.plain, storedText) == Keys.LookupKey(askedText)
    requires 1 <= |servers(0).greeting| <= BUFFER_SIZE
    requires forall k :: 0 <= k < 3 ==> 1 <= |servers(0).response(k)| <= BUFFER_SIZE
    ensures OrderlyRun(lib, servers, steps) && |Execute(lib, steps).value.sessions| == 1
    ensures var s, srv := Execute(lib, steps).value.sessions[0], servers(0);
            && AtRest(srv, s) && s.clientRead == [Deadlock.PING, stored, Deadlock.PING, asked]
            && Received(s.toClient) == Direct(srv, 3) + srv.response(1)
            && (Received(s.toClient) == Direct(srv, 4) <==> srv.response(3) == srv.response(1))
  {
    var steps2, p, s := StoresFirst(lib, servers, rows, stored, storedText);
    EvenRests(lib, servers, s, asked);
    var p', s';
    steps, p', s' := HitTurn(lib, servers, steps2, p, s, asked, askedText);
    RunReplies(lib, servers, steps, 0);
    Four(Deadlock.PING, stored, Deadlock.PING, asked);
    WrongReply(servers(0), s.verdicts);
  }

  lemma Four<T>(a: T, b: T, c: T, d: T)
    ensures [a, b, c] + [d] == [a, b, c, d]
  {
  }

  /** Three responses, and the second one again. */
  lemma WrongReply(srv: Server, verdicts: seq<Verdict>)
    requires verdicts == [Verdict.Forwarded, Verdict.Forwarded, Verdict.Forwarded]
    ensures var replies := Replies(srv, verdicts + [Answered(srv.response(1))]);
            && replies == Direct(srv, 3) + srv.response(1)
            && (replies == Direct(srv, 4) <==> srv.response(3) == srv.response(1))
  {
    RepliesDirect(srv, verdicts);
    RepliesSnoc(srv, verdicts, Answered(srv.response(1)));
    assert Direct(srv, 4) == Direct(srv, 3) + srv.response(3);
    if Direct(srv, 3) + srv.response(1) == Direct(srv, 3) + srv.response(3) {
      Cancel(Direct(srv, 3), srv.response(1), srv.response(3));
    }
  }

  // ---- real texts ---------------------------------------------------------------------------

  function UpperAscii(c: char): char {
    if 'a' <= c <= 'z' then (c as int - 32) as char else c
  }

  predicate Ascii(s: string) {
    forall i :: 0 <= i < |s| ==> s[i] as int < 0x80
  }

  /** The library upper-cases ASCII texts letter by letter. */
  ghost predicate UppersAscii(lib: Library) {
    forall s :: Ascii(s) ==> |lib.upper(s)| == |s| && forall i :: 0 <= i < |s| ==> lib.upper(s)[i] == UpperAscii(s[i])
  }

  predicate UpperText(s: string) {
    forall i :: 0 <= i < |s| ==> ' ' <= s[i] <= '_'
  }

  lemma UpperFixed(lib: Library, s: string)
    requires UppersAscii(lib) && UpperText(s)
    ensures lib.upper(s) == s
  {
    assert Ascii(s);
  }

  lemma RowMatches(lib: Library, rows: seq<Row>, r: nat, text: string)
    requires r < |rows| && rows[r].sqlTemplate == Comments.Stripped(text)
    requires lib.upper(Comments.Stripped(text)) == Comments.Stripped(text)
    ensures TemplateFor(lib, Loaded(lib, rows), text).Some?
  {
    var entities := Loaded(lib, rows);
    var tokens := TrimTokens(lib.tokenize(Comments.Trim(Comments.Stripped(text))));
    assert entities[r].tokens == tokens;
    MatchingRelation(tokens, tokens, tokens);
    var first := FirstMatch(entities, tokens);
    assert Matches(entities[r].tokens, tokens);
  }

  /** A COM_QUERY whose text without comments is an upper-case SELECT is looked up
      when that very text is a template. */
  lemma LookableRow(lib: Library, rows: seq<Row>, r: nat, request: Bytes, text: string, stripped: string)
    requires UppersAscii(lib) && r < |rows| && rows[r].sqlTemplate == stripped == Comments.Stripped(text)
    requires SelectText(stripped) && UpperText(stripped)
    requires ValidRequest(request) && request[4] == 3 && TextOf(lib, request) == Some(text)
    ensures Lookable(lib, Loaded(lib, rows), request, text)
  {
    UpperFixed(lib, stripped);
    LookableUpper(lib, rows, r, request, text);
  }

  lemma LookableUpper(lib: Library, rows: seq<Row>, r: nat, request: Bytes, text: string)
    requires r < |rows| && rows[r].sqlTemplate == Comments.Stripped(text) == lib.upper(Comments.Stripped(text))
    requires SelectText(Comments.Stripped(text))
    requires ValidRequest(request) && request[4] == 3 && TextOf(lib, request) == Some(text)
    ensures Lookable(lib, Loaded(lib, rows), request, text)
  {
    RowMatches(lib, rows, r, text);
    TypeByCode(request, ComQuery);
    AsksCache(lib, Loaded(lib, rows), text);
  }

  lemma AsksCache(lib: Library, entities: seq<CacheConfigEntity>, text: string)
    requires SelectText(lib.upper(Comments.Stripped(text))) && TemplateFor(lib, entities, text).Some?
    ensures OnRequest(lib, entities, FreshContext(Some(text)), ComQuery).AskingExists?
  {
    SelectExactly(lib.upper(Comments.Stripped(text)));
  }

  /** The texts of Keys.KeyCollision and Keys.QuotedCommentCollides are upper-case
      SELECTs. */
  lemma SelectTexts(bare: string, escaped: string, empty: string)
    requires bare == "SELECT '\"'" && escaped == "SELECT '\\\"'" && empty == "SELECT ''"
    ensures SelectText(bare) && UpperText(bare) && SelectText(escaped) && UpperText(escaped)
    ensures SelectText(empty) && UpperText(empty)
  {
  }

  /** SELECT of an escaped quotation mark is answered with the response to SELECT of
      a bare one. */
  lemma EscapedQuoteServed(lib: Library, servers: nat -> Server, rows: seq<Row>, stored: Bytes, asked: Bytes)
    returns (steps: seq<Step>)
    requires UppersAscii(lib) && Keys.PrintsAscii(lib.plain)
    requires |rows| == 2 && rows[0].sqlTemplate == "SELECT '\"'" && rows[1].sqlTemplate == "SELECT '\\\"'"
    requires ValidRequest(stored) && stored[4] == 3 && TextOf(lib, stored) == Some(rows[0].sqlTemplate)
    requires ValidRequest(asked) && asked[4] == 3 && TextOf(lib, asked) == Some(rows[1].sqlTemplate)
    requires 1 <= |servers(0).greeting| <= BUFFER_SIZE
    requires forall k :: 0 <= k < 3 ==> 1 <= |servers(0).response(k)| <= BUFFER_SIZE
    ensures OrderlyRun(lib, servers, steps) && |Execute(lib, steps).value.sessions| == 1
    ensures var s, srv := Execute(lib, steps).value.sessions[0], servers(0);
            && AtRest(srv, s) && s.clientRead == [Deadlock.PING, stored, Deadlock.PING, asked]
            && Received(s.toClient) == Direct(srv, 3) + srv.response(1)
  {
    var storedText, askedText := rows[0].sqlTemplate, rows[1].sqlTemplate;
    Keys.KeyCollision(lib.plain, storedText, askedText);
    SelectTexts(storedText, askedText, "SELECT ''");
    LookableRow(lib, rows, 0, stored, storedText, storedText);
    LookableRow(lib, rows, 1, asked, askedText, askedText);
    steps := CollisionServed(lib, servers, rows, stored, storedText, asked, askedText);
  }

  /** SELECT of a text with a comment inside its quotes is answered with the response
      to SELECT of the empty text. */
  lemma QuotedCommentServed(lib: Library, servers: nat -> Server, rows: seq<Row>, stored: Bytes, asked: Bytes, askedText: string)
    returns (steps: seq<Step>)
    requires UppersAscii(lib) && Keys.PrintsAscii(lib.plain)
    requires |rows| == 1 && rows[0].sqlTemplate == "SELECT ''" && askedText == "SELECT '/*a*/'"
    requires ValidRequest(stored) && stored[4] == 3 && TextOf(lib, stored) == Some(rows[0].sqlTemplate)
    requires ValidRequest(asked) && asked[4] == 3 && TextOf(lib, asked) == Some(askedText)
    requires 1 <= |servers(0).greeting| <= BUFFER_SIZE
    requires forall k :: 0 <= k < 3 ==> 1 <= |servers(0).response(k)| <= BUFFER_SIZE
    ensures OrderlyRun(lib, servers, steps) && |Execute(lib, steps).value.sessions| == 1
    ensures var s, srv := Execute(lib, steps).value.sessions[0], servers(0);
            && AtRest(srv, s) && s.clientRead == [Deadlock.PING, stored, Deadlock.PING, asked]
            && Received(s.toClient) == Direct(srv, 3) + srv.response(1)
  {
    var storedText := rows[0].sqlTemplate;
    Keys.QuotedCommentCollides(lib.plain, storedText, askedText);
    SelectTexts("SELECT '\"'", "SELECT '\\\"'", storedText);
    LookableRow(lib, rows, 0, stored, storedText, storedText);
    LookableRow(lib, rows, 0, asked, askedText, storedText);
    steps := CollisionServed(lib, servers, rows, stored, storedText, asked, askedText);
  }
}
