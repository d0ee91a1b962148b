/** One proxied connection as a step system.  Two loops run concurrently on one
    task: the client loop decides for each chunk whether to forward it or to
    answer it from the cache, the remote loop relays the database's bytes and
    attributes them to requests.  A step is what one loop does between two
    awaits; whatever an await returns is in the step's label. */
module Session {
  import opened Basics
  import opened Protocol
  import opened Meta
  import opened Handler

  const BUFFER_SIZE := 8192

  /** A context, the number of the client chunk it was made for, and the
      template list its request was handled under (both are history). */
  datatype Tagged = Tagged(id: nat, seen: seq<CacheConfigEntity>, ctx: Context)

  /** Where the client loop stands.  From `WantsExists` on it holds the
      handler lock, from `WritesClient` on the writer lock as well. */
  datatype ClientPc =
    | Reading
    | WritesUnknown
    | WantsHandler(tag: Tagged, kind: PacketType)
    | WantsExists(tag: Tagged, key: string, duration: int)
    | WantsGet(tag: Tagged, key: string, duration: int)
    | SendsContext(tag: Tagged)
    | WritesRemote(tag: Tagged)
    | WantsWriter(tag: Tagged, body: Bytes)
    | WritesClient(tag: Tagged, body: Bytes)
    | LogsHit(tag: Tagged, body: Bytes)

  /** Where the remote loop stands; `next` is a context received from the
      channel whose predecessor is being finished. */
  datatype RemotePc =
    | Listening
    | WantsHandlerToFinish(data: Bytes, next: Tagged)
    | SendsTask(data: Bytes, next: Tagged)
    | LogsFinished(data: Bytes, next: Tagged)
    | WantsHandlerToRespond(data: Bytes)
    | WantsWriterToRelay(data: Bytes)
    | Relays(data: Bytes)

  datatype Owner = Free | ClientLoop | RemoteLoop

  /** One whole write to the client. */
  datatype Output = Relayed(bytes: Bytes) | FromCache(bytes: Bytes)

  /** What became of a client chunk. */
  datatype Verdict = Forwarded | Answered(body: Bytes) | Unknown

  /** A request that is answered from the cache, and the answer. */
  datatype Hit = Hit(tag: Tagged, body: Bytes)

  datatype Session = Session(
    // the client loop, the remote loop and what they share
    client: ClientPc,
    readBuf: Bytes,
    remote: RemotePc,
    cachedBuf: Bytes,
    cachedCtx: Option<Tagged>,
    channel: seq<Tagged>,
    handler: Owner,
    writer: Owner,
    ended: bool,
    // the byte streams, chunk by chunk
    clientRead: seq<Bytes>,
    toRemote: seq<Bytes>,
    remoteRead: seq<Bytes>,
    toClient: seq<Output>,
    // what happened so far
    verdicts: seq<Verdict>,
    hits: seq<Hit>,
    answered: seq<Tagged>,
    sent: seq<Tagged>,
    finished: seq<Tagged>,
    bodies: seq<Bytes>,
    marks: seq<nat>,
    tasks: seq<CacheTask>,
    logged: seq<ExecLog>)

  const INITIAL := Session(
    Reading, [], Listening, [], None, [], Free, Free, false,
    [], [], [], [], [], [], [], [], [], [], [], [], [])

  datatype Label =
    | ClientReads(chunk: Bytes)
    | ClientWritesUnknown
    | ClientTakesHandler(entities: seq<CacheConfigEntity>)
    | ExistsReplies(exists_: Reply<bool>)
    | GetReplies(get: Reply<Bytes>)
    | ClientSendsContext
    | ClientWritesRemote
    | ClientTakesWriter
    | ClientWritesClient
    | ClientLogs(log: ExecLog)
    | RemoteReads(chunk: Bytes)
    | RemoteTakesHandler
    | RemoteSendsTask
    | RemoteLogs(log: ExecLog)
    | RemoteTakesWriter
    | RemoteRelays
    | Ends

  // ---- locks -------------------------------------------------------------------

  predicate ClientHoldsHandler(pc: ClientPc) {
    !pc.Reading? && !pc.WritesUnknown? && !pc.WantsHandler?
  }

  predicate RemoteHoldsHandler(pc: RemotePc) {
    pc.SendsTask? || pc.LogsFinished?
  }

  predicate RemoteWantsHandler(pc: RemotePc) {
    pc.WantsHandlerToFinish? || pc.WantsHandlerToRespond?
  }

  predicate ClientHoldsWriter(pc: ClientPc) {
    pc.WritesClient? || pc.LogsHit?
  }

  /** The locks are fair: a released lock goes straight to a loop that waits. */
  function HandlerAfterClient(s: Session): Owner {
    if RemoteWantsHandler(s.remote) then RemoteLoop else Free
  }

  function HandlerAfterRemote(s: Session): Owner {
    if s.client.WantsHandler? then ClientLoop else Free
  }

  function WriterAfterClient(s: Session): Owner {
    if s.remote.WantsWriterToRelay? then RemoteLoop else Free
  }

  function WriterAfterRemote(s: Session): Owner {
    if s.client.WantsWriter? then ClientLoop else Free
  }

  // ---- steps of the client loop ---------------------------------------------------

  function ReadFromClient(lib: Library, s: Session, chunk: Bytes): Session {
    var data := s.readBuf + chunk;
    if |data| < 5 then s.(ended := true)        // the packet type is read out of bounds
    else
      match Packet(data).PacketType()
      case None =>
        s.(client := WritesUnknown, readBuf := data, clientRead := s.clientRead + [chunk])
      case Some(kind) =>
        if |chunk| < 5 then s.(ended := true)   // the SQL slice is out of bounds
        else
          var tag := Tagged(|s.clientRead|, [], FreshContext(lib.utf8(data[5..|chunk|])));
          s.(client := WantsHandler(tag, kind), readBuf := data, clientRead := s.clientRead + [chunk])
  }

  function WriteUnknown(s: Session): Session {
    s.(client := Reading, toRemote := s.toRemote + [s.readBuf], verdicts := s.verdicts + [Unknown])
  }

  function AtStage(s: Session, tag: Tagged, stage: Stage): Session {
    match stage
    case Forwarding(ctx) => s.(client := SendsContext(tag.(ctx := ctx)))
    case AskingExists(ctx, key, duration) => s.(client := WantsExists(tag.(ctx := ctx), key, duration))
    case AskingGet(ctx, key, duration) => s.(client := WantsGet(tag.(ctx := ctx), key, duration))
    case Responding(ctx, body) =>
      s.(client := WantsWriter(tag.(ctx := ctx), body), hits := s.hits + [Hit(tag.(ctx := ctx), body)])
  }

  function TakeHandler(lib: Library, s: Session, entities: seq<CacheConfigEntity>): Session
    requires s.client.WantsHandler?
  {
    var tag := s.client.tag.(seen := entities);
    AtStage(s.(handler := ClientLoop), tag, OnRequest(lib, entities, tag.ctx, s.client.kind))
  }

  function SendContext(s: Session): Session
    requires s.client.SendsContext?
  {
    s.(client := WritesRemote(s.client.tag), channel := s.channel + [s.client.tag], sent := s.sent + [s.client.tag])
  }

  function WriteRemote(s: Session): Session {
    s.(client := Reading, readBuf := [], handler := HandlerAfterClient(s),
       toRemote := s.toRemote + [s.readBuf], verdicts := s.verdicts + [Forwarded])
  }

  function EndHit(s: Session): Session
    requires ClientHoldsWriter(s.client)
  {
    s.(client := Reading, readBuf := [], handler := HandlerAfterClient(s), writer := WriterAfterClient(s),
       verdicts := s.verdicts + [Answered(s.client.body)], answered := s.answered + [s.client.tag])
  }

  function WriteClient(lib: Library, s: Session): Session
    requires s.client.WritesClient?
  {
    var written := s.(toClient := s.toClient + [FromCache(s.client.body)]);
    if ContextPattern(lib, s.client.tag.ctx).Some?
    then written.(client := LogsHit(s.client.tag, s.client.body))
    else EndHit(written)
  }

  // ---- steps of the remote loop ----------------------------------------------------

  function ReadFromRemote(s: Session, chunk: Bytes): Session {
    var read := s.(remoteRead := s.remoteRead + [chunk]);
    if s.channel != [] then
      var received := read.(channel := s.channel[1..], marks := s.marks + [|Concat(s.remoteRead)|]);
      if s.cachedCtx.Some? then
        received.(remote := WantsHandlerToFinish(chunk, s.channel[0]))
      else
        received.(cachedCtx := Some(s.channel[0]), cachedBuf := s.cachedBuf + chunk,
                  remote := WantsHandlerToRespond(chunk))
    else
      read.(cachedBuf := s.cachedBuf + chunk,
            remote := if s.cachedCtx.Some? then WantsHandlerToRespond(chunk) else WantsWriterToRelay(chunk))
  }

  /** The old context is done; its body is filed and the new one takes over. */
  function Adopt(s: Session, data: Bytes, next: Tagged): Session
    requires s.cachedCtx.Some?
  {
    s.(finished := s.finished + [s.cachedCtx.value], bodies := s.bodies + [s.cachedBuf],
       cachedCtx := Some(next), cachedBuf := data,
       handler := HandlerAfterRemote(s), remote := WantsHandlerToRespond(data))
  }

  function AfterTask(lib: Library, s: Session, data: Bytes, next: Tagged): Session
    requires s.cachedCtx.Some?
  {
    if ContextPattern(lib, s.cachedCtx.value.ctx).Some? then s.(remote := LogsFinished(data, next))
    else Adopt(s, data, next)
  }

  function TakeHandlerToFinish(lib: Library, s: Session, data: Bytes, next: Tagged): Session
    requires s.cachedCtx.Some?
  {
    var taken := s.(handler := RemoteLoop);
    if TaskOf(s.cachedCtx.value.ctx, s.cachedBuf).Some? then taken.(remote := SendsTask(data, next))
    else AfterTask(lib, taken, data, next)
  }

  function SendTask(lib: Library, s: Session): Session
    requires s.remote.SendsTask? && s.cachedCtx.Some?
  {
    AfterTask(lib, s.(tasks := s.tasks + Opt(TaskOf(s.cachedCtx.value.ctx, s.cachedBuf))), s.remote.data, s.remote.next)
  }

  function RemoteTakeHandler(lib: Library, s: Session): Session
    requires RemoteWantsHandler(s.remote)
    requires s.remote.WantsHandlerToFinish? ==> s.cachedCtx.Some?
  {
    match s.remote
    case WantsHandlerToFinish(data, next) => TakeHandlerToFinish(lib, s, data, next)
    case WantsHandlerToRespond(data) =>
      // the lock is taken and released with no await in between
      s.(handler := HandlerAfterRemote(s), remote := WantsWriterToRelay(data))
  }

  function Relay(s: Session): Session
    requires s.remote.Relays?
  {
    s.(toClient := s.toClient + [Relayed(s.remote.data)], writer := WriterAfterRemote(s), remote := Listening)
  }

  // ---- the step relation ---------------------------------------------------------------

  /** A log entry for `tag`; its durations are whatever the clock said. */
  predicate LogFor(lib: Library, tag: Tagged, log: ExecLog) {
    && ContextPattern(lib, tag.ctx) == Some(log.sqlStr)
    && log.fromCache == tag.ctx.fromCache
    && log.totalDuration >= 0 && log.mysqlDuration >= 0 && log.redisDuration >= 0
  }

  predicate Enabled(lib: Library, s: Session, l: Label) {
    !s.ended &&
    match l
    case ClientReads(chunk) => s.client.Reading? && 1 <= |chunk| <= BUFFER_SIZE - |s.readBuf|
    case ClientWritesUnknown => s.client.WritesUnknown?
    case ClientTakesHandler(_) => s.client.WantsHandler? && s.handler != RemoteLoop
    case ExistsReplies(_) => s.client.WantsExists?
    case GetReplies(_) => s.client.WantsGet?
    case ClientSendsContext => s.client.SendsContext? && |s.channel| < 1
    case ClientWritesRemote => s.client.WritesRemote?
    case ClientTakesWriter => s.client.WantsWriter? && s.writer != RemoteLoop
    case ClientWritesClient => s.client.WritesClient?
    case ClientLogs(log) => s.client.LogsHit? && LogFor(lib, s.client.tag, log)
    case RemoteReads(chunk) => s.remote.Listening? && 1 <= |chunk| <= BUFFER_SIZE
    case RemoteTakesHandler =>
      && RemoteWantsHandler(s.remote) && s.handler != ClientLoop
      && (s.remote.WantsHandlerToFinish? ==> s.cachedCtx.Some?)
    case RemoteSendsTask => s.remote.SendsTask? && s.cachedCtx.Some?
    case RemoteLogs(log) => s.remote.LogsFinished? && s.cachedCtx.Some? && LogFor(lib, s.cachedCtx.value, log)
    case RemoteTakesWriter => s.remote.WantsWriterToRelay? && s.writer != ClientLoop
    case RemoteRelays => s.remote.Relays?
    case Ends => true
  }

  function Next(lib: Library, s: Session, l: Label): Session
    requires Enabled(lib, s, l)
  {
    match l
    case ClientReads(chunk) => ReadFromClient(lib, s, chunk)
    case ClientWritesUnknown => WriteUnknown(s)
    case ClientTakesHandler(entities) => TakeHandler(lib, s, entities)
    case ExistsReplies(reply) =>
      AtStage(s, s.client.tag, OnExists(s.client.tag.ctx, s.client.key, s.client.duration, reply))
    case GetReplies(reply) => AtStage(s, s.client.tag, OnGet(s.client.tag.ctx, s.client.duration, reply))
    case ClientSendsContext => SendContext(s)
    case ClientWritesRemote => WriteRemote(s)
    case ClientTakesWriter => s.(writer := ClientLoop, client := WritesClient(s.client.tag, s.client.body))
    case ClientWritesClient => WriteClient(lib, s)
    case ClientLogs(log) => EndHit(s.(logged := s.logged + [log]))
    case RemoteReads(chunk) => ReadFromRemote(s, chunk)
    case RemoteTakesHandler => RemoteTakeHandler(lib, s)
    case RemoteSendsTask => SendTask(lib, s)
    case RemoteLogs(log) => Adopt(s.(logged := s.logged + [log]), s.remote.data, s.remote.next)
    case RemoteTakesWriter => s.(writer := RemoteLoop, remote := Relays(s.remote.data))
    case RemoteRelays => Relay(s)
    case Ends => s.(ended := true)
  }

  predicate ByClient(l: Label) {
    || l.ClientReads? || l.ClientWritesUnknown? || l.ClientTakesHandler? || l.ExistsReplies? || l.GetReplies?
    || l.ClientSendsContext? || l.ClientWritesRemote? || l.ClientTakesWriter? || l.ClientWritesClient? || l.ClientLogs?
  }

  predicate Deciding(l: Label) {
    l.ClientReads? || l.ClientTakesHandler? || l.ExistsReplies? || l.GetReplies?
  }

  /** What only the remote loop changes. */
  predicate SameRemoteSide(s: Session, t: Session) {
    && t.remote == s.remote && t.cachedBuf == s.cachedBuf && t.cachedCtx == s.cachedCtx
    && t.remoteRead == s.remoteRead && t.finished == s.finished && t.bodies == s.bodies
    && t.marks == s.marks && t.tasks == s.tasks
  }

  /** What only the client loop changes. */
  predicate SameClientSide(s: Session, t: Session) {
    && t.client == s.client && t.readBuf == s.readBuf && t.clientRead == s.clientRead
    && t.toRemote == s.toRemote && t.verdicts == s.verdicts && t.hits == s.hits
    && t.answered == s.answered && t.sent == s.sent
  }

  lemma DecidingFrame(lib: Library, s: Session, l: Label)
    requires Enabled(lib, s, l) && Deciding(l)
    ensures var t := Next(lib, s, l); SameRemoteSide(s, t) && t.channel == s.channel && t.sent == s.sent
  {
  }

  lemma DisposingFrame(lib: Library, s: Session, l: Label)
    requires Enabled(lib, s, l) && ByClient(l) && !Deciding(l)
    ensures var t := Next(lib, s, l);
            SameRemoteSide(s, t) && (!l.ClientSendsContext? ==> t.channel == s.channel && t.sent == s.sent)
  {
  }

  lemma ClientFrame(lib: Library, s: Session, l: Label)
    requires Enabled(lib, s, l) && ByClient(l)
    ensures SameRemoteSide(s, Next(lib, s, l))
    ensures !l.ClientSendsContext? ==> Next(lib, s, l).channel == s.channel && Next(lib, s, l).sent == s.sent
  {
    if Deciding(l) {
      DecidingFrame(lib, s, l);
    } else {
      DisposingFrame(lib, s, l);
    }
  }

  lemma RemoteFrame(lib: Library, s: Session, l: Label)
    requires Enabled(lib, s, l) && !ByClient(l)
    ensures SameClientSide(s, Next(lib, s, l))
    ensures l.Ends? ==> Next(lib, s, l) == s.(ended := true)
  {
  }

  /** The client loop's chunk is disposed of: by a write to the database or by
      an answer from the cache. */
  lemma DisposalEffect(lib: Library, s: Session, l: Label)
    requires Enabled(lib, s, l) && ByClient(l) && !Deciding(l)
    ensures var t := Next(lib, s, l);
            && t.clientRead == s.clientRead && t.hits == s.hits
            && (if l.ClientWritesUnknown? then
                  t.client == Reading && t.verdicts == s.verdicts + [Unknown]
                  && t.toRemote == s.toRemote + [s.readBuf] && t.readBuf == s.readBuf
                else if l.ClientWritesRemote? then
                  t.client == Reading && t.verdicts == s.verdicts + [Forwarded]
                  && t.toRemote == s.toRemote + [s.readBuf] && t.readBuf == []
                else if l.ClientSendsContext? || l.ClientTakesWriter? || t.client.LogsHit? then
                  t.verdicts == s.verdicts && t.toRemote == s.toRemote && t.readBuf == s.readBuf
                  && (t.client.WritesRemote? || ClientHoldsWriter(t.client))
                else
                  ClientHoldsWriter(s.client) && t.client == Reading
                  && t.verdicts == s.verdicts + [Answered(s.client.body)]
                  && t.toRemote == s.toRemote && t.readBuf == [])
  {
  }

  lemma DecidingEffect(lib: Library, s: Session, l: Label)
    requires Enabled(lib, s, l) && Deciding(l) && !l.ClientReads?
    ensures var t := Next(lib, s, l);
            && t.clientRead == s.clientRead && t.verdicts == s.verdicts && t.toClient == s.toClient
            && t.toRemote == s.toRemote && t.readBuf == s.readBuf && t.logged == s.logged && t.answered == s.answered
            && (t.client.SendsContext? || t.client.WantsExists? || t.client.WantsGet? || t.client.WantsWriter?)
            && (if t.client.WantsWriter? then t.hits == s.hits + [Hit(t.client.tag, t.client.body)] else t.hits == s.hits)
  {
  }

  lemma ReadEffect(lib: Library, s: Session, chunk: Bytes)
    requires Enabled(lib, s, ClientReads(chunk))
    ensures var t, data := Next(lib, s, ClientReads(chunk)), s.readBuf + chunk;
            && t.verdicts == s.verdicts && t.toRemote == s.toRemote && t.toClient == s.toClient
            && t.hits == s.hits && t.logged == s.logged && t.answered == s.answered
            && (|| (t.ended && t.clientRead == s.clientRead && t.readBuf == s.readBuf && t.client == s.client)
                || (&& |data| >= 5 && t.clientRead == s.clientRead + [chunk] && t.readBuf == data
                    && (t.client == WritesUnknown <==> Packet(data).PacketType().None?)
                    && (t.client.WantsHandler? <==> Packet(data).PacketType().Some?)))
  {
  }

  // ---- runs ---------------------------------------------------------------------------------

  function Taken(lib: Library, before: Option<Session>, l: Label): Option<Session> {
    if before.Some? && Enabled(lib, before.value, l) then Some(Next(lib, before.value, l)) else None
  }

  /** The state a run from `s` ends in, or None when `labels` is not a run. */
  function ExecFrom(lib: Library, s: Session, labels: seq<Label>): Option<Session> {
    if labels == [] then Some(s)
    else Taken(lib, ExecFrom(lib, s, labels[..|labels| - 1]), labels[|labels| - 1])
  }

  function Exec(lib: Library, labels: seq<Label>): Option<Session> {
    ExecFrom(lib, INITIAL, labels)
  }

  lemma Extend(lib: Library, s: Session, labels: seq<Label>, l: Label)
    requires ExecFrom(lib, s, labels).Some? && Enabled(lib, ExecFrom(lib, s, labels).value, l)
    ensures ExecFrom(lib, s, labels + [l]) == Some(Next(lib, ExecFrom(lib, s, labels).value, l))
  {
    assert (labels + [l])[..|labels|] == labels;
  }

  /** A run after a run is a run. */
  lemma {:induction false} Joined(lib: Library, s: Session, run: seq<Label>, labels: seq<Label>)
    requires ExecFrom(lib, s, run).Some? && ExecFrom(lib, ExecFrom(lib, s, run).value, labels).Some?
    ensures ExecFrom(lib, s, run + labels) == ExecFrom(lib, ExecFrom(lib, s, run).value, labels)
  {
    if labels == [] {
      assert run + labels == run;
    } else {
      var init := labels[..|labels| - 1];
      Joined(lib, s, run, init);
      assert (run + labels)[..|run + labels| - 1] == run + init;
    }
  }
}
