/** The two loops of a connection as they are written, one turn at a time, on
    the connection's own mutable state.  A turn that nothing interrupts is a
    run of the step system, so what holds of every run holds here. */
module Loops {
  import opened Basics
  import opened Protocol
  import opened Meta
  import opened Handler
  import opened Session
  import opened Streams
  import Deadlock

  // ---- runs of one turn -----------------------------------------------------------

  /** Between two turns: both loops read, no lock is held. */
  predicate Idle(s: Session) {
    !s.ended && s.client.Reading? && s.remote.Listening? && s.handler == Free && s.writer == Free
  }

  /** Redis is asked, at most two questions. */
  lemma QuestionsRun(lib: Library, s: Session, labels: seq<Label>, t: Session, exists_: Reply<bool>, get: Reply<Bytes>)
    returns (run: seq<Label>)
    requires ExecFrom(lib, s, labels) == Some(t) && !t.ended && t.client.WantsExists?
    ensures ExecFrom(lib, s, run)
         == Some(AtStage(t, t.client.tag, FromRedis(t.client.tag.ctx, t.client.key, t.client.duration, exists_, get)))
  {
    Extend(lib, s, labels, ExistsReplies(exists_));
    run := labels + [ExistsReplies(exists_)];
    if exists_ == Got(true) {
      Extend(lib, s, run, GetReplies(get));
      run := run + [GetReplies(get)];
    }
  }

  lemma DecisionRun(lib: Library, s: Session, labels: seq<Label>, entities: seq<CacheConfigEntity>,
                    exists_: Reply<bool>, get: Reply<Bytes>)
    returns (run: seq<Label>)
    requires ExecFrom(lib, s, labels).Some?
    requires var t := ExecFrom(lib, s, labels).value; !t.ended && t.client.WantsHandler? && t.handler == Free
    ensures var t := ExecFrom(lib, s, labels).value;
            var stage := Decide(lib, entities, t.client.tag.ctx, t.client.kind, exists_, get);
            && ExecFrom(lib, s, run)
               == Some(AtStage(t.(handler := ClientLoop), t.client.tag.(seen := entities), stage))
  {
    var t := ExecFrom(lib, s, labels).value;
    run := labels + [ClientTakesHandler(entities)];
    Extend(lib, s, labels, ClientTakesHandler(entities));
    var a := TakeHandler(lib, t, entities);
    if a.client.WantsExists? {
      run := QuestionsRun(lib, s, run, a, exists_, get);
    }
  }

  /** A chunk of known type is read and the handler has decided what to do. */
  function Decided(lib: Library, s: Session, chunk: Bytes, entities: seq<CacheConfigEntity>,
                   exists_: Reply<bool>, get: Reply<Bytes>): Session
    requires |chunk| >= 5 && Packet(s.readBuf + chunk).PacketType().Some?
  {
    var data := s.readBuf + chunk;
    var tag := Tagged(|s.clientRead|, entities, FreshContext(lib.utf8(data[5..|chunk|])));
    AtStage(s.(handler := ClientLoop, readBuf := data, clientRead := s.clientRead + [chunk]), tag,
            Decide(lib, entities, tag.ctx, Packet(data).PacketType().value, exists_, get))
  }

  lemma DecidedEffect(lib: Library, s: Session, chunk: Bytes, entities: seq<CacheConfigEntity>,
                      exists_: Reply<bool>, get: Reply<Bytes>)
    requires |chunk| >= 5 && Packet(s.readBuf + chunk).PacketType().Some?
    ensures var data, t := s.readBuf + chunk, Decided(lib, s, chunk, entities, exists_, get);
            var stage := Decide(lib, entities, FreshContext(lib.utf8(data[5..|chunk|])),
                                Packet(data).PacketType().value, exists_, get);
            && SameRemoteSide(s, t) && t.handler == ClientLoop && t.writer == s.writer && t.ended == s.ended
            && t.readBuf == data && t.toRemote == s.toRemote && t.toClient == s.toClient
            && t.channel == s.channel && t.logged == s.logged
            && (if stage.Responding? then
                  t.client.WantsWriter? && t.client.body == stage.body
                  && t.client.tag.ctx == stage.ctx && !stage.ctx.shouldUpdateCache
                else t.client.SendsContext? && t.client.tag.ctx == stage.ctx)
  {
  }

  lemma RequestRun(lib: Library, s: Session, chunk: Bytes, entities: seq<CacheConfigEntity>,
                   exists_: Reply<bool>, get: Reply<Bytes>)
    returns (run: seq<Label>)
    requires Idle(s) && 5 <= |chunk| <= BUFFER_SIZE - |s.readBuf| && Packet(s.readBuf + chunk).PacketType().Some?
    ensures ExecFrom(lib, s, run) == Some(Decided(lib, s, chunk, entities, exists_, get))
  {
    Extend(lib, s, [], ClientReads(chunk));
    run := [] + [ClientReads(chunk)];
    KnownRead(lib, s, chunk);
    run := DecisionRun(lib, s, run, entities, exists_, get);
  }

  lemma KnownRead(lib: Library, s: Session, chunk: Bytes)
    requires Enabled(lib, s, ClientReads(chunk)) && |chunk| >= 5 && Packet(s.readBuf + chunk).PacketType().Some?
    ensures var data := s.readBuf + chunk;
            Next(lib, s, ClientReads(chunk)) == s.(
              client := WantsHandler(Tagged(|s.clientRead|, [], FreshContext(lib.utf8(data[5..|chunk|]))),
                                     Packet(data).PacketType().value),
              readBuf := data, clientRead := s.clientRead + [chunk])
  {
  }

  /** A forwarded chunk: the context goes to the channel, the bytes to the database. */
  function Forwards(s: Session): Session
    requires s.client.SendsContext?
  {
    WriteRemote(SendContext(s))
  }

  lemma ForwardsEffect(s: Session)
    requires s.client.SendsContext? && s.remote.Listening? && s.writer == Free && !s.ended
    ensures var t := Forwards(s);
            && Idle(t) && t.readBuf == [] && t.toRemote == s.toRemote + [s.readBuf]
            && t.channel == s.channel + [s.client.tag] && SameRemoteSide(s, t)
            && t.toClient == s.toClient && t.logged == s.logged
  {
  }

  lemma ForwardRun(lib: Library, s: Session, labels: seq<Label>) returns (run: seq<Label>)
    requires ExecFrom(lib, s, labels).Some?
    requires var t := ExecFrom(lib, s, labels).value; !t.ended && t.client.SendsContext? && t.channel == []
    ensures ExecFrom(lib, s, run) == Some(Forwards(ExecFrom(lib, s, labels).value))
  {
    Extend(lib, s, labels, ClientSendsContext);
    Extend(lib, s, labels + [ClientSendsContext], ClientWritesRemote);
    run := labels + [ClientSendsContext] + [ClientWritesRemote];
  }

  /** An answer from the cache, logged if its SQL is a query. */
  function AnswersHit(s: Session, log: Option<ExecLog>): Session
    requires s.client.WantsWriter?
  {
    EndHit(s.(writer := ClientLoop, client := LogsHit(s.client.tag, s.client.body),
              toClient := s.toClient + [FromCache(s.client.body)], logged := s.logged + Opt(log)))
  }

  /** The log a context leaves, if its SQL is a query. */
  predicate LogsOf(lib: Library, tag: Tagged, log: Option<ExecLog>) {
    && (log.Some? <==> ContextPattern(lib, tag.ctx).Some?)
    && (log.Some? ==> LogFor(lib, tag, log.value))
  }

  lemma HitRun(lib: Library, s: Session, labels: seq<Label>, log: Option<ExecLog>) returns (run: seq<Label>)
    requires ExecFrom(lib, s, labels).Some?
    requires var t := ExecFrom(lib, s, labels).value;
             !t.ended && t.client.WantsWriter? && t.writer == Free && LogsOf(lib, t.client.tag, log)
    ensures ExecFrom(lib, s, run) == Some(AnswersHit(ExecFrom(lib, s, labels).value, log))
  {
    var t := ExecFrom(lib, s, labels).value;
    Extend(lib, s, labels, ClientTakesWriter);
    run := labels + [ClientTakesWriter];
    Extend(lib, s, run, ClientWritesClient);
    run := run + [ClientWritesClient];
    if log.Some? {
      Extend(lib, s, run, ClientLogs(log.value));
      run := run + [ClientLogs(log.value)];
    } else {
      assert t.logged + Opt(log) == t.logged;
    }
  }

  /** Data of unknown type is written, and not cleared. */
  function Passes(s: Session, chunk: Bytes): Session {
    s.(readBuf := s.readBuf + chunk, clientRead := s.clientRead + [chunk],
       toRemote := s.toRemote + [s.readBuf + chunk], verdicts := s.verdicts + [Unknown])
  }

  predicate Asking(s: Session, chunk: Bytes) {
    |chunk| >= 5 && Packet(s.readBuf + chunk).PacketType().Some?
  }

  /** A turn that comes to nothing the handler could decide. */
  function UnaskedEnds(s: Session, chunk: Bytes): Session {
    var data := s.readBuf + chunk;
    if |data| < 5 || Packet(data).PacketType().Some? then s.(ended := true) else Passes(s, chunk)
  }

  /** What the handler decided is done, as far as the channel lets it. */
  function AskedEnds(t: Session, log: Option<ExecLog>): Session {
    if t.client.WantsWriter? then AnswersHit(t, log)
    else if t.client.SendsContext? && t.channel == [] then Forwards(t)
    else t
  }

  /** Where the client loop's turn for `chunk` leads: the end of the connection
      when the chunk is too short to take apart, a write of everything buffered
      when the type is unknown, and else what the handler decided, as far as the
      channel lets it. */
  function ClientTurnEnds(lib: Library, s: Session, chunk: Bytes, entities: seq<CacheConfigEntity>,
                          exists_: Reply<bool>, get: Reply<Bytes>, log: Option<ExecLog>): Session
  {
    if Asking(s, chunk) then AskedEnds(Decided(lib, s, chunk, entities, exists_, get), log) else UnaskedEnds(s, chunk)
  }

  /** What a cache hit leaves in the log during the turn. */
  predicate HitLogs(lib: Library, s: Session, chunk: Bytes, entities: seq<CacheConfigEntity>,
                    exists_: Reply<bool>, get: Reply<Bytes>, log: Option<ExecLog>)
  {
    Asking(s, chunk) && Decided(lib, s, chunk, entities, exists_, get).client.WantsWriter? ==>
      LogsOf(lib, Decided(lib, s, chunk, entities, exists_, get).client.tag, log)
  }

  /** An undisturbed turn of the client loop is a run. */
  lemma ClientTurnRun(lib: Library, s: Session, chunk: Bytes, entities: seq<CacheConfigEntity>,
                      exists_: Reply<bool>, get: Reply<Bytes>, log: Option<ExecLog>)
    returns (run: seq<Label>)
    requires Idle(s) && 1 <= |chunk| <= BUFFER_SIZE - |s.readBuf|
    requires HitLogs(lib, s, chunk, entities, exists_, get, log)
    ensures ExecFrom(lib, s, run) == Some(ClientTurnEnds(lib, s, chunk, entities, exists_, get, log))
  {
    if Asking(s, chunk) {
      run := RequestRun(lib, s, chunk, entities, exists_, get);
      DecidedEffect(lib, s, chunk, entities, exists_, get);
      var t := Decided(lib, s, chunk, entities, exists_, get);
      if t.client.WantsWriter? {
        run := HitRun(lib, s, run, log);
      } else if s.channel == [] {
        run := ForwardRun(lib, s, run);
      }
    } else {
      run := UnknownRun(lib, s, chunk);
    }
  }

  lemma UnknownRun(lib: Library, s: Session, chunk: Bytes) returns (run: seq<Label>)
    requires Idle(s) && 1 <= |chunk| <= BUFFER_SIZE - |s.readBuf| && !Asking(s, chunk)
    ensures ExecFrom(lib, s, run) == Some(UnaskedEnds(s, chunk))
  {
    Extend(lib, s, [], ClientReads(chunk));
    run := [] + [ClientReads(chunk)];
    if !Next(lib, s, ClientReads(chunk)).ended {
      Extend(lib, s, run, ClientWritesUnknown);
      run := run + [ClientWritesUnknown];
    }
  }

  /** Where the remote loop's turn for `chunk` leads; `log` is what finishing the
      current context leaves in the log. */
  function RemoteTurnEnds(s: Session, chunk: Bytes, log: Option<ExecLog>): Session {
    var done := if s.channel == [] then None else s.cachedCtx;
    s.(remoteRead := s.remoteRead + [chunk],
       toClient := s.toClient + [Relayed(chunk)],
       channel := if s.channel == [] then [] else s.channel[1..],
       marks := s.marks + (if s.channel == [] then [] else [|Concat(s.remoteRead)|]),
       cachedCtx := if s.channel == [] then s.cachedCtx else Some(s.channel[0]),
       cachedBuf := (if done.None? then s.cachedBuf else []) + chunk,
       finished := s.finished + Opt(done),
       bodies := s.bodies + (if done.None? then [] else [s.cachedBuf]),
       tasks := s.tasks + (if done.None? then [] else Opt(TaskOf(done.value.ctx, s.cachedBuf))),
       logged := s.logged + Opt(log))
  }

  /** What finishing leaves in the log during the turn. */
  predicate TurnLogs(lib: Library, s: Session, log: Option<ExecLog>) {
    if s.channel != [] && s.cachedCtx.Some? then LogsOf(lib, s.cachedCtx.value, log) else log == None
  }

  /** The handler lock is taken, the old context's cache write and log go out,
      and the new context takes over. */
  lemma FinishRun(lib: Library, s: Session, labels: seq<Label>, log: Option<ExecLog>) returns (run: seq<Label>)
    requires ExecFrom(lib, s, labels).Some?
    requires var t := ExecFrom(lib, s, labels).value;
             && !t.ended && t.remote.WantsHandlerToFinish? && t.handler == Free && t.client.Reading?
             && t.cachedCtx.Some? && LogsOf(lib, t.cachedCtx.value, log)
    ensures var t := ExecFrom(lib, s, labels).value;
            ExecFrom(lib, s, run)
            == Some(Adopt(t.(tasks := t.tasks + Opt(TaskOf(t.cachedCtx.value.ctx, t.cachedBuf)),
                             logged := t.logged + Opt(log)), t.remote.data, t.remote.next))
  {
    var t := ExecFrom(lib, s, labels).value;
    Extend(lib, s, labels, RemoteTakesHandler);
    run := labels + [RemoteTakesHandler];
    assert t.tasks + [] == t.tasks && t.logged + [] == t.logged;
    if TaskOf(t.cachedCtx.value.ctx, t.cachedBuf).Some? {
      Extend(lib, s, run, RemoteSendsTask);
      run := run + [RemoteSendsTask];
    }
    if log.Some? {
      Extend(lib, s, run, RemoteLogs(log.value));
      run := run + [RemoteLogs(log.value)];
    }
  }

  /** Durations are stamped, if there is a context, and the chunk is relayed. */
  lemma RelayRun(lib: Library, s: Session, labels: seq<Label>) returns (run: seq<Label>)
    requires ExecFrom(lib, s, labels).Some?
    requires var t := ExecFrom(lib, s, labels).value;
             && !t.ended && (t.remote.WantsHandlerToRespond? || t.remote.WantsWriterToRelay?)
             && t.handler == Free && t.writer == Free && t.client.Reading?
    ensures var t := ExecFrom(lib, s, labels).value;
            ExecFrom(lib, s, run) == Some(t.(remote := Listening, toClient := t.toClient + [Relayed(t.remote.data)]))
  {
    var t := ExecFrom(lib, s, labels).value;
    run := labels;
    if t.remote.WantsHandlerToRespond? {
      Extend(lib, s, run, RemoteTakesHandler);
      run := run + [RemoteTakesHandler];
    }
    Extend(lib, s, run, RemoteTakesWriter);
    run := run + [RemoteTakesWriter];
    Extend(lib, s, run, RemoteRelays);
    run := run + [RemoteRelays];
  }

  /** An undisturbed turn of the remote loop is a run. */
  lemma RemoteTurnRun(lib: Library, s: Session, chunk: Bytes, log: Option<ExecLog>) returns (run: seq<Label>)
    requires Idle(s) && 1 <= |chunk| <= BUFFER_SIZE && TurnLogs(lib, s, log)
    ensures ExecFrom(lib, s, run) == Some(RemoteTurnEnds(s, chunk, log))
  {
    Extend(lib, s, [], RemoteReads(chunk));
    run := [] + [RemoteReads(chunk)];
    var t := ExecFrom(lib, s, run).value;
    if t.remote.WantsHandlerToFinish? {
      run := FinishRun(lib, s, run, log);
    }
    run := RelayRun(lib, s, run);
    NothingAdded(s);
    assert [] + chunk == chunk;
  }

  lemma NothingAdded(s: Session)
    ensures s.marks + [] == s.marks && s.finished + [] == s.finished && s.bodies + [] == s.bodies
    ensures s.tasks + [] == s.tasks && s.logged + [] == s.logged
  {
  }

  // ---- turns are runs ------------------------------------------------------------

  /** A turn of either loop, with what Redis and the template list say meanwhile. */
  datatype Turn =
    | OfClient(chunk: Bytes, entities: seq<CacheConfigEntity>, exists_: Reply<bool>, get: Reply<Bytes>)
    | OfRemote(chunk: Bytes)

  predicate Possible(lib: Library, s: Session, turn: Turn, log: Option<ExecLog>) {
    && 1 <= |turn.chunk| <= BUFFER_SIZE
    && match turn
       case OfClient(chunk, entities, exists_, get) =>
         |chunk| <= BUFFER_SIZE - |s.readBuf| && HitLogs(lib, s, chunk, entities, exists_, get, log)
       case OfRemote(_) => TurnLogs(lib, s, log)
  }

  function TurnEnds(lib: Library, s: Session, turn: Turn, log: Option<ExecLog>): Session {
    match turn
    case OfClient(chunk, entities, exists_, get) => ClientTurnEnds(lib, s, chunk, entities, exists_, get, log)
    case OfRemote(chunk) => RemoteTurnEnds(s, chunk, log)
  }

  /** A turn taken after a run makes a longer run, so everything that holds of
      every run holds of a connection served turn by turn. */
  lemma TurnsAreRuns(lib: Library, run: seq<Label>, s: Session, turn: Turn, log: Option<ExecLog>)
    returns (longer: seq<Label>)
    requires Exec(lib, run) == Some(s) && Idle(s) && Possible(lib, s, turn, log)
    ensures run <= longer && Exec(lib, longer) == Some(TurnEnds(lib, s, turn, log))
    ensures Sound(lib, TurnEnds(lib, s, turn, log))
  {
    var steps: seq<Label>;
    match turn
    case OfClient(chunk, entities, exists_, get) =>
      steps := ClientTurnRun(lib, s, chunk, entities, exists_, get, log);
      longer := TurnAfterRun(lib, run, s, steps, TurnEnds(lib, s, turn, log));
    case OfRemote(chunk) =>
      steps := RemoteTurnRun(lib, s, chunk, log);
      longer := TurnAfterRun(lib, run, s, steps, TurnEnds(lib, s, turn, log));
  }

  lemma TurnAfterRun(lib: Library, run: seq<Label>, s: Session, steps: seq<Label>, t: Session)
    returns (longer: seq<Label>)
    requires Exec(lib, run) == Some(s) && ExecFrom(lib, s, steps) == Some(t)
    ensures run <= longer && Exec(lib, longer) == Some(t) && Sound(lib, t)
  {
    longer := run + steps;
    Joined(lib, INITIAL, run, steps);
    AlwaysSound(lib, longer);
  }

  /** Only a request that was looked up is answered. */
  lemma Asks(lib: Library, entities: seq<CacheConfigEntity>, sql: Option<string>, kind: PacketType,
             exists_: Reply<bool>, get: Reply<Bytes>)
    ensures Decide(lib, entities, FreshContext(sql), kind, exists_, get).Responding? ==>
              OnRequest(lib, entities, FreshContext(sql), kind).AskingExists?
  {
  }

  // ---- the connection object ------------------------------------------------------

  class Connection {
    var handler: ConnectionHandler
    var readBuf: Bytes
    var cachedBuf: Bytes
    var cachedCtx: ProxyContext?
    var channel: seq<ProxyContext>
    var toRemote: seq<Bytes>
    var toClient: seq<Output>
    var ended: bool
    ghost var state: Session

    /** The fields are the running part of `state`; the rest of it is history. */
    ghost predicate Coupled()
      reads this, handler, cachedCtx, channel
    {
      && state.ended == ended && state.readBuf == readBuf && state.cachedBuf == cachedBuf
      && state.toRemote == toRemote && state.toClient == toClient
      && state.tasks == handler.cacheTasks && state.logged == handler.execLogs
      && (cachedCtx == null <==> state.cachedCtx.None?)
      && (cachedCtx != null ==> cachedCtx.Value() == state.cachedCtx.value.ctx)
      && |channel| == |state.channel|
      && forall i :: 0 <= i < |channel| ==> channel[i].Value() == state.channel[i].ctx
    }

    constructor ()
      ensures Coupled() && state == INITIAL && fresh(handler)
    {
      handler := new ConnectionHandler();
      readBuf, cachedBuf, cachedCtx, channel, toRemote, toClient, ended := [], [], null, [], [], [], false;
      state := INITIAL;
    }

    /** One turn of the client loop.  `exists_` and `get` are Redis's replies if
        asked, `now`, `asked`, `later` and `latest` readings of the clock.  The turn blocks
        when it has a context to send and the channel is full. */
    method ClientTurn(lib: Library, chunk: Bytes, entities: seq<CacheConfigEntity>, now: int, asked: nat,
                      exists_: Reply<bool>, get: Reply<Bytes>, later: int, latest: int)
      returns (blocked: bool, ghost log: Option<ExecLog>)
      requires Coupled() && Idle(state) && 1 <= |chunk| <= BUFFER_SIZE - |readBuf|
      modifies this, handler
      ensures Coupled() && handler == old(handler) && HitLogs(lib, old(state), chunk, entities, exists_, get, log)
      ensures state == ClientTurnEnds(lib, old(state), chunk, entities, exists_, get, log)
      ensures blocked ==> Deadlock.SendBlocked(state)
      ensures !blocked && !ended ==> Idle(state)
      ensures channel == old(channel)
           || (|channel| == 1 && channel[0].fnStartTime == now && channel[0].mysqlExecStartTime == Some(later))
      ensures log.Some? ==>
                && (now <= later ==> log.value.totalDuration == later - now)
                && log.value.mysqlDuration == 0 && log.value.redisDuration == asked
    {
      var kind := Screen(chunk);
      if kind.None? {
        return false, None;
      }
      blocked, log := Request(lib, chunk, kind.value, entities, now, asked, exists_, get, later, latest);
    }

    /** The first part of the turn; None when nothing is left to decide. */
    method Screen(chunk: Bytes) returns (kind: Option<PacketType>)
      requires Coupled() && Idle(state)
      modifies this
      ensures Coupled() && handler == old(handler)
      ensures if Asking(old(state), chunk) then
                && kind == Packet(old(readBuf) + chunk).PacketType()
                && state == old(state) && readBuf == old(readBuf)
              else kind.None? && state == UnaskedEnds(old(state), chunk)
      ensures !ended ==> Idle(state)
      ensures channel == old(channel)
    {
      var data := readBuf + chunk;
      if |data| < 5 {
        Panic();
        return None;
      }
      kind := Packet(data).PacketType();
      if kind.None? {
        PassOn(chunk);
        return None;
      }
      if |chunk| < 5 {
        Panic();
        return None;
      }
    }

    /** A slice out of bounds ends the connection. */
    method Panic()
      requires Coupled()
      modifies this
      ensures Coupled() && handler == old(handler) && state == old(state).(ended := true)
      ensures channel == old(channel)
    {
      ended := true;
      state := state.(ended := true);
    }

    /** Data of unknown type goes to the database and stays in the buffer. */
    method PassOn(chunk: Bytes)
      requires Coupled() && Idle(state)
      modifies this
      ensures Coupled() && handler == old(handler) && Idle(state)
      ensures state == Passes(old(state), chunk)
      ensures channel == old(channel)
    {
      readBuf := readBuf + chunk;
      toRemote := toRemote + [readBuf];
      state := Passes(state, chunk);
    }

    /** The rest of the turn once the packet type is known. */
    method Request(lib: Library, chunk: Bytes, kind: PacketType, entities: seq<CacheConfigEntity>, now: int, asked: nat,
                   exists_: Reply<bool>, get: Reply<Bytes>, later: int, latest: int)
      returns (blocked: bool, ghost log: Option<ExecLog>)
      requires Coupled() && Idle(state) && |chunk| >= 5 && Packet(readBuf + chunk).PacketType() == Some(kind)
      modifies this, handler
      ensures Coupled() && handler == old(handler)
      ensures var t := Decided(lib, old(state), chunk, entities, exists_, get);
              state == AskedEnds(t, log) && (t.client.WantsWriter? ==> LogsOf(lib, t.client.tag, log))
      ensures blocked ==> Deadlock.SendBlocked(state)
      ensures !blocked ==> Idle(state)
      ensures !ended
      ensures channel == old(channel)
           || (|channel| == 1 && channel[0].fnStartTime == now && channel[0].mysqlExecStartTime == Some(later))
      ensures log.Some? ==>
                && (now <= later ==> log.value.totalDuration == later - now)
                && log.value.mysqlDuration == 0 && log.value.redisDuration == asked
    {
      var ctx, action := Judge(lib, chunk, kind, entities, now, asked, exists_, get);
      blocked, log := Dispose(lib, ctx, action, later, latest);
    }

    /** The handler decides, on a new context. */
    method Judge(lib: Library, chunk: Bytes, kind: PacketType, entities: seq<CacheConfigEntity>, now: int, asked: nat,
                 exists_: Reply<bool>, get: Reply<Bytes>)
      returns (ctx: ProxyContext, action: Action)
      requires Coupled() && Idle(state) && |chunk| >= 5 && Packet(readBuf + chunk).PacketType() == Some(kind)
      modifies this
      ensures Coupled() && handler == old(handler) && fresh(ctx)
      ensures channel == old(channel) && cachedCtx == old(cachedCtx)
      ensures state == Decided(lib, old(state), chunk, entities, exists_, get)
      ensures !ended && state.remote.Listening? && state.writer == Free
      ensures if action.Forward? then state.client.SendsContext?
              else state.client.WantsWriter? && state.client.body == action.body && !ctx.shouldUpdateCache
      ensures state.client.tag.ctx == ctx.Value()
      ensures ctx.fnStartTime == now && ctx.mysqlExecStartTime == None && ctx.mysqlDuration == 0
      ensures action.Responded? ==> ctx.redisDuration == asked
    {
      readBuf := readBuf + chunk;
      ctx, action := Consult(lib, lib.utf8(readBuf[5..|chunk|]), kind, entities, now, asked, exists_, get);
      DecidedEffect(lib, state, chunk, entities, exists_, get);
      state := Decided(lib, state, chunk, entities, exists_, get);
    }

    method Consult(lib: Library, sql: Option<string>, kind: PacketType, entities: seq<CacheConfigEntity>, now: int, asked: nat,
                   exists_: Reply<bool>, get: Reply<Bytes>)
      returns (ctx: ProxyContext, action: Action)
      ensures fresh(ctx)
      ensures var stage := Decide(lib, entities, FreshContext(sql), kind, exists_, get);
              ctx.Value() == stage.ctx && action == ActionOf(stage)
      ensures ctx.fnStartTime == now && ctx.mysqlExecStartTime == None && ctx.mysqlDuration == 0
      ensures action.Responded? ==> ctx.redisDuration == asked
    {
      ctx := new ProxyContext(now);
      ctx.sql := sql;
      action := handler.HandleRequest(lib, entities, ctx, kind, now, asked, exists_, get);
      Asks(lib, entities, sql, kind, exists_, get);
    }

    /** What the client loop does with the handler's decision. */
    method Dispose(lib: Library, ctx: ProxyContext, action: Action, later: int, latest: int)
      returns (blocked: bool, ghost log: Option<ExecLog>)
      requires Coupled() && ctx != cachedCtx && ctx !in channel
      requires !ended && state.remote.Listening? && state.writer == Free
      requires if action.Forward? then state.client.SendsContext?
               else state.client.WantsWriter? && state.client.body == action.body && !ctx.shouldUpdateCache
      requires state.client.tag.ctx == ctx.Value()
      modifies this, handler, ctx
      ensures Coupled() && handler == old(handler) && !ended
      ensures state == AskedEnds(old(state), log)
      ensures old(state).client.WantsWriter? ==> LogsOf(lib, old(state).client.tag, log)
      ensures blocked ==> Deadlock.SendBlocked(state)
      ensures !blocked ==> Idle(state)
      ensures if action.Forward? && !blocked then
                && channel == [ctx] && ctx.mysqlExecStartTime == Some(later)
                && ctx.fnStartTime == old(ctx.fnStartTime) && ctx.redisDuration == old(ctx.redisDuration)
              else channel == old(channel)
      ensures log.Some? ==>
                && action.Responded?
                && (old(ctx.fnStartTime) <= later ==> log.value.totalDuration == later - old(ctx.fnStartTime))
                && (old(ctx.mysqlExecStartTime) == None ==> log.value.mysqlDuration == old(ctx.mysqlDuration))
                && log.value.redisDuration == old(ctx.redisDuration)
    {
      log := None;
      match action
      case Forward =>
        blocked := SendOn(ctx, later);
      case Responded(body) =>
        blocked := false;
        log := Respond(lib, ctx, body, later, latest);
    }

    /** The context is sent to the remote loop and the chunk to the database. */
    method SendOn(ctx: ProxyContext, later: int) returns (blocked: bool)
      requires Coupled() && ctx != cachedCtx && ctx !in channel
      requires !ended && state.remote.Listening? && state.writer == Free
      requires state.client.SendsContext? && state.client.tag.ctx == ctx.Value()
      modifies this, ctx
      ensures Coupled() && handler == old(handler) && !ended
      ensures blocked <==> old(channel) != []
      ensures state == if blocked then old(state) else Forwards(old(state))
      ensures if blocked then channel == old(channel) else Idle(state) && channel == [ctx]
      ensures ctx.mysqlExecStartTime == Some(later) && ctx.fnStartTime == old(ctx.fnStartTime)
      ensures ctx.redisDuration == old(ctx.redisDuration)
    {
      ctx.mysqlExecStartTime := Some(later);
      if channel != [] {
        return true;
      }
      channel := channel + [ctx];
      toRemote := toRemote + [readBuf];
      readBuf := [];
      ForwardsEffect(state);
      state := Forwards(state);
      return false;
    }

    /** The cached body goes to the client, and the request is reported. */
    method Respond(lib: Library, ctx: ProxyContext, body: Bytes, later: int, latest: int) returns (ghost log: Option<ExecLog>)
      requires Coupled() && ctx != cachedCtx && ctx !in channel
      requires !ended && state.remote.Listening? && state.writer == Free
      requires state.client.WantsWriter? && state.client.body == body
      requires state.client.tag.ctx == ctx.Value() && !ctx.shouldUpdateCache
      modifies this, handler, ctx
      ensures Coupled() && handler == old(handler) && !ended && Idle(state)
      ensures LogsOf(lib, old(state).client.tag, log) && state == AnswersHit(old(state), log)
      ensures channel == old(channel)
      ensures log.Some? ==>
                && (old(ctx.fnStartTime) <= later ==> log.value.totalDuration == later - old(ctx.fnStartTime))
                && (old(ctx.mysqlExecStartTime) == None ==> log.value.mysqlDuration == old(ctx.mysqlDuration))
                && log.value.redisDuration == old(ctx.redisDuration)
    {
      toClient := toClient + [FromCache(body)];
      handler.HandleResponse(ctx, later, latest);
      log := LogOf(lib, ctx.Value(), ctx.totalDuration, ctx.mysqlDuration, ctx.redisDuration);
      handler.HandleRemoteResponseFinished(lib, ctx, body);
      readBuf := [];
      state := AnswersHit(state, log);
    }

    /** One turn of the remote loop. */
    method RemoteTurn(lib: Library, chunk: Bytes, now: int, later: int) returns (finished: bool, ghost log: Option<ExecLog>)
      requires Coupled() && Idle(state) && 1 <= |chunk| <= BUFFER_SIZE
      modifies this, handler, cachedCtx, channel
      ensures Coupled() && handler == old(handler) && Idle(state)
      ensures TurnLogs(lib, old(state), log) && state == RemoteTurnEnds(old(state), chunk, log)
      ensures finished <==> old(channel) != [] && old(cachedCtx) != null
      ensures cachedCtx == if old(channel) == [] then old(cachedCtx) else old(channel)[0]
      ensures old(channel) == [] && cachedCtx != null ==>
                && (old(cachedCtx.fnStartTime) <= now ==> cachedCtx.totalDuration == now - old(cachedCtx.fnStartTime))
                && (old(cachedCtx.mysqlExecStartTime).Some? && old(cachedCtx.mysqlExecStartTime).value <= later ==>
                      cachedCtx.mysqlDuration == later - old(cachedCtx.mysqlExecStartTime).value)
      ensures old(channel) != [] ==>
                && (old(channel[0].fnStartTime) <= now ==> cachedCtx.totalDuration == now - old(channel[0].fnStartTime))
                && (old(channel[0].mysqlExecStartTime).Some? && old(channel[0].mysqlExecStartTime).value <= later ==>
                      cachedCtx.mysqlDuration == later - old(channel[0].mysqlExecStartTime).value)
      ensures log.Some? ==>
                && finished
                && log.value.totalDuration == old(cachedCtx.totalDuration)
                && log.value.mysqlDuration == old(cachedCtx.mysqlDuration)
                && log.value.redisDuration == old(cachedCtx.redisDuration)
                && log.value.fromCache == old(cachedCtx.fromCache)
    {
      ghost var start := state;
      finished, log := Receive(lib);
      cachedBuf := cachedBuf + chunk;
      if cachedCtx != null {
        handler.HandleResponse(cachedCtx, now, later);
      }
      toClient := toClient + [Relayed(chunk)];
      state := RemoteTurnEnds(start, chunk, log);
    }

    /** A context waiting in the channel takes over; the old one is finished. */
    method Receive(lib: Library) returns (finished: bool, ghost log: Option<ExecLog>)
      requires Coupled()
      modifies this`channel, this`cachedCtx, this`cachedBuf, handler
      ensures finished <==> old(channel) != [] && old(cachedCtx) != null
      ensures if old(channel) == [] then channel == [] && cachedCtx == old(cachedCtx)
              else channel == old(channel)[1..] && cachedCtx == old(channel)[0]
      ensures cachedBuf == if finished then [] else old(cachedBuf)
      ensures handler.cacheTasks
           == old(handler.cacheTasks) + (if finished then Opt(TaskOf(state.cachedCtx.value.ctx, old(cachedBuf))) else [])
      ensures handler.execLogs == old(handler.execLogs) + Opt(log) && TurnLogs(lib, state, log)
      ensures log.Some? ==>
                && finished
                && log.value.totalDuration == old(cachedCtx.totalDuration)
                && log.value.mysqlDuration == old(cachedCtx.mysqlDuration)
                && log.value.redisDuration == old(cachedCtx.redisDuration)
                && log.value.fromCache == old(cachedCtx.fromCache)
    {
      finished, log := false, None;
      if channel != [] {
        var current := channel[0];
        channel := channel[1..];
        if cachedCtx != null {
          log := LogOf(lib, cachedCtx.Value(), cachedCtx.totalDuration, cachedCtx.mysqlDuration, cachedCtx.redisDuration);
          handler.HandleRemoteResponseFinished(lib, cachedCtx, cachedBuf);
          cachedBuf := [];
          finished := true;
        }
        cachedCtx := current;
      }
    }
  }
}
