/** When a session stops moving.  The client loop sends a context on the
    capacity-1 channel while it holds the handler lock; the remote loop empties
    the channel only when it reads, and needs the handler lock after that. */
module Deadlock {
  import opened Basics
  import opened Protocol
  import opened Meta
  import opened Handler
  import opened Session
  import opened Conservation
  import opened Streams

  predicate Input(l: Label) {
    l.ClientReads? || l.RemoteReads? || l.Ends?
  }

  /** Nothing can happen but a read on either side, or the end. */
  ghost predicate Stuck(lib: Library, s: Session) {
    forall l :: Enabled(lib, s, l) ==> Input(l)
  }

  predicate Quiet(s: Session) {
    s.client.Reading? && s.remote.Listening?
  }

  predicate SendBlocked(s: Session) {
    s.client.SendsContext? && s.channel != []
  }

  /** The client loop waits for room in the channel, the remote loop for the
      lock the client loop holds. */
  predicate Deadlocked(s: Session) {
    SendBlocked(s) && s.remote.WantsHandlerToRespond?
  }

  function LogEntry(lib: Library, tag: Tagged): ExecLog
    requires ContextPattern(lib, tag.ctx).Some?
    ensures LogFor(lib, tag, LogEntry(lib, tag))
  {
    ExecLog(ContextPattern(lib, tag.ctx).value, 0, 0, 0, tag.ctx.fromCache)
  }

  /** A step of the client loop other than a read, if it has one. */
  function ClientMove(lib: Library, s: Session): Label
    requires Loggable(lib, s)
  {
    match s.client
    case Reading => Ends
    case WritesUnknown => ClientWritesUnknown
    case WantsHandler(_, _) => ClientTakesHandler([])
    case WantsExists(_, _, _) => ExistsReplies(Failed)
    case WantsGet(_, _, _) => GetReplies(Failed)
    case SendsContext(_) => ClientSendsContext
    case WritesRemote(_) => ClientWritesRemote
    case WantsWriter(_, _) => ClientTakesWriter
    case WritesClient(_, _) => ClientWritesClient
    case LogsHit(tag, _) => ClientLogs(LogEntry(lib, tag))
  }

  /** A step of the remote loop other than a read, if it has one. */
  function RemoteMove(lib: Library, s: Session): Label
    requires Loggable(lib, s)
  {
    match s.remote
    case Listening => Ends
    case WantsHandlerToFinish(_, _) => RemoteTakesHandler
    case SendsTask(_, _) => RemoteSendsTask
    case LogsFinished(_, _) => RemoteLogs(LogEntry(lib, s.cachedCtx.value))
    case WantsHandlerToRespond(_) => RemoteTakesHandler
    case WantsWriterToRelay(_) => RemoteTakesWriter
    case Relays(_) => RemoteRelays
  }

  lemma ClientMoves(lib: Library, s: Session)
    requires Locks(s) && Loggable(lib, s) && !s.ended
    requires !s.client.Reading? && !SendBlocked(s)
    requires s.client.WantsHandler? ==> s.handler != RemoteLoop
    requires s.client.WantsWriter? ==> s.writer != RemoteLoop
    ensures Enabled(lib, s, ClientMove(lib, s)) && !Input(ClientMove(lib, s))
  {
  }

  lemma RemoteMoves(lib: Library, s: Session)
    requires Locks(s) && Contexts(s) && Loggable(lib, s) && !s.ended
    requires !s.remote.Listening?
    requires RemoteWantsHandler(s.remote) ==> s.handler != ClientLoop
    requires s.remote.WantsWriterToRelay? ==> s.writer != ClientLoop
    ensures Enabled(lib, s, RemoteMove(lib, s)) && !Input(RemoteMove(lib, s))
  {
  }

  /** A session in any run is stuck exactly when both loops wait for input, or
      the client loop waits for room in the channel while the remote loop waits
      for the database or for the handler lock. */
  lemma StuckExactly(lib: Library, s: Session)
    requires Sound(lib, s) && !s.ended
    ensures Stuck(lib, s) <==> Quiet(s) || (SendBlocked(s) && s.remote.Listening?) || Deadlocked(s)
  {
    if Stuck(lib, s) {
      StuckMeans(lib, s);
    }
    if Quiet(s) || (SendBlocked(s) && s.remote.Listening?) || Deadlocked(s) {
      forall l | Enabled(lib, s, l)
        ensures Input(l)
      {
        OnlyInput(lib, s, l);
      }
    }
  }

  /** A deadlocked session never moves again; a blocked send waits for the
      database and for nothing else. */
  lemma OnlyInput(lib: Library, s: Session, l: Label)
    requires Locks(s) && Enabled(lib, s, l)
    requires Quiet(s) || (SendBlocked(s) && s.remote.Listening?) || Deadlocked(s)
    ensures Input(l)
    ensures Deadlocked(s) ==> l.Ends?
    ensures SendBlocked(s) && s.remote.Listening? ==> l.RemoteReads? || l.Ends?
  {
  }

  lemma StuckMeans(lib: Library, s: Session)
    requires Sound(lib, s) && !s.ended && Stuck(lib, s)
    ensures Quiet(s) || (SendBlocked(s) && s.remote.Listening?) || Deadlocked(s)
  {
    if !s.remote.Listening? && (RemoteWantsHandler(s.remote) ==> s.handler != ClientLoop)
       && (s.remote.WantsWriterToRelay? ==> s.writer != ClientLoop) {
      RemoteMoves(lib, s);
    } else if !s.client.Reading? && !SendBlocked(s) && (s.client.WantsHandler? ==> s.handler != RemoteLoop)
              && (s.client.WantsWriter? ==> s.writer != RemoteLoop) {
      ClientMoves(lib, s);
    }
  }

  /** A send that blocks is blocked by a context sent earlier that the remote
      loop has not received. */
  lemma BlockedSend(lib: Library, s: Session)
    requires Contexts(s) && Tags(lib, s) && SendBlocked(s)
    ensures s.sent != [] && s.channel == [s.sent[|s.sent| - 1]]
    ensures s.channel[0].id < s.client.tag.id
    ensures forall t :: t in s.finished + Opt(s.cachedCtx) + InHand(s.remote) ==> t.id < s.channel[0].id
  {
    var received := s.finished + Opt(s.cachedCtx) + InHand(s.remote);
    assert s.sent == received + [s.channel[0]];
    assert s.sent[|received|] == s.channel[0];
    forall t | t in received
      ensures t.id < s.channel[0].id
    {
      var i :| 0 <= i < |received| && received[i] == t;
      assert s.sent[i] == t;
    }
  }

  // ---- pipelining does deadlock -------------------------------------------------------

  const PING: Bytes := [1, 0, 0, 0, 0x0e]

  /** COM_PING has an empty text, and the empty text parses to no statement. */
  predicate EmptyText(lib: Library) {
    lib.utf8([]) == Some("") && lib.parse("") == Some([])
  }

  predicate PingTag(t: Tagged) {
    t.ctx == FreshContext(Some(""))
  }

  predicate Ready(s: Session) {
    !s.ended && s.client.Reading? && s.readBuf == []
  }

  lemma ReadPing(lib: Library, run: seq<Label>, s: Session) returns (run': seq<Label>, s': Session)
    requires EmptyText(lib) && Exec(lib, run) == Some(s) && Ready(s)
    ensures Exec(lib, run') == Some(s') && !s'.ended
    ensures s'.client.WantsHandler? && PingTag(s'.client.tag) && s'.client.kind == ComPing
    ensures SameRemoteSide(s, s') && s'.channel == s.channel && s'.handler == s.handler && s'.writer == s.writer
  {
    assert s.readBuf + PING == PING && PING[5..5] == [];
    run', s' := run + [ClientReads(PING)], Next(lib, s, ClientReads(PING));
    Extend(lib, INITIAL, run, ClientReads(PING));
  }

  lemma DecidePing(lib: Library, run: seq<Label>, s: Session) returns (run': seq<Label>, s': Session)
    requires Exec(lib, run) == Some(s) && !s.ended && s.handler != RemoteLoop
    requires s.client.WantsHandler? && PingTag(s.client.tag) && s.client.kind == ComPing
    ensures Exec(lib, run') == Some(s') && !s'.ended
    ensures s'.client.SendsContext? && PingTag(s'.client.tag) && s'.handler == ClientLoop
    ensures SameRemoteSide(s, s') && s'.channel == s.channel && s'.writer == s.writer
  {
    run', s' := run + [ClientTakesHandler([])], Next(lib, s, ClientTakesHandler([]));
    Extend(lib, INITIAL, run, ClientTakesHandler([]));
  }

  lemma ForwardPing(lib: Library, run: seq<Label>, s: Session) returns (run': seq<Label>, s': Session)
    requires Exec(lib, run) == Some(s) && !s.ended && s.channel == []
    requires s.client.SendsContext? && PingTag(s.client.tag)
    ensures Exec(lib, run') == Some(s') && Ready(s') && s'.handler == HandlerAfterClient(s)
    ensures SameRemoteSide(s, s') && |s'.channel| == 1 && PingTag(s'.channel[0]) && s'.writer == s.writer
  {
    var mid := Next(lib, s, ClientSendsContext);
    Extend(lib, INITIAL, run, ClientSendsContext);
    s' := Next(lib, mid, ClientWritesRemote);
    Extend(lib, INITIAL, run + [ClientSendsContext], ClientWritesRemote);
    run' := run + [ClientSendsContext] + [ClientWritesRemote];
  }

  lemma RelayFirst(lib: Library, run: seq<Label>, s: Session) returns (run': seq<Label>, s': Session)
    requires Exec(lib, run) == Some(s) && Ready(s) && s.remote.Listening? && s.cachedCtx.None?
    requires |s.channel| == 1 && PingTag(s.channel[0]) && s.handler == Free && s.writer == Free
    ensures Exec(lib, run') == Some(s') && Ready(s') && s'.remote.Listening?
    ensures s'.cachedCtx.Some? && PingTag(s'.cachedCtx.value)
    ensures s'.channel == [] && s'.handler == Free && s'.writer == Free
  {
    run', s' := run + [RemoteReads([0])], Next(lib, s, RemoteReads([0]));
    Extend(lib, INITIAL, run, RemoteReads([0]));
    run', s' := RelayOn(lib, run', s');
  }

  lemma RelayOn(lib: Library, run: seq<Label>, s: Session) returns (run': seq<Label>, s': Session)
    requires Exec(lib, run) == Some(s) && !s.ended && s.remote.WantsHandlerToRespond?
    requires s.client.Reading? && s.handler == Free && s.writer == Free
    ensures Exec(lib, run') == Some(s') && !s'.ended && SameClientSide(s, s') && s'.remote.Listening?
    ensures s'.cachedCtx == s.cachedCtx && s'.channel == s.channel && s'.handler == Free && s'.writer == Free
  {
    var a := Next(lib, s, RemoteTakesHandler);
    Extend(lib, INITIAL, run, RemoteTakesHandler);
    var b := Next(lib, a, RemoteTakesWriter);
    Extend(lib, INITIAL, run + [RemoteTakesHandler], RemoteTakesWriter);
    s' := Next(lib, b, RemoteRelays);
    Extend(lib, INITIAL, run + [RemoteTakesHandler] + [RemoteTakesWriter], RemoteRelays);
    run' := run + [RemoteTakesHandler] + [RemoteTakesWriter] + [RemoteRelays];
  }

  lemma ReadNext(lib: Library, run: seq<Label>, s: Session) returns (run': seq<Label>, s': Session)
    requires Exec(lib, run) == Some(s) && !s.ended && s.remote.Listening? && |s.channel| == 1
    requires s.cachedCtx.Some?
    ensures Exec(lib, run') == Some(s') && !s'.ended && SameClientSide(s, s')
    ensures s'.remote.WantsHandlerToFinish? && s'.channel == [] && s'.cachedCtx == s.cachedCtx
    ensures s'.handler == s.handler && s'.writer == s.writer
  {
    run', s' := run + [RemoteReads([0])], Next(lib, s, RemoteReads([0]));
    Extend(lib, INITIAL, run, RemoteReads([0]));
  }

  lemma FinishPing(lib: Library, run: seq<Label>, s: Session) returns (run': seq<Label>, s': Session)
    requires EmptyText(lib) && Exec(lib, run) == Some(s) && !s.ended && s.handler == RemoteLoop
    requires s.remote.WantsHandlerToFinish? && s.cachedCtx.Some? && PingTag(s.cachedCtx.value)
    ensures Exec(lib, run') == Some(s') && !s'.ended && SameClientSide(s, s')
    ensures s'.remote.WantsHandlerToRespond? && s'.channel == s.channel && s'.handler == HandlerAfterRemote(s)
  {
    run', s' := run + [RemoteTakesHandler], Next(lib, s, RemoteTakesHandler);
    Extend(lib, INITIAL, run, RemoteTakesHandler);
  }

  /** Four pipelined pings and two chunks from the database are enough. */
  lemma PipeliningDeadlocks(lib: Library) returns (run: seq<Label>, s: Session)
    requires EmptyText(lib)
    ensures Exec(lib, run) == Some(s) && Deadlocked(s) && !s.ended
  {
    run, s := [], INITIAL;
    run, s := ReadPing(lib, run, s);      // the first ping becomes the current context
    run, s := DecidePing(lib, run, s);
    run, s := ForwardPing(lib, run, s);
    run, s := RelayFirst(lib, run, s);
    run, s := ReadPing(lib, run, s);      // the second waits in the channel
    run, s := DecidePing(lib, run, s);
    run, s := ForwardPing(lib, run, s);
    run, s := ReadPing(lib, run, s);      // the third blocks until the second is received
    run, s := DecidePing(lib, run, s);
    run, s := ReadNext(lib, run, s);
    run, s := ForwardPing(lib, run, s);
    run, s := ReadPing(lib, run, s);      // the fourth takes the lock between two uses of it
    run, s := FinishPing(lib, run, s);
    run, s := DecidePing(lib, run, s);
  }
}
