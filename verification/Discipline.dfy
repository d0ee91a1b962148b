/** Sessions whose client and database behave: the client sends one complete
    packet at a time and waits for the whole previous reply; the database
    answers every packet it receives, in order, with bytes of its choice, split
    into chunks of any size. */
module Discipline {
  import opened Basics
  import opened Protocol
  import opened Meta
  import opened Handler
  import opened Session
  import opened Conservation
  import opened Streams
  import Deadlock

  /** The database as one session meets it: its greeting, and its response to
      the `k`-th chunk of the client, should that chunk be forwarded.  Nothing
      relates one response to another: equal packets may be answered differently. */
  datatype Server = Server(greeting: Bytes, response: nat -> Bytes)

  /** What the database writes when it receives the chunks of `tags`. */
  function Stream(srv: Server, tags: seq<Tagged>): Bytes {
    if tags == [] then srv.greeting
    else Stream(srv, tags[..|tags| - 1]) + srv.response(tags[|tags| - 1].id)
  }

  lemma StreamSnoc(srv: Server, tags: seq<Tagged>, t: Tagged)
    ensures Stream(srv, tags + [t]) == Stream(srv, tags) + srv.response(t.id)
  {
    assert (tags + [t])[..|tags|] == tags;
  }

  /** What the client is owed for the requests that are disposed of: the cached
      body for each one answered from the cache, the response for each other. */
  function Replies(srv: Server, verdicts: seq<Verdict>): Bytes {
    if verdicts == [] then srv.greeting
    else
      var n := |verdicts| - 1;
      Replies(srv, verdicts[..n]) + (if verdicts[n].Answered? then verdicts[n].body else srv.response(n))
  }

  lemma RepliesSnoc(srv: Server, verdicts: seq<Verdict>, v: Verdict)
    ensures Replies(srv, verdicts + [v])
         == Replies(srv, verdicts) + (if v.Answered? then v.body else srv.response(|verdicts|))
  {
    assert (verdicts + [v])[..|verdicts|] == verdicts;
  }

  function Received(outs: seq<Output>): Bytes {
    if outs == [] then [] else Received(outs[..|outs| - 1]) + outs[|outs| - 1].bytes
  }

  lemma ReceivedSnoc(outs: seq<Output>, o: Output)
    ensures Received(outs + [o]) == Received(outs) + o.bytes
  {
    assert (outs + [o])[..|outs|] == outs;
  }

  function Last<T>(xs: seq<T>): T
    requires xs != []
  {
    xs[|xs| - 1]
  }

  // ---- the discipline ----------------------------------------------------------

  predicate ValidRequest(p: Bytes) {
    |p| <= BUFFER_SIZE && Known(p)
  }

  /** The contexts whose chunks the database has received. */
  function Reached(s: Session): seq<Tagged> {
    if s.client.WritesRemote? && s.sent != [] then s.sent[..|s.sent| - 1] else s.sent
  }

  /** What client and database may do next: the client sends a request after it
      has received the whole reply to every earlier one, and the last response
      of the database was not empty; the database sends what it has to say. */
  predicate Orderly(srv: Server, s: Session, l: Label) {
    match l
    case ClientReads(p) =>
      && ValidRequest(p)
      && |Received(s.toClient)| >= |Replies(srv, s.verdicts)|
      && (s.sent != [] ==> srv.response(Last(s.sent).id) != [])
    case RemoteReads(chunk) => Concat(s.remoteRead) + chunk <= Stream(srv, Reached(s))
    case _ => true
  }

  // ---- what the loops know about the requests ------------------------------------

  predicate Requests(srv: Server, s: Session) {
    var n := |s.clientRead|;
    && !s.client.WritesUnknown?
    && |s.verdicts| == (if s.client.Reading? then n else n - 1)
    && (s.client.Reading? ==> s.readBuf == [])
    && (!s.client.Reading? ==> n > 0 && s.readBuf == s.clientRead[n - 1] && s.client.tag.id == n - 1)
    && (s.client.WritesRemote? ==> s.sent != [] && Last(s.sent) == s.client.tag)
    && (!s.client.Reading? && !s.client.WritesRemote? && s.sent != [] ==> srv.response(Last(s.sent).id) != [])
  }

  /** The database receives, in order, exactly the chunks the contexts were made
      for. */
  predicate Delivered(s: Session) {
    && |s.toRemote| == |Reached(s)|
    && forall i :: 0 <= i < |s.toRemote| ==>
         s.sent[i].id < |s.clientRead| && s.toRemote[i] == s.clientRead[s.sent[i].id]
  }

  lemma RequestEffect(lib: Library, s: Session, p: Bytes)
    requires Enabled(lib, s, ClientReads(p)) && ValidRequest(p) && s.readBuf == []
    ensures Next(lib, s, ClientReads(p)) == s.(
              client := WantsHandler(Tagged(|s.clientRead|, [], FreshContext(TextOf(lib, p))), Packet(p).PacketType().value),
              readBuf := p, clientRead := s.clientRead + [p])
  {
    assert s.readBuf + p == p;
    assert p[5..|p|] == p[5..];
  }

  lemma RequestsDecide(lib: Library, srv: Server, s: Session, l: Label)
    requires Requests(srv, s) && Enabled(lib, s, l) && Deciding(l) && !l.ClientReads?
    ensures Requests(srv, Next(lib, s, l))
  {
    ClientFrame(lib, s, l);
    DecidingEffect(lib, s, l);
    DecisionEffect(lib, s, l);
  }

  lemma RequestsDispose(lib: Library, srv: Server, s: Session, l: Label)
    requires Requests(srv, s) && Enabled(lib, s, l) && ByClient(l) && !Deciding(l)
    ensures Requests(srv, Next(lib, s, l))
  {
    DisposalEffect(lib, s, l);
    SendEffect(lib, s, l);
  }

  lemma RequestsStep(lib: Library, srv: Server, s: Session, l: Label)
    requires Requests(srv, s) && Enabled(lib, s, l) && Orderly(srv, s, l)
    ensures Requests(srv, Next(lib, s, l))
  {
    if !ByClient(l) {
      RemoteFrame(lib, s, l);
    } else if l.ClientReads? {
      RequestEffect(lib, s, l.chunk);
    } else if Deciding(l) {
      RequestsDecide(lib, srv, s, l);
    } else {
      RequestsDispose(lib, srv, s, l);
    }
  }

  lemma DeliveredForward(s: Session, t: Session)
    requires Delivered(s) && s.client.WritesRemote? && s.sent != [] && t.client.Reading?
    requires s.client.tag.id < |s.clientRead| && Last(s.sent) == s.client.tag
    requires t.sent == s.sent && t.clientRead == s.clientRead
    requires t.toRemote == s.toRemote + [s.clientRead[s.client.tag.id]]
    ensures Delivered(t)
  {
  }

  lemma DeliveredStep(lib: Library, srv: Server, s: Session, l: Label)
    requires Delivered(s) && Requests(srv, s) && Enabled(lib, s, l) && Orderly(srv, s, l)
    ensures Delivered(Next(lib, s, l))
  {
    var t := Next(lib, s, l);
    if !ByClient(l) {
      RemoteFrame(lib, s, l);
    } else if l.ClientReads? {
      RequestEffect(lib, s, l.chunk);
    } else if Deciding(l) {
      ClientFrame(lib, s, l);
      DecidingEffect(lib, s, l);
      DecisionEffect(lib, s, l);
    } else {
      DisposalEffect(lib, s, l);
      SendEffect(lib, s, l);
      if l.ClientWritesRemote? {
        DeliveredForward(s, t);
      } else if l.ClientSendsContext? {
        assert Reached(t) == s.sent;
      }
    }
  }

  // ---- the flow of responses -------------------------------------------------------

  function PendingBytes(pc: RemotePc): Bytes {
    if pc.Listening? then [] else pc.data
  }

  /** What is left of `all` after `read`. */
  function Rest(read: Bytes, all: Bytes): Bytes {
    if |read| <= |all| then all[|read|..] else []
  }

  lemma RestEmpty(read: Bytes, all: Bytes)
    requires read <= all && Rest(read, all) == []
    ensures read == all
  {
  }

  lemma RestMore(read: Bytes, more: Bytes)
    ensures read <= read + more && Rest(read, read + more) == more
  {
  }

  lemma RestRead(read: Bytes, chunk: Bytes, all: Bytes)
    requires read + chunk <= all
    ensures Rest(read, all) == chunk + Rest(read + chunk, all)
  {
  }

  /** What the database has written, or will write, for chunks it was sent and
      the remote loop has not read. */
  function Unread(srv: Server, s: Session): Bytes {
    Rest(Concat(s.remoteRead), Stream(srv, Reached(s)))
  }

  /** A cached body that has reached the client before its request is disposed of. */
  function Ahead(pc: ClientPc): Bytes {
    if pc.LogsHit? then pc.body else []
  }

  /** Bytes received, in the remote loop's hands and unread add up to the replies;
      while the client loop is busy the remote side is quiet. */
  predicate Flow(srv: Server, s: Session) {
    && Concat(s.remoteRead) <= Stream(srv, Reached(s))
    && Received(s.toClient) + PendingBytes(s.remote) + Unread(srv, s) == Replies(srv, s.verdicts) + Ahead(s.client)
    && (!s.client.Reading? ==> s.remote.Listening? && Unread(srv, s) == [])
    && (!s.remote.Listening? ==> s.remote.data != [])
  }

  lemma FlowRead(lib: Library, srv: Server, s: Session, l: Label)
    requires Flow(srv, s) && Requests(srv, s)
    requires Enabled(lib, s, l) && l.ClientReads? && Orderly(srv, s, l)
    ensures Flow(srv, Next(lib, s, l))
  {
    RequestEffect(lib, s, l.chunk);
    var unread := Unread(srv, s);
    assert |Received(s.toClient)| + |PendingBytes(s.remote)| + |unread| == |Replies(srv, s.verdicts)|;
    assert Reached(Next(lib, s, l)) == Reached(s);
  }

  /** A step after which all that the flow speaks of is as before. */
  lemma FlowSame(srv: Server, s: Session, t: Session)
    requires Flow(srv, s) && !s.client.Reading?
    requires t.remote == s.remote && t.remoteRead == s.remoteRead && t.toClient == s.toClient
    requires t.verdicts == s.verdicts && Reached(t) == Reached(s) && Ahead(t.client) == Ahead(s.client)
    ensures Flow(srv, t)
  {
  }

  lemma UnreadForward(srv: Server, s: Session, t: Session)
    requires Flow(srv, s) && s.client.WritesRemote? && s.sent != []
    requires t.client.Reading? && t.sent == s.sent && t.remoteRead == s.remoteRead
    ensures Unread(srv, t) == srv.response(Last(s.sent).id)
    ensures Concat(t.remoteRead) <= Stream(srv, Reached(t))
  {
    assert s.sent == Reached(s) + [Last(s.sent)];
    StreamSnoc(srv, Reached(s), Last(s.sent));
    RestEmpty(Concat(s.remoteRead), Stream(srv, Reached(s)));
    RestMore(Concat(s.remoteRead), srv.response(Last(s.sent).id));
  }

  lemma FlowForwarded(srv: Server, s: Session, t: Session)
    requires Flow(srv, s) && s.client.WritesRemote? && s.sent != [] && Last(s.sent).id == |s.verdicts|
    requires t.remoteRead == s.remoteRead && t.remote == s.remote && t.sent == s.sent
    requires t.toClient == s.toClient && t.client.Reading? && t.verdicts == s.verdicts + [Forwarded]
    ensures Flow(srv, t)
  {
    UnreadForward(srv, s, t);
    RepliesSnoc(srv, s.verdicts, Forwarded);
    Owing(Received(s.toClient), Replies(srv, s.verdicts), srv.response(|s.verdicts|));
  }

  lemma Owing(received: Bytes, replies: Bytes, response: Bytes)
    requires received + [] + [] == replies + []
    ensures received + [] + response == replies + response + []
  {
    Settling(received, replies);
    assert received + [] == received && replies + response + [] == replies + response;
  }

  /** The cached body is written; the request is disposed of at once or after a
      log entry. */
  lemma FlowHit(srv: Server, s: Session, t: Session)
    requires Flow(srv, s) && s.client.WritesClient?
    requires t.sent == s.sent && t.remoteRead == s.remoteRead && t.remote == s.remote
    requires t.toClient == s.toClient + [FromCache(s.client.body)]
    requires || (t.client.LogsHit? && t.client.body == s.client.body && t.verdicts == s.verdicts)
             || (t.client.Reading? && t.verdicts == s.verdicts + [Answered(s.client.body)])
    ensures Flow(srv, t)
  {
    var received, body := Received(s.toClient), s.client.body;
    ReceivedSnoc(s.toClient, FromCache(body));
    RepliesSnoc(srv, s.verdicts, Answered(body));
    assert Reached(t) == Reached(s) == s.sent;
    assert Unread(srv, t) == Unread(srv, s) == [];
    Settling(received, Replies(srv, s.verdicts));
    Serving(received, body);
  }

  lemma Serving(received: Bytes, body: Bytes)
    ensures (received + body) + [] + [] == received + body == (received + body) + []
  {
  }

  lemma FlowLogged(srv: Server, s: Session, t: Session)
    requires Flow(srv, s) && s.client.LogsHit? && t.client.Reading?
    requires t.sent == s.sent && t.remoteRead == s.remoteRead && t.remote == s.remote && t.toClient == s.toClient
    requires t.verdicts == s.verdicts + [Answered(s.client.body)]
    ensures Flow(srv, t)
  {
    RepliesSnoc(srv, s.verdicts, Answered(s.client.body));
    assert Replies(srv, t.verdicts) + [] == Replies(srv, s.verdicts) + s.client.body;
  }

  lemma FlowReads(srv: Server, s: Session, t: Session, chunk: Bytes)
    requires Flow(srv, s) && s.remote.Listening? && Concat(s.remoteRead) + chunk <= Stream(srv, Reached(s)) && chunk != []
    requires t.remoteRead == s.remoteRead + [chunk] && t.client == s.client && t.sent == s.sent
    requires t.toClient == s.toClient && t.verdicts == s.verdicts
    requires !t.remote.Listening? && PendingBytes(t.remote) == chunk
    ensures Flow(srv, t)
  {
    UnreadShrinks(srv, s, t, chunk);
    ConcatSnoc(s.remoteRead, chunk);
    Passing(Received(s.toClient), chunk, Unread(srv, t));
    assert Unread(srv, s) != [];
  }

  lemma Passing(received: Bytes, chunk: Bytes, unread: Bytes)
    ensures received + [] + (chunk + unread) == received + chunk + unread
    ensures received + chunk + unread == (received + chunk) + [] + unread
  {
  }

  lemma FlowRelays(srv: Server, s: Session, t: Session)
    requires Flow(srv, s) && !s.remote.Listening? && t.remote.Listening?
    requires t.remoteRead == s.remoteRead && t.client == s.client && t.sent == s.sent && t.verdicts == s.verdicts
    requires t.toClient == s.toClient + [Relayed(s.remote.data)]
    ensures Flow(srv, t)
  {
    ReceivedSnoc(s.toClient, Relayed(s.remote.data));
    Passing(Received(s.toClient), s.remote.data, Unread(srv, s));
  }

  lemma FlowRemote(lib: Library, srv: Server, s: Session, l: Label)
    requires Flow(srv, s)
    requires Enabled(lib, s, l) && !ByClient(l) && Orderly(srv, s, l)
    ensures Flow(srv, Next(lib, s, l))
  {
    var t := Next(lib, s, l);
    RemoteFrame(lib, s, l);
    RelayEffect(lib, s, l);
    if l.RemoteReads? {
      ReadsInHand(lib, s, l.chunk);
      FlowReads(srv, s, t, l.chunk);
    } else if l.RemoteRelays? {
      FlowRelays(srv, s, t);
    } else {
      HandEffect(lib, s, l);
      FlowHeld(srv, s, t);
    }
  }

  lemma ReadsInHand(lib: Library, s: Session, chunk: Bytes)
    requires Enabled(lib, s, RemoteReads(chunk))
    ensures var t := Next(lib, s, RemoteReads(chunk)); !t.remote.Listening? && PendingBytes(t.remote) == chunk
  {
  }

  lemma HandEffect(lib: Library, s: Session, l: Label)
    requires Enabled(lib, s, l) && !ByClient(l) && !l.RemoteReads? && !l.RemoteRelays?
    ensures var t := Next(lib, s, l);
            (t.remote.Listening? <==> s.remote.Listening?) && PendingBytes(t.remote) == PendingBytes(s.remote)
  {
  }

  lemma FlowHeld(srv: Server, s: Session, t: Session)
    requires Flow(srv, s)
    requires (t.remote.Listening? <==> s.remote.Listening?) && PendingBytes(t.remote) == PendingBytes(s.remote)
    requires t.remoteRead == s.remoteRead && t.client == s.client && t.sent == s.sent && t.verdicts == s.verdicts
    requires t.toClient == s.toClient
    ensures Flow(srv, t)
  {
  }

  lemma UnreadShrinks(srv: Server, s: Session, t: Session, chunk: Bytes)
    requires Concat(s.remoteRead) + chunk <= Stream(srv, Reached(s))
    requires t.remoteRead == s.remoteRead + [chunk] && t.client == s.client && t.sent == s.sent
    ensures Unread(srv, s) == chunk + Unread(srv, t)
    ensures Concat(t.remoteRead) <= Stream(srv, Reached(t))
  {
    ConcatSnoc(s.remoteRead, chunk);
    RestRead(Concat(s.remoteRead), chunk, Stream(srv, Reached(s)));
  }

  lemma FlowDispose(lib: Library, srv: Server, s: Session, l: Label)
    requires Flow(srv, s) && Requests(srv, s)
    requires Enabled(lib, s, l) && ByClient(l) && !Deciding(l)
    ensures Flow(srv, Next(lib, s, l))
  {
    var t := Next(lib, s, l);
    ClientFrame(lib, s, l);
    DisposalEffect(lib, s, l);
    SendEffect(lib, s, l);
    HitEffect(lib, s, l);
    if l.ClientWritesRemote? {
      FlowForwarded(srv, s, t);
    } else if l.ClientWritesClient? {
      FlowHit(srv, s, t);
    } else if l.ClientLogs? {
      FlowLogged(srv, s, t);
    } else {
      assert l.ClientSendsContext? ==> Reached(t) == s.sent;
      FlowSame(srv, s, t);
    }
  }

  lemma FlowStep(lib: Library, srv: Server, s: Session, l: Label)
    requires Flow(srv, s) && Requests(srv, s)
    requires Enabled(lib, s, l) && Orderly(srv, s, l)
    ensures Flow(srv, Next(lib, s, l))
  {
    if !ByClient(l) {
      FlowRemote(lib, srv, s, l);
    } else if l.ClientReads? {
      FlowRead(lib, srv, s, l);
    } else if Deciding(l) {
      ClientFrame(lib, s, l);
      DecidingEffect(lib, s, l);
      DecisionEffect(lib, s, l);
      FlowSame(srv, s, Next(lib, s, l));
    } else {
      FlowDispose(lib, srv, s, l);
    }
  }

  // ---- attribution ------------------------------------------------------------------

  /** The body of the `k`-th finished context: the response to its chunk, after
      the greeting for the first. */
  function Expected(srv: Server, sent: seq<Tagged>, k: nat): Bytes
    requires k < |sent|
  {
    (if k == 0 then srv.greeting else []) + srv.response(sent[k].id)
  }

  /** While a context waits in the channel, the response to it has not been read
      at all and everything before it has. */
  predicate Waiting(srv: Server, s: Session) {
    s.channel != [] ==>
      && s.remote.Listening? && s.sent != []
      && Concat(s.remoteRead) == Stream(srv, s.sent[..|s.sent| - 1])
  }

  predicate Filed(srv: Server, sent: seq<Tagged>, bodies: seq<Bytes>) {
    && |bodies| <= |sent|
    && (forall k :: 0 <= k < |bodies| ==> bodies[k] == Expected(srv, sent, k))
    && (bodies != [] ==> Concat(bodies) == Stream(srv, sent[..|bodies|]))
  }

  predicate Attributed(srv: Server, s: Session) {
    && Waiting(srv, s)
    && Filed(srv, s.sent, s.bodies)
    && (Finishing(s.remote) ==>
          |s.bodies| < |s.sent| && s.cachedBuf == Expected(srv, s.sent, |s.bodies|))
  }

  lemma FiledLonger(srv: Server, sent: seq<Tagged>, bodies: seq<Bytes>, t: Tagged)
    requires Filed(srv, sent, bodies)
    ensures Filed(srv, sent + [t], bodies)
  {
    assert (sent + [t])[..|bodies|] == sent[..|bodies|];
  }

  lemma FiledNext(srv: Server, sent: seq<Tagged>, bodies: seq<Bytes>)
    requires Filed(srv, sent, bodies) && |bodies| < |sent|
    ensures Filed(srv, sent, bodies + [Expected(srv, sent, |bodies|)])
  {
    var k := |bodies|;
    ConcatSnoc(bodies, Expected(srv, sent, k));
    assert sent[..k + 1] == sent[..k] + [sent[k]];
    StreamSnoc(srv, sent[..k], sent[k]);
    if k == 0 {
      assert sent[..0] == [] && bodies == [];
    }
  }

  /** When the next context is adopted, the buffer holds exactly the response to
      the current one. */
  lemma BufferComplete(srv: Server, sent: seq<Tagged>, bodies: seq<Bytes>, current: Bytes, read: Bytes)
    requires Filed(srv, sent, bodies) && |bodies| < |sent|
    requires Concat(bodies) + current == read == Stream(srv, sent[..|bodies| + 1])
    ensures current == Expected(srv, sent, |bodies|)
  {
    var k := |bodies|;
    var response := srv.response(sent[k].id);
    assert sent[..k + 1] == sent[..k] + [sent[k]];
    StreamSnoc(srv, sent[..k], sent[k]);
    if k == 0 {
      assert sent[..0] == [] && bodies == [];
      assert Concat(bodies) + current == current;
    } else {
      Cancel(Concat(bodies), current, response);
      assert [] + response == response;
    }
  }

  lemma Cancel(a: Bytes, x: Bytes, y: Bytes)
    requires a + x == a + y
    ensures x == y
  {
    assert x == (a + x)[|a|..];
    assert y == (a + y)[|a|..];
  }

  lemma AdoptionEffect(s: Session, chunk: Bytes)
    requires s.remote.Listening? && |s.channel| <= 1
    ensures var t := ReadFromRemote(s, chunk);
            && t.channel == [] && t.bodies == s.bodies && t.sent == s.sent
            && (Finishing(t.remote) <==> s.channel != [] && s.cachedCtx.Some?)
            && (Finishing(t.remote) ==> t.cachedBuf == s.cachedBuf)
  {
  }

  lemma AttributedSend(srv: Server, s: Session, t: Session, tag: Tagged)
    requires Attributed(srv, s) && Flow(srv, s) && s.client.SendsContext?
    requires SameRemoteSide(s, t) && t.sent == s.sent + [tag]
    ensures Attributed(srv, t)
  {
    FiledLonger(srv, s.sent, s.bodies, tag);
    assert t.sent[..|t.sent| - 1] == s.sent;
  }

  lemma AllFiled(s: Session)
    requires Partition(s) && s.remote.Listening?
    ensures Concat(s.bodies) + s.cachedBuf == Concat(s.remoteRead) && |s.bodies| == |s.finished|
  {
    var filed := Concat(s.bodies) + s.cachedBuf;
    assert filed + [] == filed;
  }

  /** A context waits behind the current one: the buffer is complete. */
  lemma CurrentComplete(srv: Server, s: Session)
    requires Attributed(srv, s) && Contexts(s) && Partition(s) && s.remote.Listening?
    requires s.channel != [] && s.cachedCtx.Some?
    ensures |s.bodies| < |s.sent| && s.cachedBuf == Expected(srv, s.sent, |s.bodies|)
  {
    assert |s.sent| == |s.finished| + 2;
    AllFiled(s);
    BufferComplete(srv, s.sent, s.bodies, s.cachedBuf, Concat(s.remoteRead));
  }

  lemma AttributedKept(srv: Server, s: Session, t: Session)
    requires Filed(srv, s.sent, s.bodies) && t.sent == s.sent && t.bodies == s.bodies && t.channel == []
    requires Finishing(t.remote) ==> |t.bodies| < |t.sent| && t.cachedBuf == Expected(srv, t.sent, |t.bodies|)
    ensures Attributed(srv, t)
  {
  }

  lemma AttributedRead(srv: Server, s: Session, chunk: Bytes)
    requires Attributed(srv, s) && Contexts(s) && Partition(s) && s.remote.Listening?
    ensures Attributed(srv, ReadFromRemote(s, chunk))
  {
    AdoptionEffect(s, chunk);
    if s.channel != [] && s.cachedCtx.Some? {
      CurrentComplete(srv, s);
    }
    AttributedKept(srv, s, ReadFromRemote(s, chunk));
  }

  lemma AttributedFile(lib: Library, srv: Server, s: Session, l: Label)
    requires Attributed(srv, s) && Contexts(s)
    requires Enabled(lib, s, l) && !ByClient(l) && !l.RemoteReads?
    ensures Attributed(srv, Next(lib, s, l))
  {
    RemoteFrame(lib, s, l);
    FilingEffect(lib, s, l);
    ChannelStays(lib, s, l);
    AttributedFiled(srv, s, Next(lib, s, l));
  }

  lemma ChannelStays(lib: Library, s: Session, l: Label)
    requires Enabled(lib, s, l) && !ByClient(l) && !l.RemoteReads?
    ensures var t := Next(lib, s, l);
            t.channel == s.channel && (t.remote.Listening? <== s.remote.Listening?)
            && (Finishing(t.remote) ==> Finishing(s.remote))
  {
  }

  lemma AttributedFiled(srv: Server, s: Session, t: Session)
    requires Attributed(srv, s)
    requires t.sent == s.sent && t.channel == s.channel && t.remoteRead == s.remoteRead
    requires s.remote.Listening? ==> t.remote.Listening?
    requires || (t.bodies == s.bodies && t.cachedBuf == s.cachedBuf && (Finishing(t.remote) ==> Finishing(s.remote)))
             || (Finishing(s.remote) && t.bodies == s.bodies + [s.cachedBuf] && !Finishing(t.remote))
    ensures Attributed(srv, t)
  {
    if Finishing(s.remote) {
      FiledNext(srv, s.sent, s.bodies);
    }
  }

  lemma AttributedStep(lib: Library, srv: Server, s: Session, l: Label)
    requires Attributed(srv, s) && Flow(srv, s)
    requires Contexts(s) && Partition(s) && Enabled(lib, s, l)
    ensures Attributed(srv, Next(lib, s, l))
  {
    if l.RemoteReads? {
      AttributedRead(srv, s, l.chunk);
    } else if !ByClient(l) {
      AttributedFile(lib, srv, s, l);
    } else {
      ClientFrame(lib, s, l);
      if l.ClientSendsContext? {
        SendEffect(lib, s, l);
        AttributedSend(srv, s, Next(lib, s, l), s.client.tag);
      }
    }
  }

  // ---- all together -----------------------------------------------------------------

  predicate Disciplined(lib: Library, srv: Server, s: Session) {
    Sound(lib, s) && Requests(srv, s) && Delivered(s) && Flow(srv, s) && Attributed(srv, s)
  }

  lemma DisciplinedStart(lib: Library, srv: Server)
    ensures Disciplined(lib, srv, INITIAL)
  {
    SoundStart(lib);
    assert [] + [] + srv.greeting == srv.greeting + [];
  }

  /** Every step of a well-behaved client and database keeps the discipline,
      whatever the database answers and whatever Redis replies. */
  lemma DisciplinedStep(lib: Library, srv: Server, s: Session, l: Label)
    requires Disciplined(lib, srv, s) && Enabled(lib, s, l) && Orderly(srv, s, l)
    ensures Disciplined(lib, srv, Next(lib, s, l))
  {
    SoundStep(lib, s, l);
    RequestsStep(lib, srv, s, l);
    DeliveredStep(lib, srv, s, l);
    FlowStep(lib, srv, s, l);
    AttributedStep(lib, srv, s, l);
  }

  /** Exact attribution: every finished body is the complete response to the
      chunk of its own context and nothing else, but for the greeting, which
      goes to the first context. */
  lemma ExactAttribution(srv: Server, s: Session, k: nat)
    requires Contexts(s) && Partition(s) && Delivered(s) && Attributed(srv, s)
    requires k < |s.bodies|
    ensures k < |s.finished| && k < |s.toRemote|
    ensures s.finished[k].id < |s.clientRead| && s.toRemote[k] == s.clientRead[s.finished[k].id]
    ensures s.bodies[k] == (if k == 0 then srv.greeting else []) + srv.response(s.finished[k].id)
  {
    assert s.finished[k] == s.sent[k];
    assert |s.sent| > |s.finished|;
    assert s.bodies[k] == Expected(srv, s.sent, k);
  }

  /** A session at rest has nothing under way: the client has every reply. */
  lemma AllReceived(srv: Server, s: Session)
    requires Flow(srv, s)
    ensures Received(s.toClient) <= Replies(srv, s.verdicts) + Ahead(s.client)
    ensures AtRest(srv, s) ==> Received(s.toClient) == Replies(srv, s.verdicts)
  {
    Leading(Received(s.toClient), PendingBytes(s.remote), Unread(srv, s));
    if AtRest(srv, s) {
      Settling(Received(s.toClient), Replies(srv, s.verdicts));
    }
  }

  lemma Leading(received: Bytes, pending: Bytes, unread: Bytes)
    ensures received <= received + pending + unread
  {
  }

  lemma Settling(received: Bytes, replies: Bytes)
    requires received + [] + [] == replies + []
    ensures received == replies
  {
    assert received + [] + [] == received && replies + [] == replies;
  }

  // ---- progress -----------------------------------------------------------------------

  /** Every request read so far is answered, and no byte is on its way. */
  predicate AtRest(srv: Server, s: Session) {
    s.client.Reading? && s.remote.Listening? && Unread(srv, s) == []
  }

  /** The channel is empty whenever a context is to be sent. */
  lemma SendNeverBlocks(srv: Server, s: Session)
    requires Requests(srv, s) && Flow(srv, s) && Waiting(srv, s) && s.client.SendsContext?
    ensures s.channel == []
  {
    RestEmpty(Concat(s.remoteRead), Stream(srv, s.sent));
    if s.sent != [] {
      StreamGrows(srv, s.sent);
    }
  }

  lemma StreamGrows(srv: Server, tags: seq<Tagged>)
    requires tags != [] && srv.response(Last(tags).id) != []
    ensures Stream(srv, tags) != Stream(srv, tags[..|tags| - 1])
  {
    assert |Stream(srv, tags)| > |Stream(srv, tags[..|tags| - 1])|;
  }

  function ClientRank(pc: ClientPc): nat {
    match pc
    case Reading => 0
    case LogsHit(_, _) => 1
    case WritesClient(_, _) => 2
    case WantsWriter(_, _) => 3
    case WritesUnknown => 3
    case WritesRemote(_) => 4
    case SendsContext(_) => 5
    case WantsGet(_, _, _) => 6
    case WantsExists(_, _, _) => 7
    case WantsHandler(_, _) => 8
  }

  function RemoteRank(pc: RemotePc): nat {
    match pc
    case Listening => 0
    case Relays(_) => 1
    case WantsWriterToRelay(_) => 2
    case WantsHandlerToRespond(_) => 3
    case LogsFinished(_, _) => 4
    case SendsTask(_, _) => 5
    case WantsHandlerToFinish(_, _) => 6
  }

  /** The length of the response to a request that may still be forwarded. */
  function Owed(srv: Server, pc: ClientPc): nat {
    if pc.WantsHandler? || pc.WantsExists? || pc.WantsGet? || pc.SendsContext? || pc.WritesRemote?
    then |srv.response(pc.tag.id)| else 0
  }

  /** Bounds the steps a session still needs to come to rest. */
  function Rank(srv: Server, s: Session): nat {
    10 * (|Unread(srv, s)| + Owed(srv, s.client)) + ClientRank(s.client) + RemoteRank(s.remote)
  }

  lemma ClientRankDecides(lib: Library, s: Session, l: Label)
    requires Enabled(lib, s, l) && Deciding(l) && !l.ClientReads?
    ensures ClientRank(Next(lib, s, l).client) < ClientRank(s.client)
  {
  }

  lemma RankDecide(lib: Library, srv: Server, s: Session, l: Label)
    requires Enabled(lib, s, l) && Deciding(l) && !l.ClientReads?
    ensures Rank(srv, Next(lib, s, l)) < Rank(srv, s)
  {
    ClientFrame(lib, s, l);
    DecisionEffect(lib, s, l);
    ClientRankDecides(lib, s, l);
  }

  lemma ClientRankDisposes(lib: Library, s: Session, l: Label)
    requires Enabled(lib, s, l) && ByClient(l) && !Deciding(l)
    ensures ClientRank(Next(lib, s, l).client) < ClientRank(s.client)
  {
  }

  lemma RankDispose(lib: Library, srv: Server, s: Session, l: Label)
    requires Flow(srv, s) && Requests(srv, s)
    requires Enabled(lib, s, l) && ByClient(l) && !Deciding(l)
    ensures Rank(srv, Next(lib, s, l)) < Rank(srv, s)
  {
    var t := Next(lib, s, l);
    ClientFrame(lib, s, l);
    DisposalEffect(lib, s, l);
    SendEffect(lib, s, l);
    ClientRankDisposes(lib, s, l);
    if l.ClientWritesRemote? {
      UnreadForward(srv, s, t);
    } else {
      assert Reached(t) == Reached(s);
    }
  }

  lemma RankRelay(lib: Library, srv: Server, s: Session, l: Label)
    requires Enabled(lib, s, l) && !ByClient(l) && !l.Ends? && Orderly(srv, s, l)
    ensures Rank(srv, Next(lib, s, l)) < Rank(srv, s)
  {
    RemoteFrame(lib, s, l);
    RelayEffect(lib, s, l);
    RemoteRankFalls(lib, s, l);
    if l.RemoteReads? {
      UnreadShrinks(srv, s, Next(lib, s, l), l.chunk);
    }
  }

  lemma RemoteRankFalls(lib: Library, s: Session, l: Label)
    requires Enabled(lib, s, l) && !ByClient(l) && !l.Ends?
    ensures RemoteRank(Next(lib, s, l).remote) < RemoteRank(s.remote) + (if l.RemoteReads? then 7 else 0)
  {
  }

  /** Every step but a new request or the end brings the session closer to
      rest. */
  lemma RankDecreases(lib: Library, srv: Server, s: Session, l: Label)
    requires Flow(srv, s) && Requests(srv, s)
    requires Enabled(lib, s, l) && Orderly(srv, s, l) && !l.ClientReads? && !l.Ends?
    ensures Rank(srv, Next(lib, s, l)) < Rank(srv, s)
  {
    if !ByClient(l) {
      RankRelay(lib, srv, s, l);
    } else if Deciding(l) {
      RankDecide(lib, srv, s, l);
    } else {
      RankDispose(lib, srv, s, l);
    }
  }

  /** The next chunk of the database, at most a buffer long. */
  function NextChunk(unread: Bytes): Bytes {
    if |unread| <= BUFFER_SIZE then unread else unread[..BUFFER_SIZE]
  }

  lemma ChunkOrderly(read: Bytes, all: Bytes)
    requires read <= all
    ensures read + NextChunk(all[|read|..]) <= all
  {
  }

  /** A step other than a new request or the end, when there is one; `entities`,
      `exists_` and `get` are what the template list and Redis say now. */
  function Move(lib: Library, srv: Server, s: Session,
                entities: seq<CacheConfigEntity>, exists_: Reply<bool>, get: Reply<Bytes>): Label
    requires Loggable(lib, s)
  {
    match s.client
    case WantsHandler(_, _) => ClientTakesHandler(entities)
    case WantsExists(_, _, _) => ExistsReplies(exists_)
    case WantsGet(_, _, _) => GetReplies(get)
    case Reading =>
      if s.remote.Listening? then RemoteReads(NextChunk(Unread(srv, s))) else Deadlock.RemoteMove(lib, s)
    case _ => Deadlock.ClientMove(lib, s)
  }

  lemma MoveOfClient(lib: Library, srv: Server, s: Session,
                     entities: seq<CacheConfigEntity>, exists_: Reply<bool>, get: Reply<Bytes>)
    requires Locks(s) && Loggable(lib, s) && Flow(srv, s) && !s.ended && !s.client.Reading?
    requires s.client.SendsContext? ==> s.channel == []
    ensures var l := Move(lib, srv, s, entities, exists_, get);
            Enabled(lib, s, l) && Orderly(srv, s, l) && !l.ClientReads? && !l.Ends?
  {
    if !s.client.WantsHandler? && !s.client.WantsExists? && !s.client.WantsGet? {
      Deadlock.ClientMoves(lib, s);
    }
  }

  lemma MoveOfRemote(lib: Library, srv: Server, s: Session,
                     entities: seq<CacheConfigEntity>, exists_: Reply<bool>, get: Reply<Bytes>)
    requires Locks(s) && Contexts(s) && Loggable(lib, s) && Flow(srv, s)
    requires !s.ended && s.client.Reading? && !AtRest(srv, s)
    ensures var l := Move(lib, srv, s, entities, exists_, get);
            Enabled(lib, s, l) && Orderly(srv, s, l) && !l.ClientReads? && !l.Ends?
  {
    if s.remote.Listening? {
      ChunkOrderly(Concat(s.remoteRead), Stream(srv, Reached(s)));
    } else {
      Deadlock.RemoteMoves(lib, s);
    }
  }

  /** While a request is unanswered, some step other than a new request or the
      end is possible, whatever the templates are and whatever Redis replies. */
  lemma MoveEnabled(lib: Library, srv: Server, s: Session,
                    entities: seq<CacheConfigEntity>, exists_: Reply<bool>, get: Reply<Bytes>)
    requires Locks(s) && Contexts(s) && Loggable(lib, s)
    requires Requests(srv, s) && Flow(srv, s) && Waiting(srv, s) && !s.ended && !AtRest(srv, s)
    ensures var l := Move(lib, srv, s, entities, exists_, get);
            Enabled(lib, s, l) && Orderly(srv, s, l) && !l.ClientReads? && !l.Ends?
  {
    if s.client.Reading? {
      MoveOfRemote(lib, srv, s, entities, exists_, get);
    } else {
      if s.client.SendsContext? {
        SendNeverBlocks(srv, s);
      }
      MoveOfClient(lib, srv, s, entities, exists_, get);
    }
  }
}
