/** The two byte streams of every run, and what a run reports about itself. */
module Streams {
  import opened Basics
  import opened Protocol
  import opened Meta
  import opened Handler
  import opened Session
  import opened Conservation
  import Patterns

  // ---- to the client ------------------------------------------------------------

  function RelayedIn(outs: seq<Output>): seq<Bytes> {
    if outs == [] then []
    else RelayedIn(outs[..|outs| - 1])
         + (if outs[|outs| - 1].Relayed? then [outs[|outs| - 1].bytes] else [])
  }

  function CachedIn(outs: seq<Output>): seq<Bytes> {
    if outs == [] then []
    else CachedIn(outs[..|outs| - 1])
         + (if outs[|outs| - 1].FromCache? then [outs[|outs| - 1].bytes] else [])
  }

  lemma OutputSnoc(outs: seq<Output>, o: Output)
    ensures RelayedIn(outs + [o]) == RelayedIn(outs) + (if o.Relayed? then [o.bytes] else [])
    ensures CachedIn(outs + [o]) == CachedIn(outs) + (if o.FromCache? then [o.bytes] else [])
  {
    assert (outs + [o])[..|outs|] == outs;
  }

  function PendingRelay(pc: RemotePc): seq<Bytes> {
    if pc.Listening? then [] else [pc.data]
  }

  function PendingHit(pc: ClientPc): seq<Bytes> {
    if pc.WantsWriter? || pc.WritesClient? then [pc.body] else []
  }

  function Bodies(hits: seq<Hit>): seq<Bytes> {
    seq(|hits|, i requires 0 <= i < |hits| => hits[i].body)
  }

  /** The client receives whole chunks of the database and whole cached bodies,
      each kind in order, none lost or repeated. */
  predicate ToClient(s: Session) {
    && RelayedIn(s.toClient) + PendingRelay(s.remote) == s.remoteRead
    && CachedIn(s.toClient) + PendingHit(s.client) == Bodies(s.hits)
  }

  lemma BodiesSnoc(hits: seq<Hit>, after: seq<Hit>)
    ensures |after| == |hits| + 1 && after[..|hits|] == hits ==> Bodies(after) == Bodies(hits) + [after[|hits|].body]
  {
  }

  lemma HitEffect(lib: Library, s: Session, l: Label)
    requires Enabled(lib, s, l) && ByClient(l) && !Deciding(l)
    ensures var t := Next(lib, s, l);
            && t.remote == s.remote && t.remoteRead == s.remoteRead && t.hits == s.hits
            && (if l.ClientWritesClient? then
                  t.toClient == s.toClient + [FromCache(s.client.body)] && PendingHit(t.client) == []
                else t.toClient == s.toClient && PendingHit(t.client) == PendingHit(s.client))
  {
  }

  lemma RelayEffect(lib: Library, s: Session, l: Label)
    requires Enabled(lib, s, l) && !ByClient(l)
    ensures var t := Next(lib, s, l);
            && t.client == s.client && t.hits == s.hits
            && (if l.RemoteReads? then
                  t.remoteRead == s.remoteRead + [l.chunk] && t.toClient == s.toClient
                  && PendingRelay(s.remote) == [] && PendingRelay(t.remote) == [l.chunk]
                else if l.RemoteRelays? then
                  t.toClient == s.toClient + [Relayed(s.remote.data)] && t.remoteRead == s.remoteRead
                  && PendingRelay(t.remote) == []
                else
                  t.toClient == s.toClient && t.remoteRead == s.remoteRead
                  && PendingRelay(t.remote) == PendingRelay(s.remote))
  {
  }

  lemma ToClientRemote(lib: Library, s: Session, l: Label)
    requires ToClient(s) && Enabled(lib, s, l) && !ByClient(l)
    ensures ToClient(Next(lib, s, l))
  {
    RelayEffect(lib, s, l);
    AppendNothing(RelayedIn(s.toClient));
    if l.RemoteRelays? {
      OutputSnoc(s.toClient, Relayed(s.remote.data));
      AppendNothing(RelayedIn(s.toClient) + [s.remote.data]);
      AppendNothing(CachedIn(s.toClient));
    }
  }

  lemma ToClientHit(lib: Library, s: Session, l: Label)
    requires ToClient(s) && Enabled(lib, s, l) && ByClient(l) && !Deciding(l)
    ensures ToClient(Next(lib, s, l))
  {
    HitEffect(lib, s, l);
    if l.ClientWritesClient? {
      OutputSnoc(s.toClient, FromCache(s.client.body));
      AppendNothing(RelayedIn(s.toClient));
      AppendNothing(CachedIn(s.toClient) + [s.client.body]);
    }
  }

  lemma ToClientDecide(lib: Library, s: Session, l: Label)
    requires ToClient(s) && Enabled(lib, s, l) && Deciding(l)
    ensures ToClient(Next(lib, s, l))
  {
    ClientFrame(lib, s, l);
    if l.ClientReads? {
      ReadEffect(lib, s, l.chunk);
    } else {
      DecidingEffect(lib, s, l);
      DecisionEffect(lib, s, l);
      AppendNothing(CachedIn(s.toClient));
      BodiesSnoc(s.hits, Next(lib, s, l).hits);
    }
  }

  lemma ToClientStep(lib: Library, s: Session, l: Label)
    requires ToClient(s) && Enabled(lib, s, l)
    ensures ToClient(Next(lib, s, l))
  {
    if !ByClient(l) {
      ToClientRemote(lib, s, l);
    } else if Deciding(l) {
      ToClientDecide(lib, s, l);
    } else {
      ToClientHit(lib, s, l);
    }
  }

  // ---- to the database -------------------------------------------------------------

  /** The chunks whose verdict was not an answer from the cache. */
  function Passed(chunks: seq<Bytes>, verdicts: seq<Verdict>): seq<Bytes>
    requires |chunks| == |verdicts|
  {
    if chunks == [] then []
    else
      var n := |chunks| - 1;
      Passed(chunks[..n], verdicts[..n]) + (if verdicts[n].Answered? then [] else [chunks[n]])
  }

  /** What is left in the read buffer: a chunk of unknown type is not cleared. */
  function Backlog(chunks: seq<Bytes>, verdicts: seq<Verdict>): Bytes
    requires |chunks| == |verdicts|
  {
    if chunks == [] || !verdicts[|chunks| - 1].Unknown? then []
    else Backlog(chunks[..|chunks| - 1], verdicts[..|chunks| - 1]) + chunks[|chunks| - 1]
  }

  function Writes(chunks: seq<Bytes>, verdicts: seq<Verdict>): seq<Bytes>
    requires |chunks| == |verdicts|
  {
    if chunks == [] then []
    else
      var n := |chunks| - 1;
      Writes(chunks[..n], verdicts[..n])
      + (if verdicts[n].Answered? then [] else [Backlog(chunks[..n], verdicts[..n]) + chunks[n]])
  }

  lemma HistorySnoc(chunks: seq<Bytes>, verdicts: seq<Verdict>, c: Bytes, v: Verdict)
    requires |chunks| == |verdicts|
    ensures Writes(chunks + [c], verdicts + [v])
         == Writes(chunks, verdicts) + (if v.Answered? then [] else [Backlog(chunks, verdicts) + c])
    ensures Backlog(chunks + [c], verdicts + [v]) == if v.Unknown? then Backlog(chunks, verdicts) + c else []
  {
    assert (chunks + [c])[..|chunks|] == chunks;
    assert (verdicts + [v])[..|chunks|] == verdicts;
  }

  /** A chunk that says by itself what it is. */
  predicate Known(chunk: Bytes) {
    |chunk| >= 5 && Packet(chunk).PacketType().Some?
  }

  predicate AllKnown(chunks: seq<Bytes>) {
    forall i :: 0 <= i < |chunks| ==> Known(chunks[i])
  }

  predicate UnknownData(data: Bytes) {
    |data| >= 5 && Packet(data).PacketType().None?
  }

  /** A chunk is of unknown type to the client loop exactly when some chunk up to
      it is of unknown type by itself. */
  predicate Typed(clientRead: seq<Bytes>, verdicts: seq<Verdict>) {
    |verdicts| <= |clientRead|
    && forall i :: 0 <= i < |verdicts| ==> (verdicts[i].Unknown? <==> !AllKnown(clientRead[..i + 1]))
  }

  predicate Written(clientRead: seq<Bytes>, verdicts: seq<Verdict>, readBuf: Bytes, toRemote: seq<Bytes>) {
    && |verdicts| <= |clientRead| <= |verdicts| + 1
    && (forall i :: 0 <= i < |clientRead| ==> clientRead[i] != [])
    && Typed(clientRead, verdicts)
    && var backlog := Backlog(clientRead[..|verdicts|], verdicts);
    && toRemote == Writes(clientRead[..|verdicts|], verdicts)
    && readBuf == (if |clientRead| == |verdicts| then backlog else backlog + clientRead[|verdicts|])
    && (backlog != [] ==> UnknownData(backlog))
  }

  predicate ToRemote(s: Session) {
    && Written(s.clientRead, s.verdicts, s.readBuf, s.toRemote)
    && (s.client.Reading? <==> |s.clientRead| == |s.verdicts|)
    && (s.client.WritesUnknown? ==> UnknownData(s.readBuf) && !AllKnown(s.clientRead))
    && (HasTag(s.client) ==> AllKnown(s.clientRead))
  }

  /** Nothing is left in the buffer exactly when every chunk was known. */
  lemma BacklogKnown(chunks: seq<Bytes>, verdicts: seq<Verdict>)
    requires |chunks| == |verdicts| && Typed(chunks, verdicts)
    requires forall i :: 0 <= i < |chunks| ==> chunks[i] != []
    ensures Backlog(chunks, verdicts) == [] <==> AllKnown(chunks)
  {
    if chunks != [] {
      assert chunks[..|chunks| - 1 + 1] == chunks;
    }
  }

  lemma TypedPrefix(clientRead: seq<Bytes>, verdicts: seq<Verdict>)
    requires Typed(clientRead, verdicts)
    ensures Typed(clientRead[..|verdicts|], verdicts)
  {
    forall i | 0 <= i < |verdicts|
      ensures verdicts[i].Unknown? <==> !AllKnown(clientRead[..|verdicts|][..i + 1])
    {
      assert clientRead[..|verdicts|][..i + 1] == clientRead[..i + 1];
    }
  }

  lemma TypedReads(clientRead: seq<Bytes>, verdicts: seq<Verdict>, chunk: Bytes)
    requires Typed(clientRead, verdicts)
    ensures Typed(clientRead + [chunk], verdicts)
  {
    forall i | 0 <= i < |verdicts|
      ensures verdicts[i].Unknown? <==> !AllKnown((clientRead + [chunk])[..i + 1])
    {
      assert (clientRead + [chunk])[..i + 1] == clientRead[..i + 1];
    }
  }

  lemma AllKnownSnoc(chunks: seq<Bytes>, chunk: Bytes)
    ensures AllKnown(chunks + [chunk]) <==> AllKnown(chunks) && Known(chunk)
  {
    if AllKnown(chunks + [chunk]) {
      assert (chunks + [chunk])[|chunks|] == chunk;
      assert forall i :: 0 <= i < |chunks| ==> (chunks + [chunk])[i] == chunks[i];
    }
  }

  lemma WrittenReads(clientRead: seq<Bytes>, verdicts: seq<Verdict>, readBuf: Bytes, toRemote: seq<Bytes>, chunk: Bytes)
    requires Written(clientRead, verdicts, readBuf, toRemote) && |clientRead| == |verdicts| && chunk != []
    requires |readBuf + chunk| >= 5
    ensures Written(clientRead + [chunk], verdicts, readBuf + chunk, toRemote)
    ensures UnknownData(readBuf + chunk) || |chunk| >= 5 ==> (UnknownData(readBuf + chunk) <==> !AllKnown(clientRead + [chunk]))
  {
    assert clientRead[..|verdicts|] == clientRead;
    assert (clientRead + [chunk])[..|verdicts|] == clientRead;
    TypedReads(clientRead, verdicts, chunk);
    BacklogKnown(clientRead, verdicts);
    AllKnownSnoc(clientRead, chunk);
    if readBuf == [] {
      assert readBuf + chunk == chunk;
    }
  }

  lemma HistoryDisposes(init: seq<Bytes>, verdicts: seq<Verdict>, last: Bytes, v: Verdict)
    requires |init| == |verdicts|
    requires !v.Unknown? ==> Backlog(init, verdicts) == []
    ensures var data := Backlog(init, verdicts) + last;
            && Writes(init + [last], verdicts + [v])
               == (if v.Answered? then Writes(init, verdicts) else Writes(init, verdicts) + [data])
            && Backlog(init + [last], verdicts + [v]) == (if v.Unknown? then data else [])
  {
    HistorySnoc(init, verdicts, last, v);
    assert Writes(init, verdicts) + [] == Writes(init, verdicts);
  }

  lemma TypedDisposes(clientRead: seq<Bytes>, verdicts: seq<Verdict>, v: Verdict)
    requires Typed(clientRead, verdicts) && |clientRead| == |verdicts| + 1
    requires v.Unknown? <==> !AllKnown(clientRead)
    ensures Typed(clientRead, verdicts + [v])
  {
    assert clientRead[..|verdicts| + 1] == clientRead;
  }

  lemma WrittenDisposes(clientRead: seq<Bytes>, verdicts: seq<Verdict>, readBuf: Bytes, toRemote: seq<Bytes>, v: Verdict)
    requires Written(clientRead, verdicts, readBuf, toRemote) && |clientRead| == |verdicts| + 1
    requires v.Unknown? ==> UnknownData(readBuf)
    requires v.Unknown? <==> !AllKnown(clientRead)
    ensures Written(clientRead, verdicts + [v], if v.Unknown? then readBuf else [],
                    if v.Answered? then toRemote else toRemote + [readBuf])
  {
    var init, last := clientRead[..|verdicts|], clientRead[|verdicts|];
    TypedPrefix(clientRead, verdicts);
    BacklogKnown(init, verdicts);
    assert clientRead == init + [last];
    AllKnownSnoc(init, last);
    HistoryDisposes(init, verdicts, last, v);
    assert clientRead[..|verdicts + [v]|] == clientRead;
    TypedDisposes(clientRead, verdicts, v);
  }

  lemma ToRemoteStep(lib: Library, s: Session, l: Label)
    requires ToRemote(s) && Enabled(lib, s, l)
    ensures ToRemote(Next(lib, s, l))
  {
    if !ByClient(l) {
      RemoteFrame(lib, s, l);
    } else if l.ClientReads? {
      ReadEffect(lib, s, l.chunk);
      if |s.readBuf + l.chunk| >= 5 {
        WrittenReads(s.clientRead, s.verdicts, s.readBuf, s.toRemote, l.chunk);
      }
    } else if Deciding(l) {
      DecidingEffect(lib, s, l);
    } else {
      var t := Next(lib, s, l);
      DisposalEffect(lib, s, l);
      if t.client.Reading? {
        WrittenDisposes(s.clientRead, s.verdicts, s.readBuf, s.toRemote, t.verdicts[|s.verdicts|]);
      }
    }
  }

  // ---- when is forwarding faithful? ---------------------------------------------------

  lemma WritesLast(chunks: seq<Bytes>, verdicts: seq<Verdict>)
    requires |chunks| == |verdicts| && chunks != []
    ensures var n := |chunks| - 1;
            var backlog := Backlog(chunks[..n], verdicts[..n]);
            && |Concat(Writes(chunks, verdicts))| == |Concat(Writes(chunks[..n], verdicts[..n]))|
                  + (if verdicts[n].Answered? then 0 else |backlog| + |chunks[n]|)
            && |Concat(Passed(chunks, verdicts))| == |Concat(Passed(chunks[..n], verdicts[..n]))|
                  + (if verdicts[n].Answered? then 0 else |chunks[n]|)
  {
    var n := |chunks| - 1;
    assert Writes(chunks[..n], verdicts[..n]) + [] == Writes(chunks[..n], verdicts[..n]);
    assert Passed(chunks[..n], verdicts[..n]) + [] == Passed(chunks[..n], verdicts[..n]);
    ConcatSnoc(Writes(chunks[..n], verdicts[..n]), Backlog(chunks[..n], verdicts[..n]) + chunks[n]);
    ConcatSnoc(Passed(chunks[..n], verdicts[..n]), chunks[n]);
  }

  /** Chunks of unknown type come last, and more than one of them is sent more
      than once. */
  lemma {:induction false} WritesPassed(chunks: seq<Bytes>, verdicts: seq<Verdict>)
    requires |chunks| == |verdicts| && Typed(chunks, verdicts)
    requires forall i :: 0 <= i < |chunks| ==> chunks[i] != []
    ensures |Concat(Writes(chunks, verdicts))| >= |Concat(Passed(chunks, verdicts))|
    ensures chunks != [] && !AllKnown(chunks[..|chunks| - 1]) ==>
              |Concat(Writes(chunks, verdicts))| > |Concat(Passed(chunks, verdicts))|
    ensures chunks == [] || AllKnown(chunks[..|chunks| - 1]) ==> Writes(chunks, verdicts) == Passed(chunks, verdicts)
  {
    if chunks != [] {
      var n := |chunks| - 1;
      TypedInit(chunks, verdicts);
      WritesPassed(chunks[..n], verdicts[..n]);
      WritesLast(chunks, verdicts);
      BacklogKnown(chunks[..n], verdicts[..n]);
      assert chunks[..n + 1] == chunks;
      if AllKnown(chunks[..n]) {
        assert n > 0 ==> chunks[..n][..n - 1] == chunks[..n - 1];
        WritesKnown(chunks, verdicts);
      } else {
        assert verdicts[n].Unknown?;
      }
    }
  }

  lemma WritesKnown(chunks: seq<Bytes>, verdicts: seq<Verdict>)
    requires |chunks| == |verdicts| && chunks != []
    requires Backlog(chunks[..|chunks| - 1], verdicts[..|chunks| - 1]) == []
    requires Writes(chunks[..|chunks| - 1], verdicts[..|chunks| - 1]) == Passed(chunks[..|chunks| - 1], verdicts[..|chunks| - 1])
    ensures Writes(chunks, verdicts) == Passed(chunks, verdicts)
  {
    AppendNothing(chunks[|chunks| - 1]);
  }

  lemma TypedInit(chunks: seq<Bytes>, verdicts: seq<Verdict>)
    requires |chunks| == |verdicts| && chunks != [] && Typed(chunks, verdicts)
    ensures Typed(chunks[..|chunks| - 1], verdicts[..|chunks| - 1])
  {
    var n := |chunks| - 1;
    forall i | 0 <= i < n
      ensures verdicts[..n][i].Unknown? <==> !AllKnown(chunks[..n][..i + 1])
    {
      assert chunks[..n][..i + 1] == chunks[..i + 1];
    }
  }

  /** The chunks the client loop is done with. */
  function Disposed(s: Session): seq<Bytes>
    requires ToRemote(s)
  {
    s.clientRead[..|s.verdicts|]
  }

  /** No chunk but possibly the last is of unknown type by its own fifth byte. */
  predicate UnknownOnlyLast(chunks: seq<Bytes>) {
    chunks == [] || AllKnown(chunks[..|chunks| - 1])
  }

  /** The database has received exactly the chunks that were not answered from
      the cache if and only if no chunk but possibly the last of them is of
      unknown type, and then it received them one write each. */
  lemma ForwardingFaithful(s: Session)
    requires ToRemote(s)
    ensures Concat(s.toRemote) == Concat(Passed(Disposed(s), s.verdicts)) <==> UnknownOnlyLast(Disposed(s))
    ensures UnknownOnlyLast(Disposed(s)) ==> s.toRemote == Passed(Disposed(s), s.verdicts)
  {
    TypedPrefix(s.clientRead, s.verdicts);
    WritesPassed(Disposed(s), s.verdicts);
  }

  const STRAY: Bytes := [0, 0, 0, 0, 0x1b]

  lemma StrayLengths()
    ensures |Concat([STRAY, STRAY + STRAY])| == 15
    ensures |Concat(Passed([STRAY, STRAY], [Unknown, Unknown]))| == 10
  {
    var once, twice := [STRAY], [STRAY, STRAY];
    assert once == [] + [STRAY] && [STRAY, STRAY + STRAY] == once + [STRAY + STRAY] && twice == once + [STRAY];
    ConcatSnoc([], STRAY);
    ConcatSnoc(once, STRAY + STRAY);
    ConcatSnoc(once, STRAY);
    assert twice[..1] == once && [Unknown, Unknown][..1] == [Unknown];
    assert once[..0] == [] && Passed(once, [Unknown]) == [] + [STRAY];
    assert Passed(twice, [Unknown, Unknown]) == twice;
  }

  /** Two chunks of unknown type: the database receives the first one twice. */
  lemma StrayChunksRepeat(lib: Library) returns (run: seq<Label>, s: Session)
    ensures Exec(lib, run) == Some(s) && !s.ended && s.client.Reading?
    ensures s.clientRead == [STRAY, STRAY] && s.verdicts == [Unknown, Unknown]
    ensures s.toRemote == [STRAY, STRAY + STRAY]
    ensures Concat(s.toRemote) != Concat(Passed([STRAY, STRAY], [Unknown, Unknown]))
  {
    run, s := PassStray(lib, [], INITIAL);
    assert [] + STRAY == STRAY;
    run, s := PassStray(lib, run, s);
    StrayLengths();
  }

  lemma PassStray(lib: Library, run: seq<Label>, s: Session) returns (run': seq<Label>, s': Session)
    requires Exec(lib, run) == Some(s) && !s.ended && s.client.Reading? && |s.readBuf| <= 5
    requires s.readBuf == [] || s.readBuf == STRAY
    ensures Exec(lib, run') == Some(s') && !s'.ended && s'.client.Reading?
    ensures s'.readBuf == s.readBuf + STRAY && s'.clientRead == s.clientRead + [STRAY]
    ensures s'.toRemote == s.toRemote + [s.readBuf + STRAY] && s'.verdicts == s.verdicts + [Unknown]
  {
    var mid := Next(lib, s, ClientReads(STRAY));
    assert (s.readBuf + STRAY)[4] == 0x1b && |s.readBuf + STRAY| >= 5;
    assert mid == s.(client := WritesUnknown, readBuf := s.readBuf + STRAY, clientRead := s.clientRead + [STRAY]);
    Extend(lib, INITIAL, run, ClientReads(STRAY));
    s' := Next(lib, mid, ClientWritesUnknown);
    Extend(lib, INITIAL, run + [ClientReads(STRAY)], ClientWritesUnknown);
    run' := run + [ClientReads(STRAY)] + [ClientWritesUnknown];
  }

  // ---- what a context carries ---------------------------------------------------------

  function TextOf(lib: Library, p: Bytes): Option<string>
    requires |p| >= 5
  {
    lib.utf8(p[5..])
  }

  /** The context's text is that of the chunk it was made for. */
  predicate Carries(lib: Library, clientRead: seq<Bytes>, t: Tagged) {
    t.id < |clientRead| && Known(clientRead[t.id]) && t.ctx.sql == TextOf(lib, clientRead[t.id])
  }

  predicate Texts(lib: Library, s: Session) {
    && (HasTag(s.client) ==> Carries(lib, s.clientRead, s.client.tag))
    && (forall i :: 0 <= i < |s.sent| ==> Carries(lib, s.clientRead, s.sent[i]))
    && (forall i :: 0 <= i < |s.hits| ==> Carries(lib, s.clientRead, s.hits[i].tag))
  }

  lemma CarriesLonger(lib: Library, clientRead: seq<Bytes>, p: Bytes, t: Tagged)
    requires Carries(lib, clientRead, t)
    ensures Carries(lib, clientRead + [p], t)
  {
  }

  lemma TextsRead(lib: Library, s: Session, chunk: Bytes)
    requires Texts(lib, s) && ToRemote(s) && Enabled(lib, s, ClientReads(chunk))
    ensures Texts(lib, Next(lib, s, ClientReads(chunk)))
  {
    ClientFrame(lib, s, ClientReads(chunk));
    ReadEffect(lib, s, chunk);
    ToRemoteStep(lib, s, ClientReads(chunk));
    var t := Next(lib, s, ClientReads(chunk));
    forall i | 0 <= i < |s.sent|
      ensures Carries(lib, s.clientRead + [chunk], s.sent[i])
    {
      CarriesLonger(lib, s.clientRead, chunk, s.sent[i]);
    }
    forall i | 0 <= i < |s.hits|
      ensures Carries(lib, s.clientRead + [chunk], s.hits[i].tag)
    {
      CarriesLonger(lib, s.clientRead, chunk, s.hits[i].tag);
    }
    if t.client.WantsHandler? {
      FreshText(lib, s, chunk);
    }
  }

  lemma FreshText(lib: Library, s: Session, chunk: Bytes)
    requires ToRemote(s) && Enabled(lib, s, ClientReads(chunk)) && Next(lib, s, ClientReads(chunk)).client.WantsHandler?
    ensures Carries(lib, s.clientRead + [chunk], Next(lib, s, ClientReads(chunk)).client.tag)
  {
    assert s.readBuf == [] by {
      WrittenReads(s.clientRead, s.verdicts, s.readBuf, s.toRemote, chunk);
      BacklogKnown(s.clientRead, s.verdicts);
      AllKnownSnoc(s.clientRead, chunk);
      assert s.clientRead[..|s.verdicts|] == s.clientRead;
    }
    assert s.readBuf + chunk == chunk;
    assert chunk[5..|chunk|] == chunk[5..];
  }

  lemma TextsDecide(lib: Library, s: Session, l: Label)
    requires Texts(lib, s) && Enabled(lib, s, l) && ByClient(l) && !l.ClientReads?
    ensures Texts(lib, Next(lib, s, l))
  {
    ClientFrame(lib, s, l);
    if Deciding(l) {
      DecidingEffect(lib, s, l);
      DecisionEffect(lib, s, l);
    } else {
      DisposalEffect(lib, s, l);
      SendEffect(lib, s, l);
    }
  }

  lemma TextsStep(lib: Library, s: Session, l: Label)
    requires Texts(lib, s) && ToRemote(s) && Enabled(lib, s, l)
    ensures Texts(lib, Next(lib, s, l))
  {
    if !ByClient(l) {
      RemoteFrame(lib, s, l);
    } else if l.ClientReads? {
      TextsRead(lib, s, l.chunk);
    } else {
      TextsDecide(lib, s, l);
    }
  }

  // ---- reports -----------------------------------------------------------------------

  /** The context's text parses, and its last statement is a query. */
  predicate IsQuery(lib: Library, tag: Tagged) {
    tag.ctx.sql.Some? && Patterns.EndsInQuery(lib.parse(tag.ctx.sql.value))
  }

  /** The printed patterns of the contexts that are queries. */
  function PatternsOf(lib: Library, tags: seq<Tagged>): seq<string> {
    if tags == [] then []
    else
      var tag := tags[|tags| - 1];
      PatternsOf(lib, tags[..|tags| - 1])
      + (if IsQuery(lib, tag) then [lib.render(Patterns.SqlToPattern(lib.parse(tag.ctx.sql.value)).value)] else [])
  }

  function SqlsLogged(logs: seq<ExecLog>, fromCache: bool): seq<string> {
    if logs == [] then []
    else SqlsLogged(logs[..|logs| - 1], fromCache)
         + (if logs[|logs| - 1].fromCache == fromCache then [logs[|logs| - 1].sqlStr] else [])
  }

  function TasksOf(tags: seq<Tagged>, bodies: seq<Bytes>): seq<CacheTask>
    requires |tags| == |bodies|
  {
    if tags == [] then []
    else
      var n := |tags| - 1;
      TasksOf(tags[..n], bodies[..n]) + Opt(TaskOf(tags[n].ctx, bodies[n]))
  }

  lemma PatternSnoc(lib: Library, tags: seq<Tagged>, tag: Tagged)
    ensures PatternsOf(lib, tags + [tag]) == PatternsOf(lib, tags) + Opt(ContextPattern(lib, tag.ctx))
  {
    assert (tags + [tag])[..|tags|] == tags;
  }

  lemma TaskSnoc(tags: seq<Tagged>, bodies: seq<Bytes>, tag: Tagged, body: Bytes)
    requires |tags| == |bodies|
    ensures TasksOf(tags + [tag], bodies + [body]) == TasksOf(tags, bodies) + Opt(TaskOf(tag.ctx, body))
  {
    assert (tags + [tag])[..|tags|] == tags;
    assert (bodies + [body])[..|tags|] == bodies;
  }

  lemma LogSnoc(logs: seq<ExecLog>, log: ExecLog, fromCache: bool)
    ensures SqlsLogged(logs + [log], fromCache)
         == SqlsLogged(logs, fromCache) + (if log.fromCache == fromCache then [log.sqlStr] else [])
  {
    assert (logs + [log])[..|logs|] == logs;
  }

  /** The cache write of a context that is about to be logged is already out. */
  function TaskInFlight(s: Session): seq<CacheTask> {
    if s.remote.LogsFinished? && s.cachedCtx.Some? then Opt(TaskOf(s.cachedCtx.value.ctx, s.cachedBuf)) else []
  }

  /** Every finished request leaves one log exactly when its SQL parses to a
      query, flagged by where its answer came from, in finishing order. */
  predicate Logged(lib: Library, s: Session) {
    && SqlsLogged(s.logged, false) == PatternsOf(lib, s.finished)
    && SqlsLogged(s.logged, true) == PatternsOf(lib, s.answered)
  }

  /** It leaves one cache write exactly when its context asks for it. */
  predicate Tasked(s: Session) {
    && |s.finished| == |s.bodies|
    && s.tasks == TasksOf(s.finished, s.bodies) + TaskInFlight(s)
  }

  predicate Reports(lib: Library, s: Session) {
    Logged(lib, s) && Tasked(s)
  }

  lemma FinishEffect(lib: Library, s: Session, l: Label)
    requires Enabled(lib, s, l) && !ByClient(l) && Finishing(s.remote) && s.cachedCtx.Some?
    ensures var t, tag := Next(lib, s, l), s.cachedCtx.value;
            var task := TaskOf(tag.ctx, s.cachedBuf);
            var out := if l.RemoteSendsTask? then Opt(task) else [];
            && t.answered == s.answered && t.tasks == s.tasks + out
            && (|| (t.finished == s.finished && t.bodies == s.bodies && t.logged == s.logged
                    && TaskInFlight(t) == TaskInFlight(s) + out)
                || (t.finished == s.finished + [tag] && t.bodies == s.bodies + [s.cachedBuf]
                    && TaskInFlight(s) + out == Opt(task) && TaskInFlight(t) == []
                    && (if l.RemoteLogs? then LogFor(lib, tag, l.log) && t.logged == s.logged + [l.log]
                        else ContextPattern(lib, tag.ctx) == None && t.logged == s.logged)))
  {
  }

  lemma IdleEffect(lib: Library, s: Session, l: Label)
    requires Enabled(lib, s, l) && !ByClient(l) && !Finishing(s.remote)
    ensures var t := Next(lib, s, l);
            && t.answered == s.answered && t.tasks == s.tasks && t.finished == s.finished && t.bodies == s.bodies
            && t.logged == s.logged && TaskInFlight(t) == [] && TaskInFlight(s) == []
  {
  }

  lemma EndHitEffect(lib: Library, s: Session, l: Label)
    requires Enabled(lib, s, l) && ByClient(l) && !Deciding(l)
    ensures var t := Next(lib, s, l);
            if ClientHoldsWriter(s.client) && t.client.Reading? then
              && t.answered == s.answered + [s.client.tag]
              && (if l.ClientLogs? then LogFor(lib, s.client.tag, l.log) && t.logged == s.logged + [l.log]
                  else ContextPattern(lib, s.client.tag.ctx) == None && t.logged == s.logged)
            else t.answered == s.answered && t.logged == s.logged
  {
  }

  lemma CurrentTag(lib: Library, s: Session)
    requires Contexts(s) && Tags(lib, s) && s.cachedCtx.Some?
    ensures TagOk(lib, s.cachedCtx.value) && !s.cachedCtx.value.ctx.fromCache
  {
    assert s.sent[|s.finished|] == s.cachedCtx.value;
  }

  /** What logging, or not logging, does to the list of logged patterns. */
  lemma LogEffect(lib: Library, s: Session, tag: Tagged, logged: seq<ExecLog>)
    requires || (ContextPattern(lib, tag.ctx) == None && logged == s.logged)
             || (exists log :: LogFor(lib, tag, log) && logged == s.logged + [log])
    ensures SqlsLogged(logged, tag.ctx.fromCache)
         == SqlsLogged(s.logged, tag.ctx.fromCache) + Opt(ContextPattern(lib, tag.ctx))
    ensures SqlsLogged(logged, !tag.ctx.fromCache) == SqlsLogged(s.logged, !tag.ctx.fromCache)
  {
    if log :| LogFor(lib, tag, log) && logged == s.logged + [log] {
      LogSnoc(s.logged, log, false);
      LogSnoc(s.logged, log, true);
    }
    AppendNothing(SqlsLogged(s.logged, true));
    AppendNothing(SqlsLogged(s.logged, false));
  }

  lemma LoggedRemote(lib: Library, s: Session, l: Label)
    requires Logged(lib, s) && Enabled(lib, s, l) && !ByClient(l)
    requires Finishing(s.remote) ==> s.cachedCtx.Some? && !s.cachedCtx.value.ctx.fromCache
    ensures Logged(lib, Next(lib, s, l))
  {
    if Finishing(s.remote) {
      var t, tag := Next(lib, s, l), s.cachedCtx.value;
      FinishEffect(lib, s, l);
      PatternSnoc(lib, s.finished, tag);
      if t.finished != s.finished {
        LogEffect(lib, s, tag, t.logged);
      }
    } else {
      IdleEffect(lib, s, l);
    }
  }

  lemma TaskedRemote(lib: Library, s: Session, l: Label)
    requires Tasked(s) && Enabled(lib, s, l) && !ByClient(l)
    requires Finishing(s.remote) ==> s.cachedCtx.Some?
    ensures Tasked(Next(lib, s, l))
  {
    if Finishing(s.remote) {
      var tag := s.cachedCtx.value;
      var out := if l.RemoteSendsTask? then Opt(TaskOf(tag.ctx, s.cachedBuf)) else [];
      FinishEffect(lib, s, l);
      TaskSnoc(s.finished, s.bodies, tag, s.cachedBuf);
      Associative(TasksOf(s.finished, s.bodies), TaskInFlight(s), out);
      AppendNothing(TasksOf(s.finished + [tag], s.bodies + [s.cachedBuf]));
    } else {
      IdleEffect(lib, s, l);
    }
  }

  lemma LoggedHit(lib: Library, s: Session, l: Label)
    requires Logged(lib, s) && Enabled(lib, s, l) && ByClient(l) && !Deciding(l)
    requires ClientHoldsWriter(s.client) ==> s.client.tag.ctx.fromCache
    ensures Logged(lib, Next(lib, s, l))
  {
    ClientFrame(lib, s, l);
    EndHitEffect(lib, s, l);
    if ClientHoldsWriter(s.client) && Next(lib, s, l).client.Reading? {
      PatternSnoc(lib, s.answered, s.client.tag);
      LogEffect(lib, s, s.client.tag, Next(lib, s, l).logged);
    }
  }

  lemma LoggedStep(lib: Library, s: Session, l: Label)
    requires Logged(lib, s) && Contexts(s) && Tags(lib, s) && Enabled(lib, s, l)
    ensures Logged(lib, Next(lib, s, l))
  {
    if !ByClient(l) {
      if s.cachedCtx.Some? { CurrentTag(lib, s); }
      LoggedRemote(lib, s, l);
    } else if l.ClientReads? {
      ClientFrame(lib, s, l);
      ReadEffect(lib, s, l.chunk);
    } else if Deciding(l) {
      ClientFrame(lib, s, l);
      DecidingEffect(lib, s, l);
    } else {
      LoggedHit(lib, s, l);
    }
  }

  lemma ReportsStep(lib: Library, s: Session, l: Label)
    requires Reports(lib, s) && Contexts(s) && Tags(lib, s) && Enabled(lib, s, l)
    ensures Reports(lib, Next(lib, s, l))
  {
    LoggedStep(lib, s, l);
    if ByClient(l) {
      ClientFrame(lib, s, l);
    } else {
      TaskedRemote(lib, s, l);
    }
  }

  /** A loop that is about to log has something to log. */
  predicate Loggable(lib: Library, s: Session) {
    && (s.client.LogsHit? ==> ContextPattern(lib, s.client.tag.ctx).Some?)
    && (s.remote.LogsFinished? ==> s.cachedCtx.Some? && ContextPattern(lib, s.cachedCtx.value.ctx).Some?)
  }

  lemma LoggableClient(lib: Library, s: Session, l: Label)
    requires Loggable(lib, s) && Enabled(lib, s, l) && ByClient(l)
    ensures Loggable(lib, Next(lib, s, l))
  {
    ClientFrame(lib, s, l);
    if l.ClientReads? {
      ReadEffect(lib, s, l.chunk);
    } else if Deciding(l) {
      DecidingEffect(lib, s, l);
    } else {
      DisposalEffect(lib, s, l);
    }
  }

  lemma LoggableRemote(lib: Library, s: Session, l: Label)
    requires Loggable(lib, s) && Enabled(lib, s, l) && !ByClient(l)
    ensures Loggable(lib, Next(lib, s, l))
  {
  }

  /** When the remote loop waits for the handler lock to finish a context, the
      channel it has just drained stays empty until the client loop forwards,
      and the lock then comes straight to the remote loop. */
  predicate Drained(s: Session) {
    s.remote.WantsHandlerToFinish? && s.handler != RemoteLoop ==> s.channel == [] || s.client.WritesRemote?
  }

  lemma DrainedClient(lib: Library, s: Session, l: Label)
    requires Drained(s) && Locks(s) && Enabled(lib, s, l) && ByClient(l)
    ensures Drained(Next(lib, s, l))
  {
  }

  lemma DrainedRemote(lib: Library, s: Session, l: Label)
    requires Drained(s) && Contexts(s) && Enabled(lib, s, l) && !ByClient(l)
    ensures Drained(Next(lib, s, l))
  {
  }

  // ---- every run -------------------------------------------------------------------------

  predicate Sound(lib: Library, s: Session) {
    && Locks(s) && Contexts(s) && Tags(lib, s) && Partition(s)
    && ToClient(s) && ToRemote(s) && Texts(lib, s) && Reports(lib, s)
    && Loggable(lib, s) && Drained(s)
  }

  lemma SoundStart(lib: Library)
    ensures Sound(lib, INITIAL)
  {
    assert Locks(INITIAL) && Contexts(INITIAL) && Tags(lib, INITIAL) && Texts(lib, INITIAL);
    assert Partition(INITIAL) && ToClient(INITIAL) && ToRemote(INITIAL);
    assert Reports(lib, INITIAL) && Loggable(lib, INITIAL) && Drained(INITIAL);
  }

  lemma SoundStep(lib: Library, s: Session, l: Label)
    requires Sound(lib, s) && Enabled(lib, s, l)
    ensures Sound(lib, Next(lib, s, l))
  {
    LocksStep(lib, s, l);
    ContextsStep(lib, s, l);
    TagsStep(lib, s, l);
    PartitionStep(lib, s, l);
    ToClientStep(lib, s, l);
    ToRemoteStep(lib, s, l);
    TextsStep(lib, s, l);
    ReportsStep(lib, s, l);
    if ByClient(l) {
      LoggableClient(lib, s, l);
      DrainedClient(lib, s, l);
    } else {
      LoggableRemote(lib, s, l);
      DrainedRemote(lib, s, l);
    }
  }

  lemma {:induction false} AlwaysSound(lib: Library, labels: seq<Label>)
    requires Exec(lib, labels).Some?
    ensures Sound(lib, Exec(lib, labels).value)
  {
    if labels != [] {
      var before := labels[..|labels| - 1];
      AlwaysSound(lib, before);
      SoundStep(lib, Exec(lib, before).value, labels[|labels| - 1]);
    }
  }

  /** For every run: the contexts sent to the database are, in order, those
      finished, the current one, one the remote loop may hold while finishing
      its predecessor, and at most one in the channel; none is finished twice or
      out of order. */
  lemma ContextsConserved(lib: Library, labels: seq<Label>)
    requires Exec(lib, labels).Some?
    ensures var s := Exec(lib, labels).value;
            && s.sent == s.finished + Opt(s.cachedCtx) + InHand(s.remote) + s.channel
            && |s.channel| <= 1
            && (forall i, j :: 0 <= i < j < |s.finished| ==> s.finished[i].id < s.finished[j].id)
            && (s.remote.Listening? ==> s.sent == s.finished + Opt(s.cachedCtx) + s.channel)
  {
    AlwaysSound(lib, labels);
    FinishedInOrder(lib, Exec(lib, labels).value);
  }

  lemma FinishedInOrder(lib: Library, s: Session)
    requires Contexts(s) && Tags(lib, s)
    ensures s.sent == s.finished + Opt(s.cachedCtx) + InHand(s.remote) + s.channel && |s.channel| <= 1
    ensures s.remote.Listening? ==> s.sent == s.finished + Opt(s.cachedCtx) + s.channel
    ensures forall i, j :: 0 <= i < j < |s.finished| ==> s.finished[i].id < s.finished[j].id
  {
    assert forall i :: 0 <= i < |s.finished| ==> s.finished[i] == s.sent[i];
  }

  /** For every run, between two reads of the remote loop: bodies and buffer
      make up everything the database sent, cut exactly where contexts were
      adopted. */
  lemma BytesPartitioned(lib: Library, labels: seq<Label>)
    requires Exec(lib, labels).Some? && Exec(lib, labels).value.remote.Listening?
    ensures var s := Exec(lib, labels).value;
            var all := Concat(s.remoteRead);
            && |s.bodies| == |s.finished|
            && Concat(s.bodies) + s.cachedBuf == all
            && |s.marks| == |s.bodies| + |Opt(s.cachedCtx)|
            && (s.cachedCtx.None? ==> s.bodies == [])
            && (forall k :: 0 <= k < |s.bodies| ==>
                  Slice(all, BodyStart(s.marks, k), s.marks[k + 1], s.bodies[k]))
  {
    AlwaysSound(lib, labels);
  }

  /** For every run, wherever it stops: the client has received the database's
      chunks and the cached bodies, whole and in order, but for at most one of each
      that is in a loop's hands. */
  lemma ClientStreamFaithful(lib: Library, labels: seq<Label>)
    requires Exec(lib, labels).Some?
    ensures var s := Exec(lib, labels).value;
            && RelayedIn(s.toClient) + PendingRelay(s.remote) == s.remoteRead
            && CachedIn(s.toClient) + PendingHit(s.client) == Bodies(s.hits)
  {
    AlwaysSound(lib, labels);
  }

  /** For every run, wherever it stops: the database has received what was not
      answered from the cache exactly when no chunk but possibly the last one the
      client loop was done with is of unknown type. */
  lemma RemoteStreamFaithful(lib: Library, labels: seq<Label>)
    requires Exec(lib, labels).Some?
    ensures var s := Exec(lib, labels).value;
            && |s.verdicts| <= |s.clientRead| <= |s.verdicts| + 1
            && var done := s.clientRead[..|s.verdicts|];
            && (Concat(s.toRemote) == Concat(Passed(done, s.verdicts)) <==> UnknownOnlyLast(done))
            && (UnknownOnlyLast(done) ==> s.toRemote == Passed(done, s.verdicts))
  {
    AlwaysSound(lib, labels);
    ForwardingFaithful(Exec(lib, labels).value);
  }
}
