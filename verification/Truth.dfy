/** When a cached body is the right answer.  The discipline leaves the
    database's responses arbitrary; here the requests that are looked up in the
    cache, and only those, have responses that their text determines. */
module Truth {
  import opened Basics
  import opened Meta
  import opened Handler
  import opened Session
  import opened Conservation
  import opened Streams
  import opened Discipline
  import Comments

  /** What a client connected straight to the database would have read after `n`
      requests. */
  function Direct(srv: Server, n: nat): Bytes {
    if n == 0 then srv.greeting else Direct(srv, n - 1) + srv.response(n - 1)
  }

  /** The response to a request with this text is the text's own answer, comments
      and blanks at the ends do not change that answer, and the two spellings
      of the key cannot clash (see Keys.KeySound). */
  predicate Cacheable(texts: string -> Bytes, sql: string, response: Bytes) {
    && response == texts(sql) == texts(Comments.Stripped(sql))
    && '\\' !in Comments.Stripped(sql)
  }

  /** A request that is about to be looked up is cacheable and is not the
      first one forwarded. */
  predicate HonestLookup(lib: Library, srv: Server, texts: string -> Bytes, s: Session, l: Label) {
    l.ClientTakesHandler? && s.client.WantsHandler?
    && OnRequest(lib, l.entities, s.client.tag.ctx, s.client.kind).AskingExists? ==>
      && s.sent != [] && s.client.tag.ctx.sql.Some?
      && Cacheable(texts, s.client.tag.ctx.sql.value, srv.response(s.client.tag.id))
  }

  /** A body from the cache is the response the database would have given. */
  predicate TruthfulReply(srv: Server, s: Session, l: Label) {
    s.client.WantsGet? && l.GetReplies? && l.get.Got? && l.get.value != [] ==>
      l.get.value == srv.response(s.client.tag.id)
  }

  // ---- what lookups leave behind -------------------------------------------------

  /** A context that asks for a cache write was made for a cacheable text. */
  predicate WritesTruth(srv: Server, texts: string -> Bytes, t: Tagged) {
    t.ctx.shouldUpdateCache ==> t.ctx.sql.Some? && srv.response(t.id) == texts(t.ctx.sql.value)
  }

  predicate Lookups(srv: Server, texts: string -> Bytes, s: Session) {
    && (forall i :: 0 <= i < |s.sent| ==>
          WritesTruth(srv, texts, s.sent[i]) && (s.sent[i].ctx.shouldUpdateCache ==> i > 0))
    && (HasTag(s.client) ==> WritesTruth(srv, texts, s.client.tag))
    && (HasTag(s.client) && !s.client.WritesRemote? && s.client.tag.ctx.shouldUpdateCache ==> s.sent != [])
    && (Consulting(s.client) ==>
          && s.sent != [] && s.client.tag.ctx.sql.Some?
          && Cacheable(texts, s.client.tag.ctx.sql.value, srv.response(s.client.tag.id)))
  }

  lemma LookupsDecide(lib: Library, srv: Server, texts: string -> Bytes, s: Session, l: Label)
    requires Lookups(srv, texts, s) && HonestLookup(lib, srv, texts, s, l)
    requires Enabled(lib, s, l) && Deciding(l) && !l.ClientReads?
    ensures Lookups(srv, texts, Next(lib, s, l))
  {
    ClientFrame(lib, s, l);
    DecisionEffect(lib, s, l);
  }

  lemma LookupsStep(lib: Library, srv: Server, texts: string -> Bytes, s: Session, l: Label)
    requires Lookups(srv, texts, s) && HonestLookup(lib, srv, texts, s, l) && Enabled(lib, s, l)
    ensures Lookups(srv, texts, Next(lib, s, l))
  {
    if !ByClient(l) {
      RemoteFrame(lib, s, l);
    } else if l.ClientReads? {
      ClientFrame(lib, s, l);
    } else if Deciding(l) {
      LookupsDecide(lib, srv, texts, s, l);
    } else {
      DisposalEffect(lib, s, l);
      SendEffect(lib, s, l);
    }
  }

  // ---- cached answers ----------------------------------------------------------------

  function BodyInHand(pc: ClientPc): Option<Bytes> {
    if pc.WantsWriter? || pc.WritesClient? || pc.LogsHit? then Some(pc.body) else None
  }

  /** Every answer from the cache is the database's own response. */
  predicate TrueHits(srv: Server, s: Session) {
    && (forall k :: 0 <= k < |s.verdicts| && s.verdicts[k].Answered? ==> s.verdicts[k].body == srv.response(k))
    && (BodyInHand(s.client).Some? ==> BodyInHand(s.client).value == srv.response(s.client.tag.id))
  }

  lemma BodyKept(lib: Library, s: Session, l: Label)
    requires Enabled(lib, s, l) && ByClient(l) && !Deciding(l)
    ensures var t := Next(lib, s, l);
            BodyInHand(t.client).Some? ==> BodyInHand(t.client) == BodyInHand(s.client) && t.client.tag == s.client.tag
  {
  }

  lemma TrueHitsStep(lib: Library, srv: Server, s: Session, l: Label)
    requires TrueHits(srv, s) && Requests(srv, s) && TruthfulReply(srv, s, l) && Enabled(lib, s, l)
    ensures TrueHits(srv, Next(lib, s, l))
  {
    if !ByClient(l) {
      RemoteFrame(lib, s, l);
    } else if l.ClientReads? {
      ReadEffect(lib, s, l.chunk);
    } else if Deciding(l) {
      DecidingEffect(lib, s, l);
      DecisionEffect(lib, s, l);
    } else {
      DisposalEffect(lib, s, l);
      BodyKept(lib, s, l);
    }
  }

  lemma {:induction false} RepliesDirect(srv: Server, verdicts: seq<Verdict>)
    requires forall k :: 0 <= k < |verdicts| && verdicts[k].Answered? ==> verdicts[k].body == srv.response(k)
    ensures Replies(srv, verdicts) == Direct(srv, |verdicts|)
  {
    if verdicts != [] {
      RepliesDirect(srv, verdicts[..|verdicts| - 1]);
    }
  }

  /** Transparency of one session: what the client has received is a prefix of
      the direct connection's bytes, and all of them when the session rests. */
  lemma SessionTransparent(srv: Server, s: Session)
    requires Flow(srv, s) && Requests(srv, s) && TrueHits(srv, s)
    ensures Received(s.toClient) <= Direct(srv, |s.clientRead|)
    ensures AtRest(srv, s) ==> Received(s.toClient) == Direct(srv, |s.clientRead|)
  {
    AllReceived(srv, s);
    RepliesDirect(srv, s.verdicts);
    if !s.client.Reading? {
      PrefixGrows(Received(s.toClient), Direct(srv, |s.verdicts|), Ahead(s.client), srv.response(|s.verdicts|));
    } else {
      assert Direct(srv, |s.verdicts|) + [] == Direct(srv, |s.verdicts|);
    }
  }

  lemma PrefixGrows(received: Bytes, past: Bytes, ahead: Bytes, response: Bytes)
    requires received <= past + ahead && (ahead == [] || ahead == response)
    ensures received <= past + response
  {
  }

  // ---- cache writes ----------------------------------------------------------------------

  /** A cache write holds the answer of its own text. */
  predicate Truthful(texts: string -> Bytes, task: CacheTask) {
    task.body == texts(task.sql)
  }

  /** The cache write of one finished context, if it has one, is truthful. */
  predicate TruthfulAt(texts: string -> Bytes, t: Tagged, body: Bytes) {
    TaskOf(t.ctx, body).Some? ==> Truthful(texts, TaskOf(t.ctx, body).value)
  }

  lemma {:induction false} AllTruthful(texts: string -> Bytes, tags: seq<Tagged>, bodies: seq<Bytes>)
    requires |tags| == |bodies| && forall k :: 0 <= k < |tags| ==> TruthfulAt(texts, tags[k], bodies[k])
    ensures forall task :: task in TasksOf(tags, bodies) ==> Truthful(texts, task)
  {
    if tags != [] {
      AllTruthful(texts, tags[..|tags| - 1], bodies[..|tags| - 1]);
    }
  }

  /** The cache write of the context being finished is truthful. */
  lemma CurrentTruthful(srv: Server, texts: string -> Bytes, s: Session)
    requires Contexts(s) && Attributed(srv, s) && Lookups(srv, texts, s)
    requires |s.bodies| == |s.finished| && Finishing(s.remote)
    ensures s.cachedCtx.Some? && TruthfulAt(texts, s.cachedCtx.value, s.cachedBuf)
  {
    var k := |s.finished|;
    assert s.sent[k] == s.cachedCtx.value;
    assert WritesTruth(srv, texts, s.sent[k]);
    assert [] + srv.response(s.sent[k].id) == srv.response(s.sent[k].id);
  }

  lemma FinishedTruthful(srv: Server, texts: string -> Bytes, s: Session, k: nat)
    requires Contexts(s) && Attributed(srv, s) && Lookups(srv, texts, s)
    requires k < |s.finished| == |s.bodies|
    ensures TruthfulAt(texts, s.finished[k], s.bodies[k])
  {
    assert s.finished[k] == s.sent[k];
    assert WritesTruth(srv, texts, s.sent[k]);
    assert s.bodies[k] == Expected(srv, s.sent, k);
    assert [] + srv.response(s.sent[k].id) == srv.response(s.sent[k].id);
  }

  lemma TasksTruthful(lib: Library, srv: Server, texts: string -> Bytes, s: Session)
    requires Contexts(s) && Reports(lib, s) && Attributed(srv, s) && Lookups(srv, texts, s)
    ensures forall task :: task in s.tasks ==> Truthful(texts, task)
  {
    forall k | 0 <= k < |s.finished|
      ensures TruthfulAt(texts, s.finished[k], s.bodies[k])
    {
      FinishedTruthful(srv, texts, s, k);
    }
    AllTruthful(texts, s.finished, s.bodies);
    if s.remote.LogsFinished? {
      CurrentTruthful(srv, texts, s);
    }
  }
}
