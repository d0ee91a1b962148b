/** What every run of a session keeps, with no assumption on client or database:
    mutual exclusion, contexts in order, the partition of the database's bytes,
    and both byte streams. */
module Conservation {
  import opened Basics
  import opened Meta
  import opened Handler
  import opened Session
  import Keys

  // ---- locks ------------------------------------------------------------------

  predicate HandlerLock(s: Session) {
    && (ClientHoldsHandler(s.client) ==> s.handler == ClientLoop)
    && (RemoteHoldsHandler(s.remote) ==> s.handler == RemoteLoop)
    && (s.handler == ClientLoop ==> ClientHoldsHandler(s.client) || s.client.WantsHandler?)
    && (s.handler == RemoteLoop ==> RemoteHoldsHandler(s.remote) || RemoteWantsHandler(s.remote))
  }

  predicate WriterLock(s: Session) {
    && (ClientHoldsWriter(s.client) ==> s.writer == ClientLoop)
    && (s.remote.Relays? ==> s.writer == RemoteLoop)
    && (s.writer == ClientLoop ==> ClientHoldsWriter(s.client) || s.client.WantsWriter?)
    && (s.writer == RemoteLoop ==> s.remote.Relays? || s.remote.WantsWriterToRelay?)
  }

  predicate Locks(s: Session) {
    HandlerLock(s) && WriterLock(s)
  }

  lemma HandlerLockClient(lib: Library, s: Session, l: Label)
    requires HandlerLock(s) && Enabled(lib, s, l) && ByClient(l)
    ensures HandlerLock(Next(lib, s, l))
  {
  }

  lemma HandlerLockRemote(lib: Library, s: Session, l: Label)
    requires HandlerLock(s) && Enabled(lib, s, l) && !ByClient(l)
    ensures HandlerLock(Next(lib, s, l))
  {
  }

  lemma WriterLockClient(lib: Library, s: Session, l: Label)
    requires WriterLock(s) && Enabled(lib, s, l) && ByClient(l)
    ensures WriterLock(Next(lib, s, l))
  {
  }

  lemma WriterLockRemote(lib: Library, s: Session, l: Label)
    requires WriterLock(s) && Enabled(lib, s, l) && !ByClient(l)
    ensures WriterLock(Next(lib, s, l))
  {
  }

  /** The two locks are never held by both loops. */
  lemma LocksStep(lib: Library, s: Session, l: Label)
    requires Locks(s) && Enabled(lib, s, l)
    ensures Locks(Next(lib, s, l))
  {
    if ByClient(l) {
      HandlerLockClient(lib, s, l);
      WriterLockClient(lib, s, l);
    } else {
      HandlerLockRemote(lib, s, l);
      WriterLockRemote(lib, s, l);
    }
  }

  lemma HandOffClient(lib: Library, s: Session, l: Label)
    requires Locks(s) && Enabled(lib, s, l) && ByClient(l)
    ensures var t := Next(lib, s, l);
            && (ClientHoldsHandler(s.client) && !ClientHoldsHandler(t.client) ==>
                  t.handler == if RemoteWantsHandler(t.remote) then RemoteLoop else Free)
            && (ClientHoldsWriter(s.client) && !ClientHoldsWriter(t.client) ==>
                  t.writer == if t.remote.WantsWriterToRelay? then RemoteLoop else Free)
  {
  }

  lemma HandOffRemote(lib: Library, s: Session, l: Label)
    requires Locks(s) && Enabled(lib, s, l) && !ByClient(l)
    ensures var t := Next(lib, s, l);
            && (RemoteHoldsHandler(s.remote) && !RemoteHoldsHandler(t.remote) ==>
                  t.handler == if t.client.WantsHandler? then ClientLoop else Free)
            && (s.remote.Relays? && !t.remote.Relays? ==>
                  t.writer == if t.client.WantsWriter? then ClientLoop else Free)
  {
  }

  /** A lock its holder lets go of belongs at once to the other loop if that waits
      for it, and to nobody otherwise. */
  lemma HandOff(lib: Library, s: Session, l: Label)
    requires Locks(s) && Enabled(lib, s, l)
    ensures var t := Next(lib, s, l);
            && (ClientHoldsHandler(s.client) && !ClientHoldsHandler(t.client) ==>
                  t.handler == if RemoteWantsHandler(t.remote) then RemoteLoop else Free)
            && (RemoteHoldsHandler(s.remote) && !RemoteHoldsHandler(t.remote) ==>
                  t.handler == if t.client.WantsHandler? then ClientLoop else Free)
            && (ClientHoldsWriter(s.client) && !ClientHoldsWriter(t.client) ==>
                  t.writer == if t.remote.WantsWriterToRelay? then RemoteLoop else Free)
            && (s.remote.Relays? && !t.remote.Relays? ==>
                  t.writer == if t.client.WantsWriter? then ClientLoop else Free)
  {
    if ByClient(l) {
      ClientFrame(lib, s, l);
      HandOffClient(lib, s, l);
    } else {
      RemoteFrame(lib, s, l);
      HandOffRemote(lib, s, l);
    }
  }

  // ---- contexts -----------------------------------------------------------------

  predicate Finishing(pc: RemotePc) {
    pc.WantsHandlerToFinish? || pc.SendsTask? || pc.LogsFinished?
  }

  function InHand(pc: RemotePc): seq<Tagged> {
    if Finishing(pc) then [pc.next] else []
  }

  /** Contexts leave the channel in the order they were sent; each is finished,
      current, in the remote loop's hands or still in the channel. */
  predicate Contexts(s: Session) {
    && s.sent == s.finished + Opt(s.cachedCtx) + InHand(s.remote) + s.channel
    && |s.channel| <= 1
    && (Finishing(s.remote) ==> s.cachedCtx.Some?)
    && (s.cachedCtx.None? ==> s.finished == [])
    && (s.remote.WantsHandlerToRespond? ==> s.cachedCtx.Some?)
  }

  lemma ContextsRead(s: Session, chunk: Bytes)
    requires Contexts(s) && s.remote.Listening?
    ensures Contexts(ReadFromRemote(s, chunk))
  {
  }

  lemma ContextsRemote(lib: Library, s: Session, l: Label)
    requires Contexts(s) && Enabled(lib, s, l) && !ByClient(l) && !l.RemoteReads?
    ensures Contexts(Next(lib, s, l))
  {
    RemoteFrame(lib, s, l);
  }

  lemma ContextsSend(s: Session)
    requires Contexts(s) && s.client.SendsContext? && s.channel == []
    ensures Contexts(SendContext(s))
  {
  }

  lemma ContextsStep(lib: Library, s: Session, l: Label)
    requires Contexts(s) && Enabled(lib, s, l)
    ensures Contexts(Next(lib, s, l))
  {
    if l.RemoteReads? {
      ContextsRead(s, l.chunk);
    } else if !ByClient(l) {
      ContextsRemote(lib, s, l);
    } else if l.ClientSendsContext? {
      ContextsSend(s);
    } else {
      ClientFrame(lib, s, l);
    }
  }

  // ---- what a context may carry -----------------------------------------------------

  /** A context that asks for a cache write does so under the first template that
      matched its SQL. */
  predicate TagOk(lib: Library, t: Tagged) {
    t.ctx.shouldUpdateCache ==>
      && t.ctx.sql.Some? && !t.ctx.skip
      && TemplateFor(lib, t.seen, t.ctx.sql.value).Some?
      && t.ctx.cacheDuration == TemplateFor(lib, t.seen, t.ctx.sql.value).value.duration
  }

  predicate HasTag(pc: ClientPc) {
    !pc.Reading? && !pc.WritesUnknown?
  }

  /** From here on an answer from the cache is still possible, or under way. */
  predicate Consulting(pc: ClientPc) {
    pc.WantsExists? || pc.WantsGet? || pc.WantsWriter? || pc.WritesClient? || pc.LogsHit?
  }

  lemma DecisionEffect(lib: Library, s: Session, l: Label)
    requires Enabled(lib, s, l) && Deciding(l) && !l.ClientReads?
    ensures var t := Next(lib, s, l);
            && HasTag(s.client) && HasTag(t.client)
            && !t.client.WantsHandler? && !t.client.WritesRemote? && !t.client.LogsHit? && !t.client.WritesClient?
            && t.client.tag.id == s.client.tag.id && t.client.tag.ctx.sql == s.client.tag.ctx.sql
            && (t.client.tag.ctx.shouldUpdateCache ==> s.client.tag.ctx.shouldUpdateCache || s.client.WantsExists?)
            && (Consulting(t.client) ==>
                  Consulting(s.client)
                  || (l.ClientTakesHandler? && s.client.WantsHandler?
                      && OnRequest(lib, l.entities, s.client.tag.ctx, s.client.kind).AskingExists?))
            && (t.client.WantsWriter? ==> s.client.WantsGet? && l.GetReplies? && l.get.Got? && t.client.body == l.get.value != [])
  {
  }

  lemma SendEffect(lib: Library, s: Session, l: Label)
    requires Enabled(lib, s, l) && ByClient(l) && !Deciding(l)
    ensures var t := Next(lib, s, l);
            && (l.ClientSendsContext? ==>
                  s.client.SendsContext? && s.channel == []
                  && t.client == WritesRemote(s.client.tag) && t.sent == s.sent + [s.client.tag]
                  && t.channel == [s.client.tag])
            && (!l.ClientSendsContext? ==> t.sent == s.sent && t.channel == s.channel && !t.client.WritesRemote?)
            && (!t.client.Reading? ==> t.client.tag == s.client.tag && HasTag(s.client))
            && (t.client.Reading? ==> !s.client.Reading?)
            && (Consulting(t.client) ==> Consulting(s.client))
            && (l.ClientWritesRemote? <==> s.client.WritesRemote?)
            && !t.client.WantsHandler?
  {
  }

  predicate Asks(lib: Library, tag: Tagged, duration: int) {
    && tag.ctx.sql.Some? && !tag.ctx.skip && !tag.ctx.shouldUpdateCache
    && TemplateFor(lib, tag.seen, tag.ctx.sql.value).Some?
    && duration == TemplateFor(lib, tag.seen, tag.ctx.sql.value).value.duration
  }

  predicate SentTags(lib: Library, s: Session) {
    && (forall i :: 0 <= i < |s.sent| ==>
          TagOk(lib, s.sent[i]) && !s.sent[i].ctx.fromCache && s.sent[i].id < |s.clientRead|)
    && (forall i, j :: 0 <= i < j < |s.sent| ==> s.sent[i].id < s.sent[j].id)
    && (forall i :: 0 <= i < |s.answered| ==> s.answered[i].ctx.fromCache)
  }

  predicate ClientTag(lib: Library, s: Session) {
    && (HasTag(s.client) ==>
          && s.client.tag.id == |s.clientRead| - 1
          && TagOk(lib, s.client.tag)
          && (s.client.tag.ctx.fromCache <==> s.client.WantsWriter? || ClientHoldsWriter(s.client)))
    && (s.client.WantsHandler? ==> s.client.tag.ctx == FreshContext(s.client.tag.ctx.sql))
    && (s.client.WantsExists? || s.client.WantsGet? ==>
          Asks(lib, s.client.tag, s.client.duration) && s.client.key == Keys.LookupKey(s.client.tag.ctx.sql.value))
  }

  /** The client loop's own request is later than everything it has sent. */
  predicate Latest(s: Session) {
    && (HasTag(s.client) && !s.client.WritesRemote? ==>
          forall i :: 0 <= i < |s.sent| ==> s.sent[i].id < |s.clientRead| - 1)
    && (s.client.WritesRemote? ==> s.sent != [] && s.sent[|s.sent| - 1] == s.client.tag)
  }

  predicate Tags(lib: Library, s: Session) {
    SentTags(lib, s) && ClientTag(lib, s) && Latest(s)
  }

  lemma ClientTagReads(lib: Library, s: Session, l: Label)
    requires ClientTag(lib, s) && Enabled(lib, s, l) && l.ClientReads?
    ensures ClientTag(lib, Next(lib, s, l))
  {
  }

  lemma ClientTagTakes(lib: Library, s: Session, l: Label)
    requires ClientTag(lib, s) && Enabled(lib, s, l) && l.ClientTakesHandler?
    ensures ClientTag(lib, Next(lib, s, l))
  {
  }

  lemma ClientTagAsks(lib: Library, s: Session, l: Label)
    requires ClientTag(lib, s) && Enabled(lib, s, l) && (l.ExistsReplies? || l.GetReplies?)
    ensures ClientTag(lib, Next(lib, s, l))
  {
  }

  lemma ClientTagWrites(lib: Library, s: Session, l: Label)
    requires ClientTag(lib, s) && Enabled(lib, s, l) && ByClient(l) && !Deciding(l)
    ensures ClientTag(lib, Next(lib, s, l))
  {
  }

  lemma TagsDecide(lib: Library, s: Session, l: Label)
    requires Tags(lib, s) && Enabled(lib, s, l) && Deciding(l)
    ensures Tags(lib, Next(lib, s, l))
  {
    DecidingFrame(lib, s, l);
    if l.ClientReads? {
      ClientTagReads(lib, s, l);
      ReadEffect(lib, s, l.chunk);
    } else {
      DecidingEffect(lib, s, l);
      if l.ClientTakesHandler? {
        ClientTagTakes(lib, s, l);
      } else {
        ClientTagAsks(lib, s, l);
      }
    }
  }

  lemma SentTagsWrites(lib: Library, s: Session, l: Label)
    requires Tags(lib, s) && Enabled(lib, s, l) && ByClient(l) && !Deciding(l)
    ensures SentTags(lib, Next(lib, s, l))
  {
  }

  lemma LatestWrites(lib: Library, s: Session, l: Label)
    requires Latest(s) && Enabled(lib, s, l) && ByClient(l) && !Deciding(l)
    ensures Latest(Next(lib, s, l))
  {
  }

  lemma TagsStep(lib: Library, s: Session, l: Label)
    requires Tags(lib, s) && Enabled(lib, s, l)
    ensures Tags(lib, Next(lib, s, l))
  {
    if !ByClient(l) {
      RemoteFrame(lib, s, l);
    } else if Deciding(l) {
      TagsDecide(lib, s, l);
    } else {
      ClientTagWrites(lib, s, l);
      SentTagsWrites(lib, s, l);
      LatestWrites(lib, s, l);
    }
  }

  // ---- the database's bytes -------------------------------------------------------------

  function Unfiled(pc: RemotePc): Option<Bytes> {
    if Finishing(pc) then Some(pc.data) else None
  }

  function Pending(unfiled: Option<Bytes>): Bytes {
    if unfiled.Some? then unfiled.value else []
  }

  function BodyStart(marks: seq<nat>, k: nat): nat
    requires k < |marks|
  {
    if k == 0 then 0 else marks[k]
  }

  predicate Slice(all: Bytes, from: nat, to: nat, part: Bytes) {
    from <= to <= |all| && part == all[from..to]
  }

  /** Finished bodies, the current buffer and a chunk not yet filed are
      consecutive slices of all the bytes; body `k` runs from the adoption of
      its context (`marks[k]`) to the next adoption, except that the first one
      starts with the very first byte. */
  predicate Parted(all: Bytes, bodies: seq<Bytes>, marks: seq<nat>, current: Bytes, adopted: bool, unfiled: Option<Bytes>) {
    && Concat(bodies) + current + Pending(unfiled) == all
    && (!adopted ==> bodies == [] && marks == [] && unfiled == None)
    && (adopted ==>
          && |marks| == |bodies| + 1 + |Opt(unfiled)|
          && (forall k :: 0 <= k < |bodies| ==> Slice(all, BodyStart(marks, k), marks[k + 1], bodies[k]))
          && Slice(all, BodyStart(marks, |bodies|), if unfiled.Some? then marks[|bodies| + 1] else |all|, current)
          && (unfiled.Some? ==> Slice(all, marks[|bodies| + 1], |all|, unfiled.value)))
  }

  lemma SliceGrows(all: Bytes, chunk: Bytes, from: nat, part: Bytes)
    requires Slice(all, from, |all|, part)
    ensures Slice(all + chunk, from, |all + chunk|, part + chunk)
  {
  }

  lemma SliceStays(all: Bytes, chunk: Bytes, from: nat, to: nat, part: Bytes)
    requires Slice(all, from, to, part)
    ensures Slice(all + chunk, from, to, part)
  {
    assert (all + chunk)[from..to] == all[from..to];
  }

  lemma AppendGrows(before: Bytes, current: Bytes, chunk: Bytes)
    ensures before + (current + chunk) + [] == before + current + [] + chunk
  {
  }

  /** A chunk for the current buffer. */
  lemma PartedGrows(all: Bytes, bodies: seq<Bytes>, marks: seq<nat>, current: Bytes, adopted: bool, chunk: Bytes)
    requires Parted(all, bodies, marks, current, adopted, None)
    ensures Parted(all + chunk, bodies, marks, current + chunk, adopted, None)
  {
    AppendGrows(Concat(bodies), current, chunk);
    if adopted {
      forall k | 0 <= k < |bodies|
        ensures Slice(all + chunk, BodyStart(marks, k), marks[k + 1], bodies[k])
      {
        SliceStays(all, chunk, BodyStart(marks, k), marks[k + 1], bodies[k]);
      }
      SliceGrows(all, chunk, BodyStart(marks, |bodies|), current);
    }
  }

  /** The first context is adopted: its body starts with the very first byte. */
  lemma PartedStarts(all: Bytes, bodies: seq<Bytes>, marks: seq<nat>, current: Bytes, from: nat)
    requires Parted(all, bodies, marks, current, false, None)
    ensures Parted(all, bodies, marks + [from], current, true, None)
  {
  }

  /** A later context is adopted: its chunk waits while the old one is finished. */
  lemma PartedWaits(all: Bytes, bodies: seq<Bytes>, marks: seq<nat>, current: Bytes, chunk: Bytes)
    requires Parted(all, bodies, marks, current, true, None)
    ensures Parted(all + chunk, bodies, marks + [|all|], current, true, Some(chunk))
  {
    var marks' := marks + [|all|];
    forall k | 0 <= k < |bodies|
      ensures Slice(all + chunk, BodyStart(marks', k), marks'[k + 1], bodies[k])
    {
      assert marks'[k + 1] == marks[k + 1] && BodyStart(marks', k) == BodyStart(marks, k);
      SliceStays(all, chunk, BodyStart(marks, k), marks[k + 1], bodies[k]);
    }
    assert BodyStart(marks', |bodies|) == BodyStart(marks, |bodies|);
    SliceStays(all, chunk, BodyStart(marks, |bodies|), |all|, current);
    AppendNothing(Concat(bodies) + current);
  }

  /** The old body is filed. */
  lemma PartedFiles(all: Bytes, bodies: seq<Bytes>, marks: seq<nat>, current: Bytes, chunk: Bytes)
    requires Parted(all, bodies, marks, current, true, Some(chunk))
    ensures Parted(all, bodies + [current], marks, chunk, true, None)
  {
    ConcatSnoc(bodies, current);
  }

  predicate Partition(s: Session) {
    && |s.bodies| == |s.finished|
    && Parted(Concat(s.remoteRead), s.bodies, s.marks, s.cachedBuf, s.cachedCtx.Some?, Unfiled(s.remote))
  }

  lemma ReadingEffect(s: Session, chunk: Bytes)
    requires s.remote.Listening?
    ensures var t, size := ReadFromRemote(s, chunk), |Concat(s.remoteRead)|;
            && t.remoteRead == s.remoteRead + [chunk] && t.bodies == s.bodies && t.finished == s.finished
            && (if s.channel == [] then
                  t.marks == s.marks && t.cachedBuf == s.cachedBuf + chunk
                  && t.cachedCtx.Some? == s.cachedCtx.Some? && Unfiled(t.remote) == None
                else if s.cachedCtx.None? then
                  t.marks == s.marks + [size] && t.cachedBuf == s.cachedBuf + chunk
                  && t.cachedCtx.Some? && Unfiled(t.remote) == None
                else
                  t.marks == s.marks + [size] && t.cachedBuf == s.cachedBuf
                  && t.cachedCtx.Some? && Unfiled(t.remote) == Some(chunk))
  {
  }

  /** Every other step of the remote loop leaves the bytes alone or files the
      current body. */
  lemma FilingEffect(lib: Library, s: Session, l: Label)
    requires Enabled(lib, s, l) && !ByClient(l) && !l.RemoteReads? && Contexts(s)
    ensures var t := Next(lib, s, l);
            && t.remoteRead == s.remoteRead && t.marks == s.marks && t.cachedCtx.Some? == s.cachedCtx.Some?
            && (|| (t.bodies == s.bodies && |t.finished| == |s.finished| && t.cachedBuf == s.cachedBuf
                    && Unfiled(t.remote) == Unfiled(s.remote))
                || (Finishing(s.remote) && t.bodies == s.bodies + [s.cachedBuf] && |t.finished| == |s.finished| + 1
                    && t.cachedBuf == s.remote.data && Unfiled(t.remote) == None))
  {
  }

  lemma PartitionStep(lib: Library, s: Session, l: Label)
    requires Contexts(s) && Partition(s) && Enabled(lib, s, l)
    ensures Partition(Next(lib, s, l))
  {
    if l.RemoteReads? {
      var all := Concat(s.remoteRead);
      ReadingEffect(s, l.chunk);
      ConcatSnoc(s.remoteRead, l.chunk);
      PartedGrows(all, s.bodies, s.marks, s.cachedBuf, s.cachedCtx.Some?, l.chunk);
      if s.cachedCtx.Some? {
        PartedWaits(all, s.bodies, s.marks, s.cachedBuf, l.chunk);
      } else {
        PartedStarts(all + l.chunk, s.bodies, s.marks, s.cachedBuf + l.chunk, |all|);
      }
    } else if ByClient(l) {
      ClientFrame(lib, s, l);
    } else {
      FilingEffect(lib, s, l);
      if Finishing(s.remote) {
        PartedFiles(Concat(s.remoteRead), s.bodies, s.marks, s.cachedBuf, s.remote.data);
      }
    }
  }
}
