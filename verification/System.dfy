/** The whole proxy: any number of sessions share one Redis, one cache worker,
    one template list and one metrics job.  Time only passes in steps of its
    own, and Redis keeps an entry exactly as long as SETEX says. */
module System {
  import opened Basics
  import opened Meta
  import opened Handler
  import opened Session
  import opened Conservation
  import opened Streams
  import Comments
  import Keys

  /** A cache write on its way, with the template list its request saw and the
      session it comes from. */
  datatype Queued = Queued(task: CacheTask, seen: seq<CacheConfigEntity>, from: nat)

  /** What became of a cache write the worker received (history). */
  datatype Outcome = Written(q: Queued, at: real) | Refused(q: Queued)

  datatype Entry = Entry(value: Bytes, writtenAt: real, seconds: int, origin: Queued)

  /** A body that Redis gave to session `i` (history). */
  datatype Served = Served(i: nat, key: string, entry: Entry, at: real)

  datatype Proxy = Proxy(
    now: real,
    entities: seq<CacheConfigEntity>,
    redis: map<string, Entry>,
    tasks: seq<Queued>,
    worker: Option<Queued>,
    sessions: seq<Session>,
    served: seq<Served>,
    logs: seq<ExecLog>,
    messages: seq<ExecLog>,
    batches: seq<seq<ExecLog>>,
    logged: seq<ExecLog>,
    queued: seq<Queued>,
    outcomes: seq<Outcome>)

  const START := Proxy(0.0, [], map[], [], None, [], [], [], [], [], [], [], [])

  const QUEUE_SIZE := 1_000_000

  datatype Step =
    | Elapses(seconds: real)
    | Reloads(rows: seq<Row>)
    | Accepts
    | SessionSteps(i: nat, move: Label)
    | WorkerReceives
    | WorkerStores
    | WorkerFails
    | JobReceives
    | JobReports

  // ---- Redis -------------------------------------------------------------------

  predicate Present(redis: map<string, Entry>, key: string, now: real) {
    key in redis && now < redis[key].writtenAt + redis[key].seconds as real
  }

  function Lookup(redis: map<string, Entry>, key: string, now: real): Bytes {
    if Present(redis, key, now) then redis[key].value else []
  }

  function TtlOf(task: CacheTask): int {
    if task.duration < 60 then 60 else task.duration
  }

  // ---- steps ---------------------------------------------------------------------

  /** A session's step agrees with the state it shares: the current templates,
      Redis's truthful replies (or a failure), and room in the queues. */
  predicate Agrees(p: Proxy, s: Session, l: Label) {
    match l
    case ClientTakesHandler(entities) => entities == p.entities
    case ExistsReplies(Got(found)) => s.client.WantsExists? && found == Present(p.redis, s.client.key, p.now)
    case GetReplies(Got(body)) => s.client.WantsGet? && body == Lookup(p.redis, s.client.key, p.now)
    case RemoteSendsTask => |p.tasks| < QUEUE_SIZE
    case ClientLogs(_) => |p.logs| < QUEUE_SIZE
    case RemoteLogs(_) => |p.logs| < QUEUE_SIZE
    case _ => true
  }

  predicate CanStep(lib: Library, p: Proxy, step: Step) {
    match step
    case Elapses(seconds) => seconds >= 0.0
    case Reloads(_) => true
    case Accepts => true
    case SessionSteps(i, l) => i < |p.sessions| && Enabled(lib, p.sessions[i], l) && Agrees(p, p.sessions[i], l)
    case WorkerReceives => p.worker.None? && p.tasks != []
    case WorkerStores => p.worker.Some?
    case WorkerFails => p.worker.Some?
    case JobReceives => p.logs != []
    case JobReports => p.logs == [] && p.messages != []
  }

  /** What the step of a session adds to the queues and to the history. */
  function NewTasks(i: nat, s: Session, l: Label): seq<Queued> {
    if l.RemoteSendsTask? && s.cachedCtx.Some? && TaskOf(s.cachedCtx.value.ctx, s.cachedBuf).Some?
    then [Queued(TaskOf(s.cachedCtx.value.ctx, s.cachedBuf).value, s.cachedCtx.value.seen, i)]
    else []
  }

  function NewLogs(l: Label): seq<ExecLog> {
    if l.ClientLogs? || l.RemoteLogs? then [l.log] else []
  }

  function NewServed(p: Proxy, i: nat, s: Session, l: Label): seq<Served> {
    if l.GetReplies? && s.client.WantsGet? && l.get.Got? && l.get.value != [] && s.client.key in p.redis
    then [Served(i, s.client.key, p.redis[s.client.key], p.now)]
    else []
  }

  function Stored(lib: Library, redis: map<string, Entry>, q: Queued, now: real): map<string, Entry> {
    redis[Keys.StoreKey(lib.plain, q.task.sql) := Entry(q.task.body, now, TtlOf(q.task), q)]
  }

  /** The worker on the other end of the cache queue, with the store it fills. */
  class CacheWorker {
    var queue: seq<Queued>
    var redis: map<string, Entry>

    constructor (queued: seq<Queued>, stored: map<string, Entry>)
      ensures queue == queued && redis == stored
    {
      queue, redis := queued, stored;
    }

    /** One turn of the worker's loop; `accepted` says whether Redis took the
        write.  A failed write is dropped, never retried. */
    method HandleTask(lib: Library, now: real, accepted: bool)
      requires queue != []
      modifies this
      ensures queue == old(queue)[1..]
      ensures !accepted ==> redis == old(redis)
      ensures accepted ==>
                var q := old(queue)[0];
                var key := Keys.StoreKey(lib.plain, q.task.sql);
                && key in redis && redis[key].value == q.task.body && redis[key].writtenAt == now
                && redis[key].seconds == (if q.task.duration < 60 then 60 else q.task.duration)
                && redis - {key} == old(redis) - {key}
      ensures forall p: Proxy ::
                p.worker.None? && p.tasks == old(queue) && p.redis == old(redis) && p.now == now ==>
                  WorkerTurn(lib, p, accepted).tasks == queue && WorkerTurn(lib, p, accepted).redis == redis
    {
      var q := queue[0];
      queue := queue[1..];
      var key := Keys.StoreKey(lib.plain, q.task.sql);
      var seconds := q.task.duration;
      if seconds < 60 {
        seconds := 60;
      }
      if accepted {
        redis := redis[key := Entry(q.task.body, now, seconds, q)];
      }
    }
  }

  function After(lib: Library, p: Proxy, step: Step): Proxy
    requires CanStep(lib, p, step)
  {
    match step
    case Elapses(seconds) => p.(now := p.now + seconds)
    case Reloads(rows) => p.(entities := Loaded(lib, rows))
    case Accepts => p.(sessions := p.sessions + [INITIAL])
    case SessionSteps(i, l) =>
      var s := p.sessions[i];
      p.(sessions := p.sessions[i := Next(lib, s, l)],
         tasks := p.tasks + NewTasks(i, s, l), queued := p.queued + NewTasks(i, s, l),
         logs := p.logs + NewLogs(l), logged := p.logged + NewLogs(l),
         served := p.served + NewServed(p, i, s, l))
    case WorkerReceives => p.(worker := Some(p.tasks[0]), tasks := p.tasks[1..])
    case WorkerStores =>
      p.(worker := None, redis := Stored(lib, p.redis, p.worker.value, p.now),
         outcomes := p.outcomes + [Written(p.worker.value, p.now)])
    case WorkerFails => p.(worker := None, outcomes := p.outcomes + [Refused(p.worker.value)])
    case JobReceives => p.(messages := p.messages + [p.logs[0]], logs := p.logs[1..])
    case JobReports => p.(messages := [], batches := p.batches + [p.messages])
  }

  /** The worker receives the oldest cache write and stores it, or is refused. */
  function WorkerTurn(lib: Library, p: Proxy, accepted: bool): Proxy
    requires p.worker.None? && p.tasks != []
  {
    After(lib, After(lib, p, WorkerReceives), if accepted then WorkerStores else WorkerFails)
  }

  /** The state a run of the proxy ends in, or None if it is not a run. */
  function Execute(lib: Library, steps: seq<Step>): Option<Proxy> {
    if steps == [] then Some(START)
    else
      match Execute(lib, steps[..|steps| - 1])
      case None => None
      case Some(p) =>
        var step := steps[|steps| - 1];
        if CanStep(lib, p, step) then Some(After(lib, p, step)) else None
  }

  // ---- what every run keeps ---------------------------------------------------------

  /** The duration of a cache write is that of the first template, in the list
      its request saw, that matches its SQL. */
  predicate Timed(lib: Library, q: Queued) {
    && TemplateFor(lib, q.seen, q.task.sql).Some?
    && q.task.duration == TemplateFor(lib, q.seen, q.task.sql).value.duration
  }

  predicate EntryOk(lib: Library, now: real, key: string, e: Entry) {
    && Timed(lib, e.origin) && e.value == e.origin.task.body && e.seconds == TtlOf(e.origin.task)
    && key == Keys.StoreKey(lib.plain, e.origin.task.sql) && e.writtenAt <= now
  }

  predicate ServedOk(lib: Library, now: real, v: Served) {
    EntryOk(lib, now, v.key, v.entry) && v.entry.writtenAt <= v.at <= now && v.at < v.entry.writtenAt + v.entry.seconds as real
  }

  predicate Kept(lib: Library, p: Proxy) {
    && (forall i :: 0 <= i < |p.tasks| ==> Timed(lib, p.tasks[i]))
    && (p.worker.Some? ==> Timed(lib, p.worker.value))
    && (forall key :: key in p.redis ==> EntryOk(lib, p.now, key, p.redis[key]))
    && (forall i :: 0 <= i < |p.served| ==> ServedOk(lib, p.now, p.served[i]))
    && Concat(p.batches) + p.messages + p.logs == p.logged
  }

  predicate AllSessions(p: Proxy, inv: (nat, Session) -> bool) {
    forall i :: 0 <= i < |p.sessions| ==> inv(i, p.sessions[i])
  }

  /** What holds of each session, whatever the others do. */
  lemma SessionsStep(lib: Library, p: Proxy, step: Step, inv: (nat, Session) -> bool)
    requires AllSessions(p, inv) && CanStep(lib, p, step)
    requires step.Accepts? ==> inv(|p.sessions|, INITIAL)
    requires step.SessionSteps? ==> inv(step.i, Next(lib, p.sessions[step.i], step.move))
    ensures AllSessions(After(lib, p, step), inv)
  {
  }

  lemma NewTasksTimed(lib: Library, i: nat, s: Session, l: Label)
    requires Contexts(s) && Tags(lib, s)
    ensures forall k :: 0 <= k < |NewTasks(i, s, l)| ==> Timed(lib, NewTasks(i, s, l)[k])
  {
    if s.cachedCtx.Some? {
      CurrentTag(lib, s);
    }
  }

  lemma NewServedOk(lib: Library, p: Proxy, i: nat, l: Label)
    requires Kept(lib, p) && i < |p.sessions| && Agrees(p, p.sessions[i], l)
    ensures forall k :: 0 <= k < |NewServed(p, i, p.sessions[i], l)| ==> ServedOk(lib, p.now, NewServed(p, i, p.sessions[i], l)[k])
  {
    var key := if l.GetReplies? && p.sessions[i].client.WantsGet? then p.sessions[i].client.key else "";
    assert key in p.redis ==> EntryOk(lib, p.now, key, p.redis[key]);
  }

  lemma KeptBySession(lib: Library, p: Proxy, i: nat, l: Label)
    requires Kept(lib, p) && CanStep(lib, p, SessionSteps(i, l))
    requires forall k :: 0 <= k < |NewTasks(i, p.sessions[i], l)| ==> Timed(lib, NewTasks(i, p.sessions[i], l)[k])
    requires forall k :: 0 <= k < |NewServed(p, i, p.sessions[i], l)| ==>
               ServedOk(lib, p.now, NewServed(p, i, p.sessions[i], l)[k])
    ensures Kept(lib, After(lib, p, SessionSteps(i, l)))
  {
  }

  lemma KeptSession(lib: Library, p: Proxy, i: nat, l: Label)
    requires Kept(lib, p) && CanStep(lib, p, SessionSteps(i, l))
    requires Contexts(p.sessions[i]) && Tags(lib, p.sessions[i])
    ensures Kept(lib, After(lib, p, SessionSteps(i, l)))
  {
    NewTasksTimed(lib, i, p.sessions[i], l);
    NewServedOk(lib, p, i, l);
    KeptBySession(lib, p, i, l);
  }

  lemma KeptByOthers(lib: Library, p: Proxy, step: Step)
    requires Kept(lib, p) && CanStep(lib, p, step) && !step.SessionSteps?
    ensures Kept(lib, After(lib, p, step))
  {
    if step.JobReports? {
      ConcatSnoc(p.batches, p.messages);
    } else if step.JobReceives? {
      var done := Concat(p.batches);
      assert p.logs == [p.logs[0]] + p.logs[1..];
      assert done + (p.messages + [p.logs[0]]) + p.logs[1..] == done + p.messages + p.logs;
    }
  }

  lemma {:induction false} AlwaysKept(lib: Library, steps: seq<Step>)
    requires Execute(lib, steps).Some?
    ensures Kept(lib, Execute(lib, steps).value)
    ensures AllSessions(Execute(lib, steps).value, (i, s) => Sound(lib, s))
  {
    if steps != [] {
      var p, step := Execute(lib, steps[..|steps| - 1]).value, steps[|steps| - 1];
      AlwaysKept(lib, steps[..|steps| - 1]);
      KeptStep(lib, p, step);
    }
  }

  lemma KeptStep(lib: Library, p: Proxy, step: Step)
    requires Kept(lib, p) && AllSessions(p, (i, s) => Sound(lib, s)) && CanStep(lib, p, step)
    ensures Kept(lib, After(lib, p, step)) && AllSessions(After(lib, p, step), (i, s) => Sound(lib, s))
  {
    if step.SessionSteps? {
      SoundStep(lib, p.sessions[step.i], step.move);
      KeptSession(lib, p, step.i, step.move);
    } else {
      SoundStart(lib);
      KeptByOthers(lib, p, step);
    }
    SessionsStep(lib, p, step, (i, s) => Sound(lib, s));
  }

  // ---- what was served, and to whom -------------------------------------------------

  /** What Redis gave to session `i`, in order. */
  function ServedTo(served: seq<Served>, i: nat): seq<Served> {
    if served == [] then []
    else ServedTo(served[..|served| - 1], i) + (if served[|served| - 1].i == i then [served[|served| - 1]] else [])
  }

  lemma ServedSnoc(served: seq<Served>, v: Served, i: nat)
    ensures ServedTo(served + [v], i) == ServedTo(served, i) + (if v.i == i then [v] else [])
  {
    assert (served + [v])[..|served|] == served;
  }

  lemma {:induction false} ServedIndex(served: seq<Served>, i: nat, j: nat) returns (k: nat)
    requires j < |ServedTo(served, i)|
    ensures k < |served| && served[k] == ServedTo(served, i)[j]
  {
    var n := |served| - 1;
    if j < |ServedTo(served[..n], i)| {
      k := ServedIndex(served[..n], i, j);
    } else {
      k := n;
    }
  }

  /** Each answer from the cache is a body that Redis gave for the request's key. */
  predicate Backs(v: Served, hit: Hit) {
    && v.entry.value == hit.body
    && hit.tag.ctx.sql.Some? && v.key == Keys.LookupKey(hit.tag.ctx.sql.value)
  }

  predicate Backed(records: seq<Served>, hits: seq<Hit>) {
    |records| == |hits| && forall j :: 0 <= j < |hits| ==> Backs(records[j], hits[j])
  }

  ghost predicate AllBacked(p: Proxy) {
    && (forall i :: 0 <= i < |p.sessions| ==> Backed(ServedTo(p.served, i), p.sessions[i].hits))
    && (forall i: nat :: i >= |p.sessions| ==> ServedTo(p.served, i) == [])
  }

  /** A step of a session adds a hit exactly when Redis has given it a body. */
  lemma HitBacked(lib: Library, p: Proxy, i: nat, l: Label)
    requires CanStep(lib, p, SessionSteps(i, l)) && Tags(lib, p.sessions[i])
    ensures var s := p.sessions[i];
            var t, news := Next(lib, s, l), NewServed(p, i, s, l);
            || (news == [] && t.hits == s.hits)
            || (|news| == 1 && news[0].i == i && |t.hits| == |s.hits| + 1 && t.hits[..|s.hits|] == s.hits
                && Backs(news[0], t.hits[|s.hits|])
                && news[0].at == p.now && news[0].key in p.redis && news[0].entry == p.redis[news[0].key])
  {
    var s := p.sessions[i];
    if !ByClient(l) {
      RemoteFrame(lib, s, l);
    } else if l.ClientReads? {
      ReadEffect(lib, s, l.chunk);
    } else if Deciding(l) {
      DecidingEffect(lib, s, l);
      DecisionEffect(lib, s, l);
      HitDecided(lib, s, l);
    } else {
      DisposalEffect(lib, s, l);
    }
  }

  lemma HitDecided(lib: Library, s: Session, l: Label)
    requires Enabled(lib, s, l) && Deciding(l) && !l.ClientReads?
    ensures l.GetReplies? && l.get.Got? && l.get.value != [] ==> Next(lib, s, l).client.WantsWriter?
  {
  }

  lemma BackedSession(p: Proxy, i: nat, t: Session, news: seq<Served>)
    requires AllBacked(p) && i < |p.sessions|
    requires || (news == [] && t.hits == p.sessions[i].hits)
             || (|news| == 1 && news[0].i == i && |t.hits| == |p.sessions[i].hits| + 1
                 && t.hits[..|p.sessions[i].hits|] == p.sessions[i].hits && Backs(news[0], t.hits[|p.sessions[i].hits|]))
    ensures AllBacked(p.(sessions := p.sessions[i := t], served := p.served + news))
  {
    if news == [] {
      assert p.served + news == p.served;
    } else {
      assert p.served + news == p.served + [news[0]];
      forall k: nat
        ensures ServedTo(p.served + news, k) == ServedTo(p.served, k) + (if k == i then news else [])
      {
        ServedSnoc(p.served, news[0], k);
      }
    }
  }

  lemma BackedStep(lib: Library, p: Proxy, step: Step)
    requires AllBacked(p) && CanStep(lib, p, step)
    requires step.SessionSteps? ==> Tags(lib, p.sessions[step.i])
    ensures AllBacked(After(lib, p, step))
  {
    if step.SessionSteps? {
      var s := p.sessions[step.i];
      HitBacked(lib, p, step.i, step.move);
      BackedSession(p, step.i, Next(lib, s, step.move), NewServed(p, step.i, s, step.move));
    }
  }

  lemma {:induction false} AlwaysBacked(lib: Library, steps: seq<Step>)
    requires Execute(lib, steps).Some?
    ensures AllBacked(Execute(lib, steps).value)
  {
    if steps != [] {
      var p, step := Execute(lib, steps[..|steps| - 1]).value, steps[|steps| - 1];
      AlwaysBacked(lib, steps[..|steps| - 1]);
      AlwaysKept(lib, steps[..|steps| - 1]);
      SessionsTagged(lib, p, step);
      BackedStep(lib, p, step);
    }
  }

  lemma SessionsTagged(lib: Library, p: Proxy, step: Step)
    requires AllSessions(p, (i, s) => Sound(lib, s)) && CanStep(lib, p, step)
    ensures step.SessionSteps? ==> Tags(lib, p.sessions[step.i])
  {
    if step.SessionSteps? {
      SoundTags(lib, p.sessions[step.i]);
    }
  }

  lemma SoundTags(lib: Library, s: Session)
    requires Sound(lib, s)
    ensures Tags(lib, s) && Texts(lib, s) && ToClient(s)
  {
  }

  // ---- a stored entry is found again ---------------------------------------------

  /** The worker is about to overwrite the entry of `sql`: only a write of the same
      text can, because escaping is injective. */
  predicate Overwrites(p: Proxy, step: Step, sql: string) {
    step.WorkerStores? && p.worker.Some? && p.worker.value.task.sql == sql
  }

  lemma EntryStays(lib: Library, p: Proxy, step: Step, sql: string)
    requires CanStep(lib, p, step) && !Overwrites(p, step, sql) && Keys.StoreKey(lib.plain, sql) in p.redis
    ensures var key := Keys.StoreKey(lib.plain, sql);
            key in After(lib, p, step).redis && After(lib, p, step).redis[key] == p.redis[key]
  {
    if step.WorkerStores? && Keys.StoreKey(lib.plain, p.worker.value.task.sql) == Keys.StoreKey(lib.plain, sql) {
      Keys.StoreKeyInjective(lib.plain, p.worker.value.task.sql, sql);
    }
  }

  /** No step of `longer` from the `n`-th on overwrites the entry of `sql`. */
  predicate KeepsEntry(lib: Library, longer: seq<Step>, n: nat, sql: string) {
    forall k :: n <= k < |longer| && Execute(lib, longer[..k]).Some? ==>
      !Overwrites(Execute(lib, longer[..k]).value, longer[k], sql)
  }

  lemma {:induction false} EntryKept(lib: Library, steps: seq<Step>, longer: seq<Step>, sql: string)
    requires steps <= longer && Execute(lib, steps).Some? && Execute(lib, longer).Some?
    requires Keys.StoreKey(lib.plain, sql) in Execute(lib, steps).value.redis
    requires KeepsEntry(lib, longer, |steps|, sql)
    ensures var key, p, p' := Keys.StoreKey(lib.plain, sql), Execute(lib, steps).value, Execute(lib, longer).value;
            key in p'.redis && p'.redis[key] == p.redis[key]
  {
    if steps != longer {
      var n := |longer| - 1;
      assert forall k :: 0 <= k < n ==> longer[..n][..k] == longer[..k];
      EntryKept(lib, steps, longer[..n], sql);
      EntryStays(lib, Execute(lib, longer[..n]).value, longer[n], sql);
    }
  }

  /** For every run in which the entry of `sql` is neither expired nor overwritten:
      a look-up for `asked` finds that entry's body if the escaped `sql` is the
      stripped `asked`, and never finds that entry otherwise. */
  lemma FoundAgain(lib: Library, steps: seq<Step>, longer: seq<Step>, sql: string, asked: string)
    requires steps <= longer && Execute(lib, steps).Some? && Execute(lib, longer).Some?
    requires Keys.StoreKey(lib.plain, sql) in Execute(lib, steps).value.redis
    requires KeepsEntry(lib, longer, |steps|, sql)
    requires var e := Execute(lib, steps).value.redis[Keys.StoreKey(lib.plain, sql)];
             Execute(lib, longer).value.now < e.writtenAt + e.seconds as real
    ensures var e, p := Execute(lib, steps).value.redis[Keys.StoreKey(lib.plain, sql)], Execute(lib, longer).value;
            && (Keys.LookupKey(asked) == Keys.StoreKey(lib.plain, sql)
                <==> Keys.Escape(lib.plain, sql) == Comments.Stripped(asked))
            && (Keys.LookupKey(asked) == Keys.StoreKey(lib.plain, sql) ==>
                  Present(p.redis, Keys.LookupKey(asked), p.now) && Lookup(p.redis, Keys.LookupKey(asked), p.now) == e.value)
  {
    EntryKept(lib, steps, longer, sql);
    Keys.KeysMatch(lib.plain, sql, asked);
  }

  // ---- time to live -------------------------------------------------------------------

  /** The entry is the body of a cache write and lives for the duration, at least
      a minute, of the first template, in the list the storing request saw, that
      matches the stored text. */
  predicate RuleOf(lib: Library, e: Entry) {
    var task := e.origin.task;
    var rule := TemplateFor(lib, e.origin.seen, task.sql);
    && e.value == task.body && rule.Some?
    && e.seconds == (if rule.value.duration < 60 then 60 else rule.value.duration)
  }

  /** For every run: each body that a client received from the cache was given by
      Redis under the key of that client's own request, at a time t; it had been
      written under that key at an earlier time t0 with t < t0 + max(60, d), where
      d is the duration of the rule the storing request met. */
  lemma TtlSafety(lib: Library, steps: seq<Step>, i: nat, j: nat)
    requires Execute(lib, steps).Some? && i < |Execute(lib, steps).value.sessions|
    requires j < |CachedIn(Execute(lib, steps).value.sessions[i].toClient)|
    ensures var p := Execute(lib, steps).value;
            var s, records := p.sessions[i], ServedTo(p.served, i);
            && j < |records| && j < |s.hits| && s.hits[j].tag.id < |s.clientRead|
            && var v, request := records[j], s.clientRead[s.hits[j].tag.id];
            && CachedIn(s.toClient)[j] == v.entry.value
            && |request| >= 5 && TextOf(lib, request).Some?
            && v.key == Keys.LookupKey(TextOf(lib, request).value) == Keys.StoreKey(lib.plain, v.entry.origin.task.sql)
            && RuleOf(lib, v.entry)
            && v.entry.writtenAt <= v.at <= p.now && v.at < v.entry.writtenAt + v.entry.seconds as real
  {
    var p := Execute(lib, steps).value;
    AlwaysKept(lib, steps);
    AlwaysBacked(lib, steps);
    SoundTags(lib, p.sessions[i]);
    ServedRule(lib, p, i, j);
  }

  lemma ServedRule(lib: Library, p: Proxy, i: nat, j: nat)
    requires Kept(lib, p) && AllBacked(p) && i < |p.sessions| && j < |CachedIn(p.sessions[i].toClient)|
    requires Texts(lib, p.sessions[i]) && ToClient(p.sessions[i])
    ensures var s, records := p.sessions[i], ServedTo(p.served, i);
            && j < |records| && j < |s.hits|
            && Carries(lib, s.clientRead, s.hits[j].tag) && Backs(records[j], s.hits[j])
            && CachedIn(s.toClient)[j] == records[j].entry.value
            && ServedOk(lib, p.now, records[j]) && RuleOf(lib, records[j].entry)
  {
    var s, records := p.sessions[i], ServedTo(p.served, i);
    assert Backed(records, s.hits);
    assert (CachedIn(s.toClient) + PendingHit(s.client))[j] == Bodies(s.hits)[j];
    var k := ServedIndex(p.served, i, j);
    assert ServedOk(lib, p.now, p.served[k]);
  }

  /** An entry that expires between the two questions to Redis is as if it had
      never been there: the request is forwarded, writes no cache, and serves
      nothing. */
  lemma ExpiryForwards(lib: Library, p: Proxy, i: nat, l: Label)
    requires CanStep(lib, p, SessionSteps(i, l)) && Tags(lib, p.sessions[i])
    requires l.GetReplies? && !Present(p.redis, p.sessions[i].client.key, p.now)
    ensures var t := Next(lib, p.sessions[i], l);
            t.client.SendsContext? && !t.client.tag.ctx.shouldUpdateCache && t.hits == p.sessions[i].hits
    ensures After(lib, p, SessionSteps(i, l)).served == p.served
  {
  }
}
