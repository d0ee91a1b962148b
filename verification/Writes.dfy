/** What becomes of cache writes: none is lost, overtaken or invented, and Redis
    holds what was written to it and nothing else. */
module Writes {
  import opened Basics
  import opened Meta
  import opened Handler
  import opened Session
  import opened Conservation
  import opened Streams
  import opened System
  import Keys

  /** The cache writes the worker has dealt with, in order. */
  function Done(outcomes: seq<Outcome>): seq<Queued> {
    if outcomes == [] then [] else Done(outcomes[..|outcomes| - 1]) + [outcomes[|outcomes| - 1].q]
  }

  lemma DoneSnoc(outcomes: seq<Outcome>, o: Outcome)
    ensures Done(outcomes + [o]) == Done(outcomes) + [o.q]
  {
    assert (outcomes + [o])[..|outcomes|] == outcomes;
  }

  /** The share of session `i`. */
  function SentBy(queued: seq<Queued>, i: nat): seq<CacheTask> {
    if queued == [] then []
    else
      var q := queued[|queued| - 1];
      SentBy(queued[..|queued| - 1], i) + (if q.from == i then [q.task] else [])
  }

  lemma SentBySnoc(queued: seq<Queued>, q: Queued, i: nat)
    ensures SentBy(queued + [q], i) == SentBy(queued, i) + (if q.from == i then [q.task] else [])
  {
    assert (queued + [q])[..|queued|] == queued;
  }

  /** The key a text is stored under: it is quoted behind `cache:` and escaped. */
  function KeyOf(lib: Library, sql: string): string {
    ['c', 'a', 'c', 'h', 'e', ':', '"'] + Keys.Escape(lib.plain, sql) + ['"']
  }

  /** The seconds a write lives: its duration, but at least a minute. */
  function Seconds(duration: int): int {
    if duration > 60 then duration else 60
  }

  /** Redis after these outcomes: each write under the key of its text, from the
      time it was made, over whatever was there. */
  function Replayed(lib: Library, outcomes: seq<Outcome>): map<string, Entry> {
    if outcomes == [] then map[]
    else
      var before := Replayed(lib, outcomes[..|outcomes| - 1]);
      match outcomes[|outcomes| - 1]
      case Refused(_) => before
      case Written(q, at) => before[KeyOf(lib, q.task.sql) := Entry(q.task.body, at, Seconds(q.task.duration), q)]
  }

  lemma ReplayedSnoc(lib: Library, outcomes: seq<Outcome>, o: Outcome)
    ensures Replayed(lib, outcomes + [o])
         == if o.Refused? then Replayed(lib, outcomes)
            else Replayed(lib, outcomes)[KeyOf(lib, o.q.task.sql) := Entry(o.q.task.body, o.at, Seconds(o.q.task.duration), o.q)]
  {
    assert (outcomes + [o])[..|outcomes|] == outcomes;
  }

  /** Cache writes sent are, in order, those the worker has dealt with, the one it
      holds and those queued; Redis is what the worker wrote. */
  predicate Conserved(lib: Library, p: Proxy) {
    && Done(p.outcomes) + Opt(p.worker) + p.tasks == p.queued
    && p.redis == Replayed(lib, p.outcomes)
  }

  /** Each session's cache writes are its share of those sent. */
  ghost predicate Shared(p: Proxy) {
    && (forall i :: 0 <= i < |p.sessions| ==> SentBy(p.queued, i) == p.sessions[i].tasks)
    && (forall i: nat :: i >= |p.sessions| ==> SentBy(p.queued, i) == [])
  }

  lemma ConservedStep(lib: Library, p: Proxy, step: Step)
    requires Conserved(lib, p) && CanStep(lib, p, step)
    ensures Conserved(lib, After(lib, p, step))
  {
    var done := Done(p.outcomes);
    match step
    case SessionSteps(i, l) =>
      Associative(done + Opt(p.worker), p.tasks, NewTasks(i, p.sessions[i], l));
    case WorkerReceives =>
      assert p.tasks == [p.tasks[0]] + p.tasks[1..];
      AppendNothing(done);
      Associative(done, [p.tasks[0]], p.tasks[1..]);
    case WorkerStores =>
      DoneSnoc(p.outcomes, Written(p.worker.value, p.now));
      ReplayedSnoc(lib, p.outcomes, Written(p.worker.value, p.now));
      Keys.KeyShape(lib.plain, p.worker.value.task.sql);
      AppendNothing(done + [p.worker.value]);
    case WorkerFails =>
      DoneSnoc(p.outcomes, Refused(p.worker.value));
      ReplayedSnoc(lib, p.outcomes, Refused(p.worker.value));
      AppendNothing(done + [p.worker.value]);
    case _ =>
  }

  /** A session's step sends at most one cache write, and notes it in its history. */
  lemma TasksEffect(lib: Library, i: nat, s: Session, l: Label)
    requires Enabled(lib, s, l) && (Finishing(s.remote) ==> s.cachedCtx.Some?)
    ensures var news := NewTasks(i, s, l);
            || (news == [] && Next(lib, s, l).tasks == s.tasks)
            || (|news| == 1 && news[0].from == i && Next(lib, s, l).tasks == s.tasks + [news[0].task])
  {
    if ByClient(l) {
      ClientFrame(lib, s, l);
    } else if Finishing(s.remote) {
      FinishEffect(lib, s, l);
      AppendNothing(s.tasks);
    } else {
      IdleEffect(lib, s, l);
    }
  }

  lemma SharedSession(p: Proxy, i: nat, t: Session, news: seq<Queued>)
    requires Shared(p) && i < |p.sessions|
    requires || (news == [] && t.tasks == p.sessions[i].tasks)
             || (|news| == 1 && news[0].from == i && t.tasks == p.sessions[i].tasks + [news[0].task])
    ensures forall k :: 0 <= k < |p.sessions| ==> SentBy(p.queued + news, k) == p.sessions[i := t][k].tasks
    ensures forall k: nat :: k >= |p.sessions| ==> SentBy(p.queued + news, k) == []
  {
    forall k: nat
      ensures SentBy(p.queued + news, k) == if k == i && news != [] then SentBy(p.queued, k) + [news[0].task] else SentBy(p.queued, k)
    {
      SentByMore(p.queued, news, i, k);
    }
  }

  lemma SentByMore(queued: seq<Queued>, news: seq<Queued>, i: nat, k: nat)
    requires |news| <= 1 && (news != [] ==> news[0].from == i)
    ensures SentBy(queued + news, k) == if k == i && news != [] then SentBy(queued, k) + [news[0].task] else SentBy(queued, k)
  {
    if news == [] {
      AppendNothing(queued);
    } else {
      assert queued + news == queued + [news[0]];
      SentBySnoc(queued, news[0], k);
      AppendNothing(SentBy(queued, k));
    }
  }

  lemma SharedStep(lib: Library, p: Proxy, step: Step)
    requires Shared(p) && CanStep(lib, p, step)
    requires step.SessionSteps? && Finishing(p.sessions[step.i].remote) ==> p.sessions[step.i].cachedCtx.Some?
    ensures Shared(After(lib, p, step))
  {
    if step.SessionSteps? {
      var i, s, l := step.i, p.sessions[step.i], step.move;
      TasksEffect(lib, i, s, l);
      SharedSession(p, i, Next(lib, s, l), NewTasks(i, s, l));
    }
  }

  lemma FinishingHolds(lib: Library, p: Proxy, step: Step)
    requires AllSessions(p, (i, s) => Sound(lib, s)) && CanStep(lib, p, step)
    ensures step.SessionSteps? && Finishing(p.sessions[step.i].remote) ==> p.sessions[step.i].cachedCtx.Some?
  {
    if step.SessionSteps? {
      SoundContexts(lib, p.sessions[step.i]);
    }
  }

  lemma SoundContexts(lib: Library, s: Session)
    requires Sound(lib, s)
    ensures Contexts(s)
  {
  }

  /** For every run: all cache writes ever sent are, in order, those the worker has
      stored or was refused, the one it holds, and those in the queue; each session's
      are exactly its share; and Redis holds, under the key of each text, its last
      write that was not refused, as of the time of that write. */
  lemma {:induction false} WritesConserved(lib: Library, steps: seq<Step>)
    requires Execute(lib, steps).Some?
    ensures Conserved(lib, Execute(lib, steps).value) && Shared(Execute(lib, steps).value)
  {
    if steps != [] {
      var p, step := Execute(lib, steps[..|steps| - 1]).value, steps[|steps| - 1];
      WritesConserved(lib, steps[..|steps| - 1]);
      AlwaysKept(lib, steps[..|steps| - 1]);
      FinishingHolds(lib, p, step);
      ConservedStep(lib, p, step);
      SharedStep(lib, p, step);
    }
  }

  /** A stored write is found from now on for exactly its duration, or a minute if
      that is longer. */
  lemma StoredLives(lib: Library, p: Proxy, t: real)
    requires CanStep(lib, p, WorkerStores)
    ensures var task, redis := p.worker.value.task, After(lib, p, WorkerStores).redis;
            && (Present(redis, Keys.StoreKey(lib.plain, task.sql), t)
                <==> t < p.now + (if task.duration < 60 then 60 else task.duration) as real)
            && (Present(redis, Keys.StoreKey(lib.plain, task.sql), t) ==>
                  Lookup(redis, Keys.StoreKey(lib.plain, task.sql), t) == task.body)
  {
  }

  // ---- the clock ---------------------------------------------------------------------

  function TimePassed(steps: seq<Step>): real {
    if steps == [] then 0.0
    else
      TimePassed(steps[..|steps| - 1])
      + (if steps[|steps| - 1].Elapses? then steps[|steps| - 1].seconds else 0.0)
  }

  /** Time passes in steps of its own and never runs back. */
  lemma {:induction false} ClockSums(lib: Library, steps: seq<Step>)
    requires Execute(lib, steps).Some?
    ensures Execute(lib, steps).value.now == TimePassed(steps) >= 0.0
    ensures forall k :: 0 <= k < |Execute(lib, steps).value.outcomes| && Execute(lib, steps).value.outcomes[k].Written? ==>
              0.0 <= Execute(lib, steps).value.outcomes[k].at <= Execute(lib, steps).value.now
  {
    if steps != [] {
      ClockSums(lib, steps[..|steps| - 1]);
    }
  }
}
