/** What the metrics job reports, over all sessions and all batches. */
module Accounting {
  import opened Basics
  import opened Handler
  import opened Session
  import opened Meta
  import opened Conservation
  import opened Streams
  import opened System
  import Metrics
  import Patterns

  function TotalLogged(sessions: seq<Session>): nat {
    if sessions == [] then 0
    else TotalLogged(sessions[..|sessions| - 1]) + |sessions[|sessions| - 1].logged|
  }

  function TotalHitsLogged(sessions: seq<Session>): nat {
    if sessions == [] then 0
    else TotalHitsLogged(sessions[..|sessions| - 1]) + Metrics.Hits(sessions[|sessions| - 1].logged)
  }

  lemma {:induction false} TotalsUpdate(sessions: seq<Session>, i: nat, t: Session)
    requires i < |sessions|
    ensures TotalLogged(sessions[i := t]) == TotalLogged(sessions) - |sessions[i].logged| + |t.logged|
    ensures TotalHitsLogged(sessions[i := t])
         == TotalHitsLogged(sessions) - Metrics.Hits(sessions[i].logged) + Metrics.Hits(t.logged)
  {
    var n := |sessions| - 1;
    var init := sessions[..n];
    if i == n {
      assert sessions[i := t][..n] == init;
    } else {
      TotalsUpdate(init, i, t);
      assert sessions[i := t][..n] == init[i := t];
    }
  }

  predicate Counted(p: Proxy) {
    |p.logged| == TotalLogged(p.sessions) && Metrics.Hits(p.logged) == TotalHitsLogged(p.sessions)
  }

  lemma LoggedEffect(lib: Library, s: Session, l: Label)
    requires Enabled(lib, s, l)
    ensures Next(lib, s, l).logged == s.logged + NewLogs(l)
  {
    if ByClient(l) && !l.ClientReads? && Deciding(l) {
      DecidingEffect(lib, s, l);
    } else if ByClient(l) && !l.ClientReads? {
      EndHitEffect(lib, s, l);
    } else if !ByClient(l) && !Finishing(s.remote) {
      IdleEffect(lib, s, l);
    }
  }

  lemma CountedSession(p: Proxy, i: nat, t: Session, logs: seq<ExecLog>)
    requires Counted(p) && i < |p.sessions| && t.logged == p.sessions[i].logged + logs
    ensures |p.logged + logs| == TotalLogged(p.sessions[i := t])
    ensures Metrics.Hits(p.logged + logs) == TotalHitsLogged(p.sessions[i := t])
  {
    TotalsUpdate(p.sessions, i, t);
    Metrics.HitsAppend(p.logged, logs);
    Metrics.HitsAppend(p.sessions[i].logged, logs);
  }

  lemma CountedAccept(p: Proxy)
    requires Counted(p)
    ensures Counted(p.(sessions := p.sessions + [INITIAL]))
  {
    assert (p.sessions + [INITIAL])[..|p.sessions|] == p.sessions;
    assert TotalLogged(p.sessions + [INITIAL]) == TotalLogged(p.sessions) + |INITIAL.logged|;
    assert TotalHitsLogged(p.sessions + [INITIAL]) == TotalHitsLogged(p.sessions) + Metrics.Hits(INITIAL.logged);
  }

  lemma CountedStep(lib: Library, p: Proxy, step: Step)
    requires Counted(p) && CanStep(lib, p, step)
    ensures Counted(After(lib, p, step))
  {
    if step.SessionSteps? {
      LoggedEffect(lib, p.sessions[step.i], step.move);
      CountedSession(p, step.i, Next(lib, p.sessions[step.i], step.move), NewLogs(step.move));
    } else if step.Accepts? {
      CountedAccept(p);
    }
  }

  lemma {:induction false} AlwaysCounted(lib: Library, steps: seq<Step>)
    requires Execute(lib, steps).Some?
    ensures Counted(Execute(lib, steps).value)
  {
    if steps != [] {
      AlwaysCounted(lib, steps[..|steps| - 1]);
      CountedStep(lib, Execute(lib, steps[..|steps| - 1]).value, steps[|steps| - 1]);
    }
  }

  /** How many of these requests have a text whose last statement is a query. */
  function Queries(lib: Library, tags: seq<Tagged>): nat {
    if tags == [] then 0
    else
      var sql := tags[|tags| - 1].ctx.sql;
      Queries(lib, tags[..|tags| - 1]) + (if sql.Some? && Patterns.EndsInQuery(lib.parse(sql.value)) then 1 else 0)
  }

  lemma {:induction false} QueriesCount(lib: Library, tags: seq<Tagged>)
    ensures |PatternsOf(lib, tags)| == Queries(lib, tags)
  {
    if tags != [] {
      QueriesCount(lib, tags[..|tags| - 1]);
    }
  }

  /** Queries whose answer is complete, over all sessions: all of them, and those
      answered from the cache. */
  function QueriesDone(lib: Library, sessions: seq<Session>): nat {
    if sessions == [] then 0
    else
      var s := sessions[|sessions| - 1];
      QueriesDone(lib, sessions[..|sessions| - 1]) + Queries(lib, s.finished) + Queries(lib, s.answered)
  }

  function QueriesHit(lib: Library, sessions: seq<Session>): nat {
    if sessions == [] then 0
    else QueriesHit(lib, sessions[..|sessions| - 1]) + Queries(lib, sessions[|sessions| - 1].answered)
  }

  lemma {:induction false} LogCounts(logs: seq<ExecLog>)
    ensures |logs| == |SqlsLogged(logs, false)| + |SqlsLogged(logs, true)|
    ensures Metrics.Hits(logs) == |SqlsLogged(logs, true)|
  {
    if logs != [] {
      LogCounts(logs[..|logs| - 1]);
    }
  }

  lemma {:induction false} SessionsCount(lib: Library, sessions: seq<Session>)
    requires forall i :: 0 <= i < |sessions| ==> Reports(lib, sessions[i])
    ensures TotalLogged(sessions) == QueriesDone(lib, sessions)
    ensures TotalHitsLogged(sessions) == QueriesHit(lib, sessions)
  {
    if sessions != [] {
      SessionsCount(lib, sessions[..|sessions| - 1]);
      LogCounts(sessions[|sessions| - 1].logged);
      QueriesCount(lib, sessions[|sessions| - 1].finished);
      QueriesCount(lib, sessions[|sessions| - 1].answered);
    }
  }

  /** Metrics end to end, for every run: the executions and hits in all reports
      made so far, plus the logs still pending, are exactly the completed queries
      and the completed cache hits of all sessions. */
  lemma MetricsEndToEnd(lib: Library, steps: seq<Step>, port: string, reports: seq<seq<Metrics.MetricHistory>>)
    requires Execute(lib, steps).Some?
    requires Metrics.AllAggregate(port, Execute(lib, steps).value.batches, reports)
    ensures var p := Execute(lib, steps).value;
            && Concat(p.batches) + p.messages + p.logs == p.logged
            && Metrics.TotalExecs(Concat(reports)) + |p.messages| + |p.logs| == QueriesDone(lib, p.sessions)
            && Metrics.TotalHits(Concat(reports)) + Metrics.Hits(p.messages) + Metrics.Hits(p.logs)
               == QueriesHit(lib, p.sessions)
  {
    var p := Execute(lib, steps).value;
    AlwaysKept(lib, steps);
    AlwaysCounted(lib, steps);
    forall i | 0 <= i < |p.sessions|
      ensures Reports(lib, p.sessions[i])
    {
      assert Sound(lib, p.sessions[i]);
    }
    SessionsCount(lib, p.sessions);
    Metrics.ReportsConserve(port, p.batches, reports);
    Metrics.HitsAppend(Concat(p.batches), p.messages);
    Metrics.HitsAppend(Concat(p.batches) + p.messages, p.logs);
  }
}
