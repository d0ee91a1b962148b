/** What the proxy decides about one request, and what it reports when the
    response is complete. */
module Handler {
  import opened Basics
  import opened Protocol
  import opened Tokens
  import opened Meta
  import Comments
  import Keys
  import Patterns

  /** The fields of a proxy context that steer the session; clock readings are
      kept apart in the class below. */
  datatype Context = Context(
    sql: Option<string>,
    shouldUpdateCache: bool,
    cacheDuration: int,
    fromCache: bool,
    skip: bool)

  datatype CacheTask = CacheTask(sql: string, body: Bytes, duration: int)

  datatype ExecLog = ExecLog(
    sqlStr: string,
    totalDuration: int,
    mysqlDuration: int,
    redisDuration: int,
    fromCache: bool)

  datatype Action = Forward | Responded(body: Bytes)

  // ---- the decision, cut at the calls to Redis -------------------------------

  predicate Occurs(sub: string, s: string) {
    sub <= s || (s != "" && Occurs(sub, s[1..]))
  }

  const NULS := "\0\0\0\U{3}"

  /** What handling a request leads to next: forwarding, a question to Redis, or
      an answer from the cache. */
  datatype Stage =
    | Forwarding(ctx: Context)
    | AskingExists(ctx: Context, key: string, duration: int)
    | AskingGet(ctx: Context, key: string, duration: int)
    | Responding(ctx: Context, body: Bytes)

  predicate IsSelect(lib: Library, sql: string) {
    "SELECT" <= lib.upper(Comments.Stripped(sql))
  }

  function TemplateFor(lib: Library, entities: seq<CacheConfigEntity>, sql: string): Option<CacheConfigEntity> {
    FirstMatch(entities, TrimTokens(lib.tokenize(Comments.Trim(lib.upper(Comments.Stripped(sql))))))
  }

  function OnRequest(lib: Library, entities: seq<CacheConfigEntity>, ctx: Context, kind: PacketType): Stage {
    if ctx.sql.None? || !kind.ComQuery? || !IsSelect(lib, ctx.sql.value) then Forwarding(ctx)
    else if Occurs(NULS, lib.upper(Comments.Stripped(ctx.sql.value))) then Forwarding(ctx.(skip := true))
    else
      match TemplateFor(lib, entities, ctx.sql.value)
      case None => Forwarding(ctx)
      case Some(entity) => AskingExists(ctx, Keys.LookupKey(ctx.sql.value), entity.duration)
  }

  function OnExists(ctx: Context, key: string, duration: int, reply: Reply<bool>): Stage {
    match reply
    case Failed => Forwarding(ctx.(cacheDuration := duration))
    case Got(false) => Forwarding(ctx.(shouldUpdateCache := true, cacheDuration := duration))
    case Got(true) => AskingGet(ctx, key, duration)
  }

  function OnGet(ctx: Context, duration: int, reply: Reply<Bytes>): Stage {
    match reply
    case Failed => Forwarding(ctx.(cacheDuration := duration))
    case Got(body) =>
      if body == [] then Forwarding(ctx.(cacheDuration := duration))
      else Responding(ctx.(fromCache := true), body)
  }

  function FromRedis(ctx: Context, key: string, duration: int, exists_: Reply<bool>, get: Reply<Bytes>): Stage {
    match OnExists(ctx, key, duration, exists_)
    case AskingGet(c, _, d) => OnGet(c, d, get)
    case stage => stage
  }

  /** The whole decision, given what Redis would reply to each question. */
  function Decide(lib: Library, entities: seq<CacheConfigEntity>, ctx: Context, kind: PacketType,
                  exists_: Reply<bool>, get: Reply<Bytes>): Stage
  {
    match OnRequest(lib, entities, ctx, kind)
    case AskingExists(c, key, d) => FromRedis(c, key, d, exists_, get)
    case stage => stage
  }

  function ActionOf(stage: Stage): Action {
    if stage.Responding? then Responded(stage.body) else Forward
  }

  function FreshContext(sql: Option<string>): Context {
    Context(sql, false, 0, false, false)
  }

  /** Three NULs and an ETX from position `k` on. */
  predicate NulsAt(u: string, k: int) {
    0 <= k && k + 4 <= |u| && u[k] == '\0' && u[k + 1] == '\0' && u[k + 2] == '\0' && u[k + 3] as int == 3
  }

  lemma {:induction false} OccursExactly(u: string)
    ensures Occurs(NULS, u) <==> exists k :: NulsAt(u, k)
  {
    assert NULS <= u <==> NulsAt(u, 0);
    if u != "" {
      OccursExactly(u[1..]);
      if k :| NulsAt(u, k) {
        assert k == 0 || NulsAt(u[1..], k - 1);
      }
      if k :| NulsAt(u[1..], k) {
        assert NulsAt(u, k + 1);
      }
    }
  }

  /** The upper-cased text without comments starts with SELECT, and has no NULs. */
  predicate SelectText(u: string) {
    && |u| >= 6 && u[0] == 'S' && u[1] == 'E' && u[2] == 'L' && u[3] == 'E' && u[4] == 'C' && u[5] == 'T'
    && !exists k :: 0 <= k < |u| && NulsAt(u, k)
  }

  /** The `i`-th template is the first one that matches the tokens of the upper-cased,
      trimmed text without comments. */
  predicate FirstTemplate(lib: Library, entities: seq<CacheConfigEntity>, sql: string, i: int) {
    var tokens := TrimTokens(lib.tokenize(Comments.Trim(lib.upper(Comments.Stripped(sql)))));
    && 0 <= i < |entities| && Matches(entities[i].tokens, tokens)
    && forall j :: 0 <= j < i ==> !Matches(entities[j].tokens, tokens)
  }

  ghost predicate CacheAsked(lib: Library, entities: seq<CacheConfigEntity>, sql: Option<string>, kind: PacketType) {
    && sql.Some? && kind.ComQuery? && SelectText(lib.upper(Comments.Stripped(sql.value)))
    && exists i :: FirstTemplate(lib, entities, sql.value, i)
  }

  lemma SelectExactly(u: string)
    ensures SelectText(u) <==> "SELECT" <= u && !Occurs(NULS, u)
  {
    OccursExactly(u);
    if k :| NulsAt(u, k) {
      assert 0 <= k < |u|;
    }
  }

  lemma TemplateExactly(lib: Library, entities: seq<CacheConfigEntity>, sql: string)
    ensures TemplateFor(lib, entities, sql).Some? <==> exists i :: FirstTemplate(lib, entities, sql, i)
    ensures forall i :: FirstTemplate(lib, entities, sql, i) ==> TemplateFor(lib, entities, sql) == Some(entities[i])
  {
    var tokens := TrimTokens(lib.tokenize(Comments.Trim(lib.upper(Comments.Stripped(sql)))));
    var r := FirstMatch(entities, tokens);
    if r.Some? {
      var i :| IsFirst(entities, tokens, i) && entities[i] == r.value;
      assert FirstTemplate(lib, entities, sql, i);
    }
  }

  /** A request is looked up exactly when it is a COM_QUERY whose text, upper-cased
      and without comments, starts with SELECT, has no NULs, and matches a template.
      The cache is written only after Redis said that the key is missing, under the
      duration of the first matching template; it is read only into non-empty
      answers; any failure, and expiry between the two questions, forwards the
      request without a cache write. */
  lemma DecisionTable(lib: Library, entities: seq<CacheConfigEntity>, sql: Option<string>, kind: PacketType,
                      exists_: Reply<bool>, get: Reply<Bytes>)
    ensures var stage := Decide(lib, entities, FreshContext(sql), kind, exists_, get);
            var asks := CacheAsked(lib, entities, sql, kind);
            && (OnRequest(lib, entities, FreshContext(sql), kind).AskingExists? <==> asks)
            && (stage.Forwarding? || stage.Responding?)
            && stage.ctx.sql == sql
            && (stage.Responding? <==> asks && exists_ == Got(true) && get.Got? && get.value != [])
            && (stage.Responding? ==> stage.body == get.value)
            && (stage.ctx.fromCache <==> stage.Responding?)
            && (stage.ctx.shouldUpdateCache <==> asks && exists_ == Got(false))
            && (stage.ctx.shouldUpdateCache ==> !stage.ctx.skip)
            && (asks && !stage.Responding? ==>
                  forall i :: FirstTemplate(lib, entities, sql.value, i) ==> stage.ctx.cacheDuration == entities[i].duration)
            && (!asks || stage.Responding? ==> stage.ctx.cacheDuration == 0)
            && (stage.ctx.skip <==> sql.Some? && kind.ComQuery?
                                    && var u := lib.upper(Comments.Stripped(sql.value));
                                    "SELECT" <= u && exists k :: NulsAt(u, k))
    ensures var first := OnRequest(lib, entities, FreshContext(sql), kind);
            first.AskingExists? ==> first.key == Keys.LookupKey(sql.value)
  {
    if sql.Some? {
      var u := lib.upper(Comments.Stripped(sql.value));
      SelectExactly(u);
      OccursExactly(u);
      TemplateExactly(lib, entities, sql.value);
    }
  }

  // ---- the context object -------------------------------------------------------

  /** The time between two clock readings; it never goes below zero. */
  function Elapsed(start: int, now: int): nat {
    if now < start then 0 else now - start
  }

  class ProxyContext {
    var sql: Option<string>
    var shouldUpdateCache: bool
    var fnStartTime: int
    var mysqlExecStartTime: Option<int>
    var redisDuration: nat
    var fromCache: bool
    var cacheDuration: int
    var totalDuration: nat
    var mysqlDuration: nat
    var skip: bool

    constructor (now: int)
      ensures Value() == FreshContext(None) && fnStartTime == now && mysqlExecStartTime == None
      ensures redisDuration == totalDuration == mysqlDuration == 0
    {
      sql, shouldUpdateCache, fnStartTime, mysqlExecStartTime := None, false, now, None;
      redisDuration, fromCache, cacheDuration, totalDuration, mysqlDuration, skip := 0, false, 0, 0, 0, false;
    }

    function Value(): Context
      reads this
    {
      Context(sql, shouldUpdateCache, cacheDuration, fromCache, skip)
    }
  }

  /** One handler per connection; the two queues are the channels to the
      metrics job and to the cache worker. */
  class ConnectionHandler {
    var execLogs: seq<ExecLog>
    var cacheTasks: seq<CacheTask>

    constructor ()
      ensures execLogs == [] && cacheTasks == []
    {
      execLogs, cacheTasks := [], [];
    }

    /** The search through the configured templates, stopping at the first hit. */
    method FindTemplate(lib: Library, entities: seq<CacheConfigEntity>, sql: string)
      returns (entity: Option<CacheConfigEntity>)
      ensures entity == FirstMatch(entities, TrimTokens(lib.tokenize(Comments.Trim(lib.upper(sql)))))
    {
      entity := None;
      var wanted := Comments.Trim(lib.upper(sql));
      ghost var tokens := TrimTokens(lib.tokenize(wanted));
      var i := 0;
      while i < |entities|
        invariant 0 <= i <= |entities| && entity.None?
        invariant FirstMatch(entities, tokens) == FirstMatch(entities[i..], tokens)
        decreases |entities| - i
      {
        var same := IsPatternMatch(entities[i].tokens, wanted, lib.tokenize);
        assert entities[i..][1..] == entities[i + 1..];
        if same {
          entity := Some(entities[i]);
          break;
        }
        i := i + 1;
      }
    }

    method ConsultCache(ctx: ProxyContext, key: string, duration: int, asked: nat,
                        exists_: Reply<bool>, get: Reply<Bytes>)
      returns (action: Action)
      modifies ctx
      ensures var stage := FromRedis(old(ctx.Value()), key, duration, exists_, get);
              ctx.Value() == stage.ctx && action == ActionOf(stage)
      ensures ctx.fnStartTime == old(ctx.fnStartTime) && ctx.mysqlExecStartTime == old(ctx.mysqlExecStartTime)
      ensures ctx.totalDuration == old(ctx.totalDuration) && ctx.mysqlDuration == old(ctx.mysqlDuration)
      ensures ctx.redisDuration == asked
    {
      ctx.redisDuration := asked;
      if exists_.Failed? {
        ctx.cacheDuration := duration;
        return Forward;
      }
      if !exists_.value {
        ctx.shouldUpdateCache := true;
        ctx.cacheDuration := duration;
        return Forward;
      }
      if get.Failed? {
        ctx.cacheDuration := duration;
        return Forward;
      }
      if |get.value| < 1 {
        ctx.cacheDuration := duration;
        return Forward;
      }
      ctx.fromCache := true;
      return Responded(get.value);
    }

    /** `exists_` and `get` are Redis's replies if asked; `asked` is how long the
        questions took. */
    method HandleRequest(lib: Library, entities: seq<CacheConfigEntity>, ctx: ProxyContext, kind: PacketType,
                         now: int, asked: nat, exists_: Reply<bool>, get: Reply<Bytes>)
      returns (action: Action)
      modifies ctx
      ensures var stage := Decide(lib, entities, old(ctx.Value()), kind, exists_, get);
              ctx.Value() == stage.ctx && action == ActionOf(stage)
      ensures ctx.fnStartTime == now && ctx.mysqlExecStartTime == old(ctx.mysqlExecStartTime)
      ensures ctx.totalDuration == old(ctx.totalDuration) && ctx.mysqlDuration == old(ctx.mysqlDuration)
      ensures ctx.redisDuration == (if OnRequest(lib, entities, old(ctx.Value()), kind).AskingExists? then asked
                                    else old(ctx.redisDuration))
    {
      ctx.fnStartTime := now;
      if ctx.sql.None? {
        return Forward;
      }
      var sql := Comments.RemoveComments(ctx.sql.value);
      if kind != ComQuery {
        return Forward;
      }
      if !("SELECT" <= lib.upper(sql)) {
        return Forward;
      }
      if Occurs(NULS, lib.upper(sql)) {
        ctx.skip := true;
        return Forward;
      }
      action := LookUp(lib, entities, ctx, sql, asked, exists_, get);
    }

    /** The part of the handler that a SELECT reaches. */
    method LookUp(lib: Library, entities: seq<CacheConfigEntity>, ctx: ProxyContext, sql: string, asked: nat,
                  exists_: Reply<bool>, get: Reply<Bytes>)
      returns (action: Action)
      requires ctx.sql.Some? && sql == Comments.Stripped(ctx.sql.value)
      modifies ctx
      ensures var entity := TemplateFor(lib, entities, old(ctx.sql).value);
              if entity.None? then
                action == Forward && ctx.Value() == old(ctx.Value()) && ctx.redisDuration == old(ctx.redisDuration)
              else
                var stage := FromRedis(old(ctx.Value()), Keys.LookupKey(old(ctx.sql).value), entity.value.duration, exists_, get);
                ctx.Value() == stage.ctx && action == ActionOf(stage) && ctx.redisDuration == asked
      ensures ctx.fnStartTime == old(ctx.fnStartTime) && ctx.mysqlExecStartTime == old(ctx.mysqlExecStartTime)
      ensures ctx.totalDuration == old(ctx.totalDuration) && ctx.mysqlDuration == old(ctx.mysqlDuration)
    {
      var entity := FindTemplate(lib, entities, sql);
      if entity.None? {
        return Forward;
      }
      action := ConsultCache(ctx, Keys.LookupKey(ctx.sql.value), entity.value.duration, asked, exists_, get);
    }

    /** The clock is read once for each duration. */
    method HandleResponse(ctx: ProxyContext, now: int, later: int)
      modifies ctx
      ensures ctx.Value() == old(ctx.Value()) && ctx.redisDuration == old(ctx.redisDuration)
      ensures ctx.fnStartTime == old(ctx.fnStartTime) && ctx.mysqlExecStartTime == old(ctx.mysqlExecStartTime)
      ensures ctx.totalDuration == if now < ctx.fnStartTime then 0 else now - ctx.fnStartTime
      ensures ctx.mysqlDuration == (match ctx.mysqlExecStartTime
                                    case Some(start) => if later < start then 0 else later - start
                                    case None => old(ctx.mysqlDuration))
    {
      ctx.totalDuration := Elapsed(ctx.fnStartTime, now);
      if ctx.mysqlExecStartTime.Some? {
        ctx.mysqlDuration := Elapsed(ctx.mysqlExecStartTime.value, later);
      }
    }

    method HandleRemoteResponseFinished(lib: Library, ctx: ProxyContext, fullResponse: Bytes)
      modifies this
      ensures cacheTasks == old(cacheTasks) + Opt(TaskOf(ctx.Value(), fullResponse))
      ensures cacheTasks == old(cacheTasks)
                + (if ctx.sql.Some? && ctx.shouldUpdateCache && !ctx.skip
                   then [CacheTask(sql := ctx.sql.value, body := fullResponse, duration := ctx.cacheDuration)] else [])
      ensures execLogs == old(execLogs)
                + (if ctx.sql.Some? && Patterns.EndsInQuery(lib.parse(ctx.sql.value))
                   then [ExecLog(sqlStr := lib.render(Patterns.SqlToPattern(lib.parse(ctx.sql.value)).value),
                                 totalDuration := ctx.totalDuration, mysqlDuration := ctx.mysqlDuration,
                                 redisDuration := ctx.redisDuration, fromCache := ctx.fromCache)] else [])
      ensures execLogs == old(execLogs)
                + Opt(LogOf(lib, ctx.Value(), ctx.totalDuration, ctx.mysqlDuration, ctx.redisDuration))
    {
      if ctx.sql.None? {
        return;
      }
      var sql := ctx.sql.value;
      if ctx.shouldUpdateCache && !ctx.skip {
        cacheTasks := cacheTasks + [CacheTask(sql, fullResponse, ctx.cacheDuration)];
      }
      var pattern := PatternOf(lib, sql);
      if pattern.Some? {
        execLogs := execLogs
        + [ExecLog(pattern.value, ctx.totalDuration, ctx.mysqlDuration, ctx.redisDuration, ctx.fromCache)];
      }
    }
  }

  // ---- what a finished response leaves behind -----------------------------------------

  function PatternOf(lib: Library, sql: string): Option<string> {
    match Patterns.SqlToPattern(lib.parse(sql))
    case None => None
    case Some(statement) => Some(lib.render(statement))
  }

  function ContextPattern(lib: Library, ctx: Context): Option<string> {
    if ctx.sql.None? then None else PatternOf(lib, ctx.sql.value)
  }

  function TaskOf(ctx: Context, body: Bytes): Option<CacheTask> {
    if ctx.sql.Some? && ctx.shouldUpdateCache && !ctx.skip
    then Some(CacheTask(ctx.sql.value, body, ctx.cacheDuration))
    else None
  }

  function LogOf(lib: Library, ctx: Context, total: int, mysql: int, redis: int): Option<ExecLog> {
    match ContextPattern(lib, ctx)
    case None => None
    case Some(pattern) => Some(ExecLog(pattern, total, mysql, redis, ctx.fromCache))
  }
}
