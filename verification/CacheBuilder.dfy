/** Building a cache from an endpoint's log, with reconnects and with the swap of the served cache
    (dozer-api/src/cache_builder/builder_impl.rs and mod.rs). */
module CacheBuilder {
  import opened Wrappers

  type Content(!new, ==)
  type DataOp(!new, ==)
  type WriteOptions(!new, ==)

  /** A cache is named after the id of the log it is built from. */
  type Name = string

  datatype LogOp = Data(op: DataOp) | Commit | SnapshottingStarted | SnapshottingDone(connection: string)

  /** What a cache does with an operation, depending on its conflict resolution: None is an error. */
  datatype Env = Env(
    empty: Content,
    apply: (WriteOptions, Content, DataOp) -> Option<Content>,
    done: (Content, string) -> Content,
    defaults: WriteOptions,
    configured: WriteOptions,
    table: Name)

  /** What is committed: the records, and the log position of the last commit. */
  datatype Cache = Cache(content: Content, position: Option<nat>)

  /** The cache manager's caches, the real name behind the table's alias, and the served cache. */
  datatype World = World(caches: map<Name, Cache>, alias: Option<Name>, serving: Name)

  /** `working` is the content inside the open transaction, `catchUp` the position to catch up with. */
  datatype Builder = Builder(building: Name, working: Content, next: nat, catchUp: Option<nat>, options: WriteOptions)

  datatype Failure = CacheMissing | WrongPosition | WriteFailed

  function NextPosition(position: Option<nat>): nat {
    if position.Some? then position.value + 1 else 0
  }

  function Resolve(env: Env, w: World): Name {
    if w.alias.Some? then w.alias.value else env.table
  }

  /** `create_cache`: an existing cache of that name is opened with its content; the alias moves to it. */
  function Create(env: Env, w: World, name: Name): World {
    w.(caches := if name in w.caches then w.caches else w.caches[name := Cache(env.empty, None)],
       alias := Some(name))
  }

  /** `CacheBuilderImpl::new` for the log of the given name. */
  function New(env: Env, w: World, name: Name): Result<(World, Builder), Failure> {
    if w.serving !in w.caches then Err(CacheMissing)
    else if w.serving != name then
      var w' := Create(env, w, name);
      Ok((w', Builder(name, w'.caches[name].content, 0,
                      Some(NextPosition(w.caches[w.serving].position)), env.configured)))
    else
      var actual := Resolve(env, w);
      if actual !in w.caches then Err(CacheMissing)
      else
        var cache := w.caches[actual];
        Ok((w, Builder(actual, cache.content, NextPosition(cache.position), None, env.defaults)))
  }

  /** `process_op`. */
  function Process(env: Env, w: World, b: Builder, op: LogOp, pos: nat): Result<(World, Builder), Failure> {
    if pos != b.next then Err(WrongPosition)
    else
      var b := b.(next := b.next + 1);
      match op
      case Data(d) =>
        (match env.apply(b.options, b.working, d)
         case None => Err(WriteFailed)
         case Some(c) => Ok((w, b.(working := c))))
      case Commit =>
        var w := w.(caches := w.caches[b.building := Cache(b.working, Some(pos))]);
        if b.catchUp.Some? && b.next >= b.catchUp.value then
          if Resolve(env, w) !in w.caches then Err(CacheMissing)
          else Ok((w.(serving := Resolve(env, w)), b.(catchUp := None)))
        else Ok((w, b))
      case SnapshottingStarted => Ok((w, b))
      case SnapshottingDone(connection) => Ok((w, b.(working := env.done(b.working, connection))))
  }

  class CacheBuilderImpl {
    const env: Env
    var world: World
    var builder: Builder

    constructor (env: Env, world: World, builder: Builder)
      ensures this.env == env && this.world == world && this.builder == builder
    {
      this.env := env;
      this.world := world;
      this.builder := builder;
    }

    /** Drops the open transaction and builds from the log of the given name; nothing changes on failure. */
    method Connect(name: Name) returns (r: Result<nat, Failure>)
      modifies this
      ensures match New(env, old(world), name)
              case Err(e) => r == Err(e) && world == old(world) && builder == old(builder)
              case Ok(p) => r == Ok(p.1.next) && world == p.0 && builder == p.1
    {
      if world.serving !in world.caches {
        return Err(CacheMissing);
      }
      var served := world.caches[world.serving];
      if world.serving != name {
        if name !in world.caches {
          world := world.(caches := world.caches[name := Cache(env.empty, None)]);
        }
        world := world.(alias := Some(name));
        builder := Builder(name, world.caches[name].content, 0, Some(NextPosition(served.position)), env.configured);
      } else {
        var actual := Resolve(env, world);
        if actual !in world.caches {
          return Err(CacheMissing);
        }
        var cache := world.caches[actual];
        builder := Builder(actual, cache.content, NextPosition(cache.position), None, env.defaults);
      }
      return Ok(builder.next);
    }

    method ProcessOp(op: LogOp, pos: nat) returns (r: Result<(), Failure>)
      modifies this
      ensures match Process(env, old(world), old(builder), op, pos)
              case Err(e) => r == Err(e)
              case Ok(p) => r == Ok(()) && world == p.0 && builder == p.1
    {
      if pos != builder.next {
        return Err(WrongPosition);
      }
      builder := builder.(next := builder.next + 1);
      match op {
        case Data(d) =>
          var content := env.apply(builder.options, builder.working, d);
          if content.None? {
            return Err(WriteFailed);
          }
          builder := builder.(working := content.value);
        case Commit =>
          world := world.(caches := world.caches[builder.building := Cache(builder.working, Some(pos))]);
          if builder.catchUp.Some? && builder.next >= builder.catchUp.value {
            if Resolve(env, world) !in world.caches {
              return Err(CacheMissing);
            }
            world := world.(serving := Resolve(env, world));
            builder := builder.(catchUp := None);
          }
        case SnapshottingStarted =>
        case SnapshottingDone(connection) =>
          builder := builder.(working := env.done(builder.working, connection));
      }
      return Ok(());
    }
  }

  // ---------------------------------------------------------------- replay

  type Logs = map<Name, seq<LogOp>>

  /** A content with operations start..k of a log applied to it, each once and in order. */
  function ReplayOn(env: Env, log: seq<LogOp>, start: nat, c: Content, k: nat): Option<Content>
    requires start <= k <= |log|
  {
    if k == start then Some(c)
    else
      match ReplayOn(env, log, start, c, k - 1)
      case None => None
      case Some(c') =>
        match log[k - 1]
        case Data(d) => env.apply(env.defaults, c', d)
        case SnapshottingDone(connection) => Some(env.done(c', connection))
        case _ => Some(c')
  }

  /** The content after the first k operations of a log. */
  function Replay(env: Env, log: seq<LogOp>, k: nat): Option<Content>
    requires k <= |log|
  {
    ReplayOn(env, log, 0, env.empty, k)
  }

  /** Every cache's committed content is its log replayed up to and including a commit, or nothing. */
  ghost predicate CacheOk(env: Env, logs: Logs, name: Name, cache: Cache) {
    && name in logs
    && NextPosition(cache.position) <= |logs[name]|
    && (cache.position.Some? ==> logs[name][cache.position.value].Commit?)
    && Replay(env, logs[name], NextPosition(cache.position)) == Some(cache.content)
  }

  ghost predicate WorldOk(env: Env, logs: Logs, w: World) {
    && w.serving in w.caches
    && forall n :: n in w.caches ==> CacheOk(env, logs, n, w.caches[n])
  }

  /** The builder, reading the log of the given name, has replayed it up to its next position. */
  ghost predicate BuilderOk(env: Env, logs: Logs, w: World, b: Builder, name: Name) {
    && b.building == name && name in w.caches && name in logs
    && NextPosition(w.caches[name].position) <= b.next <= |logs[name]|
    && Replay(env, logs[name], b.next) == Some(b.working)
    && b.options == env.defaults
  }

  /** The caller's check before connecting: the served cache's log is rebuilt through an alias that points
      to it, and another log is built into a cache without a commit. */
  predicate Safe(env: Env, w: World, name: Name) {
    if w.serving == name then Resolve(env, w) == name
    else name !in w.caches || w.caches[name].position.None?
  }

  lemma ProcessKeepsReplay(env: Env, logs: Logs, w: World, b: Builder, name: Name)
    requires WorldOk(env, logs, w) && BuilderOk(env, logs, w, b, name) && b.next < |logs[name]|
    ensures var r := Process(env, w, b, logs[name][b.next], b.next);
            r.Ok? ==> WorldOk(env, logs, r.value.0) && BuilderOk(env, logs, r.value.0, r.value.1, name)
  {
    var op := logs[name][b.next];
    var r := Process(env, w, b, op, b.next);
    assert Replay(env, logs[name], b.next + 1)
        == match op
           case Data(d) => env.apply(env.defaults, b.working, d)
           case SnapshottingDone(connection) => Some(env.done(b.working, connection))
           case _ => Some(b.working);
    if r.Ok? && op.Commit? {
      assert CacheOk(env, logs, name, r.value.0.caches[name]);
    }
  }

  /** A new builder continues the right log at the first uncommitted position exactly if the caller's check
      holds. */
  lemma ConnectReplays(env: Env, logs: Logs, w: World, name: Name)
    requires WorldOk(env, logs, w) && name in logs && env.configured == env.defaults
    requires w.serving == name ==> Resolve(env, w) in w.caches
    ensures New(env, w, name).Ok?
    ensures var p := New(env, w, name).value;
            && (BuilderOk(env, logs, p.0, p.1, name) <==> Safe(env, w, name))
            && (Safe(env, w, name) ==>
                  WorldOk(env, logs, p.0) && p.1.next == NextPosition(p.0.caches[name].position))
  {
    var p := New(env, w, name).value;
    if w.serving == name {
      assert CacheOk(env, logs, name, w.caches[name]);
    } else if name in w.caches {
      assert CacheOk(env, logs, name, w.caches[name]);
    } else {
      assert p.0.caches[name] == Cache(env.empty, None);
      assert CacheOk(env, logs, name, p.0.caches[name]);
    }
  }

  // ---------------------------------------------------------------- runs

  datatype Event = Read | Reconnect(name: Name)

  datatype Run = Run(world: World, builder: Builder, name: Name)

  /** One step of the loop in `CacheBuilder::run`: read an operation of the log, or lose the connection and
      connect to the log of the given name. None if the run ends with an error or there is nothing to read. */
  function Step(env: Env, logs: Logs, s: Run, e: Event): Option<Run> {
    match e
    case Read =>
      if s.name in logs && s.builder.next < |logs[s.name]| then
        match Process(env, s.world, s.builder, logs[s.name][s.builder.next], s.builder.next)
        case Err(_) => None
        case Ok(p) => Some(Run(p.0, p.1, s.name))
      else None
    case Reconnect(name) =>
      match New(env, s.world, name)
      case Err(_) => None
      case Ok(p) => Some(Run(p.0, p.1, name))
  }

  /** `CacheBuilder::new`: serve the cache behind the table's alias, or create one for the log of the given name. */
  function OpenOrCreate(env: Env, caches: map<Name, Cache>, alias: Option<Name>, name: Name): World {
    var w := World(caches, alias, name);
    if Resolve(env, w) in caches then w.(serving := Resolve(env, w)) else Create(env, w, name)
  }

  /** The start of `CacheBuilder::run`: the first connect may find another log than the one seen by `new`. */
  function Start(env: Env, caches: map<Name, Cache>, alias: Option<Name>, seen: Name, name: Name): Option<Run> {
    match New(env, OpenOrCreate(env, caches, alias, seen), name)
    case Err(_) => None
    case Ok(p) => Some(Run(p.0, p.1, name))
  }

  function Steps(env: Env, logs: Logs, s: Run, es: seq<Event>): Option<Run> {
    if es == [] then Some(s)
    else
      match Steps(env, logs, s, es[..|es| - 1])
      case None => None
      case Some(s') => Step(env, logs, s', es[|es| - 1])
  }

  /** Every reconnect of the run passes the caller's check. */
  ghost predicate AllSafe(env: Env, logs: Logs, s: Run, es: seq<Event>) {
    forall k :: 0 <= k < |es| && es[k].Reconnect? ==>
      var at := Steps(env, logs, s, es[..k]);
      at.Some? ==> es[k].name in logs && Safe(env, at.value.world, es[k].name)
  }

  /** What a run keeps: all caches are replays; the alias leads to the cache being built; outside catch-up
      that is the served one, and during catch-up the served one stands where catch-up started, with the cache being
      built still behind it. */
  ghost predicate RunOk(env: Env, logs: Logs, s: Run) {
    && WorldOk(env, logs, s.world) && BuilderOk(env, logs, s.world, s.builder, s.name)
    && Resolve(env, s.world) == s.name
    && (if s.builder.catchUp.None? then s.world.serving == s.name
        else
          && s.world.serving != s.name && s.builder.catchUp.value == Visible(s.world)
          && (s.world.caches[s.name].position.Some? ==>
                NextPosition(s.world.caches[s.name].position) < Visible(s.world)))
  }

  /** The log position up to which readers see the log. */
  ghost function Visible(w: World): nat
    requires w.serving in w.caches
  {
    NextPosition(w.caches[w.serving].position)
  }

  /** The operation at this position is a commit with which a builder has caught up. */
  predicate CatchesUp(log: seq<LogOp>, pos: nat, catchUp: Option<nat>) {
    pos < |log| && log[pos].Commit? && catchUp.Some? && pos + 1 >= catchUp.value
  }

  /** Reading keeps the run in order and never takes back what readers see. The served cache is swapped exactly
      when the operation read is a commit that catches up; then the served cache is the one being built. */
  lemma ReadKeepsRun(env: Env, logs: Logs, s: Run)
    requires RunOk(env, logs, s) && Step(env, logs, s, Read).Some?
    ensures var s' := Step(env, logs, s, Read).value;
            var catchesUp := CatchesUp(logs[s.name], s.builder.next, s.builder.catchUp);
            && RunOk(env, logs, s') && Visible(s.world) <= Visible(s'.world)
            && s'.name == s.name && s'.builder.next == s.builder.next + 1
            && (s'.world.serving != s.world.serving <==> catchesUp)
            && s'.world.serving == (if catchesUp then s.name else s.world.serving)
            && s'.builder.catchUp == (if catchesUp then None else s.builder.catchUp)
  {
    ProcessKeepsReplay(env, logs, s.world, s.builder, s.name);
  }

  /** A read fails only if the cache refuses the operation. */
  lemma ReadSucceeds(env: Env, logs: Logs, s: Run)
    requires RunOk(env, logs, s) && s.builder.next < |logs[s.name]|
    ensures var op := logs[s.name][s.builder.next];
            Step(env, logs, s, Read).Some? <==> op.Data? ==> env.apply(env.defaults, s.builder.working, op.op).Some?
  {
  }

  lemma ReconnectKeepsRun(env: Env, logs: Logs, s: Run, name: Name)
    requires RunOk(env, logs, s) && env.configured == env.defaults && name in logs && Safe(env, s.world, name)
    ensures Step(env, logs, s, Reconnect(name)).Some?
    ensures var s' := Step(env, logs, s, Reconnect(name)).value;
            && RunOk(env, logs, s') && Visible(s'.world) == Visible(s.world) && s'.world.serving == s.world.serving
            && s'.builder.next == NextPosition(s'.world.caches[name].position)
  {
    ConnectReplays(env, logs, s.world, name);
  }

  lemma {:induction false} StepsKeepRun(env: Env, logs: Logs, s: Run, es: seq<Event>)
    requires RunOk(env, logs, s) && env.configured == env.defaults && AllSafe(env, logs, s, es)
    ensures Steps(env, logs, s, es).Some? ==>
              RunOk(env, logs, Steps(env, logs, s, es).value)
              && Visible(s.world) <= Visible(Steps(env, logs, s, es).value.world)
  {
    if es != [] {
      var n := |es| - 1;
      forall k | 0 <= k < n && es[..n][k].Reconnect?
        ensures es[..n][..k] == es[..k]
      {
      }
      assert AllSafe(env, logs, s, es[..n]);
      StepsKeepRun(env, logs, s, es[..n]);
      if Steps(env, logs, s, es).Some? {
        var at := Steps(env, logs, s, es[..n]).value;
        match es[n]
        case Read => ReadKeepsRun(env, logs, at);
        case Reconnect(name) => ReconnectKeepsRun(env, logs, at, name);
      }
    }
  }

  ghost predicate CachesOk(env: Env, logs: Logs, caches: map<Name, Cache>) {
    forall n :: n in caches ==> CacheOk(env, logs, n, caches[n])
  }

  lemma OpensReplays(env: Env, logs: Logs, caches: map<Name, Cache>, alias: Option<Name>, seen: Name)
    requires CachesOk(env, logs, caches) && seen in logs
    ensures var w := OpenOrCreate(env, caches, alias, seen);
            && WorldOk(env, logs, w) && Resolve(env, w) == w.serving
            && forall n :: n in caches ==> n in w.caches && w.caches[n] == caches[n]
  {
    var w := OpenOrCreate(env, caches, alias, seen);
    forall n | n in w.caches
      ensures CacheOk(env, logs, n, w.caches[n])
    {
      if n !in caches {
        assert w.caches[n] == Cache(env.empty, None);
      }
    }
  }

  /** The cache behind the alias is served if there is one; without an alias, the one of the table's name; else a cache
      for the log that was seen, empty unless there was one. */
  lemma Opens(env: Env, caches: map<Name, Cache>, alias: Option<Name>, seen: Name)
    ensures var w := OpenOrCreate(env, caches, alias, seen);
            && (alias.Some? && alias.value in caches ==> w == World(caches, alias, alias.value))
            && (alias.None? && env.table in caches ==> w == World(caches, alias, env.table))
            && ((if alias.Some? then alias.value !in caches else env.table !in caches) ==>
                  && w.serving == seen && w.alias == Some(seen) && w.caches.Keys == caches.Keys + {seen}
                  && w.caches[seen] == (if seen in caches then caches[seen] else Cache(env.empty, None))
                  && forall n :: n in caches ==> w.caches[n] == caches[n])
  {
  }

  /** A restart, whatever log it sees, serves the cache that was being built. Outside catch-up that is the served one,
      and nothing is taken back. During catch-up readers go back to what that cache has committed, which is less unless
      they saw nothing before. */
  lemma RestartServes(env: Env, logs: Logs, s: Run, seen: Name)
    requires RunOk(env, logs, s)
    ensures var w := OpenOrCreate(env, s.world.caches, s.world.alias, seen);
            && w.serving == s.name && w.caches == s.world.caches && w.alias == s.world.alias
            && (s.builder.catchUp.None? ==> w == s.world)
            && w.serving in w.caches
            && (Visible(w) == Visible(s.world) <==> s.builder.catchUp.None? || Visible(s.world) == 0)
            && Visible(w) <= Visible(s.world)
  {
  }

  /** The new run after a restart, on the log that was being built or on one without a commit. */
  lemma RestartsInOrder(env: Env, logs: Logs, s: Run, seen: Name, name: Name)
    requires RunOk(env, logs, s) && seen in logs && name in logs && env.configured == env.defaults
    requires name == s.name || name !in s.world.caches || s.world.caches[name].position.None?
    ensures Start(env, s.world.caches, s.world.alias, seen, name).Some?
    ensures var s' := Start(env, s.world.caches, s.world.alias, seen, name).value;
            && RunOk(env, logs, s') && s'.world.serving == s.name
            && (s.builder.catchUp.None? ==> Visible(s'.world) == Visible(s.world))
  {
    RestartServes(env, logs, s, seen);
    StartsInOrder(env, logs, s.world.caches, s.world.alias, seen, name);
  }

  /** A start on caches that are replays puts the run in order, if the first connect passes the caller's check. */
  lemma StartsInOrder(env: Env, logs: Logs, caches: map<Name, Cache>, alias: Option<Name>, seen: Name, name: Name)
    requires CachesOk(env, logs, caches) && seen in logs && name in logs && env.configured == env.defaults
    requires Safe(env, OpenOrCreate(env, caches, alias, seen), name)
    ensures Start(env, caches, alias, seen, name).Some?
    ensures RunOk(env, logs, Start(env, caches, alias, seen, name).value)
  {
    OpensReplays(env, logs, caches, alias, seen);
    ConnectReplays(env, logs, OpenOrCreate(env, caches, alias, seen), name);
  }

  /** Without caches, and after a run stopped while building the log, connecting to that log passes the check. */
  lemma StartIsSafe(env: Env, caches: map<Name, Cache>, alias: Option<Name>, name: Name)
    requires caches == map[] || Resolve(env, World(caches, alias, name)) == name
    ensures Safe(env, OpenOrCreate(env, caches, alias, name), name)
  {
  }

  /** From a start on no caches, or on what earlier runs left, and over any run whose connects pass the caller's check:
      every cache's committed content is its log applied once and in order up to its last commit, and what readers
      see never goes back. */
  lemma ReplayCorrect(env: Env, logs: Logs, caches: map<Name, Cache>, alias: Option<Name>, seen: Name, name: Name,
                      es: seq<Event>)
    requires CachesOk(env, logs, caches) && seen in logs && name in logs && env.configured == env.defaults
    requires Safe(env, OpenOrCreate(env, caches, alias, seen), name)
    requires var s := Start(env, caches, alias, seen, name); s.Some? ==> AllSafe(env, logs, s.value, es)
    ensures Start(env, caches, alias, seen, name).Some?
    ensures var s := Start(env, caches, alias, seen, name).value;
            var s' := Steps(env, logs, s, es);
            s'.Some? ==>
              && CachesOk(env, logs, s'.value.world.caches) && RunOk(env, logs, s) && RunOk(env, logs, s'.value)
              && Visible(s.world) <= Visible(s'.value.world)
  {
    StartsInOrder(env, logs, caches, alias, seen, name);
    StepsKeepRun(env, logs, Start(env, caches, alias, seen, name).value, es);
  }

  // ---------------------------------------------------------------- the swap

  ghost predicate AllReads(es: seq<Event>) {
    forall k :: 0 <= k < |es| ==> es[k] == Read
  }

  /** One of the n operations from position `next` on is a commit that catches up. */
  ghost predicate CaughtUp(log: seq<LogOp>, next: nat, catchUp: Option<nat>, n: nat) {
    exists pos :: next <= pos < next + n && CatchesUp(log, pos, catchUp)
  }

  /** However many operations a builder reads, the served cache is the one being built if a commit that catches up is
      among them, and else still the one served at the start: the swap happens once, at the first such commit. */
  lemma {:induction false} SwapAtFirstCatchUp(env: Env, logs: Logs, s: Run, es: seq<Event>)
    requires RunOk(env, logs, s) && AllReads(es) && Steps(env, logs, s, es).Some?
    ensures var s' := Steps(env, logs, s, es).value;
            var caughtUp := CaughtUp(logs[s.name], s.builder.next, s.builder.catchUp, |es|);
            && RunOk(env, logs, s') && s'.name == s.name && s'.builder.next == s.builder.next + |es|
            && s'.world.serving == (if caughtUp then s.name else s.world.serving)
            && s'.builder.catchUp == (if caughtUp then None else s.builder.catchUp)
  {
    if es != [] {
      var n := |es| - 1;
      SwapAtFirstCatchUp(env, logs, s, es[..n]);
      var at := Steps(env, logs, s, es[..n]).value;
      assert es[n] == Read;
      ReadKeepsRun(env, logs, at);
      OneMoreRead(logs[s.name], s.builder.next, s.builder.catchUp, n);
    }
  }

  lemma OneMoreRead(log: seq<LogOp>, next: nat, catchUp: Option<nat>, n: nat)
    ensures CaughtUp(log, next, catchUp, n + 1)
            <==> CaughtUp(log, next, catchUp, n) || CatchesUp(log, next + n, catchUp)
  {
    if CaughtUp(log, next, catchUp, n) {
      var pos :| next <= pos < next + n && CatchesUp(log, pos, catchUp);
    }
  }

  // ---------------------------------------------------------------- connecting against the check

  /** A cache after operations start..k were read into it on top of content c: what it was, or, once a commit was
      read, those operations up to the last commit. */
  ghost predicate BuiltOn(env: Env, log: seq<LogOp>, start: nat, c: Content, k: nat, old_: Cache, cache: Cache)
    requires start <= k <= |log|
  {
    if forall q :: start <= q < k ==> !log[q].Commit? then cache == old_
    else
      && cache.position.Some? && start <= cache.position.value < k && log[cache.position.value].Commit?
      && (forall q :: cache.position.value < q < k ==> !log[q].Commit?)
      && ReplayOn(env, log, start, c, cache.position.value + 1) == Some(cache.content)
  }

  /** From s to s' the builder has applied what it read to the content it opened, and touched no other cache. */
  ghost predicate ReadsTo(env: Env, log: seq<LogOp>, s: Run, s': Run) {
    var b, b' := s.builder, s'.builder;
    && s'.name == s.name && b'.building == b.building && b'.options == env.defaults
    && b.building in s.world.caches && b'.building in s'.world.caches
    && b.next <= b'.next <= |log|
    && ReplayOn(env, log, b.next, b.working, b'.next) == Some(b'.working)
    && BuiltOn(env, log, b.next, b.working, b'.next, s.world.caches[b.building], s'.world.caches[b.building])
    && (forall n :: n in s.world.caches && n != b.building ==>
          n in s'.world.caches && s'.world.caches[n] == s.world.caches[n])
    && (b.catchUp.None? ==> s'.world.serving == s.world.serving && b'.catchUp.None?)
  }

  lemma NextBuiltOn(env: Env, log: seq<LogOp>, start: nat, c: Content, k: nat, old_: Cache, cache: Cache,
                    working: Content)
    requires start <= k < |log| && BuiltOn(env, log, start, c, k, old_, cache)
    requires log[k].Commit? ==> ReplayOn(env, log, start, c, k) == Some(working)
    ensures BuiltOn(env, log, start, c, k + 1, old_, if log[k].Commit? then Cache(working, Some(k)) else cache)
  {
    if !log[k].Commit? && forall q :: start <= q < k ==> !log[q].Commit? {
      assert forall q :: start <= q < k + 1 ==> !log[q].Commit?;
    }
  }

  lemma NextRead(env: Env, logs: Logs, s: Run, at: Run)
    requires s.name in logs && ReadsTo(env, logs[s.name], s, at) && Step(env, logs, at, Read).Some?
    ensures ReadsTo(env, logs[s.name], s, Step(env, logs, at, Read).value)
    ensures Step(env, logs, at, Read).value.builder.next == at.builder.next + 1
  {
    var b, log := s.builder, logs[s.name];
    NextBuiltOn(env, log, b.next, b.working, at.builder.next, s.world.caches[b.building], at.world.caches[b.building],
                at.builder.working);
  }

  /** What any builder does, in order or not. */
  lemma {:induction false} ReadsApply(env: Env, logs: Logs, s: Run, es: seq<Event>)
    requires AllReads(es) && Steps(env, logs, s, es).Some? && s.name in logs && s.builder.next <= |logs[s.name]|
    requires s.builder.building in s.world.caches && s.builder.options == env.defaults
    ensures var s' := Steps(env, logs, s, es).value;
            ReadsTo(env, logs[s.name], s, s') && s'.builder.next == s.builder.next + |es|
  {
    if es != [] {
      var n := |es| - 1;
      ReadsApply(env, logs, s, es[..n]);
      assert es[n] == Read;
      NextRead(env, logs, s, Steps(env, logs, s, es[..n]).value);
    }
  }

  /** What a cache holds after operations start..k of a log were read on top of it: with a commit just read, exactly
      these applied to the old content, and that is a replay of the cache's own log exactly if it equals one. */
  ghost predicate AppliedOnTop(env: Env, logs: Logs, name: Name, log: seq<LogOp>, start: nat, k: nat, old_: Cache,
                               cache: Cache)
    requires start <= k <= |log| && name in logs
  {
    && BuiltOn(env, log, start, old_.content, k, old_, cache)
    && (start < k && log[k - 1].Commit? ==>
          && cache.position == Some(k - 1)
          && ReplayOn(env, log, start, old_.content, k) == Some(cache.content)
          && (CacheOk(env, logs, name, cache) <==>
                && k <= |logs[name]| && logs[name][k - 1].Commit?
                && ReplayOn(env, log, start, old_.content, k) == Replay(env, logs[name], k)))
  }

  lemma CommitJustRead(env: Env, logs: Logs, name: Name, log: seq<LogOp>, start: nat, k: nat, old_: Cache, cache: Cache)
    requires start <= k <= |log| && name in logs && BuiltOn(env, log, start, old_.content, k, old_, cache)
    ensures AppliedOnTop(env, logs, name, log, start, k, old_, cache)
  {
  }

  /** The check fails for a log other than the served one whose cache holds a commit. The builder starts at position 0
      on top of that content. */
  lemma RestartOverCommit(env: Env, logs: Logs, s: Run, name: Name, es: seq<Event>)
    requires WorldOk(env, logs, s.world) && name in logs && env.configured == env.defaults
    requires s.world.serving != name && name in s.world.caches && s.world.caches[name].position.Some?
    requires AllReads(es) && Step(env, logs, s, Reconnect(name)).Some?
    ensures !Safe(env, s.world, name)
    ensures var again := Step(env, logs, s, Reconnect(name)).value;
            && again.builder.building == name && again.builder.next == 0 && again.builder.catchUp.Some?
            && (Steps(env, logs, again, es).Some? ==>
                  var w, log := Steps(env, logs, again, es).value.world, logs[name];
                  && name in w.caches && |es| <= |log|
                  && AppliedOnTop(env, logs, name, log, 0, |es|, s.world.caches[name], w.caches[name]))
  {
    var again := Step(env, logs, s, Reconnect(name)).value;
    if Steps(env, logs, again, es).Some? {
      ReadsApply(env, logs, again, es);
      var w := Steps(env, logs, again, es).value.world;
      CommitJustRead(env, logs, name, logs[name], 0, |es|, s.world.caches[name], w.caches[name]);
    }
  }

  /** During catch-up that log is the new one, if a commit of it was stored already. */
  lemma RestartDuringCatchUp(env: Env, logs: Logs, s: Run, es: seq<Event>)
    requires RunOk(env, logs, s) && s.builder.catchUp.Some? && s.world.caches[s.name].position.Some?
    requires env.configured == env.defaults && AllReads(es)
    ensures var again := Step(env, logs, s, Reconnect(s.name));
            && again.Some? && !Safe(env, s.world, s.name)
            && (Steps(env, logs, again.value, es).Some? ==>
                  var w := Steps(env, logs, again.value, es).value.world;
                  && s.name in w.caches && |es| <= |logs[s.name]|
                  && AppliedOnTop(env, logs, s.name, logs[s.name], 0, |es|, s.world.caches[s.name], w.caches[s.name]))
  {
    RestartOverCommit(env, logs, s, s.name, es);
  }

  /** Outside catch-up it is a log that was built earlier. */
  lemma ReturnToEarlierLog(env: Env, logs: Logs, s: Run, name: Name, es: seq<Event>)
    requires RunOk(env, logs, s) && s.builder.catchUp.None? && env.configured == env.defaults && AllReads(es)
    requires name in logs && name != s.name && name in s.world.caches && s.world.caches[name].position.Some?
    ensures var again := Step(env, logs, s, Reconnect(name));
            && again.Some? && !Safe(env, s.world, name)
            && (Steps(env, logs, again.value, es).Some? ==>
                  var w := Steps(env, logs, again.value, es).value.world;
                  && name in w.caches && |es| <= |logs[name]|
                  && AppliedOnTop(env, logs, name, logs[name], 0, |es|, s.world.caches[name], w.caches[name]))
  {
    RestartOverCommit(env, logs, s, name, es);
  }

  lemma OnceIsReplay(env: Env, log: seq<LogOp>, op: DataOp, once: Content)
    requires log == [Data(op), Commit] && env.apply(env.defaults, env.empty, op) == Some(once)
    ensures Replay(env, log, 2) == Some(once)
  {
    assert ReplayOn(env, log, 0, env.empty, 0) == Some(env.empty);
    assert ReplayOn(env, log, 0, env.empty, 1) == Some(once);
  }

  lemma NextStep(env: Env, logs: Logs, s: Run, es: seq<Event>, e: Event, at: Run)
    requires Steps(env, logs, s, es) == Some(at)
    ensures Steps(env, logs, s, es + [e]) == Step(env, logs, at, e)
  {
    assert (es + [e])[..|es|] == es;
  }

  /** From three commits of log a on, the first two operations of log b are read into its new cache. */
  lemma BuiltOnce(env: Env, logs: Logs, s: Run, es: seq<Event>, a: Name, b: Name, op: DataOp, content: Content,
                  position: Option<nat>, next: Content)
    requires env.configured == env.defaults && a != b && b in logs && logs[b] == [Data(op), Commit]
    requires env.apply(env.defaults, content, op) == Some(next)
    requires Steps(env, logs, s, es).Some?
    requires var w := Steps(env, logs, s, es).value.world;
             && w.serving == a && a in w.caches && w.caches[a].position == Some(2)
             && (if b in w.caches then w.caches[b] == Cache(content, position) else content == env.empty)
    ensures var s' := Steps(env, logs, s, es + [Reconnect(b)] + [Read] + [Read]);
            && s'.Some? && b in s'.value.world.caches && s'.value.world.caches[b] == Cache(next, Some(1))
            && s'.value.world.serving == a && a in s'.value.world.caches
            && s'.value.world.caches[a].position == Some(2)
  {
    var s0 := Steps(env, logs, s, es).value;
    var s1 := Step(env, logs, s0, Reconnect(b)).value;
    NextStep(env, logs, s, es, Reconnect(b), s0);
    assert s1.builder == Builder(b, content, 0, Some(3), env.defaults) && s1.name == b;
    var s2 := Step(env, logs, s1, Read).value;
    NextStep(env, logs, s, es + [Reconnect(b)], Read, s1);
    assert s2.builder == Builder(b, next, 1, Some(3), env.defaults) && s2.name == b && s2.world == s1.world;
    NextStep(env, logs, s, es + [Reconnect(b)] + [Read], Read, s2);
  }

  lemma ThreeCommits(env: Env, logs: Logs, a: Name)
    requires env.configured == env.defaults && a in logs && logs[a] == [Commit, Commit, Commit]
    ensures var s := Start(env, map[], None, a, a);
            && s.Some?
            && var s' := Steps(env, logs, s.value, [Read] + [Read] + [Read]);
               s'.Some? && s'.value.world == World(map[a := Cache(env.empty, Some(2))], Some(a), a)
  {
    var s := Start(env, map[], None, a, a).value;
    assert s == AtCommit(env, a, None);
    var s1 := Step(env, logs, s, Read).value;
    assert [] + [Read] == [Read];
    NextStep(env, logs, s, [], Read, s);
    assert s1 == AtCommit(env, a, Some(0));
    var s2 := Step(env, logs, s1, Read).value;
    NextStep(env, logs, s, [Read], Read, s1);
    assert s2 == AtCommit(env, a, Some(1));
    NextStep(env, logs, s, [Read] + [Read], Read, s2);
  }

  /** A run that has read nothing but commits of log a. */
  function AtCommit(env: Env, a: Name, position: Option<nat>): Run {
    Run(World(map[a := Cache(env.empty, position)], Some(a), a),
        Builder(a, env.empty, NextPosition(position), None, env.defaults), a)
  }

  /** An operation that is not the same done twice makes the difference. From no caches: log a is read to its third
      commit, then log b is read into its own cache, and again after the connection is lost during catch-up. The
      committed cache ends with the operation applied twice, and is no replay of its log. */
  lemma AppliedTwice(env: Env, logs: Logs, a: Name, b: Name, op: DataOp, once: Content, twice: Content)
    requires env.configured == env.defaults && a != b && once != twice
    requires a in logs && logs[a] == [Commit, Commit, Commit] && b in logs && logs[b] == [Data(op), Commit]
    requires env.apply(env.defaults, env.empty, op) == Some(once) && env.apply(env.defaults, once, op) == Some(twice)
    ensures var s := Start(env, map[], None, a, a);
            && s.Some?
            && var es := [Read, Read, Read, Reconnect(b), Read, Read, Reconnect(b), Read, Read];
               var s' := Steps(env, logs, s.value, es);
            && s'.Some? && b in s'.value.world.caches && s'.value.world.caches[b] == Cache(twice, Some(1))
            && !CacheOk(env, logs, b, s'.value.world.caches[b])
  {
    var s := Start(env, map[], None, a, a).value;
    ThreeCommits(env, logs, a);
    var first := [Read] + [Read] + [Read];
    BuiltOnce(env, logs, s, first, a, b, op, env.empty, None, once);
    var second := first + [Reconnect(b)] + [Read] + [Read];
    BuiltOnce(env, logs, s, second, a, b, op, once, Some(1), twice);
    assert second + [Reconnect(b)] + [Read] + [Read]
        == [Read, Read, Read, Reconnect(b), Read, Read, Reconnect(b), Read, Read];
    OnceIsReplay(env, logs[b], op, once);
  }

  lemma ConnectDuringCatchUp(env: Env, logs: Logs, s: Run)
    requires RunOk(env, logs, s) && s.builder.catchUp.Some? && env.configured == env.defaults
    ensures !Safe(env, s.world, s.world.serving) && s.name != s.world.serving && s.world.serving in logs
    ensures Step(env, logs, s, Reconnect(s.world.serving))
            == var cache := s.world.caches[s.name];
               var b := Builder(s.name, cache.content, NextPosition(cache.position), None, env.defaults);
               Some(Run(s.world, b, s.world.serving))
  {
    assert CacheOk(env, logs, s.world.serving, s.world.caches[s.world.serving]);
  }

  /** The check also fails for the served log while another one catches up: the alias leads to the other's cache, and
      what is read from the served log goes there, at that cache's position. The served cache stays as it is, for
      readers too. */
  lemma ReturnDuringCatchUp(env: Env, logs: Logs, s: Run, es: seq<Event>)
    requires RunOk(env, logs, s) && s.builder.catchUp.Some? && AllReads(es) && env.configured == env.defaults
    ensures var served, other, back := s.world.serving, s.name, Step(env, logs, s, Reconnect(s.world.serving));
            && !Safe(env, s.world, served) && served in logs && back.Some?
            && back.value.builder.building == other != served && back.value.builder.catchUp.None?
            && var old_, start := s.world.caches[other], back.value.builder.next;
            && start == NextPosition(old_.position)
            && (start <= |logs[served]| && Steps(env, logs, back.value, es).Some? ==>
                  var w, log, k := Steps(env, logs, back.value, es).value.world, logs[served], start + |es|;
                  && w.serving == served && served in w.caches && w.caches[served] == s.world.caches[served]
                  && other in w.caches && k <= |log|
                  && AppliedOnTop(env, logs, other, log, start, k, old_, w.caches[other]))
  {
    ConnectDuringCatchUp(env, logs, s);
    var back := Step(env, logs, s, Reconnect(s.world.serving)).value;
    if back.builder.next <= |logs[s.world.serving]| && Steps(env, logs, back, es).Some? {
      ReadsApply(env, logs, back, es);
      var log, old_, start := logs[s.world.serving], s.world.caches[s.name], back.builder.next;
      CommitJustRead(env, logs, s.name, log, start, start + |es|, old_,
                     Steps(env, logs, back, es).value.world.caches[s.name]);
    }
  }
}
