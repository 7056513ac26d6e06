/** The key server registry of g3keymess. Reloading a server makes a new generation
    that shares the statistics of the one before it; the old generation goes to an
    offline list and stays there until its tasks are gone. */
module KeyServers {

  type Name = string

  datatype Config = Config(name: Name, durationStats: nat, settings: nat)

  class ServerStats {
    const name: Name
    var online: int
    var alive: int

    constructor (name: Name)
      ensures this.name == name && online == 0 && alive == 0
    {
      this.name, online, alive := name, 0, 0;
    }
  }

  class DurationStats {
    const name: Name
    var online: int

    constructor (name: Name)
      ensures this.name == name && online == 0
    {
      this.name, online := name, 0;
    }
  }

  class QuitPolicy {
    var forceQuit: bool
    var scheduled: bool

    constructor ()
      ensures !forceQuit && !scheduled
    {
      forceQuit, scheduled := false, false;
    }
  }

  class KeyServer {
    const config: Config
    const stats: ServerStats
    const durations: DurationStats
    const quit: QuitPolicy

    constructor (config: Config, stats: ServerStats, durations: DurationStats)
      ensures this.config == config && this.stats == stats && this.durations == durations
      ensures fresh(quit) && !quit.forceQuit && !quit.scheduled
    {
      this.config, this.stats, this.durations := config, stats, durations;
      this.quit := new QuitPolicy();
    }
  }

  /** The members of `list` that are in `kept`, in order. */
  ghost function Kept(list: seq<KeyServer>, kept: set<KeyServer>): seq<KeyServer> {
    if list == [] then []
    else (if list[0] in kept then [list[0]] else []) + Kept(list[1..], kept)
  }

  lemma KeptNone(kept: set<KeyServer>)
    ensures Kept([], kept) == []
  {
  }

  lemma {:induction false} KeptMembers(list: seq<KeyServer>, kept: set<KeyServer>)
    ensures forall s :: s in Kept(list, kept) <==> s in list && s in kept
  {
    if list != [] {
      KeptMembers(list[1..], kept);
      assert list == [list[0]] + list[1..];
    }
  }

  lemma {:induction false} KeptSnoc(list: seq<KeyServer>, s: KeyServer, kept: set<KeyServer>)
    ensures Kept(list + [s], kept) == Kept(list, kept) + if s in kept then [s] else []
  {
    if list != [] {
      KeptSnoc(list[1..], s, kept);
      assert (list + [s])[1..] == list[1..] + [s];
    }
  }

  /** Part of spawn_all: the configs of `done` are in force; every other server is the one
      that was there, statistics never changed hands and whoever left is offline. */
  ghost predicate Loaded(before: map<Name, KeyServer>, after: map<Name, KeyServer>, left: seq<KeyServer>,
                         configs: map<Name, Config>, done: set<Name>) {
    && after.Keys == before.Keys + done
    && (forall n :: n in done && n in configs ==> after[n].config == configs[n])
    && (forall n :: n in before ==> after[n].stats == before[n].stats)
    && (forall n :: n in before && n !in done ==> after[n] == before[n])
    && (forall n :: n in before && n in done ==> before[n] in left)
  }

  lemma LoadedNone(before: map<Name, KeyServer>, left: seq<KeyServer>, configs: map<Name, Config>)
    ensures Loaded(before, before, left, configs, {})
  {
  }

  lemma LoadedStep(before: map<Name, KeyServer>, mid: map<Name, KeyServer>, left: seq<KeyServer>,
                   configs: map<Name, Config>, done: set<Name>, n: Name, s: KeyServer)
    requires Loaded(before, mid, left, configs, done) && n in configs && n !in done
    requires s.config == configs[n] && (n in mid ==> s.stats == mid[n].stats)
    ensures Loaded(before, mid[n := s], left + (if n in mid then [mid[n]] else []), configs, done + {n})
  {
  }

  lemma LoadedKeeps(before: map<Name, KeyServer>, mid: map<Name, KeyServer>, left: seq<KeyServer>,
                       configs: map<Name, Config>, done: set<Name>)
    requires Loaded(before, mid, left, configs, done)
    ensures forall n :: n in mid && n !in done ==> n in before && mid[n] == before[n]
  {
  }

  /** Only servers that were registered went offline. */
  ghost predicate OnlyLeft(before: map<Name, KeyServer>, was: seq<KeyServer>, left: seq<KeyServer>) {
    forall s :: s in left ==> s in was || exists n :: n in before && before[n] == s
  }

  lemma OnlyLeftNone(before: map<Name, KeyServer>, was: seq<KeyServer>)
    ensures OnlyLeft(before, was, was)
  {
  }

  lemma OnlyLeftMore(before: map<Name, KeyServer>, was: seq<KeyServer>, left: seq<KeyServer>, n: Name)
    requires OnlyLeft(before, was, left) && n in before
    ensures OnlyLeft(before, was, left + [before[n]])
  {
  }

  lemma OnlyLeftTrans(before: map<Name, KeyServer>, mid: map<Name, KeyServer>, done: set<Name>,
                      was: seq<KeyServer>, left: seq<KeyServer>, more: seq<KeyServer>)
    requires OnlyLeft(before, was, left) && forall s :: s in more ==>
      s in left || exists n :: n in mid && n !in done && mid[n] == s
    requires forall n :: n in mid && n !in done ==> n in before && mid[n] == before[n]
    ensures OnlyLeft(before, was, more)
  {
  }

  /** Every server that was there still is, or is offline; a name keeps its statistics. */
  ghost predicate Continued(before: map<Name, KeyServer>, after: map<Name, KeyServer>, left: seq<KeyServer>) {
    && (forall n :: n in before && n in after ==> after[n].stats == before[n].stats)
    && (forall n :: n in before ==> (n in after && after[n] == before[n]) || before[n] in left)
  }

  lemma LoadedContinued(before: map<Name, KeyServer>, mid: map<Name, KeyServer>, left: seq<KeyServer>,
                        configs: map<Name, Config>, done: set<Name>,
                        gone: set<Name>, more: seq<KeyServer>)
    requires Loaded(before, mid, left, configs, done) && left <= more
    requires forall n :: n in gone && n in mid ==> mid[n] in more
    ensures Continued(before, mid - gone, more)
    ensures mid.Keys == before.Keys + done
    ensures forall n :: n in done && n in configs ==> mid[n].config == configs[n]
  {
  }

  /** Every configured server can be built and can listen. */
  ghost predicate AllStart(configs: map<Name, Config>, builds: Name -> bool, listens: Name -> bool) {
    forall n :: n in configs ==> builds(n) && listens(n)
  }

  class Registry {
    var online: map<Name, KeyServer>
    var offline: seq<KeyServer>
    /** force-quit timers that were started */
    var timers: seq<QuitPolicy>
    /** everything created so far, and one entry for each running task */
    ghost var stats: set<ServerStats>
    ghost var durations: set<DurationStats>
    ghost var servers: set<KeyServer>
    ghost var tasks: multiset<ServerStats>

    ghost function Quits(): set<QuitPolicy>
      reads `servers
    {
      set s | s in servers :: s.quit
    }

    ghost predicate Registered(s: KeyServer)
      reads `online
    {
      s.config.name in online && online[s.config.name] == s
    }

    /** A registered server counts itself in `s`. */
    ghost predicate InUse(s: ServerStats)
      reads `online
    {
      s.name in online && online[s.name].stats == s
    }

    ghost predicate DurationInUse(d: DurationStats)
      reads `online
    {
      d.name in online && online[d.name].durations == d
    }

    /** What belongs to what. */
    ghost predicate Linked()
      reads `online, `offline, `timers, `servers, `stats, `durations
    {
      && (forall n :: n in online ==> online[n] in servers && online[n].config.name == n)
      && (forall s :: s in servers ==>
            && s.stats in stats && s.stats.name == s.config.name
            && s.durations in durations && s.durations.name == s.config.name)
      && (forall s, t :: s in servers && t in servers && s != t ==> s.quit != t.quit)
      && (forall s :: s in offline ==> s in servers)
      && (forall q :: q in timers ==> q in Quits())
    }

    /** The online counters: one for what a registered server uses, none for the rest. */
    ghost predicate Counted()
      reads `online, `stats, `durations, stats`online, durations`online
    {
      && (forall s :: s in stats ==> s.online == if InUse(s) then 1 else 0)
      && (forall d :: d in durations ==> d.online == if DurationInUse(d) then 1 else 0)
    }

    /** The alive counter of a server is the number of its tasks, of all generations. */
    ghost predicate Tasked()
      reads `tasks, `stats, stats`alive
    {
      && (forall s :: s in tasks ==> s in stats)
      && (forall s :: s in stats ==> s.alive == tasks[s])
    }

    /** One timer at most for each server, and none for a registered one. */
    ghost predicate Quitting()
      reads `online, `offline, `timers, `servers
      reads Quits()`forceQuit, Quits()`scheduled
    {
      && (forall s :: s in servers ==> multiset(timers)[s.quit] == if s.quit.scheduled then 1 else 0)
      && (forall s :: s in servers && Registered(s) ==>
            !s.quit.scheduled && !s.quit.forceQuit && s !in offline)
    }

    ghost predicate Valid()
      reads this, stats, durations, Quits()
    {
      Linked() && Counted() && Tasked() && Quitting()
    }

    constructor ()
      ensures Valid() && online == map[] && offline == []
      ensures stats == {} && durations == {} && servers == {}
    {
      online, offline, timers := map[], [], [];
      stats, durations, servers, tasks := {}, {}, {}, multiset{};
    }

    /** A server that may be registered under its name: new, with statistics that are
        either unused or those of the server it replaces. */
    ghost predicate Candidate(c: KeyServer)
      reads this, c.quit
    {
      && c !in servers && c.quit !in Quits()
      && c.stats in stats && c.stats.name == c.config.name
      && c.durations in durations && c.durations.name == c.config.name
      && !c.quit.forceQuit && !c.quit.scheduled
    }

    /** start_runtime: counts the server online once its listener is running. */
    method StartRuntime(s: KeyServer, listens: bool) returns (ok: bool)
      modifies s.stats`online, s.durations`online
      ensures ok == listens
      ensures !ok ==> unchanged(s.stats, s.durations)
      ensures s.stats.online == old(s.stats.online) + if ok then 1 else 0
      ensures s.durations.online == old(s.durations.online) + if ok then 1 else 0
    {
      if !listens {
        return false;
      }
      s.stats.online := s.stats.online + 1;
      s.durations.online := s.durations.online + 1;
      return true;
    }

    method AbortRuntime(s: KeyServer)
      modifies s.stats`online, s.durations`online
      ensures s.stats.online == old(s.stats.online) - 1
      ensures s.durations.online == old(s.durations.online) - 1
    {
      s.stats.online := s.stats.online - 1;
      s.durations.online := s.durations.online - 1;
    }

    /** `c` took its name and the server it replaces, if any, went offline. */
    twostate predicate Took(new c: KeyServer)
      reads `online, `offline, `servers
    {
      var name, before := c.config.name, old(online);
      && online == before[name := c]
      && offline == old(offline) + (if name in before then [before[name]] else [])
      && servers == old(servers) + {c}
    }

    /** The state after `c` was started and took its name. */
    twostate predicate Inserted(new c: KeyServer)
      reads this, stats, durations
    {
      var name, before := c.config.name, old(online);
      && Took(c)
      && timers == old(timers) && stats == old(stats) && durations == old(durations)
      && (forall s :: s in stats ==>
            s.online == old(s.online) + (if s == c.stats then 1 else 0)
                        - (if name in before && before[name].stats == s then 1 else 0))
      && (forall d :: d in durations ==>
            d.online == old(d.online) + (if d == c.durations then 1 else 0)
                        - (if name in before && before[name].durations == d then 1 else 0))
    }

    twostate lemma InsertedLinked(new c: KeyServer)
      requires old(Linked()) && Inserted(c)
      requires c.stats in stats && c.stats.name == c.config.name
      requires c.durations in durations && c.durations.name == c.config.name
      requires c.quit !in old(Quits())
      ensures Linked()
    {
      assert old(Quits()) <= Quits();
      forall s, t | s in servers && t in servers && s != t
        ensures s.quit != t.quit
      {
        assert s in old(servers) ==> s.quit in old(Quits());
        assert t in old(servers) ==> t.quit in old(Quits());
      }
    }

    twostate lemma InsertedCounted(new c: KeyServer)
      requires old(Linked()) && old(Counted()) && Inserted(c)
      requires c.stats in stats && c.stats.name == c.config.name
      requires c.durations in durations && c.durations.name == c.config.name
      ensures Counted()
    {
    }

    twostate lemma InsertedQuitting(new c: KeyServer)
      requires old(Linked()) && old(Quitting()) && Inserted(c)
      requires c !in old(servers) && c.quit !in old(Quits())
      requires !c.quit.forceQuit && !c.quit.scheduled
      requires forall q :: q in old(Quits()) ==> unchanged(q)
      ensures Quitting()
    {
      forall s | s in old(servers)
        ensures s.quit in old(Quits())
        ensures Registered(s) ==> old(Registered(s)) && s !in offline
      {
      }
    }

    lemma RegisteredLinked(name: Name)
      requires Linked() && name in online
      ensures online[name] in servers && online[name].config.name == name
      ensures online[name].stats in stats && online[name].stats.name == name
      ensures online[name].durations in durations && online[name].durations.name == name
    {
    }

    lemma RegisteredServer(name: Name)
      requires Valid() && name in online
      ensures online[name] in servers && online[name].config.name == name
    {
    }

    /** The common end of `add` and `reload_and_respawn`. */
    method Insert(c: KeyServer, listens: bool) returns (ok: bool)
      requires Linked() && c.stats in stats && c.durations in durations
      modifies `online, `offline, `servers, stats`online, durations`online
      ensures ok == listens
      ensures ok ==> Inserted(c)
      ensures !ok ==> unchanged(this) && unchanged(stats) && unchanged(durations)
    {
      hide Linked;
      ok := StartRuntime(c, listens);
      if !ok {
        return;
      }
      var name := c.config.name;
      if name in online {
        var previous := online[name];
        RegisteredLinked(name);
        online := online[name := c];
        AbortRuntime(previous);
        offline := offline + [previous];
      } else {
        online := online[name := c];
      }
      servers := servers + {c};
    }

    method Register(c: KeyServer, listens: bool) returns (ok: bool)
      requires Valid() && Candidate(c)
      modifies `online, `offline, `servers, stats`online, durations`online
      ensures Valid() && ok == listens
      ensures ok ==> Took(c)
      ensures !ok ==> unchanged(this)
    {
      hide Linked, Counted, Tasked, Quitting;
      ok := Insert(c, listens);
      if ok {
        InsertedLinked(c);
        InsertedCounted(c);
        InsertedQuitting(c);
      }
    }

    method NewStats(name: Name) returns (s: ServerStats)
      requires Valid()
      modifies `stats
      ensures Valid() && fresh(s) && s.name == name && stats == old(stats) + {s}
    {
      hide Quitting;
      ghost var quits := Quits();
      s := new ServerStats(name);
      stats := stats + {s};
      assert Quits() == quits;
      assert Quitting();
      assert !InUse(s) && tasks[s] == 0;
    }

    method NewDurations(name: Name) returns (d: DurationStats)
      requires Valid()
      modifies `durations
      ensures Valid() && fresh(d) && d.name == name && durations == old(durations) + {d}
    {
      hide Quitting;
      ghost var quits := Quits();
      d := new DurationStats(name);
      durations := durations + {d};
      assert Quits() == quits;
      assert Quitting();
      assert !DurationInUse(d);
    }

    method NewServer(config: Config, s: ServerStats, d: DurationStats) returns (c: KeyServer)
      requires Valid()
      requires s in stats && d in durations && s.name == d.name == config.name
      ensures Valid() && Candidate(c) && fresh(c) && fresh(c.quit)
      ensures c.config == config && c.stats == s && c.durations == d
    {
      hide Linked, Counted, Tasked, Quitting;
      ghost var quits := Quits();
      c := new KeyServer(config, s, d);
      assert c.quit !in quits;
    }

    /** Only the server named in `config` changed: it is a new one made from `config`. */
    twostate predicate Changed(config: Config)
      reads this
    {
      && config.name in online
      && online == old(online)[config.name := online[config.name]]
      && online[config.name].config == config && fresh(online[config.name])
      && offline == old(offline) +
           (if config.name in old(online) then [old(online)[config.name]] else [])
    }

    /** New statistics may have been created, with nothing counted in them. */
    twostate predicate Grown()
      reads `stats, `durations
    {
      && old(stats) <= stats && fresh(stats - old(stats))
      && old(durations) <= durations && fresh(durations - old(durations))
    }

    /** `builds` says whether the server could be built from its config. */
    method PrepareInitial(config: Config, builds: bool) returns (c: KeyServer?)
      requires Valid()
      modifies `stats, `durations
      ensures Valid() && Grown() && (c != null <==> builds)
      ensures c != null ==> Candidate(c) && fresh(c) && c.config == config && fresh(c.stats)
    {
      hide Valid, Candidate;
      var s := NewStats(config.name);
      var d := NewDurations(config.name);
      if !builds {
        return null;
      }
      c := NewServer(config, s, d);
    }

    /** The next generation keeps the statistics of `s`, and its duration statistics
        unless their configuration changed. */
    method PrepareReload(s: KeyServer, config: Config, builds: bool) returns (c: KeyServer?)
      requires Valid() && s in servers && config.name == s.config.name
      modifies `durations
      ensures Valid() && Grown() && (c != null <==> builds)
      ensures c != null ==> Candidate(c) && fresh(c) && c.config == config && c.stats == s.stats
      ensures c != null ==> (c.durations == s.durations <==> config.durationStats == s.config.durationStats)
    {
      assert s.stats in stats && s.durations in durations && s.stats.name == s.durations.name == config.name;
      hide Valid, Candidate;
      var d := s.durations;
      if s.config.durationStats != config.durationStats {
        d := NewDurations(config.name);
      }
      if !builds {
        return null;
      }
      c := NewServer(config, s.stats, d);
    }

    /** The first generation of a server. */
    method SpawnNew(config: Config, builds: bool, listens: bool) returns (ok: bool)
      requires Valid()
      modifies `online, `offline, `servers, `stats, `durations, stats`online, durations`online
      ensures Valid() && Grown() && ok == (builds && listens)
      ensures !ok ==> online == old(online) && offline == old(offline) && servers == old(servers)
      ensures ok ==> Changed(config) && fresh(online[config.name].stats)
    {
      hide Valid, Candidate;
      var c := PrepareInitial(config, builds);
      if c == null {
        return false;
      }
      ok := Register(c, listens);
    }

    /** reload_and_respawn: the next generation takes over. */
    method Reload(name: Name, config: Config, builds: bool, listens: bool) returns (ok: bool)
      requires Valid() && config.name == name
      modifies `online, `offline, `servers, `durations, stats`online, durations`online
      ensures Valid() && Grown() && ok == (name in old(online) && builds && listens)
      ensures !ok ==> online == old(online) && offline == old(offline) && servers == old(servers)
      ensures ok ==> Changed(config) && online[name].stats == old(online)[name].stats
      ensures ok ==> (online[name].durations == old(online)[name].durations
                      <==> config.durationStats == old(online)[name].config.durationStats)
    {
      hide Valid, Candidate;
      if name !in online {
        return false;
      }
      RegisteredServer(name);
      var c := PrepareReload(online[name], config, builds);
      if c == null {
        return false;
      }
      ok := Register(c, listens);
    }

    /** The state after the server named `name` left. */
    twostate predicate Deleted(name: Name)
      requires name in old(online)
      reads this, stats, durations
    {
      var previous := old(online)[name];
      && online == old(online) - {name}
      && offline == old(offline) + [previous]
      && servers == old(servers) && timers == old(timers)
      && stats == old(stats) && durations == old(durations)
      && (forall s :: s in stats ==>
            s.online == old(s.online) - (if previous.stats == s then 1 else 0))
      && (forall d :: d in durations ==>
            d.online == old(d.online) - (if previous.durations == d then 1 else 0))
    }

    twostate lemma DeletedValid(name: Name)
      requires old(Linked()) && old(Counted()) && old(Quitting())
      requires name in old(online) && Deleted(name)
      requires forall q :: q in old(Quits()) ==> unchanged(q)
      ensures Linked() && Counted() && Quitting()
    {
      assert Linked() by {
        hide Quitting, Counted;
        assert Quits() == old(Quits());
      }
      assert Counted() by {
        hide Quitting;
      }
      assert Quitting() by {
        hide Counted;
        forall s | s in servers
          ensures s.quit in old(Quits())
          ensures Registered(s) ==> old(Registered(s)) && s !in offline
        {
        }
      }
    }

    method Del(name: Name)
      requires Valid()
      modifies `online, `offline, stats`online, durations`online
      ensures Valid() && online == old(online) - {name}
      ensures offline == old(offline) + (if name in old(online) then [old(online)[name]] else [])
    {
      hide Linked, Counted, Tasked, Quitting;
      if name in online {
        var previous := online[name];
        RegisteredLinked(name);
        online := online - {name};
        AbortRuntime(previous);
        offline := offline + [previous];
        DeletedValid(name);
      }
    }

    /** A connection is accepted: its task is counted until its guard is dropped. */
    method StartTask(s: KeyServer)
      requires Valid() && s in servers
      modifies `tasks, s.stats`alive
      ensures Valid() && tasks == old(tasks) + multiset{s.stats}
    {
      hide Quitting, Counted;
      assert s.stats in stats;
      hide Linked;
      s.stats.alive := s.stats.alive + 1;
      tasks := tasks + multiset{s.stats};
    }

    method EndTask(s: ServerStats)
      requires Valid() && s in tasks
      modifies `tasks, s`alive
      ensures Valid() && tasks == old(tasks) - multiset{s}
    {
      hide Quitting, Counted, Linked;
      s.alive := s.alive - 1;
      tasks := tasks - multiset{s};
    }

    method LoadOne(config: Config, builds: bool, listens: bool) returns (ok: bool)
      requires Valid()
      modifies `online, `offline, `servers, `stats, `durations, stats`online, durations`online
      ensures Valid() && Grown() && ok == (builds && listens)
      ensures !ok ==> online == old(online) && offline == old(offline)
      ensures ok ==> Changed(config)
      ensures ok && config.name in old(online) ==>
        online[config.name].stats == old(online)[config.name].stats
    {
      hide Valid, Changed;
      if config.name in online {
        ok := Reload(config.name, config, builds, listens);
      } else {
        ok := SpawnNew(config, builds, listens);
      }
    }

    /** The first loop of spawn_all, over the configs in any order. */
    method LoadAll(configs: map<Name, Config>, builds: Name -> bool, listens: Name -> bool)
        returns (ok: bool, ghost done: set<Name>)
      requires Valid() && forall n :: n in configs ==> configs[n].name == n
      modifies `online, `offline, `servers, `stats, `durations, stats`online, durations`online
      ensures Valid() && Grown()
      ensures Loaded(old(online), online, offline, configs, done) && old(offline) <= offline
      ensures OnlyLeft(old(online), old(offline), offline)
      ensures ok <==> AllStart(configs, builds, listens)
      ensures if ok then done == configs.Keys else done < configs.Keys
      ensures forall n :: n in done ==> builds(n) && listens(n)
    {
      hide Valid, Loaded, OnlyLeft;
      OnlyLeftNone(online, offline);
      var todo := configs.Keys;
      done := {};
      LoadedNone(online, offline, configs);
      while todo != {}
        invariant todo <= configs.Keys && done == configs.Keys - todo
        invariant Valid() && Grown()
        invariant Loaded(old(online), online, offline, configs, done) && old(offline) <= offline
        invariant forall n :: n in done ==> builds(n) && listens(n)
        invariant OnlyLeft(old(online), old(offline), offline)
      {
        var n :| n in todo;
        ghost var mid, left := online, offline;
        ok := LoadOne(configs[n], builds(n), listens(n));
        if !ok {
          return;
        }
        if n in mid {
          LoadedKeeps(old(online), mid, left, configs, done);
          OnlyLeftMore(old(online), old(offline), left, n);
        } else {
          assert offline == left;
        }
        LoadedStep(old(online), mid, left, configs, done, n, online[n]);
        todo, done := todo - {n}, done + {n};
      }
      ok := true;
    }

    /** Deletes what is registered but not configured. */
    method DeleteUnconfigured(names: set<Name>)
      requires Valid()
      modifies `online, `offline, stats`online, durations`online
      ensures Valid() && old(offline) <= offline
      ensures online == old(online) - (old(online).Keys - names)
      ensures forall n :: n in old(online).Keys - names ==> old(online)[n] in offline
      ensures forall s :: s in offline ==>
        s in old(offline) || exists n :: n in old(online) && n !in names && old(online)[n] == s
    {
      hide Valid;
      var todo := online.Keys;
      ghost var gone := {};
      while todo != {}
        invariant todo <= old(online).Keys && Valid() && old(offline) <= offline
        invariant gone == old(online).Keys - names - todo && online == old(online) - gone
        invariant forall n :: n in gone ==> old(online)[n] in offline
        invariant forall s :: s in offline ==>
          s in old(offline) || exists n :: n in old(online) && n !in names && old(online)[n] == s
      {
        var n :| n in todo;
        if n !in names {
          Del(n);
          gone := gone + {n};
        }
        todo := todo - {n};
      }
    }

    /** spawn_all, with any of the builds and listens failing. */
    method SpawnAll(configs: map<Name, Config>, builds: Name -> bool, listens: Name -> bool) returns (ok: bool)
      requires Valid() && forall n :: n in configs ==> configs[n].name == n
      modifies `online, `offline, `servers, `stats, `durations, stats`online, durations`online
      ensures Valid() && Grown() && old(offline) <= offline
      ensures ok <==> AllStart(configs, builds, listens)
      ensures ok ==> online.Keys == configs.Keys
      ensures ok ==> forall n :: n in configs ==> online[n].config == configs[n]
      ensures !ok ==> old(online).Keys <= online.Keys
      ensures Continued(old(online), online, offline) && OnlyLeft(old(online), old(offline), offline)
    {
      hide Valid, Loaded, Continued, AllStart, OnlyLeft;
      ghost var done;
      ok, done := LoadAll(configs, builds, listens);
      ghost var mid, left := online, offline;
      if ok {
        DeleteUnconfigured(configs.Keys);
        LoadedKeeps(old(online), mid, left, configs, done);
        OnlyLeftTrans(old(online), mid, done, old(offline), left, offline);
        LoadedContinued(old(online), mid, left, configs, done, mid.Keys - configs.Keys, offline);
      } else {
        LoadedContinued(old(online), mid, left, configs, done, {}, offline);
        assert online == online - {};
      }
    }

    /** Starts the force-quit timer of an offline server, unless it was started before. */
    method Schedule(s: KeyServer)
      requires Linked() && Quitting() && s in offline
      modifies `timers, s.quit`scheduled
      ensures Linked() && Quitting() && s.quit.scheduled
      ensures timers == old(timers) + (if old(s.quit.scheduled) then [] else [s.quit])
    {
      if !s.quit.scheduled {
        s.quit.scheduled := true;
        timers := timers + [s.quit];
      }
    }

    /** A timer fires. */
    method Fire(q: QuitPolicy)
      requires Valid() && q in timers
      modifies q`forceQuit
      ensures Valid() && q.forceQuit
    {
      hide Counted, Tasked;
      q.forceQuit := true;
    }

    /** The offline servers that are still wanted. */
    ghost function Busy(strongCount: KeyServer -> nat): set<KeyServer>
      reads `offline, set s | s in offline :: s.stats`alive
    {
      set s | s in offline && (s.stats.alive != 0 || strongCount(s) > 1)
    }

    lemma OfflineLinked(s: KeyServer)
      requires Linked() && s in offline
      ensures s in servers && s.quit in Quits() && s.stats in stats
    {
    }

    /** Whether to keep one offline server. */
    method RetainOne(s: KeyServer, strongCount: KeyServer -> nat) returns (keep: bool)
      requires Linked() && Quitting() && s in offline
      modifies `timers, s.quit`scheduled
      ensures Linked() && Quitting()
      ensures keep <==> s in Busy(strongCount)
      ensures s.quit.scheduled == (old(s.quit.scheduled) || s.stats.alive != 0)
      ensures timers == old(timers) + (if s.quit.scheduled && !old(s.quit.scheduled) then [s.quit] else [])
    {
      hide Linked, Quitting;
      if s.stats.alive == 0 {
        keep := strongCount(s) > 1;
      } else {
        Schedule(s);
        keep := true;
      }
    }

    /** The timers started since: one for each server that is scheduled now and was not. */
    twostate predicate StartedTimers()
      reads `timers, `servers, Quits()`scheduled
    {
      && old(timers) <= timers
      && forall s :: s in old(servers) && s in servers ==>
           multiset(timers[|old(timers)|..])[s.quit] == if s.quit.scheduled && !old(s.quit.scheduled) then 1 else 0
    }

    twostate lemma TimersStarted()
      requires old(Quitting()) && Quitting() && old(timers) <= timers && servers == old(servers)
      ensures StartedTimers()
    {
      assert timers == old(timers) + timers[|old(timers)|..];
      forall s | s in servers
        ensures multiset(timers)[s.quit] == multiset(old(timers))[s.quit] + multiset(timers[|old(timers)|..])[s.quit]
      {
      }
    }

    lemma QuitOfOne(s: KeyServer, t: KeyServer)
      requires Linked() && s in servers && t in servers && s.quit == t.quit
      ensures s == t
    {
    }

    /** The pass of retain_offline over the list. */
    method Sweep(strongCount: KeyServer -> nat) returns (kept: seq<KeyServer>)
      requires Linked() && Quitting()
      modifies `timers, Quits()`scheduled
      ensures Linked() && Quitting() && StartedTimers()
      ensures kept == Kept(offline, Busy(strongCount))
      ensures forall s :: s in servers ==>
        s.quit.scheduled == (old(s.quit.scheduled) || (s in offline && s.stats.alive != 0))
    {
      hide Linked, Quitting, Kept, Busy;
      ghost var busy := Busy(strongCount);
      kept := [];
      KeptNone(busy);
      for i := 0 to |offline|
        invariant Linked() && Quitting() && old(timers) <= timers
        invariant Busy(strongCount) == busy && kept == Kept(offline[..i], busy)
        invariant forall s :: s in servers ==>
          s.quit.scheduled == (old(s.quit.scheduled) || (s in offline[..i] && s.stats.alive != 0))
      {
        var s := offline[i];
        OfflineLinked(s);
        KeptSnoc(offline[..i], s, busy);
        assert offline[..i + 1] == offline[..i] + [s];
        forall t | t in servers && t.quit == s.quit ensures t == s {
          QuitOfOne(s, t);
        }
        var keep := RetainOne(s, strongCount);
        if keep {
          kept := kept + [s];
        }
      }
      assert offline[..|offline|] == offline;
      TimersStarted();
    }

    /** retain_offline. `strongCount` is the number of references to a server. A server
        leaves only when no task of its name is left and nobody else refers to it, and a
        timer is started only for one whose name has tasks. */
    method RetainOffline(strongCount: KeyServer -> nat)
      requires Valid()
      modifies `offline, `timers, Quits()`scheduled
      ensures Valid() && StartedTimers()
      ensures offline == Kept(old(offline), old(Busy(strongCount)))
      ensures forall s :: s in old(offline) ==>
        (s in offline <==> s.stats in tasks || strongCount(s) > 1)
      ensures forall s :: s in servers ==>
        (s.quit.scheduled <==> old(s.quit.scheduled) || (s in old(offline) && s.stats in tasks))
    {
      hide Linked, Quitting, Counted;
      var kept := Sweep(strongCount);
      KeptMembers(offline, Busy(strongCount));
      forall s | s in offline
        ensures s.stats.alive == tasks[s.stats]
      {
        OfflineLinked(s);
      }
      label Swept:
      offline := kept;
      ShorterOffline@Swept();
    }

    /** Fewer offline servers are as well. */
    twostate lemma ShorterOffline()
      requires old(Linked()) && old(Quitting())
      requires online == old(online) && timers == old(timers) && servers == old(servers)
      requires stats == old(stats) && durations == old(durations)
      requires forall s :: s in offline ==> s in old(offline)
      requires forall q :: q in Quits() ==> unchanged(q)
      ensures Linked() && Quitting()
    {
      forall s | s in servers ensures s.quit in Quits() {
      }
    }

    /** force_quit_offline_servers: whoever is offline is told to quit, nobody else. */
    method ForceQuitOffline()
      requires Linked()
      modifies Quits()`forceQuit
      ensures forall s :: s in servers ==> s.quit.forceQuit == (old(s.quit.forceQuit) || s in offline)
      ensures old(Quitting()) ==> Quitting()
    {
      for i := 0 to |offline|
        invariant forall s :: s in servers ==> s.quit.forceQuit == (old(s.quit.forceQuit) || s in offline[..i])
      {
        var s := offline[i];
        OfflineLinked(s);
        s.quit.forceQuit := true;
      }
    }

    /** Part of stop_all: the servers of `todo` are the only ones still running. */
    ghost predicate Stopping(todo: set<Name>)
      reads `online, `stats, `durations, stats`online, durations`online
    {
      && (forall s :: s in stats ==> s.online == if InUse(s) && s.name in todo then 1 else 0)
      && (forall d :: d in durations ==> d.online == if DurationInUse(d) && d.name in todo then 1 else 0)
    }

    /** Part of stop_all: whoever is registered and not in `todo` has joined `before`. */
    ghost predicate Moved(before: seq<KeyServer>, todo: set<Name>)
      reads `online, `offline
    {
      && (forall s :: s in offline ==> s in before || (Registered(s) && s.config.name !in todo))
      && (forall s :: s in before ==> s in offline)
      && (forall n :: n in online && n !in todo ==> online[n] in offline)
    }

    method StopOne(name: Name, ghost before: seq<KeyServer>, ghost todo: set<Name>)
      requires Linked() && Stopping(todo) && Moved(before, todo) && name in todo && name in online
      modifies `offline, stats`online, durations`online
      ensures Linked() && Stopping(todo - {name}) && Moved(before, todo - {name})
      ensures offline == old(offline) + [online[name]]
    {
      RegisteredLinked(name);
      AbortRuntime(online[name]);
      offline := offline + [online[name]];
    }

    lemma StopStarts()
      requires Valid()
      ensures Linked() && Tasked() && Stopping(online.Keys) && Moved(offline, online.Keys)
    {
    }

    lemma StopEnds(before: seq<KeyServer>)
      requires Stopping({}) && Moved(before, {})
      ensures forall s :: s in stats ==> s.online == 0
      ensures forall d :: d in durations ==> d.online == 0
      ensures forall s :: s in offline <==> s in before || Registered(s)
    {
    }

    /** stop_all: afterwards nothing counts as online, and every server is offline as
        well as registered. */
    method StopAll()
      requires Valid()
      modifies `offline, stats`online, durations`online
      ensures Linked() && Tasked()
      ensures forall s :: s in stats ==> s.online == 0
      ensures forall d :: d in durations ==> d.online == 0
      ensures old(offline) <= offline && |offline| == |old(offline)| + |online.Keys|
      ensures forall s :: s in offline <==> s in old(offline) || Registered(s)
    {
      hide Valid, Linked, Tasked, Stopping, Moved, Registered;
      StopStarts();
      var todo := online.Keys;
      while todo != {}
        invariant todo <= online.Keys && Linked() && Tasked() && Stopping(todo) && Moved(old(offline), todo)
        invariant old(offline) <= offline && |offline| + |todo| == |old(offline)| + |online.Keys|
      {
        var n :| n in todo;
        StopOne(n, old(offline), todo);
        todo := todo - {n};
      }
      StopEnds(old(offline));
    }
  }
}
