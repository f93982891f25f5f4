/** Starting DNS servers in dependency order (dns/transport_manager.go, `startTransports`). */
module TransportStart {
  import opened Wrappers

  datatype Server = Server(tag: string, dependencies: seq<string>)

  datatype Outcome =
    | Started
    | StartFailed(tag: string)
    | Circular(path: seq<string>)
    | Missing(dependency: string, server: string)

  ghost predicate DistinctTags(servers: seq<Server>) {
    forall i, j :: 0 <= i < j < |servers| ==> servers[i].tag != servers[j].tag
  }

  function Tags(servers: seq<Server>): (tags: set<string>)
    ensures forall t :: t in tags <==> exists s :: s in servers && s.tag == t
  {
    set s | s in servers :: s.tag
  }

  /** The manager's index by tag holds exactly the servers being started. */
  ghost predicate Indexes(byTag: map<string, Server>, servers: seq<Server>) {
    && byTag.Keys == Tags(servers)
    && forall t :: t in byTag ==> byTag[t] in servers && byTag[t].tag == t
  }

  ghost predicate DependsOn(servers: seq<Server>, a: string, b: string) {
    exists s :: s in servers && s.tag == a && b in s.dependencies
  }

  /** A walk along dependencies. */
  ghost predicate Chain(servers: seq<Server>, path: seq<string>) {
    forall i :: 0 < i < |path| ==> DependsOn(servers, path[i - 1], path[i])
  }

  /** A walk along dependencies that comes back to one of its own servers. */
  ghost predicate Cycle(servers: seq<Server>, path: seq<string>) {
    |path| >= 2 && Chain(servers, path) && path[|path| - 1] in path[..|path| - 1]
  }

  ghost predicate Acyclic(servers: seq<Server>) { forall path :: !Cycle(servers, path) }

  ghost predicate Dangles(servers: seq<Server>, dependency: string, server: string) {
    DependsOn(servers, server, dependency) && dependency !in Tags(servers)
  }

  ghost predicate Complete(servers: seq<Server>) { forall d, s :: !Dangles(servers, d, s) }

  /** A log of start calls that are distinct, each of a known server after all its dependencies. */
  ghost predicate GoodLog(servers: seq<Server>, log: seq<string>) {
    && (forall i, j :: 0 <= i < j < |log| ==> log[i] != log[j])
    && (forall i :: 0 <= i < |log| ==> log[i] in Tags(servers))
    && (forall i, d :: 0 <= i < |log| && DependsOn(servers, log[i], d) ==> d in log[..i])
  }

  ghost predicate Succeeded(fails: set<string>, log: seq<string>) { forall i :: 0 <= i < |log| ==> log[i] !in fails }

  predicate Ready(s: Server, started: set<string>) { forall d :: d in s.dependencies ==> d in started }

  /** Every server that could still be started has been. */
  ghost predicate Exhausted(servers: seq<Server>, started: set<string>) {
    forall s :: s in servers && s.tag !in started ==> !Ready(s, started)
  }

  lemma {:induction false} TagsSize(servers: seq<Server>)
    requires DistinctTags(servers)
    ensures |Tags(servers)| == |servers|
  {
    if servers == [] {
      assert Tags(servers) == {};
    } else {
      var front, last := servers[..|servers| - 1], servers[|servers| - 1];
      TagsSize(front);
      forall t ensures t in Tags(servers) <==> t in Tags(front) + {last.tag} {
        if t in Tags(servers) {
          var s :| s in servers && s.tag == t;
          assert s == last || s in front;
        }
        assert last in servers;
      }
      assert Tags(servers) == Tags(front) + {last.tag};
      assert last.tag !in Tags(front);
    }
  }

  lemma {:induction false} SubsetSize(a: set<string>, b: set<string>)
    requires a <= b
    ensures |b - a| == |b| - |a| && (|a| == |b| ==> a == b)
  {
    assert b == a + (b - a);
    assert |b| == |a| + |b - a|;
  }

  lemma {:induction false} OneServer(servers: seq<Server>, a: Server, b: Server)
    requires DistinctTags(servers) && a in servers && b in servers && a.tag == b.tag
    ensures a == b
  {
  }

  method FirstUnstarted(dependencies: seq<string>, started: set<string>) returns (r: Option<string>)
    ensures r.None? <==> forall d :: d in dependencies ==> d in started
    ensures r.Some? ==> r.value in dependencies && r.value !in started
  {
    for i := 0 to |dependencies|
      invariant forall k :: 0 <= k < i ==> dependencies[k] in started
    {
      if dependencies[i] !in started {
        return Some(dependencies[i]);
      }
    }
    r := None;
  }

  lemma {:induction false} LogGrows(servers: seq<Server>, log: seq<string>, s: Server)
    requires DistinctTags(servers) && GoodLog(servers, log) && s in servers && s.tag !in log
    requires forall d :: d in s.dependencies ==> d in log
    ensures GoodLog(servers, log + [s.tag])
  {
    var log' := log + [s.tag];
    forall i, d | 0 <= i < |log'| && DependsOn(servers, log'[i], d) ensures d in log'[..i] {
      if i < |log| {
        assert log'[i] == log[i] && log'[..i] == log[..i];
      } else {
        var t :| t in servers && t.tag == log'[i] && d in t.dependencies;
        OneServer(servers, s, t);
        assert log'[..i] == log;
      }
    }
  }

  ghost function Logged(log: seq<string>): set<string> { set t | t in log }

  /** One pass over the servers. */
  method StartPass(servers: seq<Server>, fails: set<string>, started0: set<string>, log0: seq<string>)
    returns (started: set<string>, log: seq<string>, canContinue: bool, failed: Option<string>)
    requires DistinctTags(servers) && GoodLog(servers, log0) && Succeeded(fails, log0) && started0 == Logged(log0)
    ensures GoodLog(servers, log) && started == Logged(log) && started0 <= started
    ensures failed.None? ==>
      Succeeded(fails, log) && (canContinue <==> started0 < started) && (!canContinue ==> Exhausted(servers, started))
    ensures failed.Some? ==>
      log != [] && log[|log| - 1] == failed.value && failed.value in fails && Succeeded(fails, log[..|log| - 1])
  {
    started, log, canContinue, failed := started0, log0, false, None;
    for i := 0 to |servers|
      invariant GoodLog(servers, log) && Succeeded(fails, log) && started == Logged(log) && started0 <= started
      invariant canContinue <==> started0 < started
      invariant !canContinue ==> forall k :: 0 <= k < i && servers[k].tag !in started ==> !Ready(servers[k], started)
    {
      var s := servers[i];
      if s.tag in started {
        continue;
      }
      var waiting := FirstUnstarted(s.dependencies, started);
      if waiting.Some? {
        continue;
      }
      LogGrows(servers, log, s);
      assert Logged(log + [s.tag]) == started + {s.tag};
      started, log, canContinue := started + {s.tag}, log + [s.tag], true;
      if s.tag in fails {
        return started, log, canContinue, Some(s.tag);
      }
    }
  }

  /** `lintTransport`: follows unstarted dependencies until one repeats or does not exist. */
  method Lint(servers: seq<Server>, byTag: map<string, Server>, started: set<string>, tree: seq<string>,
              current: Server)
    returns (r: Outcome)
    requires Indexes(byTag, servers) && Exhausted(servers, started)
    requires current in servers && current.tag !in started
    requires tree != [] && tree[|tree| - 1] == current.tag && Chain(servers, tree)
    requires forall t :: t in tree ==> t in Tags(servers)
    ensures r.Circular? || r.Missing?
    ensures r.Circular? ==> Cycle(servers, r.path)
    ensures r.Missing? ==> Dangles(servers, r.dependency, r.server)
    decreases Tags(servers) - Logged(tree)
  {
    var found := FirstUnstarted(current.dependencies, started);
    assert found.Some?;
    var problem := found.value;
    assert DependsOn(servers, current.tag, problem);
    var tree' := tree + [problem];
    forall i | 0 < i < |tree'| ensures DependsOn(servers, tree'[i - 1], tree'[i]) {
      assert tree'[i - 1] == tree[i - 1];
    }
    if problem in tree {
      assert tree'[..|tree'| - 1] == tree;
      return Circular(tree');
    }
    if problem !in byTag {
      return Missing(problem, current.tag);
    }
    assert problem in Tags(servers) - Logged(tree) && problem in Logged(tree');
    assert Logged(tree) <= Logged(tree');
    r := Lint(servers, byTag, started, tree', byTag[problem]);
  }

  method FirstServer(servers: seq<Server>, started: set<string>) returns (s: Server)
    requires exists s :: s in servers && s.tag !in started
    ensures s in servers && s.tag !in started
  {
    for i := 0 to |servers|
      invariant forall k :: 0 <= k < i ==> servers[k].tag in started
    {
      if servers[i].tag !in started {
        return servers[i];
      }
    }
    assert false;
    s := Server("", []);
  }

  /**
   * `startTransports`. The log lists the start calls in order: whatever the outcome, no server is
   * started twice or before a dependency. Success starts them all; an error names a failed start, a
   * genuine cycle or a genuine missing dependency, and in the last two cases nothing more could start.
   */
  method StartTransports(servers: seq<Server>, byTag: map<string, Server>, fails: set<string>)
    returns (r: Outcome, log: seq<string>)
    requires DistinctTags(servers) && Indexes(byTag, servers)
    ensures GoodLog(servers, log)
    ensures r.Started? ==> Logged(log) == Tags(servers) && Succeeded(fails, log)
    ensures r.StartFailed? ==>
      r.tag in fails && log != [] && log[|log| - 1] == r.tag && Succeeded(fails, log[..|log| - 1])
    ensures r.Circular? ==> Cycle(servers, r.path)
    ensures r.Missing? ==> Dangles(servers, r.dependency, r.server)
    ensures r.Circular? || r.Missing? ==> Exhausted(servers, Logged(log)) && Succeeded(fails, log)
  {
    var started: set<string>;
    started, log := {}, [];
    assert Logged(log) == {};
    while true
      invariant GoodLog(servers, log) && Succeeded(fails, log) && started == Logged(log)
      decreases Tags(servers) - started
    {
      ghost var before := started;
      var canContinue: bool;
      var failed: Option<string>;
      started, log, canContinue, failed := StartPass(servers, fails, started, log);
      if failed.Some? {
        return StartFailed(failed.value), log;
      }
      assert started <= Tags(servers);
      TagsSize(servers);
      SubsetSize(started, Tags(servers));
      if |started| == |servers| {
        break;
      }
      if canContinue {
        continue;
      }
      ghost var t :| t in Tags(servers) - started;
      var current := FirstServer(servers, started);
      r := Lint(servers, byTag, started, [current.tag], current);
      return;
    }
    r := Started;
  }

  // -------------------------------------------------------- when starting can succeed

  /** The position of a server in the log. */
  ghost function Position(log: seq<string>, t: string): (i: nat)
    requires t in log
    ensures i < |log| && log[i] == t
  {
    if log[|log| - 1] == t then |log| - 1 else Position(log[..|log| - 1], t)
  }

  lemma {:induction false} Descends(servers: seq<Server>, log: seq<string>, path: seq<string>, i: nat, j: nat)
    requires GoodLog(servers, log) && Chain(servers, path) && i < j < |path| && path[i] in log
    ensures path[j] in log && Position(log, path[j]) < Position(log, path[i])
  {
    if i + 1 < j {
      Descends(servers, log, path, i, j - 1);
    }
    var p := Position(log, path[j - 1]);
    assert DependsOn(servers, log[p], path[j]);
    var q :| 0 <= q < p && log[q] == path[j];
    assert Position(log, path[j]) == q;
  }

  /** A log of every server is a proof that there is no cycle and nothing is missing. */
  lemma {:induction false} LogProvesOrder(servers: seq<Server>, log: seq<string>)
    requires GoodLog(servers, log) && Logged(log) == Tags(servers)
    ensures Acyclic(servers) && Complete(servers)
  {
    forall path ensures !Cycle(servers, path) {
      if Cycle(servers, path) {
        var n := |path| - 1;
        var i :| 0 <= i < n && path[i] == path[n];
        var s :| s in servers && s.tag == path[i] && path[i + 1] in s.dependencies by {
          assert DependsOn(servers, path[(i + 1) - 1], path[i + 1]);
        }
        assert path[i] in Logged(log);
        Descends(servers, log, path, i, n);
        assert false;
      }
    }
    forall d, s ensures !Dangles(servers, d, s) {
      if DependsOn(servers, s, d) {
        assert s in Tags(servers) && s in Logged(log);
        var i := Position(log, s);
        assert d in log[..i];
        assert d in Logged(log);
      }
    }
  }

  /** If every start call succeeds, starting succeeds exactly when the graph is acyclic with nothing missing. */
  method StartIff(servers: seq<Server>, byTag: map<string, Server>) returns (r: Outcome, log: seq<string>)
    requires DistinctTags(servers) && Indexes(byTag, servers)
    ensures r.Started? <==> Acyclic(servers) && Complete(servers)
    ensures GoodLog(servers, log) && (r.Started? ==> Logged(log) == Tags(servers))
  {
    r, log := StartTransports(servers, byTag, {});
    if r.Started? {
      LogProvesOrder(servers, log);
    }
  }
}
