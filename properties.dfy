/**
  What a run guarantees about its artifacts, taken one by one and across
  each other: port allocation, the isolation of unknown types, the
  equivalence of the wildcard with an explicit list, the order of the
  nginx locations, and the agreement between supervisord blocks,
  descriptors and locations of each worker.
 */
module Properties {
  import opened Wrappers
  import opened Text
  import opened Registry
  import opened Topology

  // ---------------------------------------------------------------------
  // Request parsing and acceptance

  /** Accepting is done type by type: the accepted workers of a concatenated
      request are those of each part, in order. */
  lemma {:induction false} AcceptedAppend(reg: Registry, a: seq<string>, b: seq<string>)
    ensures Accepted(reg, a + b) == Accepted(reg, a) + Accepted(reg, b)
  {
    if b == [] {
      assert a + b == a;
    } else {
      var b' := b[..|b| - 1];
      assert (a + b)[..|a + b| - 1] == a + b';
      assert (a + b)[|a + b| - 1] == b[|b| - 1];
      AcceptedAppend(reg, a, b');
    }
  }

  /** The log of a concatenated request is the logs of its parts, in order. */
  lemma {:induction false} SkipLogAppend(reg: Registry, a: seq<string>, b: seq<string>)
    ensures SkipLog(reg, a + b) == SkipLog(reg, a) + SkipLog(reg, b)
  {
    if b == [] {
      assert a + b == a;
    } else {
      var b' := b[..|b| - 1];
      assert (a + b)[..|a + b| - 1] == a + b';
      assert (a + b)[|a + b| - 1] == b[|b| - 1];
      SkipLogAppend(reg, a, b');
    }
  }

  /** Every requested type is either accepted or logged, never both: the
      i-th type, once stripped, adds one accepted worker and no log line
      when it is registered, and one log line and no worker otherwise; so
      the two counts add up to the number of requested types. */
  lemma {:induction false} AcceptedOrLogged(reg: Registry, types: seq<string>)
    ensures forall i :: 0 <= i < |types| ==>
      var before, upto, name := types[..i], types[..i + 1], Strip(types[i]);
      if name in Keys(reg) then
        |Accepted(reg, upto)| == |Accepted(reg, before)| + 1 && SkipLog(reg, upto) == SkipLog(reg, before)
      else
        Accepted(reg, upto) == Accepted(reg, before) && SkipLog(reg, upto) == SkipLog(reg, before) + [SkipMessage(name)]
    ensures |Accepted(reg, types)| + |SkipLog(reg, types)| == |types|
  {
    forall i | 0 <= i < |types|
      ensures var before, upto, name := types[..i], types[..i + 1], Strip(types[i]);
        if name in Keys(reg) then
          |Accepted(reg, upto)| == |Accepted(reg, before)| + 1 && SkipLog(reg, upto) == SkipLog(reg, before)
        else
          Accepted(reg, upto) == Accepted(reg, before) && SkipLog(reg, upto) == SkipLog(reg, before) + [SkipMessage(name)]
    {
      assert types[..i + 1][..i] == types[..i];
    }
    if types != [] {
      AcceptedOrLogged(reg, types[..|types| - 1]);
    }
  }

  /** A type that is not registered, once stripped, is accepted as nothing
      and logged once. */
  lemma UnknownType(reg: Registry, t: string)
    requires Strip(t) !in Keys(reg)
    ensures Accepted(reg, [t]) == []
    ensures SkipLog(reg, [t]) == [SkipMessage(Strip(t))]
  {
    assert [t][..0] == [];
  }

  /** An empty `SYNAPSE_WORKERS` asks for one type, the empty name, which is
      logged and skipped: the run then has the artifacts of a run with the
      variable absent, plus one log line. */
  lemma EmptyRequest(reg: Registry, environ: map<string, string>, base: Option<seq<Listener>>, configPath: string)
    requires WorkersVariable in environ && environ[WorkersVariable] == ""
    requires "" !in Keys(reg)
    ensures var r, none := Synthesize(reg, environ, base, configPath),
                           Synthesize(reg, environ - {WorkersVariable}, base, configPath);
      && r.shared == none.shared && r.nginx == none.nginx
      && r.supervisord == none.supervisord && r.descriptors == none.descriptors
      && none.log == [] && r.log == [SkipMessage("")]
  {
    var types := ParseRequest(reg, environ);
    assert types == [""];
    UnknownType(reg, "");
  }

  // ---------------------------------------------------------------------
  // Port allocation

  /** The k-th accepted worker gets port 18009 + k: ports are contiguous,
      strictly increasing, and never one of the fixed ports of the main
      process, the proxy or the replication listener. */
  lemma PortAllocation(reg: Registry, types: seq<string>)
    ensures var ws := Workers(reg, types);
      && |ws| == |Accepted(reg, types)|
      && (forall k :: 0 <= k < |ws| ==> ws[k].port == BasePort + k)
      && (forall i, j :: 0 <= i < j < |ws| ==> ws[i].port < ws[j].port)
      && (forall k :: 0 <= k < |ws| ==>
            ws[k].port != MainProcessPort && ws[k].port != ProxyListenPort && ws[k].port != ReplicationPort)
  {
  }

  /** The worker of a registered requested type is the one whose port is the
      number of types accepted before it, past the base port: types skipped
      earlier consume no port. */
  lemma {:induction false} PortOfRequestedType(reg: Registry, types: seq<string>, i: nat)
    requires i < |types| && Strip(types[i]) in Keys(reg)
    ensures var ws, k := Workers(reg, types), |Accepted(reg, types[..i])|;
      && k < |ws|
      && ws[k].name == Strip(types[i])
      && Lookup(reg, ws[k].name) == Some(ws[k].def)
      && ws[k].port == BasePort + k
  {
    assert types == types[..i] + [types[i]] + types[i + 1..];
    AcceptedAppend(reg, types[..i] + [types[i]], types[i + 1..]);
    AcceptedAppend(reg, types[..i], [types[i]]);
    assert [types[i]][..0] == [];
  }

  // ---------------------------------------------------------------------
  // Isolation of unknown types

  /** A requested type that is not registered changes nothing but the log:
      the shared config, the nginx site, the supervisord programs and the
      descriptors are those of the request without it, and the rest of the
      request is processed as before (same ports included). */
  lemma Isolation(reg: Registry, a: seq<string>, u: string, b: seq<string>,
                  base: Option<seq<Listener>>, configPath: string)
    requires Strip(u) !in Keys(reg)
    ensures var r, r' := SynthesizeTypes(reg, a + [u] + b, base, configPath),
                         SynthesizeTypes(reg, a + b, base, configPath);
      && r.shared == r'.shared && r.nginx == r'.nginx
      && r.supervisord == r'.supervisord && r.descriptors == r'.descriptors
      && r.log == SkipLog(reg, a) + [SkipMessage(Strip(u))] + SkipLog(reg, b)
  {
    AcceptedAppend(reg, a + [u], b);
    AcceptedAppend(reg, a, [u]);
    AcceptedAppend(reg, a, b);
    SkipLogAppend(reg, a + [u], b);
    SkipLogAppend(reg, a, [u]);
    UnknownType(reg, u);
    assert Accepted(reg, a + [u]) == Accepted(reg, a);
  }

  /** Every worker of a run is a registered type with its registered
      definition, so a name that is not registered gets no descriptor and no
      supervisord block. */
  lemma OnlyRegisteredTypes(reg: Registry, types: seq<string>, base: Option<seq<Listener>>,
                            configPath: string, name: string)
    requires name !in Keys(reg)
    ensures var r := SynthesizeTypes(reg, types, base, configPath);
      && (forall d :: d in r.descriptors ==> d.name != name)
      && (forall p :: p in r.supervisord.programs[2..] ==> p.name != "synapse_" + name)
  {
    var ws := Workers(reg, types);
    var r := SynthesizeTypes(reg, types, base, configPath);
    forall p | p in r.supervisord.programs[2..] ensures p.name != "synapse_" + name {
      var k :| 0 <= k < |r.supervisord.programs[2..]| && r.supervisord.programs[2..][k] == p;
      assert p == r.supervisord.programs[2 + k];
      assert ws[k].name in Keys(reg);
      PrefixCancels("synapse_", ws[k].name, name);
    }
  }

  /** Program names share a prefix, so they differ exactly when the worker
      names do. */
  lemma PrefixCancels(prefix: string, a: string, b: string)
    ensures (prefix + a == prefix + b) <==> (a == b)
  {
    if prefix + a == prefix + b {
      assert (prefix + a)[|prefix|..] == a;
      assert (prefix + b)[|prefix|..] == b;
    }
  }

  // ---------------------------------------------------------------------
  // Wildcard

  /** A registry whose names are non-empty, contain no comma and no
      whitespace at either end, and are not `*` itself. */
  predicate ListableNames(reg: Registry) {
    && |reg| >= 1
    && forall k :: 0 <= k < |reg| ==>
         && reg[k].0 != "*"
         && ',' !in reg[k].0
         && (reg[k].0 == [] || (!IsSpace(reg[k].0[0]) && !IsSpace(reg[k].0[|reg[k].0| - 1])))
  }

  /** Joining listable names never gives the wildcard. */
  lemma JoinNotWildcard(names: seq<string>)
    requires |names| >= 1 && forall k :: 0 <= k < |names| ==> names[k] != "*" && ',' !in names[k]
    ensures Join(names, ',') != "*"
  {
    if |names| > 1 {
      assert Join(names, ',')[|names[0]|] == ',';
    }
  }

  /** Stripping leaves each listable name as it is. */
  lemma {:induction false} AcceptedKeys(reg: Registry, names: seq<string>)
    requires ListableNames(reg)
    requires forall k :: 0 <= k < |names| ==> names[k] in Keys(reg)
    ensures forall k :: 0 <= k < |names| ==> Strip(names[k]) == names[k]
  {
    forall k | 0 <= k < |names| ensures Strip(names[k]) == names[k] {
      var j :| 0 <= j < |reg| && Keys(reg)[j] == names[k];
      StripUnchanged(names[k]);
    }
  }

  /** `SYNAPSE_WORKERS=*` gives the same artifacts as listing every
      registered type, comma-separated, in registry order. */
  lemma WildcardIsFullList(reg: Registry, environ: map<string, string>, base: Option<seq<Listener>>, configPath: string)
    requires ListableNames(reg)
    ensures var keys := Keys(reg);
      Synthesize(reg, environ[WorkersVariable := "*"], base, configPath)
      == Synthesize(reg, environ[WorkersVariable := Join(keys, ',')], base, configPath)
  {
    var keys := Keys(reg);
    JoinNotWildcard(keys);
    SplitJoin(keys, ',');
    assert ParseRequest(reg, environ[WorkersVariable := Join(keys, ',')]) == keys;
  }

  /** The registry literal can be listed. */
  lemma WorkersConfigListable()
    ensures ListableNames(WorkersConfig)
  {
  }

  // ---------------------------------------------------------------------
  // nginx routing

  /** The worker locations carry exactly the workers' patterns, each pointing
      at the port of a worker that lists it. */
  lemma {:induction false} RoutesMembership(ws: seq<Worker>, loc: Location)
    ensures loc in Routes(ws) <==>
      exists k :: 0 <= k < |ws| && ws[k].port == loc.port && loc.pattern in ws[k].def.endpointPatterns
  {
    if ws != [] {
      var prev, last := ws[..|ws| - 1], ws[|ws| - 1];
      RoutesMembership(prev, loc);
      var here := PatternLocations(last.def.endpointPatterns, last.port);
      assert loc in here <==> last.port == loc.port && loc.pattern in last.def.endpointPatterns by {
        if loc in here {
          var j :| 0 <= j < |here| && here[j] == loc;
        }
        if last.port == loc.port && loc.pattern in last.def.endpointPatterns {
          var j :| 0 <= j < |last.def.endpointPatterns| && last.def.endpointPatterns[j] == loc.pattern;
          assert here[j] == loc;
        }
      }
      if loc in Routes(ws) && loc !in Routes(prev) {
        assert ws[|ws| - 1] == last;
      }
      if exists k :: 0 <= k < |ws| && ws[k].port == loc.port && loc.pattern in ws[k].def.endpointPatterns {
        var k :| 0 <= k < |ws| && ws[k].port == loc.port && loc.pattern in ws[k].def.endpointPatterns;
        if k < |ws| - 1 {
          assert prev[k] == ws[k];
        }
      }
    }
  }

  /** Locations are written worker by worker: with ports given out in
      increasing order, the ports of the locations never go down. */
  lemma {:induction false} RoutesInWorkerOrder(ws: seq<Worker>)
    requires forall i, j :: 0 <= i < j < |ws| ==> ws[i].port < ws[j].port
    ensures forall i, j :: 0 <= i < j < |Routes(ws)| ==> Routes(ws)[i].port <= Routes(ws)[j].port
    ensures forall l :: l in Routes(ws) ==> exists k :: 0 <= k < |ws| && ws[k].port == l.port
  {
    if ws != [] {
      var prev, last := ws[..|ws| - 1], ws[|ws| - 1];
      RoutesInWorkerOrder(prev);
      var rs, before, here := Routes(ws), Routes(prev), PatternLocations(last.def.endpointPatterns, last.port);
      assert rs == before + here;
      forall l | l in before ensures l.port < last.port {
        var k :| 0 <= k < |prev| && prev[k].port == l.port;
        assert prev[k] == ws[k];
      }
      forall i, j | 0 <= i < j < |rs| ensures rs[i].port <= rs[j].port {
        if j < |before| {
          assert rs[i] == before[i] && rs[j] == before[j];
          assert before[i].port <= before[j].port;
        } else if i < |before| {
          assert rs[i] == before[i] && rs[i] in before;
          assert rs[j] == here[j - |before|];
          assert rs[i].port < last.port;
          assert here[j - |before|].port == last.port;
        } else {
          assert rs[i] == here[i - |before|] && rs[j] == here[j - |before|];
          assert here[i - |before|].port == last.port;
          assert here[j - |before|].port == last.port;
        }
      }
      forall l | l in rs ensures exists k :: 0 <= k < |ws| && ws[k].port == l.port {
        if l in before {
          var k :| 0 <= k < |prev| && prev[k].port == l.port;
          assert ws[k] == prev[k];
        } else {
          var j :| 0 <= j < |here| && here[j] == l;
          assert ws[|ws| - 1].port == l.port;
        }
      }
    }
  }

  /** The catch-all is tried last and only once: no worker location can
      equal it, since every worker port is above the main process's port. */
  lemma CatchAllLast(reg: Registry, types: seq<string>)
    ensures var order := EvaluationOrder(Site(Workers(reg, types)));
      && |order| >= 1 && order[|order| - 1] == CatchAll
      && CatchAll.port == MainProcessPort
      && forall k :: 0 <= k < |order| - 1 ==> order[k] != CatchAll
  {
    var ws := Workers(reg, types);
    var order := EvaluationOrder(Site(ws));
    RoutesInWorkerOrder(ws);
    forall k | 0 <= k < |order| - 1 ensures order[k] != CatchAll {
      assert order[k] in Routes(ws);
    }
  }

  /** nginx's choice among regular-expression locations: the first one, in
      written order, whose pattern matches the request path. `Matches`
      stands for nginx's case-insensitive regular-expression match. */
  function FirstMatch(locs: seq<Location>, path: string, Matches: (string, string) -> bool): (r: Option<int>)
    ensures r.Some? <==> exists k :: 0 <= k < |locs| && Matches(locs[k].pattern, path)
    ensures r.Some? ==>
      exists k :: 0 <= k < |locs| && Matches(locs[k].pattern, path) && r.value == locs[k].port
        && forall j :: 0 <= j < k ==> !Matches(locs[j].pattern, path)
  {
    if locs == [] then None
    else if Matches(locs[0].pattern, path) then Some(locs[0].port)
    else
      var r := FirstMatch(locs[1..], path, Matches);
      assert r.Some? ==>
        exists k :: 0 <= k < |locs| && Matches(locs[k].pattern, path) && r.value == locs[k].port
          && forall j :: 0 <= j < k ==> !Matches(locs[j].pattern, path) by {
        if r.Some? {
          var k :| 0 <= k < |locs[1..]| && Matches(locs[1..][k].pattern, path) && r.value == locs[1..][k].port
            && forall j :: 0 <= j < k ==> !Matches(locs[1..][j].pattern, path);
          assert locs[k + 1] == locs[1..][k];
          forall j | 0 <= j < k + 1 ensures !Matches(locs[j].pattern, path) {
            if j > 0 {
              assert locs[j] == locs[1..][j - 1];
            }
          }
        }
      }
      assert (exists k :: 0 <= k < |locs| && Matches(locs[k].pattern, path)) ==> r.Some? by {
        if exists k :: 0 <= k < |locs| && Matches(locs[k].pattern, path) {
          var k :| 0 <= k < |locs| && Matches(locs[k].pattern, path);
          assert k > 0;
          assert locs[1..][k - 1] == locs[k];
        }
      }
      r
  }

  /** Trying the locations of `a` and then those of `b` picks from `a` when
      any of them matches. */
  lemma {:induction false} FirstMatchAppend(a: seq<Location>, b: seq<Location>, path: string, Matches: (string, string) -> bool)
    ensures FirstMatch(a + b, path, Matches)
      == if FirstMatch(a, path, Matches).Some? then FirstMatch(a, path, Matches) else FirstMatch(b, path, Matches)
  {
    if a != [] {
      assert (a + b)[1..] == a[1..] + b;
      FirstMatchAppend(a[1..], b, path, Matches);
    } else {
      assert a + b == b;
    }
  }

  /** Worker locations take precedence: a path claimed by some worker goes to
      the first worker location that matches it, and a path claimed by no
      worker goes to the main process when it is under `/_matrix` or
      `/_synapse`, and to no proxied location otherwise. */
  lemma Routing(reg: Registry, types: seq<string>, path: string, Matches: (string, string) -> bool)
    ensures var site := Site(Workers(reg, types));
      FirstMatch(EvaluationOrder(site), path, Matches)
      == if FirstMatch(site.locations, path, Matches).Some? then FirstMatch(site.locations, path, Matches)
         else if Matches(CatchAll.pattern, path) then Some(MainProcessPort)
         else None
  {
    var site := Site(Workers(reg, types));
    FirstMatchAppend(site.locations, [CatchAll], path, Matches);
    assert [CatchAll][1..] == [];
  }

  // ---------------------------------------------------------------------
  // Agreement between the artifacts

  /** For every worker of a run, all four artifacts agree: its descriptor is
      its registry entry plus its name, port and the main config path; its
      supervisord block runs its app on the main config, the shared config
      and its per-worker file, in that order (the file holds this very
      descriptor when no other worker has its name, see `OwnFile`); its shared
      config line is its `shared_extra_conf`; and the locations pointing at
      its port are exactly its endpoint patterns, in listed order. */
  lemma {:induction false} WorkerArtifactsAgree(reg: Registry, types: seq<string>, base: Option<seq<Listener>>,
                                                configPath: string, k: nat)
    requires k < |Workers(reg, types)|
    ensures var r := SynthesizeTypes(reg, types, base, configPath);
      k < |r.descriptors| && 2 + k < |r.supervisord.programs| && 2 + k < |r.shared|
    ensures var r := SynthesizeTypes(reg, types, base, configPath);
      var d := r.descriptors[k];
      && Lookup(reg, d.name) == Some(d.Def())
      && d.port == BasePort + k && d.configPath == configPath
      && r.supervisord.programs[2 + k].name == "synapse_" + d.name
      && r.supervisord.programs[2 + k].command
         == PythonModule(d.app, [configPath, SharedConfigPath, WorkerConfigPath(d.name)])
      && r.shared[2 + k] == ExtraConf(d.sharedExtraConf)
      && LocationsTo(r.nginx.locations, d.port) == PatternLocations(d.endpointPatterns, d.port)
  {
    var ws := Workers(reg, types);
    LocationsOfWorker(ws, k);
  }

  /** A descriptor whose name no other descriptor has is the one its
      per-worker file holds. */
  lemma OwnFile(ds: seq<Descriptor>, k: nat)
    requires k < |ds| && forall j :: 0 <= j < |ds| && j != k ==> ds[j].name != ds[k].name
    ensures ds[k].name in WorkerFiles(ds) && WorkerFiles(ds)[ds[k].name] == ds[k]
  {
    assert ds[k].name in WorkerFiles(ds);
    var k' :| LastNamed(ds, k', ds[k].name) && WorkerFiles(ds)[ds[k].name] == ds[k'];
    assert k' == k;
  }

  /** A name that two workers of a run share is not kept apart: both
      supervisord blocks are the same block, reading the same per-worker
      file, and that file no longer holds the earlier worker's descriptor,
      so the earlier port is written into no config. */
  lemma RepeatedName(reg: Registry, types: seq<string>, base: Option<seq<Listener>>, configPath: string, i: nat, j: nat)
    requires i < j < |Workers(reg, types)| && Workers(reg, types)[i].name == Workers(reg, types)[j].name
    ensures var r := SynthesizeTypes(reg, types, base, configPath);
      && 2 + j < |r.supervisord.programs| && r.supervisord.programs[2 + i] == r.supervisord.programs[2 + j]
      && j < |r.descriptors| && r.descriptors[i].name in WorkerFiles(r.descriptors)
      && WorkerFiles(r.descriptors)[r.descriptors[i].name].port >= BasePort + j
  {
    var ws := Workers(reg, types);
    SameNameSameDef(reg, types, i, j);
    PortAllocation(reg, types);
    RepeatedWorker(ws, configPath, i, j);
  }

  /** Two workers of a run with the same name have the same definition. */
  lemma SameNameSameDef(reg: Registry, types: seq<string>, i: nat, j: nat)
    requires i < |Workers(reg, types)| && j < |Workers(reg, types)|
    requires Workers(reg, types)[i].name == Workers(reg, types)[j].name
    ensures Workers(reg, types)[i].def == Workers(reg, types)[j].def
  {
    var acc := Accepted(reg, types);
    assert Lookup(reg, acc[i].0) == Some(acc[i].1) && Lookup(reg, acc[j].0) == Some(acc[j].1);
  }

  /** Of two workers with the same name and definition, on ports handed out
      in order, the later one's block is the earlier one's, and their file
      holds a descriptor with a port from the later one's on. */
  lemma RepeatedWorker(ws: seq<Worker>, configPath: string, i: nat, j: nat)
    requires i < j < |ws| && ws[i].name == ws[j].name && ws[i].def == ws[j].def
    requires forall k :: 0 <= k < |ws| ==> ws[k].port == BasePort + k
    ensures var conf, ds := SupervisordConf(ws, configPath), Descriptors(ws, configPath);
      && conf.programs[2 + i] == conf.programs[2 + j]
      && ds[i].name in WorkerFiles(ds) && WorkerFiles(ds)[ds[i].name].port >= BasePort + j
  {
    SameWorkerSameBlock(ws, configPath, i, j);
    FileAfterRepeat(ws, configPath, i, j);
  }

  /** With ports handed out in order, the file of a name two workers share
      holds a descriptor whose port is at least the later worker's. */
  lemma FileAfterRepeat(ws: seq<Worker>, configPath: string, i: nat, j: nat)
    requires i < j < |ws| && ws[i].name == ws[j].name
    requires forall k :: 0 <= k < |ws| ==> ws[k].port == BasePort + k
    ensures var ds := Descriptors(ws, configPath);
      ds[i].name in WorkerFiles(ds) && WorkerFiles(ds)[ds[i].name].port >= BasePort + j
  {
    var ds := Descriptors(ws, configPath);
    var k := FileOfRepeatedName(ds, i, j);
    assert ds[k].port == ws[k].port;
  }

  /** The block of a worker is made from its name and definition alone: the
      port does not reach it. */
  lemma SameWorkerSameBlock(ws: seq<Worker>, configPath: string, i: nat, j: nat)
    requires i < |ws| && j < |ws| && ws[i].name == ws[j].name && ws[i].def == ws[j].def
    ensures |SupervisordConf(ws, configPath).programs| == 2 + |ws|
    ensures SupervisordConf(ws, configPath).programs[2 + i] == SupervisordConf(ws, configPath).programs[2 + j]
  {
    var ps := WorkerPrograms(ws, configPath);
    assert SupervisordConf(ws, configPath).programs == [NginxProgram, MainProgram(configPath)] + ps;
    assert ps[i] == WorkerProgram(ws[i], configPath) && ps[j] == WorkerProgram(ws[j], configPath);
  }

  /** The file of a name given to `ds[i]` and again to a later `ds[j]`
      holds a descriptor from `j` on. */
  lemma FileOfRepeatedName(ds: seq<Descriptor>, i: nat, j: nat) returns (k: nat)
    requires i < j < |ds| && ds[i].name == ds[j].name
    ensures j <= k < |ds| && ds[i].name in WorkerFiles(ds) && WorkerFiles(ds)[ds[i].name] == ds[k]
  {
    var n := ds[i].name;
    assert n in WorkerFiles(ds);
    var last :| LastNamed(ds, last, n) && WorkerFiles(ds)[n] == ds[last];
    k := last;
  }

  /** The locations of a list that point at `port`, in order. */
  function LocationsTo(locs: seq<Location>, port: int): (r: seq<Location>)
    ensures forall l :: l in r <==> l in locs && l.port == port
  {
    if locs == [] then []
    else LocationsTo(locs[..|locs| - 1], port) + (if locs[|locs| - 1].port == port then [locs[|locs| - 1]] else [])
  }

  lemma {:induction false} LocationsToAppend(a: seq<Location>, b: seq<Location>, port: int)
    ensures LocationsTo(a + b, port) == LocationsTo(a, port) + LocationsTo(b, port)
  {
    if b != [] {
      assert (a + b)[..|a + b| - 1] == a + b[..|b| - 1];
      LocationsToAppend(a, b[..|b| - 1], port);
    } else {
      assert a + b == a;
    }
  }

  lemma {:induction false} LocationsToOwnPort(patterns: seq<string>, port: int)
    ensures LocationsTo(PatternLocations(patterns, port), port) == PatternLocations(patterns, port)
  {
    if patterns != [] {
      LocationsToOwnPort(patterns[..|patterns| - 1], port);
    }
  }

  lemma LocationsToNone(locs: seq<Location>, port: int)
    requires forall l :: l in locs ==> l.port != port
    ensures LocationsTo(locs, port) == []
  {
    if LocationsTo(locs, port) != [] {
      assert LocationsTo(locs, port)[0] in LocationsTo(locs, port);
    }
  }

  /** With distinct, increasing ports, the locations pointing at a worker's
      port are that worker's patterns, in listed order. */
  lemma {:induction false} LocationsOfWorker(ws: seq<Worker>, k: nat)
    requires k < |ws|
    requires forall i, j :: 0 <= i < j < |ws| ==> ws[i].port < ws[j].port
    ensures LocationsTo(Routes(ws), ws[k].port) == PatternLocations(ws[k].def.endpointPatterns, ws[k].port)
  {
    var prev, last := ws[..|ws| - 1], ws[|ws| - 1];
    var p := ws[k].port;
    LocationsToAppend(Routes(prev), PatternLocations(last.def.endpointPatterns, last.port), p);
    if k == |ws| - 1 {
      RoutesInWorkerOrder(prev);
      forall l | l in Routes(prev) ensures l.port != p {
        var j :| 0 <= j < |prev| && prev[j].port == l.port;
        assert prev[j] == ws[j];
      }
      LocationsToNone(Routes(prev), p);
      LocationsToOwnPort(last.def.endpointPatterns, p);
    } else {
      assert prev[k] == ws[k];
      LocationsOfWorker(prev, k);
      LocationsToNone(PatternLocations(last.def.endpointPatterns, last.port), p);
    }
  }
}
