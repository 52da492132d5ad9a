/**
  Whole runs of the generator: two registered types, the absent request, a
  repeated type, and a request with padding and an unknown name. Each run is
  stated over any registry with distinct, listable names and then
  instantiated with the registry literal.
 */
module Scenarios {
  import opened Wrappers
  import opened Text
  import opened Registry
  import opened Topology
  import opened Properties

  /** A comma-separated request of names without commas parses into those
      names. */
  lemma RequestOf(reg: Registry, environ: map<string, string>, parts: seq<string>)
    requires |parts| >= 1 && forall k :: 0 <= k < |parts| ==> ',' !in parts[k]
    requires WorkersVariable in environ && environ[WorkersVariable] == Join(parts, ',')
    requires environ[WorkersVariable] != "*"
    ensures ParseRequest(reg, environ) == parts
  {
    SplitJoin(parts, ',');
  }

  /** A listable registered name needs no stripping and holds no comma. */
  lemma ListableEntry(reg: Registry, k: nat)
    requires ListableNames(reg) && k < |reg|
    ensures Strip(reg[k].0) == reg[k].0 && ',' !in reg[k].0
  {
    StripUnchanged(reg[k].0);
  }

  /** ` n , u` is the padded names joined by a comma. */
  lemma PaddedPair(n: string, u: string)
    requires ',' !in n && ',' !in u
    ensures ',' !in " " + n + " " && ',' !in " " + u
    ensures " " + n + " " + "," + " " + u == (" " + n + " ") + [','] + (" " + u)
  {
  }

  /** A request of two names without commas parses into the two names. */
  lemma PairRequest(reg: Registry, environ: map<string, string>, a: string, b: string)
    requires ',' !in a && ',' !in b
    requires WorkersVariable in environ && environ[WorkersVariable] == a + [','] + b
    ensures ParseRequest(reg, environ) == [a, b]
  {
    var parts := [a, b];
    assert parts[1..] == [b];
    assert Join(parts, ',') == a + [','] + b;
    assert ',' in environ[WorkersVariable];
    RequestOf(reg, environ, parts);
  }

  /** The request `a,b` of two registered types (the same one twice, too)
      parses into the two names and accepts both, in request order, on the
      first two ports. */
  lemma TwoRegisteredRun(reg: Registry, environ: map<string, string>, base: Option<seq<Listener>>, configPath: string,
                         i: nat, j: nat)
    requires UniqueKeys(reg) && ListableNames(reg) && i < |reg| && j < |reg|
    requires WorkersVariable in environ && environ[WorkersVariable] == reg[i].0 + "," + reg[j].0
    ensures ParseRequest(reg, environ) == [reg[i].0, reg[j].0]
    ensures Workers(reg, [reg[i].0, reg[j].0]) == [Worker(reg[i].0, reg[i].1, BasePort), Worker(reg[j].0, reg[j].1, BasePort + 1)]
    ensures SkipLog(reg, [reg[i].0, reg[j].0]) == []
  {
    var a, b := reg[i].0, reg[j].0;
    ListableEntry(reg, i);
    ListableEntry(reg, j);
    PairRequest(reg, environ, a, b);
    LookupEntry(reg, i);
    LookupEntry(reg, j);
    TwoRegisteredWorkers(reg, a, b, reg[i].1, reg[j].1);
  }

  /** The request `a,b` of two registered types: nothing is logged, and the
      descriptors and the shared config list the two workers in request
      order. */
  lemma TwoRegistered(reg: Registry, environ: map<string, string>, base: Option<seq<Listener>>, configPath: string,
                      i: nat, j: nat)
    requires UniqueKeys(reg) && ListableNames(reg) && i < |reg| && j < |reg|
    requires WorkersVariable in environ && environ[WorkersVariable] == reg[i].0 + "," + reg[j].0
    ensures var r := Synthesize(reg, environ, base, configPath);
      var wa, wb := Worker(reg[i].0, reg[i].1, BasePort), Worker(reg[j].0, reg[j].1, BasePort + 1);
      && r.log == []
      && r.descriptors == [DescriptorOf(wa, configPath), DescriptorOf(wb, configPath)]
      && r.shared == [ListenersBlock(SharedListeners(base)), RedisEnabled,
                      ExtraConf(reg[i].1.sharedExtraConf), ExtraConf(reg[j].1.sharedExtraConf)]
  {
    TwoRegisteredRun(reg, environ, base, configPath, i, j);
    TwoWorkersRun(reg, [reg[i].0, reg[j].0], base, configPath,
                  Worker(reg[i].0, reg[i].1, BasePort), Worker(reg[j].0, reg[j].1, BasePort + 1));
  }

  /** The request `a,b`: supervisord runs nginx, the main process and then
      the two workers, in request order. */
  lemma TwoRegisteredPrograms(reg: Registry, environ: map<string, string>, base: Option<seq<Listener>>, configPath: string,
                              i: nat, j: nat)
    requires UniqueKeys(reg) && ListableNames(reg) && i < |reg| && j < |reg|
    requires WorkersVariable in environ && environ[WorkersVariable] == reg[i].0 + "," + reg[j].0
    ensures var r := Synthesize(reg, environ, base, configPath);
      var wa, wb := Worker(reg[i].0, reg[i].1, BasePort), Worker(reg[j].0, reg[j].1, BasePort + 1);
      r.supervisord.programs
      == [NginxProgram, MainProgram(configPath), WorkerProgram(wa, configPath), WorkerProgram(wb, configPath)]
  {
    TwoRegisteredRun(reg, environ, base, configPath, i, j);
    TwoWorkersRun(reg, [reg[i].0, reg[j].0], base, configPath,
                  Worker(reg[i].0, reg[i].1, BasePort), Worker(reg[j].0, reg[j].1, BasePort + 1));
  }

  /** The request `a,b`: the site routes the first type's patterns to the
      first port, then the second type's to the second port. */
  lemma TwoRegisteredRoutes(reg: Registry, environ: map<string, string>, base: Option<seq<Listener>>, configPath: string,
                            i: nat, j: nat)
    requires UniqueKeys(reg) && ListableNames(reg) && i < |reg| && j < |reg|
    requires WorkersVariable in environ && environ[WorkersVariable] == reg[i].0 + "," + reg[j].0
    ensures Synthesize(reg, environ, base, configPath).nginx.locations
            == PatternLocations(reg[i].1.endpointPatterns, BasePort) + PatternLocations(reg[j].1.endpointPatterns, BasePort + 1)
  {
    TwoRegisteredRun(reg, environ, base, configPath, i, j);
    TwoWorkersRun(reg, [reg[i].0, reg[j].0], base, configPath,
                  Worker(reg[i].0, reg[i].1, BasePort), Worker(reg[j].0, reg[j].1, BasePort + 1));
  }

  /** The request `a,a` of one registered type twice: the two supervisord
      blocks are the same block, and the one per-worker file of the name
      holds the second descriptor, on the second port. */
  lemma RepeatedRequest(reg: Registry, environ: map<string, string>, base: Option<seq<Listener>>, configPath: string,
                        i: nat)
    requires UniqueKeys(reg) && ListableNames(reg) && i < |reg|
    requires WorkersVariable in environ && environ[WorkersVariable] == reg[i].0 + "," + reg[i].0
    ensures var r := Synthesize(reg, environ, base, configPath);
      && |r.supervisord.programs| == 4 && r.supervisord.programs[2] == r.supervisord.programs[3]
      && |r.descriptors| == 2 && r.descriptors[1].port == BasePort + 1
      && WorkerFiles(r.descriptors) == map[reg[i].0 := r.descriptors[1]]
  {
    TwoRegistered(reg, environ, base, configPath, i, i);
    TwoRegisteredPrograms(reg, environ, base, configPath, i, i);
    var wa, wb := Worker(reg[i].0, reg[i].1, BasePort), Worker(reg[i].0, reg[i].1, BasePort + 1);
    assert WorkerProgram(wa, configPath) == WorkerProgram(wb, configPath);
    SameNameOneFile(DescriptorOf(wa, configPath), DescriptorOf(wb, configPath));
  }

  /** Two descriptors with the same name leave one file, holding the second. */
  lemma SameNameOneFile(da: Descriptor, db: Descriptor)
    requires da.name == db.name
    ensures WorkerFiles([da, db]) == map[db.name := db]
  {
    assert [da, db][..1] == [da];
    assert [da][..0] == [];
  }

  /** The artifacts of a run that accepts two workers and logs nothing. */
  lemma TwoWorkersRun(reg: Registry, types: seq<string>, base: Option<seq<Listener>>, configPath: string,
                      wa: Worker, wb: Worker)
    requires Workers(reg, types) == [wa, wb] && SkipLog(reg, types) == []
    ensures SynthesizeTypes(reg, types, base, configPath)
            == Artifacts(
                 [ListenersBlock(SharedListeners(base)), RedisEnabled, ExtraConf(wa.def.sharedExtraConf), ExtraConf(wb.def.sharedExtraConf)],
                 NginxSite(ProxyListenPort, "localhost", ClientMaxBodySize,
                           PatternLocations(wa.def.endpointPatterns, wa.port) + PatternLocations(wb.def.endpointPatterns, wb.port),
                           CatchAll),
                 Supervisord(true, [NginxProgram, MainProgram(configPath), WorkerProgram(wa, configPath), WorkerProgram(wb, configPath)]),
                 [DescriptorOf(wa, configPath), DescriptorOf(wb, configPath)],
                 [])
  {
    TwoWorkersArtifacts([wa, wb], base, configPath);
  }

  /** Two registered types take the first two ports and log nothing. */
  lemma TwoRegisteredWorkers(reg: Registry, a: string, b: string, da: WorkerDef, db: WorkerDef)
    requires Lookup(reg, Strip(a)) == Some(da) && Lookup(reg, Strip(b)) == Some(db)
    ensures Workers(reg, [a, b]) == [Worker(Strip(a), da, BasePort), Worker(Strip(b), db, BasePort + 1)]
    ensures SkipLog(reg, [a, b]) == []
  {
    var parts := [a, b];
    assert parts[..1] == [a];
    OneRegistered(reg, a, da);
    assert Accepted(reg, parts) == [(Strip(a), da), (Strip(b), db)];
    assert SkipLog(reg, parts) == [];
    var ws := AllocatePorts([(Strip(a), da), (Strip(b), db)], BasePort);
    assert ws[0] == Worker(Strip(a), da, BasePort) && ws[1] == Worker(Strip(b), db, BasePort + 1);
  }

  /** A single registered type is accepted and not logged. */
  lemma OneRegistered(reg: Registry, a: string, da: WorkerDef)
    requires Lookup(reg, Strip(a)) == Some(da)
    ensures Accepted(reg, [a]) == [(Strip(a), da)] && SkipLog(reg, [a]) == []
  {
    assert [a][..0] == [];
  }

  /** The artifacts of two workers list both, in order. */
  lemma TwoWorkersArtifacts(ws: seq<Worker>, base: Option<seq<Listener>>, configPath: string)
    requires |ws| == 2
    ensures Descriptors(ws, configPath) == [DescriptorOf(ws[0], configPath), DescriptorOf(ws[1], configPath)]
    ensures WorkerPrograms(ws, configPath) == [WorkerProgram(ws[0], configPath), WorkerProgram(ws[1], configPath)]
    ensures SharedConfig(base, ws)
            == [ListenersBlock(SharedListeners(base)), RedisEnabled, ExtraConf(ws[0].def.sharedExtraConf), ExtraConf(ws[1].def.sharedExtraConf)]
    ensures Routes(ws) == PatternLocations(ws[0].def.endpointPatterns, ws[0].port)
                          + PatternLocations(ws[1].def.endpointPatterns, ws[1].port)
  {
    assert ws[..1] == [ws[0]] && ws[..1][..0] == [];
    assert Routes(ws[..1]) == PatternLocations(ws[0].def.endpointPatterns, ws[0].port);
  }

  /** The request ` n , u` of a registered name `n` and an unregistered name
      `u`, with blanks around them: the blanks are stripped, `n` gets the
      first port, and `u` is logged and gets no port. */
  lemma PaddedAndUnknown(reg: Registry, environ: map<string, string>, base: Option<seq<Listener>>, configPath: string,
                         i: nat, u: string)
    requires UniqueKeys(reg) && ListableNames(reg) && i < |reg| && reg[i].0 != []
    requires u != [] && !IsSpace(u[0]) && !IsSpace(u[|u| - 1]) && ',' !in u && u !in Keys(reg)
    requires WorkersVariable in environ && environ[WorkersVariable] == " " + reg[i].0 + " " + "," + " " + u
    ensures var r := Synthesize(reg, environ, base, configPath);
      && r.descriptors == [DescriptorOf(Worker(reg[i].0, reg[i].1, BasePort), configPath)]
      && r.log == [SkipMessage(u)]
  {
    var n := reg[i].0;
    var parts := [" " + n + " ", " " + u];
    ListableEntry(reg, i);
    PaddedPair(n, u);
    PairRequest(reg, environ, parts[0], parts[1]);
    PaddedWorkers(reg, i, u);
    OneWorkerRun(reg, parts, base, configPath, Worker(n, reg[i].1, BasePort));
  }

  /** The worker and the log line of the padded request. */
  lemma PaddedWorkers(reg: Registry, i: nat, u: string)
    requires UniqueKeys(reg) && ListableNames(reg) && i < |reg| && reg[i].0 != []
    requires u != [] && !IsSpace(u[0]) && !IsSpace(u[|u| - 1]) && u !in Keys(reg)
    ensures Workers(reg, [" " + reg[i].0 + " ", " " + u]) == [Worker(reg[i].0, reg[i].1, BasePort)]
    ensures SkipLog(reg, [" " + reg[i].0 + " ", " " + u]) == [SkipMessage(u)]
  {
    var n := reg[i].0;
    ListableEntry(reg, i);
    StripPadded(n, " ", " ");
    StripPadded(u, " ", "");
    assert " " + u + "" == " " + u;
    LookupEntry(reg, i);
    AcceptThenSkip(reg, " " + n + " ", " " + u, reg[i].1);
  }

  /** A run that accepts one worker lists one descriptor. */
  lemma OneWorkerRun(reg: Registry, types: seq<string>, base: Option<seq<Listener>>, configPath: string, w: Worker)
    requires Workers(reg, types) == [w]
    ensures SynthesizeTypes(reg, types, base, configPath).descriptors == [DescriptorOf(w, configPath)]
    ensures SynthesizeTypes(reg, types, base, configPath).log == SkipLog(reg, types)
  {
    assert [w][..0] == [];
  }

  /** A registered type followed by an unknown one: one worker, on the first
      port, and one log line naming the unknown type. */
  lemma AcceptThenSkip(reg: Registry, a: string, b: string, da: WorkerDef)
    requires Lookup(reg, Strip(a)) == Some(da) && Lookup(reg, Strip(b)) == None
    ensures Workers(reg, [a, b]) == [Worker(Strip(a), da, BasePort)]
    ensures SkipLog(reg, [a, b]) == [SkipMessage(Strip(b))]
  {
    var parts := [a, b];
    assert parts[..1] == [a] && parts[..0] == [];
    assert Accepted(reg, [a]) == [(Strip(a), da)];
    assert Accepted(reg, parts) == [(Strip(a), da)];
    assert SkipLog(reg, [a]) == [];
  }

  /** No `SYNAPSE_WORKERS`: only nginx and the main process, only the
      catch-all location, and a shared config of listeners and the redis
      flag. */
  lemma NoWorkers(environ: map<string, string>, base: Option<seq<Listener>>, configPath: string)
    requires WorkersVariable !in environ
    ensures var r := Synthesize(WorkersConfig, environ, base, configPath);
      && r.supervisord.programs == [NginxProgram, MainProgram(configPath)]
      && EvaluationOrder(r.nginx) == [CatchAll]
      && r.shared == [ListenersBlock(SharedListeners(base)), RedisEnabled]
      && r.descriptors == [] && r.log == []
  {
  }

  /** The request `federation_reader,user_dir` against the registry literal:
      two workers, on 18009 and 18010, and nothing logged. */
  lemma FederationReaderAndUserDir(environ: map<string, string>, base: Option<seq<Listener>>, configPath: string)
    requires WorkersVariable in environ && environ[WorkersVariable] == WorkersConfig[6].0 + "," + WorkersConfig[1].0
    ensures WorkersConfig[6].0 == "federation_reader" && WorkersConfig[1].0 == "user_dir"
    ensures var r := Synthesize(WorkersConfig, environ, base, configPath);
      && r.log == []
      && |r.descriptors| == 2 && r.descriptors[0].port == 18009 && r.descriptors[1].port == 18010
  {
    WorkersConfigUniqueKeys();
    WorkersConfigListable();
    TwoRegistered(WorkersConfig, environ, base, configPath, 6, 1);
  }

  /** The same request: the shared config gets the federation reader's empty
      line and then the user-directory flag. */
  lemma FederationReaderAndUserDirShared(environ: map<string, string>, base: Option<seq<Listener>>, configPath: string)
    requires WorkersVariable in environ && environ[WorkersVariable] == WorkersConfig[6].0 + "," + WorkersConfig[1].0
    ensures var r := Synthesize(WorkersConfig, environ, base, configPath);
      r.shared == [ListenersBlock(SharedListeners(base)), RedisEnabled, ExtraConf(""), ExtraConf("update_user_directory: false")]
  {
    WorkersConfigUniqueKeys();
    WorkersConfigListable();
    TwoRegistered(WorkersConfig, environ, base, configPath, 6, 1);
  }

  /** The same request: the federation patterns are routed to 18009 and the
      user-directory search to 18010, ahead of the catch-all. */
  lemma FederationReaderAndUserDirRouting(environ: map<string, string>, base: Option<seq<Listener>>, configPath: string)
    requires WorkersVariable in environ && environ[WorkersVariable] == WorkersConfig[6].0 + "," + WorkersConfig[1].0
    ensures var r := Synthesize(WorkersConfig, environ, base, configPath);
      EvaluationOrder(r.nginx)
      == PatternLocations(WorkersConfig[6].1.endpointPatterns, 18009)
         + PatternLocations(WorkersConfig[1].1.endpointPatterns, 18010) + [CatchAll]
  {
    WorkersConfigUniqueKeys();
    WorkersConfigListable();
    TwoRegisteredRoutes(WorkersConfig, environ, base, configPath, 6, 1);
  }

  /** Requesting `pusher` twice is not deduplicated: two descriptors on two
      ports, but both supervisord blocks are the same block, reading the one
      per-worker file of the name, which holds the last descriptor (port
      18010). */
  lemma RepeatedType(environ: map<string, string>, base: Option<seq<Listener>>, configPath: string)
    requires WorkersVariable in environ && environ[WorkersVariable] == WorkersConfig[0].0 + "," + WorkersConfig[0].0
    ensures WorkersConfig[0].0 == "pusher"
    ensures var r := Synthesize(WorkersConfig, environ, base, configPath);
      && |r.supervisord.programs| == 4
      && r.supervisord.programs[2].name == r.supervisord.programs[3].name
      && |r.descriptors| == 2 && r.descriptors[0].port == 18009 && r.descriptors[1].port == 18010
      && r.nginx.locations == []
      && r.supervisord.programs[2] == r.supervisord.programs[3]
      && WorkerFiles(r.descriptors) == map[WorkersConfig[0].0 := r.descriptors[1]]
  {
    WorkersConfigUniqueKeys();
    WorkersConfigListable();
    TwoRegistered(WorkersConfig, environ, base, configPath, 0, 0);
    TwoRegisteredPrograms(WorkersConfig, environ, base, configPath, 0, 0);
    TwoRegisteredRoutes(WorkersConfig, environ, base, configPath, 0, 0);
    RepeatedRequest(WorkersConfig, environ, base, configPath, 0);
  }

  /** The request ` user_dir , bogus` against the registry literal. */
  lemma UserDirAndBogus(environ: map<string, string>, base: Option<seq<Listener>>, configPath: string)
    requires WorkersVariable in environ && environ[WorkersVariable] == " " + WorkersConfig[1].0 + " " + "," + " " + "bogus"
    ensures var r := Synthesize(WorkersConfig, environ, base, configPath);
      && |r.descriptors| == 1
      && r.descriptors[0].name == WorkersConfig[1].0 && r.descriptors[0].port == 18009
      && r.log == [SkipMessage("bogus")]
  {
    WorkersConfigUniqueKeys();
    WorkersConfigListable();
    assert forall k :: 0 <= k < |WorkersConfig| ==> WorkersConfig[k].0 != "bogus";
    PaddedAndUnknown(WorkersConfig, environ, base, configPath, 1, "bogus");
  }
}
