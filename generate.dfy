/**
  The generator itself: one pass over the requested worker types that keeps
  a port counter and appends to the shared config, the supervisord program
  list, the nginx location list, the descriptor list and the log. It is
  proved to produce exactly the artifacts `Topology.Synthesize` describes.
 */
module Generate {
  import opened Wrappers
  import opened Text
  import opened Registry
  import opened Topology

  /** Giving out one more port extends the allocation by one worker whose
      port is the counter's current value. */
  lemma AllocatePortsSnoc(acc: seq<(string, WorkerDef)>, x: (string, WorkerDef), next: int)
    ensures AllocatePorts(acc + [x], next) == AllocatePorts(acc, next) + [Worker(x.0, x.1, next + |acc|)]
  {
    var l, r := AllocatePorts(acc + [x], next), AllocatePorts(acc, next) + [Worker(x.0, x.1, next + |acc|)];
    assert |l| == |r|;
    forall k | 0 <= k < |l| ensures l[k] == r[k] {
      if k < |acc| {
        assert (acc + [x])[k] == acc[k];
      }
    }
  }

  /** Accepting one more worker appends its extra line to the shared config. */
  lemma SharedConfigSnoc(base: Option<seq<Listener>>, ws: seq<Worker>, w: Worker)
    ensures SharedConfig(base, ws + [w]) == SharedConfig(base, ws) + [ExtraConf(w.def.sharedExtraConf)]
  {
    assert (ws + [w])[..|ws|] == ws;
  }

  /** Accepting one more worker appends its program block. */
  lemma WorkerProgramsSnoc(ws: seq<Worker>, w: Worker, configPath: string)
    ensures WorkerPrograms(ws + [w], configPath) == WorkerPrograms(ws, configPath) + [WorkerProgram(w, configPath)]
  {
    assert (ws + [w])[..|ws|] == ws;
  }

  /** Accepting one more worker appends its locations to the site. */
  lemma RoutesSnoc(ws: seq<Worker>, w: Worker)
    ensures Routes(ws + [w]) == Routes(ws) + PatternLocations(w.def.endpointPatterns, w.port)
  {
    assert (ws + [w])[..|ws|] == ws;
  }

  /** Accepting one more worker appends its descriptor. */
  lemma DescriptorsSnoc(ws: seq<Worker>, w: Worker, configPath: string)
    ensures Descriptors(ws + [w], configPath) == Descriptors(ws, configPath) + [DescriptorOf(w, configPath)]
  {
    assert (ws + [w])[..|ws|] == ws;
  }

  /** A requested type that is not registered adds a log line and no worker. */
  lemma SkipStep(reg: Registry, types: seq<string>, i: nat)
    requires i < |types| && Lookup(reg, Strip(types[i])).None?
    ensures Workers(reg, types[..i + 1]) == Workers(reg, types[..i])
    ensures SkipLog(reg, types[..i + 1]) == SkipLog(reg, types[..i]) + [SkipMessage(Strip(types[i]))]
  {
    assert types[..i + 1][..i] == types[..i];
  }

  /** A registered type adds one worker, on the next port, and no log line. */
  lemma AcceptStep(reg: Registry, types: seq<string>, i: nat, def: WorkerDef)
    requires i < |types| && Lookup(reg, Strip(types[i])) == Some(def)
    ensures var prev := Workers(reg, types[..i]);
      Workers(reg, types[..i + 1]) == prev + [Worker(Strip(types[i]), def, BasePort + |prev|)]
    ensures SkipLog(reg, types[..i + 1]) == SkipLog(reg, types[..i])
  {
    assert types[..i + 1][..i] == types[..i];
    AllocatePortsSnoc(Accepted(reg, types[..i]), (Strip(types[i]), def), BasePort);
  }

  /** The inner loop of the generator: one location per endpoint pattern of
      a worker, in listed order, all proxying to that worker's port. */
  method AppendPatternLocations(locations: seq<Location>, patterns: seq<string>, port: int)
    returns (out: seq<Location>)
    ensures out == locations + PatternLocations(patterns, port)
  {
    out := locations;
    var j := 0;
    while j < |patterns|
      invariant 0 <= j <= |patterns|
      invariant out == locations + PatternLocations(patterns[..j], port)
    {
      assert patterns[..j + 1][..j] == patterns[..j];
      out := out + [Location(patterns[j], port)];
      j := j + 1;
    }
    assert patterns[..j] == patterns;
  }

  /** Starts from the replication listener and appends the base config's
      listeners, when it has any. */
  method ListenersWithReplication(base: Option<seq<Listener>>) returns (listeners: seq<Listener>)
    ensures listeners == SharedListeners(base)
  {
    listeners := [ReplicationListener];
    if base.Some? && |base.value| > 0 {
      listeners := listeners + base.value;
    }
  }

  /** Emits one accepted worker: its shared-config line, its supervisord
      block, one location per endpoint pattern and its descriptor. Each
      accumulator, built so far for the workers `ws`, is extended to the one
      for `ws + [w]`. */
  method EmitWorker(ghost ws: seq<Worker>, w: Worker, base: Option<seq<Listener>>, configPath: string,
                    shared: seq<SharedFragment>, programs: seq<Program>,
                    locations: seq<Location>, descriptors: seq<Descriptor>)
    returns (shared': seq<SharedFragment>, programs': seq<Program>,
             locations': seq<Location>, descriptors': seq<Descriptor>)
    requires shared == SharedConfig(base, ws)
    requires programs == [NginxProgram, MainProgram(configPath)] + WorkerPrograms(ws, configPath)
    requires locations == Routes(ws)
    requires descriptors == Descriptors(ws, configPath)
    ensures shared' == SharedConfig(base, ws + [w])
    ensures programs' == [NginxProgram, MainProgram(configPath)] + WorkerPrograms(ws + [w], configPath)
    ensures locations' == Routes(ws + [w])
    ensures descriptors' == Descriptors(ws + [w], configPath)
  {
    SharedConfigSnoc(base, ws, w);
    WorkerProgramsSnoc(ws, w, configPath);
    RoutesSnoc(ws, w);
    DescriptorsSnoc(ws, w, configPath);
    shared' := shared + [ExtraConf(w.def.sharedExtraConf)];
    programs' := programs + [WorkerProgram(w, configPath)];
    locations' := AppendPatternLocations(locations, w.def.endpointPatterns, w.port);
    descriptors' := descriptors + [DescriptorOf(w, configPath)];
  }

  /** One turn of the generator's loop, over the `i`-th requested type: an
      unknown type is logged; a known one gets the next port and is
      emitted. Each accumulator, built for `types[..i]`, is extended to the
      one for `types[..i + 1]`. */
  method ProcessType(reg: Registry, types: seq<string>, i: nat, base: Option<seq<Listener>>, configPath: string,
                     ghost ws: seq<Worker>, port: int,
                     shared: seq<SharedFragment>, programs: seq<Program>,
                     locations: seq<Location>, descriptors: seq<Descriptor>, log: seq<string>)
    returns (ghost ws': seq<Worker>, port': int,
             shared': seq<SharedFragment>, programs': seq<Program>,
             locations': seq<Location>, descriptors': seq<Descriptor>, log': seq<string>)
    requires i < |types|
    requires ws == Workers(reg, types[..i]) && port == BasePort + |ws|
    requires shared == SharedConfig(base, ws)
    requires programs == [NginxProgram, MainProgram(configPath)] + WorkerPrograms(ws, configPath)
    requires locations == Routes(ws)
    requires descriptors == Descriptors(ws, configPath)
    requires log == SkipLog(reg, types[..i])
    ensures ws' == Workers(reg, types[..i + 1]) && port' == BasePort + |ws'|
    ensures shared' == SharedConfig(base, ws')
    ensures programs' == [NginxProgram, MainProgram(configPath)] + WorkerPrograms(ws', configPath)
    ensures locations' == Routes(ws')
    ensures descriptors' == Descriptors(ws', configPath)
    ensures log' == SkipLog(reg, types[..i + 1])
  {
    var name := Strip(types[i]);
    var found := Lookup(reg, name);
    if found.None? {
      SkipStep(reg, types, i);
      ws', port', shared', programs', locations', descriptors' := ws, port, shared, programs, locations, descriptors;
      log' := log + [SkipMessage(name)];
    } else {
      var def := found.value;
      AcceptStep(reg, types, i, def);
      var w := Worker(name, def, port);
      shared', programs', locations', descriptors' :=
        EmitWorker(ws, w, base, configPath, shared, programs, locations, descriptors);
      ws' := ws + [w];
      port' := port + 1;
      log' := log;
    }
  }

  /** Generates the worker files of one run. `environ` is the process
      environment, `base` the base config's `listeners` value and
      `configPath` the main config path. */
  method GenerateWorkerFiles(reg: Registry, environ: map<string, string>, base: Option<seq<Listener>>, configPath: string)
    returns (out: Artifacts)
    ensures out == Synthesize(reg, environ, base, configPath)
  {
    // The shared config starts with the listeners and the redis flag.
    var listeners := ListenersWithReplication(base);
    var shared := [ListenersBlock(listeners), RedisEnabled];
    var programs := [NginxProgram, MainProgram(configPath)];
    var locations: seq<Location> := [];
    var descriptors: seq<Descriptor> := [];
    var log: seq<string> := [];

    var types := ParseRequest(reg, environ);
    var port := BasePort;
    ghost var ws: seq<Worker> := [];

    var i := 0;
    while i < |types|
      invariant 0 <= i <= |types|
      invariant ws == Workers(reg, types[..i])
      invariant port == BasePort + |ws|
      invariant shared == SharedConfig(base, ws)
      invariant programs == [NginxProgram, MainProgram(configPath)] + WorkerPrograms(ws, configPath)
      invariant locations == Routes(ws)
      invariant descriptors == Descriptors(ws, configPath)
      invariant log == SkipLog(reg, types[..i])
    {
      ws, port, shared, programs, locations, descriptors, log :=
        ProcessType(reg, types, i, base, configPath, ws, port, shared, programs, locations, descriptors, log);
      i := i + 1;
    }
    assert types[..i] == types;
    assert SupervisordConf(ws, configPath) == Supervisord(true, programs);
    assert Site(ws) == NginxSite(ProxyListenPort, "localhost", ClientMaxBodySize, locations, CatchAll);

    out := Artifacts(shared,
                     NginxSite(ProxyListenPort, "localhost", ClientMaxBodySize, locations, CatchAll),
                     Supervisord(true, programs),
                     descriptors,
                     log);
  }
}
