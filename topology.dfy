/**
  What one run of the worker-file generator produces, as structured values.

  From the worker types requested in `SYNAPSE_WORKERS`, the base config's
  listeners and the main config path, a run yields four artifacts that must
  agree with each other: the shared homeserver config fragment, the nginx
  site, the supervisord program list and one descriptor per worker (the
  values handed to the per-worker config template). Unknown types only leave
  a log line.

  Every list an artifact accumulates is defined "by its last element", as
  the generator appends to it, so that each step of the generator's loop
  extends these functions by one worker.
 */
module Topology {
  import opened Wrappers
  import opened Text
  import opened Registry

  /** The first port handed to a worker; each accepted worker takes the next one. */
  const BasePort: int := 18009
  /** The main process's HTTP listener, target of the catch-all route. */
  const MainProcessPort: int := 8008
  /** The port nginx listens on (IPv4 and IPv6). */
  const ProxyListenPort: int := 8080
  /** The port of the replication listener added to the shared config. */
  const ReplicationPort: int := 9093
  const ClientMaxBodySize: string := "100M"
  const SharedConfigPath: string := "/conf/workers/shared.yaml"
  /** The environment variable holding the requested worker types. */
  const WorkersVariable: string := "SYNAPSE_WORKERS"

  /** Where the per-worker config rendered from a descriptor is written. */
  function WorkerConfigPath(name: string): string {
    "/conf/workers/" + name + ".yaml"
  }

  // ---------------------------------------------------------------------
  // Request parsing and registry lookup

  /** Reads `SYNAPSE_WORKERS` and turns it into the list of requested type
      names, not yet stripped: absent means none, `*` means every registered
      type in registry order, anything else is split on commas. */
  function ParseRequest(reg: Registry, environ: map<string, string>): (types: seq<string>)
    ensures WorkersVariable !in environ ==> types == []
    ensures WorkersVariable in environ && environ[WorkersVariable] == "*" ==> types == Keys(reg)
    ensures WorkersVariable in environ && environ[WorkersVariable] != "*" ==>
      && |types| >= 1
      && (forall k :: 0 <= k < |types| ==> ',' !in types[k])
      && Join(types, ',') == environ[WorkersVariable]
  {
    if WorkersVariable !in environ then []
    else if environ[WorkersVariable] == "*" then Keys(reg)
    else Split(environ[WorkersVariable], ',')
  }

  /** The requested types that are registered, stripped and paired with their
      definitions, in request order. Repeated types are kept. */
  function Accepted(reg: Registry, types: seq<string>): (acc: seq<(string, WorkerDef)>)
    ensures |acc| <= |types|
    ensures forall k :: 0 <= k < |acc| ==> Lookup(reg, acc[k].0) == Some(acc[k].1)
  {
    if types == [] then []
    else
      var prev := Accepted(reg, types[..|types| - 1]);
      var name := Strip(types[|types| - 1]);
      match Lookup(reg, name)
      case None => prev
      case Some(def) => prev + [(name, def)]
  }

  /** The log line written for a type that is not registered: it starts
      with the type's name. */
  function SkipMessage(name: string): (line: string)
    ensures |line| > |name| && line[..|name|] == name
  {
    name + " is a wrong worker type ! It will be ignored"
  }

  /** The log lines of a run: one per requested type that is not registered. */
  function SkipLog(reg: Registry, types: seq<string>): (log: seq<string>)
    ensures |log| <= |types|
  {
    if types == [] then []
    else
      var prev := SkipLog(reg, types[..|types| - 1]);
      var name := Strip(types[|types| - 1]);
      if Lookup(reg, name).None? then prev + [SkipMessage(name)] else prev
  }

  // ---------------------------------------------------------------------
  // Port allocation

  datatype Worker = Worker(name: string, def: WorkerDef, port: int)

  /** Hands out ports as the generator's counter does: the first accepted
      worker gets `next`, and the counter goes up by one after each. */
  function AllocatePorts(acc: seq<(string, WorkerDef)>, next: int): (ws: seq<Worker>)
    ensures |ws| == |acc|
    ensures forall k :: 0 <= k < |ws| ==> ws[k] == Worker(acc[k].0, acc[k].1, next + k)
  {
    if acc == [] then [] else [Worker(acc[0].0, acc[0].1, next)] + AllocatePorts(acc[1..], next + 1)
  }

  /** The workers of a run: the accepted types in request order, on
      consecutive ports from the base port. */
  function Workers(reg: Registry, types: seq<string>): (ws: seq<Worker>)
    ensures |ws| == |Accepted(reg, types)|
    ensures forall k :: 0 <= k < |ws| ==>
      ws[k] == Worker(Accepted(reg, types)[k].0, Accepted(reg, types)[k].1, BasePort + k)
  {
    AllocatePorts(Accepted(reg, types), BasePort)
  }

  // ---------------------------------------------------------------------
  // Shared homeserver config

  /** A listener entry; `resourceNames` holds the `names` list of each
      element of `resources`. */
  datatype Listener = Listener(port: int, bindAddress: string, kind: string, resourceNames: seq<seq<string>>)

  const ReplicationListener: Listener := Listener(ReplicationPort, "127.0.0.1", "http", [["replication"]])

  /** One piece of the shared config, in the order the pieces are written:
      the `listeners` key (dumped as YAML), the `redis: enabled: true` block,
      and one line per worker holding its `shared_extra_conf` followed by a
      newline. */
  datatype SharedFragment = ListenersBlock(listeners: seq<Listener>) | RedisEnabled | ExtraConf(text: string)

  /** The listeners of the shared config. `base` is the base config's
      `listeners` value (None when the key is missing or null). */
  function SharedListeners(base: Option<seq<Listener>>): (ls: seq<Listener>)
    ensures |ls| >= 1 && ls[0] == ReplicationListener
    ensures ls[1..] == (if base.Some? then base.value else [])
  {
    var listeners := [ReplicationListener];
    if base.Some? && |base.value| > 0 then listeners + base.value else listeners
  }

  /** The per-worker lines of the shared config, in worker order. */
  function WorkerConfs(ws: seq<Worker>): (fs: seq<SharedFragment>)
    ensures |fs| == |ws|
    ensures forall k :: 0 <= k < |ws| ==> fs[k] == ExtraConf(ws[k].def.sharedExtraConf)
  {
    if ws == [] then []
    else WorkerConfs(ws[..|ws| - 1]) + [ExtraConf(ws[|ws| - 1].def.sharedExtraConf)]
  }

  /** The shared config: the listeners, the redis flag, then one line per
      worker, in worker order. */
  function SharedConfig(base: Option<seq<Listener>>, ws: seq<Worker>): (fs: seq<SharedFragment>)
    ensures |fs| == 2 + |ws|
    ensures fs[0] == ListenersBlock(SharedListeners(base)) && fs[1] == RedisEnabled
    ensures forall k :: 0 <= k < |ws| ==> fs[2 + k] == ExtraConf(ws[k].def.sharedExtraConf)
  {
    [ListenersBlock(SharedListeners(base)), RedisEnabled] + WorkerConfs(ws)
  }

  // ---------------------------------------------------------------------
  // nginx routing

  /** A `location ~* <pattern>` block proxying to `http://localhost:<port>`
      and setting `X-Forwarded-For` to the client address. */
  datatype Location = Location(pattern: string, port: int)

  /** The site: the `listen` port, `server_name`, `client_max_body_size`, the
      worker locations in the order written, and the catch-all written last. */
  datatype NginxSite = NginxSite(
    listenPort: int,
    serverName: string,
    clientMaxBodySize: string,
    locations: seq<Location>,
    catchAll: Location)

  /** Everything under `/_matrix` or `/_synapse` not claimed by a worker goes
      to the main process. */
  const CatchAll: Location := Location("^(\\/_matrix|\\/_synapse)", MainProcessPort)

  /** The locations for one worker's patterns, in listed order. */
  function PatternLocations(patterns: seq<string>, port: int): (locs: seq<Location>)
    ensures |locs| == |patterns|
    ensures forall k :: 0 <= k < |locs| ==> locs[k] == Location(patterns[k], port)
  {
    if patterns == [] then []
    else PatternLocations(patterns[..|patterns| - 1], port) + [Location(patterns[|patterns| - 1], port)]
  }

  /** The worker locations of the site, worker by worker. */
  function Routes(ws: seq<Worker>): seq<Location> {
    if ws == [] then []
    else Routes(ws[..|ws| - 1]) + PatternLocations(ws[|ws| - 1].def.endpointPatterns, ws[|ws| - 1].port)
  }

  function Site(ws: seq<Worker>): NginxSite {
    NginxSite(ProxyListenPort, "localhost", ClientMaxBodySize, Routes(ws), CatchAll)
  }

  /** The order nginx tries the site's regular-expression locations: as written. */
  function EvaluationOrder(site: NginxSite): seq<Location> {
    site.locations + [site.catchAll]
  }

  // ---------------------------------------------------------------------
  // supervisord programs

  /** `autorestart=true` or `autorestart=unexpected`. */
  datatype AutoRestart = Always | Unexpected

  /** A program's command: a literal shell line, or
      `/usr/local/bin/python -m <entryPoint>` with one `--config-path` per layer,
      later layers overriding earlier ones. */
  datatype Command = Shell(line: string) | PythonModule(entryPoint: string, configPaths: seq<string>)

  /** A `[program:<name>]` block. `exitCodes` is None when the block has no
      `exitcodes` line, `user` None when it has no `username` line. Every
      block logs to /dev/stdout and /dev/stderr with rotation off. */
  datatype Program = Program(
    name: string,
    command: Command,
    priority: int,
    autorestart: AutoRestart,
    exitCodes: Option<seq<int>>,
    user: Option<string>)

  /** The `[supervisord]` section (`nodaemon`) and the program blocks in order. */
  datatype Supervisord = Supervisord(nodaemon: bool, programs: seq<Program>)

  const NginxProgram: Program :=
    Program("nginx", Shell("/usr/sbin/nginx -g \"daemon off;\""), 500, Always, None, Some("www-data"))

  function MainProgram(configPath: string): Program {
    Program("synapse_main", PythonModule("synapse.app.homeserver", [configPath, SharedConfigPath]),
            1, Unexpected, Some([0]), None)
  }

  function WorkerProgram(w: Worker, configPath: string): Program {
    Program("synapse_" + w.name,
            PythonModule(w.def.app, [configPath, SharedConfigPath, WorkerConfigPath(w.name)]),
            500, Unexpected, Some([0]), None)
  }

  /** The worker blocks, in worker order. */
  function WorkerPrograms(ws: seq<Worker>, configPath: string): (ps: seq<Program>)
    ensures |ps| == |ws|
    ensures forall k :: 0 <= k < |ws| ==> ps[k] == WorkerProgram(ws[k], configPath)
  {
    if ws == [] then []
    else WorkerPrograms(ws[..|ws| - 1], configPath) + [WorkerProgram(ws[|ws| - 1], configPath)]
  }

  /** The supervisord config: nginx, the main process, then every worker. */
  function SupervisordConf(ws: seq<Worker>, configPath: string): (conf: Supervisord)
    ensures conf.nodaemon
    ensures |conf.programs| == 2 + |ws|
    ensures conf.programs[0].name == "nginx" && conf.programs[0].autorestart == Always
    ensures conf.programs[1].name == "synapse_main" && conf.programs[1].priority == 1
    ensures conf.programs[1].autorestart == Unexpected && conf.programs[1].exitCodes == Some([0])
    ensures conf.programs[1].command == PythonModule("synapse.app.homeserver", [configPath, SharedConfigPath])
    ensures forall k :: 0 <= k < |ws| ==>
      var p := conf.programs[2 + k];
      && p.name == "synapse_" + ws[k].name
      && p.command == PythonModule(ws[k].def.app, [configPath, SharedConfigPath, WorkerConfigPath(ws[k].name)])
      && p.priority == 500 && p.autorestart == Unexpected && p.exitCodes == Some([0])
  {
    Supervisord(true, [NginxProgram, MainProgram(configPath)] + WorkerPrograms(ws, configPath))
  }

  // ---------------------------------------------------------------------
  // Worker descriptors

  /** A copy of the worker's registry entry extended with `name`, `port` and
      `config_path`: the values the per-worker config template is rendered
      with. */
  datatype Descriptor = Descriptor(
    app: string,
    listenerResources: seq<string>,
    endpointPatterns: seq<string>,
    sharedExtraConf: string,
    name: string,
    port: int,
    configPath: string)
  {
    /** The registry part of the descriptor. */
    function Def(): WorkerDef {
      WorkerDef(app, listenerResources, endpointPatterns, sharedExtraConf)
    }
  }

  /** A worker's descriptor: its registry definition, unchanged, plus its
      name, its port and the main config path. */
  function DescriptorOf(w: Worker, configPath: string): (d: Descriptor)
    ensures d.Def() == w.def && d.name == w.name && d.port == w.port && d.configPath == configPath
  {
    Descriptor(w.def.app, w.def.listenerResources, w.def.endpointPatterns, w.def.sharedExtraConf,
               w.name, w.port, configPath)
  }

  /** The descriptors, in worker order. */
  function Descriptors(ws: seq<Worker>, configPath: string): (ds: seq<Descriptor>)
    ensures |ds| == |ws|
    ensures forall k :: 0 <= k < |ws| ==>
      ds[k].Def() == ws[k].def && ds[k].name == ws[k].name && ds[k].port == ws[k].port
      && ds[k].configPath == configPath
  {
    if ws == [] then []
    else Descriptors(ws[..|ws| - 1], configPath) + [DescriptorOf(ws[|ws| - 1], configPath)]
  }

  /** `ds[k]` is the last descriptor in `ds` named `n`. */
  predicate LastNamed(ds: seq<Descriptor>, k: int, n: string) {
    0 <= k < |ds| && ds[k].name == n && forall j :: k < j < |ds| ==> ds[j].name != n
  }

  /** The per-worker config files, keyed by worker name: each descriptor is
      rendered to `/conf/workers/<name>.yaml`, overwriting that file, so a
      name's file holds the last descriptor carrying that name. */
  function WorkerFiles(ds: seq<Descriptor>): (files: map<string, Descriptor>)
    ensures FilesOf(ds, files)
  {
    if ds == [] then map[]
    else
      var init, last := ds[..|ds| - 1], ds[|ds| - 1];
      var prev := WorkerFiles(init);
      assert ds == init + [last];
      FilesOfSnoc(init, last, prev);
      prev[last.name := last]
  }

  /** `files` is what rendering `ds` in order leaves behind: every name of
      `ds` has a file, and each file holds the last descriptor of its name. */
  ghost predicate FilesOf(ds: seq<Descriptor>, files: map<string, Descriptor>) {
    && (forall k :: 0 <= k < |ds| ==> ds[k].name in files)
    && (forall n :: n in files ==> exists k :: LastNamed(ds, k, n) && files[n] == ds[k])
  }

  /** Rendering one more descriptor overwrites the file of its name. */
  lemma FilesOfSnoc(init: seq<Descriptor>, last: Descriptor, prev: map<string, Descriptor>)
    requires FilesOf(init, prev)
    ensures FilesOf(init + [last], prev[last.name := last])
  {
    var ds, files := init + [last], prev[last.name := last];
    forall k | 0 <= k < |ds| ensures ds[k].name in files {
      if k < |init| {
        assert ds[k] == init[k];
      }
    }
    forall n | n in files ensures exists k :: LastNamed(ds, k, n) && files[n] == ds[k] {
      if n == last.name {
        assert LastNamed(ds, |ds| - 1, n);
      } else {
        var k :| LastNamed(init, k, n) && prev[n] == init[k];
        LastNamedSnoc(init, last, k, n);
      }
    }
  }

  /** Appending a descriptor with another name keeps the last one named `n`. */
  lemma {:induction false} LastNamedSnoc(init: seq<Descriptor>, last: Descriptor, k: int, n: string)
    requires LastNamed(init, k, n) && last.name != n
    ensures LastNamed(init + [last], k, n) && (init + [last])[k] == init[k]
  {
  }

  // ---------------------------------------------------------------------
  // A whole run

  datatype Artifacts = Artifacts(
    shared: seq<SharedFragment>,
    nginx: NginxSite,
    supervisord: Supervisord,
    descriptors: seq<Descriptor>,
    log: seq<string>)

  /** The artifacts of a run over an already parsed list of requested types. */
  function SynthesizeTypes(reg: Registry, types: seq<string>, base: Option<seq<Listener>>, configPath: string): Artifacts {
    var ws := Workers(reg, types);
    Artifacts(SharedConfig(base, ws), Site(ws), SupervisordConf(ws, configPath),
              Descriptors(ws, configPath), SkipLog(reg, types))
  }

  /** The artifacts of a run. */
  function Synthesize(reg: Registry, environ: map<string, string>, base: Option<seq<Listener>>, configPath: string): Artifacts {
    SynthesizeTypes(reg, ParseRequest(reg, environ), base, configPath)
  }
}
