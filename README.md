# Worker topology synthesis for the Synapse worker image

This project models the part of Synapse's multi-worker Docker image that
turns a requested set of worker types into a consistent deployment:
`generate_worker_files` in `docker/configure_workers_and_start.py`, together
with its static registry of worker types (`WORKERS_CONFIG`) and the default
listener resources (`DEFAULT_LISTENER_RESOURCES`).

From the environment variable `SYNAPSE_WORKERS`, the base homeserver
config's `listeners` and the main config path, one run produces four
artifacts that must agree with each other:

- the shared homeserver config: the replication listener on 9093 followed
  by the base listeners, the redis flag, then one line per worker holding
  its `shared_extra_conf`;
- the nginx site: listen on 8080, one `location` per endpoint pattern of
  each worker proxying to that worker's port, and a catch-all for
  `/_matrix` and `/_synapse` to the main process on 8008, written last;
- the supervisord programs: nginx, the main process, then one block per
  worker running its app on three config layers (main, shared, per-worker);
- one descriptor per worker: its registry entry plus `name`, `port` and
  `config_path`, the values the per-worker config template is rendered with.

Types that are not registered only leave a log line. Ports start at 18009
and go up by one per accepted worker.

Instead of YAML dumps and text templates, the model builds structured
values: a `Listener` record list, a `SharedFragment` list, a `Location` list
plus a catch-all, a `Program` list and a `Descriptor` list
(`topology.dfy`). The registry is an ordered list of (name, definition)
pairs in the order of the dictionary literal, which is also the order
`keys()` returns (`registry.dfy`). Every operation takes the registry as a
parameter; `Registry.WorkersConfig` is the literal itself.

The generator is modelled as the loop it is (`generate.dfy`).
`Generate.GenerateWorkerFiles` keeps a port counter and appends to five
accumulators, one requested type at a time. It is proved to produce exactly
`Topology.Synthesize`, the functional description of a run. The properties
of a run are proved about that description (`properties.dfy`), and whole
runs are worked out in `scenarios.dfy`. Python's `str.strip()` and
`str.split(",")` are modelled in `text.dfy`.

The registry is a value the run never updates. Each descriptor is built
fresh from a registry entry, as the code builds it on a copy, so the
registry is the same before and after a run.

Two behaviours of the code are easy to misread, and the model follows the
code in both:

- nginx's supervisord block has `priority=500` and the main process's has
  `priority=1`. supervisord starts lower numbers first, so the main process
  is started before the proxy, not after it.
- A type requested twice is not deduplicated. It yields two descriptors on
  two ports and two nginx location sets, but the two supervisord blocks are
  the same block. Both read the one per-worker file of the name,
  `/conf/workers/<name>.yaml`, which each rendering overwrites, so it holds
  the last descriptor. The earlier port is then served by no process, while
  nginx still routes the type's patterns to it first
  (`Properties.RepeatedName`, `Scenarios.RepeatedType`).

## Model

| member | source | states |
|---|---|---|
| Registry.Keys | docker/configure_workers_and_start.py:274 | the type names in registry order, one per entry |
| Registry.Lookup | docker/configure_workers_and_start.py:289 | `get`: absent exactly when the name is not a key; a found definition is registered under that name |
| Registry.LookupEntry | docker/configure_workers_and_start.py:36-117 | with distinct names, looking up an entry's name finds that entry's definition |
| Registry.WorkersConfigUniqueKeys | docker/configure_workers_and_start.py:36-117 | the registry literal has distinct names |
| Text.TrimLeft | docker/configure_workers_and_start.py:287 | drops exactly the leading whitespace: the result is a suffix, the dropped prefix is whitespace, and the result does not start with whitespace |
| Text.TrimRight | docker/configure_workers_and_start.py:287 | drops exactly the trailing whitespace, symmetrically |
| Text.Strip | docker/configure_workers_and_start.py:287 | `strip()`: no longer than the input, no whitespace at either end, empty only when the input is all whitespace |
| Text.StripUnchanged | docker/configure_workers_and_start.py:287 | a name with no whitespace at either end is left as it is |
| Text.StripPadded | docker/configure_workers_and_start.py:287 | whitespace padding around a name is removed and nothing else |
| Text.StripIdempotent | docker/configure_workers_and_start.py:287 | stripping twice is stripping once |
| Text.Split | docker/configure_workers_and_start.py:277 | `split(",")`: at least one piece, no piece holds a comma, and joining the pieces with commas gives the input back |
| Text.SplitJoin | docker/configure_workers_and_start.py:277 | splitting undoes joining pieces that hold no comma |
| Topology.ParseRequest | docker/configure_workers_and_start.py:268-277 | absent variable: no types; `*`: every registry key in registry order; otherwise the comma-separated pieces, which join back to the value |
| Topology.Accepted | docker/configure_workers_and_start.py:286-294 | every accepted type is a registered name paired with its registered definition, and no more types are accepted than were requested |
| Topology.SkipLog | docker/configure_workers_and_start.py:293 | at most one log line per requested type |
| Topology.SkipMessage | docker/configure_workers_and_start.py:293 | the skip line starts with the stripped type name |
| Topology.AllocatePorts | docker/configure_workers_and_start.py:283-342 | the k-th accepted worker gets the starting port plus k, in acceptance order |
| Topology.Workers | docker/configure_workers_and_start.py:283-342 | the workers of a run are the accepted types, in request order with repeats, each with its registered definition, the k-th on port 18009 + k |
| Topology.SharedListeners | docker/configure_workers_and_start.py:187-199 | the replication listener first, then the base listeners in their order; just the replication listener when the base has none (missing or empty) |
| Topology.WorkerConfs | docker/configure_workers_and_start.py:304 | one shared-config line per worker, its `shared_extra_conf`, in worker order |
| Topology.SharedConfig | docker/configure_workers_and_start.py:201-304 | the shared config is the listeners block first, then the redis flag, then the k-th worker's `shared_extra_conf` line at position 2 + k |
| Topology.PatternLocations | docker/configure_workers_and_start.py:324-333 | one location per pattern, in listed order, all to the worker's port |
| Topology.WorkerPrograms | docker/configure_workers_and_start.py:307-321 | one supervisord block per worker, in worker order |
| Topology.SupervisordConf | docker/configure_workers_and_start.py:212-321 | `nodaemon`; nginx then the main process (priority 1, restart on unexpected exit, exit code 0, config layers main then shared); then per worker `synapse_<name>` running its app on main, shared and `/conf/workers/<name>.yaml`, priority 500, restart on unexpected exit, exit code 0 |
| Topology.DescriptorOf | docker/configure_workers_and_start.py:290-302 | a worker's descriptor holds its registry definition unchanged, plus its name, its port and the main config path |
| Topology.Descriptors | docker/configure_workers_and_start.py:296-302 | per worker, its registry definition plus its name, its port and the main config path |
| Topology.WorkerFiles | docker/configure_workers_and_start.py:336-340 | the per-worker files, keyed by name: every worker's name has a file, and each file holds the last descriptor rendered under its name |
| Generate.AppendPatternLocations | docker/configure_workers_and_start.py:324-333 | the inner loop appends exactly the worker's pattern locations |
| Generate.ListenersWithReplication | docker/configure_workers_and_start.py:187-199 | builds exactly the shared listener list |
| Generate.EmitWorker | docker/configure_workers_and_start.py:296-340 | emitting a worker extends every accumulator from the one for the workers so far to the one with that worker appended |
| Generate.ProcessType | docker/configure_workers_and_start.py:286-342 | one loop turn: an unknown type extends only the log, a known one takes the next port and extends the four artifacts |
| Generate.GenerateWorkerFiles | docker/configure_workers_and_start.py:167-369 | the loop produces exactly the artifacts of `Topology.Synthesize` |
| Generate.SkipStep | docker/configure_workers_and_start.py:289-294 | a type that is not registered adds a log line and no worker |
| Generate.AcceptStep | docker/configure_workers_and_start.py:296-342 | a registered type adds one worker, on the next port, and no log line |
| Properties.AcceptedOrLogged | docker/configure_workers_and_start.py:286-294 | every requested type is either accepted or logged, never both: the i-th type adds one accepted worker and no log line when its stripped name is registered, and exactly its skip line and no worker otherwise; the two counts add up to the number of requested types |
| Properties.UnknownType | docker/configure_workers_and_start.py:289-294 | an unregistered type is accepted as nothing and logged once, under its stripped name |
| Properties.EmptyRequest | docker/configure_workers_and_start.py:277 | an empty `SYNAPSE_WORKERS` gives the artifacts of an absent one, plus one log line for the empty name |
| Properties.PortAllocation | docker/configure_workers_and_start.py:283-342 | ports are 18009 + k, contiguous, strictly increasing, and distinct from 8008, 8080 and 9093 |
| Properties.PortOfRequestedType | docker/configure_workers_and_start.py:283-342 | a registered requested type's worker has the port 18009 + (types accepted before it); skipped types take no port |
| Properties.Isolation | docker/configure_workers_and_start.py:289-294 | an unregistered type anywhere in the request changes only the log: every other artifact, ports included, is that of the request without it |
| Properties.OnlyRegisteredTypes | docker/configure_workers_and_start.py:289-294 | an unregistered name gets no descriptor and no supervisord block |
| Properties.AcceptedKeys | docker/configure_workers_and_start.py:274 | the keys listed by the wildcard need no stripping |
| Properties.WildcardIsFullList | docker/configure_workers_and_start.py:272-277 | `*` gives the same run as listing every registered type, comma-separated, in registry order |
| Properties.WorkersConfigListable | docker/configure_workers_and_start.py:36-117 | the registry literal's names are non-empty, comma-free, unpadded and not `*` |
| Properties.RoutesMembership | docker/configure_workers_and_start.py:324-333 | a location is in the site exactly when some worker lists its pattern and has its port |
| Properties.RoutesInWorkerOrder | docker/configure_workers_and_start.py:324-333 | locations are written worker by worker: their ports never go down, and each is a worker's port |
| Properties.CatchAllLast | docker/configure_workers_and_start.py:354-359 | the catch-all to 8008 is tried last and appears once |
| Properties.FirstMatch | docker/configure_workers_and_start.py:326 | nginx's choice among regular-expression locations: some location matches exactly when a port is chosen, and the port chosen is that of a matching location with no matching location before it |
| Properties.FirstMatchAppend | docker/configure_workers_and_start.py:354-359 | locations written earlier take precedence over later ones |
| Properties.Routing | docker/configure_workers_and_start.py:257-264 | a path matched by a worker location goes to the first such worker; otherwise to 8008 if under `/_matrix` or `/_synapse`, else to no proxied location |
| Properties.WorkerArtifactsAgree | docker/configure_workers_and_start.py:296-340 | for every worker, its descriptor, supervisord block, shared-config line and nginx locations agree on name, app, port, config paths and patterns |
| Properties.OwnFile | docker/configure_workers_and_start.py:336-340 | a descriptor whose name no other descriptor has is exactly what its per-worker file holds |
| Properties.RepeatedName | docker/configure_workers_and_start.py:296-340 | two workers of a run with the same name get the same supervisord block, and their file holds a descriptor whose port is at least the later worker's, never the earlier one's |
| Properties.SameWorkerSameBlock | docker/configure_workers_and_start.py:307-321 | a worker's supervisord block depends on its name and definition only: two workers that agree on both get equal blocks, whatever their ports |
| Properties.LocationsTo | docker/configure_workers_and_start.py:324-333 | the locations to a port are exactly the listed ones with that port |
| Properties.LocationsOfWorker | docker/configure_workers_and_start.py:324-333 | the locations to a worker's port are exactly its patterns, in listed order |
| Scenarios.TwoRegistered | docker/configure_workers_and_start.py:286-342 | the request `a,b` of registered types logs nothing, and its descriptors and shared lines are those of `a` then `b` on 18009 and 18010 |
| Scenarios.TwoRegisteredPrograms | docker/configure_workers_and_start.py:307-321 | the request `a,b` runs nginx, the main process, then `a` and `b` |
| Scenarios.TwoRegisteredRoutes | docker/configure_workers_and_start.py:324-333 | the request `a,b` routes `a`'s patterns to 18009, then `b`'s to 18010 |
| Scenarios.PaddedAndUnknown | docker/configure_workers_and_start.py:286-294 | in ` n , u` the blanks are stripped, `n` gets 18009 and the unknown `u` is logged and gets no port |
| Scenarios.NoWorkers | docker/configure_workers_and_start.py:268-271 | no `SYNAPSE_WORKERS`: nginx and the main process only, the catch-all only, listeners and redis only |
| Scenarios.FederationReaderAndUserDir | docker/configure_workers_and_start.py:283-342 | `federation_reader,user_dir`: nothing logged, ports 18009 and 18010 |
| Scenarios.FederationReaderAndUserDirShared | docker/configure_workers_and_start.py:304 | the same request: the shared config ends with an empty line and `update_user_directory: false` |
| Scenarios.FederationReaderAndUserDirRouting | docker/configure_workers_and_start.py:324-333 | the same request: the eighteen federation patterns to 18009, the user-directory search to 18010, then the catch-all |
| Scenarios.RepeatedRequest | docker/configure_workers_and_start.py:296-340 | the request `a,a`: the two supervisord blocks are equal, and the single file of `a` holds the second descriptor, on 18010 |
| Scenarios.RepeatedType | docker/configure_workers_and_start.py:296-340 | `pusher,pusher`: descriptors on 18009 and 18010, two equal supervisord blocks, one file holding the 18010 descriptor, and no location since `pusher` has no patterns |
| Scenarios.UserDirAndBogus | docker/configure_workers_and_start.py:286-294 | ` user_dir , bogus`: one worker, `user_dir` on 18009, and one log line for `bogus` |

## Left out

- File and process I/O: reading the base config, the append-mode writes of
  the shared config, the nginx site and the supervisord config, creating
  `/conf/workers` and the log directory. A run's result is the artifacts as
  values; appending to files already written by an earlier run is not
  modelled.
- YAML parsing and dumping, and the textual form of every artifact: the
  listeners are a record list and each artifact a structured value. The
  base config's `listeners` is an input (`None` when missing or null). A
  base config that is not a mapping makes the code fail. Listeners that
  are not a list are spliced in element by element (a string by its
  characters, a mapping by its keys), or make the code fail when they
  cannot be iterated; neither case is modelled.
- Listener keys other than `port`, `bind_address`, `type` and the
  resources' `names`.
- Rendering the per-worker config from its template (`convert`): the model
  stops at the descriptor the template is rendered with. The files it
  writes are modelled as a map from worker name to the last descriptor
  rendered under that name (`Topology.WorkerFiles`), derived from the
  descriptor list rather than kept among the run's artifacts. The rendered
  config that `convert` prints is left out with it.
- The constant lines of each supervisord block (log files, rotation off),
  the IPv6 `listen` line and the `X-Forwarded-For` header: they are the same
  for every block and location, so they are not fields.
- `data_dir`: it only names the log directory, which is I/O.
- `generate_base_homeserver_config`, `start_supervisord`, `error`, `log`
  and `main`: subprocess, exit and output plumbing, and environment
  defaults. The modelled log is the list of lines the run passes to `log`,
  which are the skip lines; what `convert` prints is not part of it.
- A registered type whose definition is an empty dictionary would be
  treated as unknown by the code's truth test. No registry entry is empty,
  so `Registry.Lookup` finding an entry is taken as acceptance.
- The whitespace set of `str.isspace()` is written out as code points in
  `Text.IsSpace`, not derived from the Unicode database.
- Topology.SkipLog: its contract bounds only the number of lines. What the
  lines are is stated by `Properties.UnknownType`, `Properties.Isolation`
  and `Properties.AcceptedOrLogged`.
