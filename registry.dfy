/**
  The worker registry: every worker type the deployment script knows, with
  the module it runs, the listener resources it serves, the request paths
  it claims and the line it adds to the shared homeserver config.

  The registry is an ordered list of (type name, definition) pairs. Its order
  is the order of the dictionary literal, which is also the order in which a
  wildcard request enumerates the types.
 */
module Registry {
  import opened Wrappers

  datatype WorkerDef = WorkerDef(
    app: string,
    listenerResources: seq<string>,
    endpointPatterns: seq<string>,
    sharedExtraConf: string)

  type Registry = seq<(string, WorkerDef)>

  /** The resources served by a worker that takes client and federation traffic. */
  const DefaultListenerResources: seq<string> := ["client", "federation"]

  /** The registry literal, in its declared order. */
  const WorkersConfig: Registry := [
    ("pusher", WorkerDef(
      "synapse.app.pusher",
      [],
      [],
      "start_pushers: false")),
    ("user_dir", WorkerDef(
      "synapse.app.user_dir",
      DefaultListenerResources,
      ["^/_matrix/client/(api/v1|r0|unstable)/user_directory/search$"],
      "update_user_directory: false")),
    ("media_repository", WorkerDef(
      "synapse.app.media_repository",
      ["media"],
      [
        "^/_synapse/admin/v1/purge_media_cache$",
        "^/_synapse/admin/v1/room/.*/media.*$",
        "^/_synapse/admin/v1/user/.*/media.*$",
        "^/_synapse/admin/v1/media/.*$",
        "^/_synapse/admin/v1/quarantine_media/.*$"
      ],
      "enable_media_repo: false")),
    ("appservice", WorkerDef(
      "synapse.app.appservice",
      [],
      [],
      "notify_appservices: false")),
    ("federation_sender", WorkerDef(
      "synapse.app.federation_sender",
      [],
      [],
      "send_federation: false")),
    ("synchrotron", WorkerDef(
      "synapse.app.generic_worker",
      DefaultListenerResources,
      [
        "^/_matrix/client/(v2_alpha|r0)/sync$",
        "^/_matrix/client/(api/v1|v2_alpha|r0)/events$",
        "^/_matrix/client/(api/v1|r0)/initialSync$",
        "^/_matrix/client/(api/v1|r0)/rooms/[^/]+/initialSync$"
      ],
      "")),
    ("federation_reader", WorkerDef(
      "synapse.app.generic_worker",
      DefaultListenerResources,
      [
        "^/_matrix/federation/(v1|v2)/event/",
        "^/_matrix/federation/(v1|v2)/state/",
        "^/_matrix/federation/(v1|v2)/state_ids/",
        "^/_matrix/federation/(v1|v2)/backfill/",
        "^/_matrix/federation/(v1|v2)/get_missing_events/",
        "^/_matrix/federation/(v1|v2)/publicRooms",
        "^/_matrix/federation/(v1|v2)/query/",
        "^/_matrix/federation/(v1|v2)/make_join/",
        "^/_matrix/federation/(v1|v2)/make_leave/",
        "^/_matrix/federation/(v1|v2)/send_join/",
        "^/_matrix/federation/(v1|v2)/send_leave/",
        "^/_matrix/federation/(v1|v2)/invite/",
        "^/_matrix/federation/(v1|v2)/query_auth/",
        "^/_matrix/federation/(v1|v2)/event_auth/",
        "^/_matrix/federation/(v1|v2)/exchange_third_party_invite/",
        "^/_matrix/federation/(v1|v2)/user/devices/",
        "^/_matrix/federation/(v1|v2)/get_groups_publicised$",
        "^/_matrix/key/v2/query"
      ],
      "")),
    ("federation_inbound", WorkerDef(
      "synapse.app.generic_worker",
      DefaultListenerResources,
      ["/_matrix/federation/(v1|v2)/send/"],
      ""))
  ]

  /** The type names, in registry order (the dictionary's `keys()`). */
  function Keys(reg: Registry): (ks: seq<string>)
    ensures |ks| == |reg|
    ensures forall k :: 0 <= k < |reg| ==> ks[k] == reg[k].0
  {
    if reg == [] then [] else [reg[0].0] + Keys(reg[1..])
  }

  /** The dictionary's `get`: the definition registered under `name`, if any. */
  function Lookup(reg: Registry, name: string): (r: Option<WorkerDef>)
    ensures r.None? <==> name !in Keys(reg)
    ensures r.Some? ==> (name, r.value) in reg
  {
    if reg == [] then None
    else if reg[0].0 == name then Some(reg[0].1)
    else Lookup(reg[1..], name)
  }

  /** No type name is registered twice (a dictionary's keys are distinct). */
  predicate UniqueKeys(reg: Registry) {
    forall i, j :: 0 <= i < j < |reg| ==> reg[i].0 != reg[j].0
  }

  /** With distinct names, looking up a registered name finds its own entry. */
  lemma {:induction false} LookupEntry(reg: Registry, k: nat)
    requires UniqueKeys(reg)
    requires k < |reg|
    ensures Lookup(reg, reg[k].0) == Some(reg[k].1)
  {
    if k > 0 {
      assert reg[1..][k - 1] == reg[k];
      LookupEntry(reg[1..], k - 1);
    }
  }

  /** The registry literal has distinct names. */
  lemma WorkersConfigUniqueKeys()
    ensures UniqueKeys(WorkersConfig)
  {
  }
}
