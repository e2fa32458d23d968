/**
 The database of `resallocserver/models.py` and the pool configuration of
 `resallocserver/manager.py`, as values.

 Names, tags, pools and counters are strings that the server only compares; they are modelled by
 numbers.  The rows of a table are a map from the primary key.
 */
module Tables {
  import opened Collections

  type ResourceId = nat
  type TicketId = nat
  type PoolName = nat
  type Name = nat
  type Tag = nat
  type Counter = nat
  type Data = seq<nat>
  type Time = real

  datatype RState = STARTING | UP | RELEASING | DELETE_REQUEST | DELETING | ENDED

  datatype TState = OPEN | FAILED | CLOSED

  /**
   A sandbox is absent (NULL and the empty string are both false), given by the user, or a
   generated uuid.  Making these different values is the assumption that uuids never collide.
   */
  datatype Sandbox = NoSandbox | Given(name: nat) | Generated(serial: nat)

  datatype Resource = Resource(
    pool: PoolName,
    name: Name,
    state: RState,
    ticket: Option<TicketId>,
    sandbox: Sandbox,
    sandboxedSince: Option<Time>,
    releasedAt: Option<Time>,
    releases: nat,
    failedChecks: nat,
    data: Option<Data>,
    tags: map<Tag, int>)          // tag name to priority

  datatype Ticket = Ticket(
    resource: Option<ResourceId>,
    state: TState,
    sandbox: Sandbox,
    tags: set<Tag>)

  /** The rows of `ids` and `counters` belong to the resource that is their key. */
  datatype Db = Db(
    resources: map<ResourceId, Resource>,
    tickets: map<TicketId, Ticket>,
    ids: map<ResourceId, nat>,
    counters: map<ResourceId, map<Counter, nat>>,
    lastStart: map<PoolName, Time>)

  datatype PoolTag = PoolTag(name: Tag, priority: int)

  datatype PoolConfig = PoolConfig(
    max: nat,
    maxStarting: nat,
    maxPrealloc: nat,
    startDelay: Time,
    hasRelease: bool,             // `cmd_release` is set
    livecheckAttempts: int,
    reuseOpportunityTime: Time,
    reuseMaxCount: nat,
    reuseMaxTime: Time,
    counters: set<Counter>,
    tags: seq<PoolTag>,
    tagsOnDemand: seq<PoolTag>)
  {
    function TagsAll(): seq<PoolTag> { tags + tagsOnDemand }
  }

  /** `order` is the order of the pools in the configuration file. */
  datatype Config = Config(pools: map<PoolName, PoolConfig>, order: seq<PoolName>, foreign: set<Name>)

  /** What loading the configuration guarantees; the foreign names are never given to a resource. */
  ghost predicate ValidConfig(cfg: Config) {
    && (forall p :: p in cfg.order <==> p in cfg.pools)
    && (forall i, j :: 0 <= i < j < |cfg.order| ==> cfg.order[i] != cfg.order[j])
    // an on-demand pool never preallocates
    && (forall p :: p in cfg.pools && cfg.pools[p].tagsOnDemand != [] ==> cfg.pools[p].maxPrealloc == 0)
  }

  function TagNames(tags: seq<PoolTag>): set<Tag> {
    set i | 0 <= i < |tags| :: tags[i].name
  }

  /** The tag rows that a started resource gets. */
  function TagRows(tags: seq<PoolTag>): map<Tag, int> {
    if tags == [] then map[] else TagRows(tags[..|tags| - 1])[tags[|tags| - 1].name := tags[|tags| - 1].priority]
  }

  /** The states from which a resource never comes back. */
  predicate Dying(s: RState) { s == DELETE_REQUEST || s == DELETING || s == ENDED }

  predicate Waiting(t: Ticket) { t.resource.None? && t.state == OPEN }

  /** `QResources.ready` */
  predicate Ready(r: Resource) { r.state == UP && r.ticket.None? && r.failedChecks == 0 }
}
