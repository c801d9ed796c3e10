/**
 * The cluster document: one value that sentinels, operators, keepers and proxies
 * share through a compare-and-swap register.  Lists whose order the code
 * normalises by sorting are sets here.
 */
module Cluster {
  import opened Options
  import Timeline

  type Lsn = n: nat | n < 0x1_0000_0000_0000_0000

  const NO_UID := ""
  const NO_GENERATION: nat := 0
  const INITIAL_GENERATION: nat := 1

  datatype Role = Master | Standby

  datatype Follow = NoFollow | External | Internal(db: string)

  datatype InitMode = InitNone | InitNew | InitExisting | InitPitr | InitResync

  /** The parameters copied from the cluster spec, which differ by database type. */
  datatype Settings = NoSettings | PrimarySettings(value: int) | ReplicaSettings(value: int)

  datatype DbSpec = DbSpec(
    keeper: string,
    initMode: InitMode,
    role: Role,
    follow: Follow,
    includeConfig: bool,
    followers: set<string>,
    syncRepl: bool,
    syncStandbys: set<string>,
    external: set<string>,
    settings: Settings
  )

  datatype DbStatus = DbStatus(
    healthy: bool,
    generation: nat,             // last generation reported by the keeper
    syncStandbys: set<string>,   // standbys known to be in sync
    reportedSync: set<string>,   // in-sync standbys of the report just read; not stored
    systemId: string,
    timeline: nat,
    xlog: Lsn,
    history: seq<Timeline.Switch>,
    olderWal: string,
    orphans: map<string, int>    // slots of departed followers, with the time they left
  )

  const NEW_STATUS := DbStatus(false, NO_GENERATION, {}, {}, "", 0, 0, [], "", map[])

  datatype Db = Db(uid: string, generation: nat, spec: DbSpec, status: DbStatus)

  datatype Keeper = Keeper(
    uid: string,
    healthy: bool,
    lastHealthy: int,
    canBeMaster: Option<bool>,
    canBeSync: Option<bool>,
    priority: int
  )

  datatype ClusterSpec = ClusterSpec(
    role: Role,
    initMode: InitMode,
    existingKeeper: string,
    syncRepl: bool,
    minSync: nat,
    maxSync: nat,
    maxStandbysPerSender: nat,
    maxStandbyLag: nat,
    convergenceTimeout: int,
    syncTimeout: int,
    initTimeout: int,
    failInterval: int,
    deadKeeperRemoval: int,
    slotTtl: int,
    unsafeAutoFailback: bool,
    autoFailbackMinUptime: int,
    autoFailbackCooldown: int,
    settings: int
  ) {
    /** What validation guarantees and reconciliation relies on. */
    ghost predicate Valid() {
      && 1 <= maxSync
      && minSync <= maxSync
      && 1 <= maxStandbysPerSender
      && initMode in {InitNew, InitExisting, InitPitr}
    }

    /** A standby cluster replicates from outside and cannot replicate synchronously. */
    predicate SyncRepl() { syncRepl && role == Master }
  }

  datatype Phase = Initializing | Normal

  datatype Pause = Running | Paused | PausedUntil(time: int) {
    predicate Active(now: int) { Paused? || (PausedUntil? && now < time) }
  }

  /** The fence the proxies obey; an empty master means no writable destination. */
  datatype Fence = Fence(master: string, enabled: set<string>, generation: nat)

  datatype ClusterData = ClusterData(
    spec: ClusterSpec,
    phase: Phase,
    master: string,
    manualSwitch: Option<string>,
    pause: Pause,
    keepers: map<string, Keeper>,
    dbs: map<string, Db>,
    fence: Fence
  ) {
    /** Entries are filed under their own UID, and every database has its keeper. */
    ghost predicate Consistent() {
      && (forall k :: k in keepers ==> keepers[k].uid == k)
      && (forall d :: d in dbs ==> dbs[d].uid == d && dbs[d].spec.keeper in keepers)
    }

    ghost predicate Exclusive() {
      forall d, e :: d in dbs && e in dbs && dbs[d].spec.keeper == dbs[e].spec.keeper ==> d == e
    }
  }

  function InitialClusterData(spec: ClusterSpec): ClusterData {
    ClusterData(spec, Initializing, NO_UID, None, Running, map[], map[], Fence(NO_UID, {}, 0))
  }
}
