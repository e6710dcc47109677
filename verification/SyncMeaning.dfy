/**
 src/main.rs, `proc_cache_sync` and its place in the loop: when proc mode looks at `/proc` again, and
 at which processes.
 */
module SyncMeaning {
  import opened Strings
  import opened Config
  import opened ProcCaches
  import opened ProcScan
  import opened ProcMode
  import A = AutoCache

  /** Nothing calls for another look: there is no standing order for a full one, the process count is
      known and has grown by at most 11, and every tracked process answers. */
  ghost predicate Settled(v: ProcValue, procs: Option<int>, alive: set<int>) {
    && !v.scanAllProc && procs.Some? && procs.value <= v.lastProcCount + 11
    && forall pid :: pid in v.trackedPids ==> pid in alive
  }

  /** Then a sync keeps all it knows; it notes the count, and a higher one calls for a sweep. */
  lemma SettledSyncKeeps(v: ProcValue, cfg: AppConfig, procs: Option<int>, alive: set<int>, snap: Option<Snapshot>)
    requires Settled(v, procs, alive)
    ensures var v' := Synced(v, cfg, procs, alive, snap);
            && v'.cache == v.cache && v'.trackedPids == v.trackedPids
            && v'.scanAllProc == v.scanAllProc && v'.lastProcTotal == v.lastProcTotal
            && v'.lastProcCount == procs.value && (v'.forceAffinity <==> v.forceAffinity || procs.value > v.lastProcCount)
  {
  }

  /** Else it starts anew from the processes that it is to look at, and calls for a sweep. It orders a
      full look for the next time exactly if there are more processes than at the last one. */
  lemma UnsettledSyncRebuilds(v: ProcValue, cfg: AppConfig, procs: Option<int>, alive: set<int>, snap: Snapshot)
    requires !Settled(v, procs, alive)
    ensures var v' := Synced(v, cfg, procs, alive, Some(snap));
            && v'.cache == Rebuilt(Scan(snap, v.scanAllProc, v.trackedPids, cfg)) && v'.trackedPids == v'.cache.pkgs.Keys
            && (v'.scanAllProc <==> |snap.procs| > v.lastProcTotal) && v'.lastProcTotal == |snap.procs|
            && v'.lastProcCount == (if procs.Some? then procs.value else v.lastProcCount) && v'.forceAffinity
  {
    if procs.Some? && procs.value <= v.lastProcCount + 11 && !v.scanAllProc {
      var pid :| pid in v.trackedPids && pid !in alive;
    }
  }

  /** If `/proc` cannot be read it forgets everything, and does not order a full look. */
  lemma UnreadableSyncForgets(v: ProcValue, cfg: AppConfig, procs: Option<int>, alive: set<int>)
    requires !Settled(v, procs, alive) && v.lastProcTotal >= 0
    ensures var v' := Synced(v, cfg, procs, alive, None);
            v'.cache == EMPTY && v'.trackedPids == {} && !v'.scanAllProc && v'.lastProcTotal == 0 && v'.forceAffinity
  {
    if procs.Some? && procs.value <= v.lastProcCount + 11 && !v.scanAllProc {
      var pid :| pid in v.trackedPids && pid !in alive;
    }
  }

  /** So when the processes have become more, the sync after a rebuild looks at all of them, whatever
      it finds out first: new ones are then found. */
  lemma GrowthIsFollowedUp(v: ProcValue, cfg: AppConfig, procs: Option<int>, alive: set<int>, snap: Snapshot,
                           procs': Option<int>, alive': set<int>, snap': Snapshot)
    requires !Settled(v, procs, alive) && |snap.procs| > v.lastProcTotal
    ensures var v' := Synced(v, cfg, procs, alive, Some(snap));
            Synced(v', cfg, procs', alive', Some(snap')).cache == Rebuilt(Scan(snap', true, v'.trackedPids, cfg))
  {
    UnsettledSyncRebuilds(v, cfg, procs, alive, snap);
    UnsettledSyncRebuilds(Synced(v, cfg, procs, alive, Some(snap)), cfg, procs', alive', snap');
  }

  /** And after a change of the configuration it looks at all of them under the new one. */
  lemma ReloadIsFollowedUp(l: ProcLoop, reload: A.Reload, procs: Option<int>, alive: set<int>, snap: Snapshot)
    ensures var l' := Stepped(Stepped(l, ReloadStep(reload)), SyncStep(procs, alive, Some(snap)));
            l'.v.cache == Rebuilt(Scan(snap, true, l.v.trackedPids, A.Reloaded(l.cfg, reload)))
  {
    var v := l.v.(scanAllProc := true);
    UnsettledSyncRebuilds(v, A.Reloaded(l.cfg, reload), procs, alive, snap);
  }

  /** A sweep is called for once: after it, and as long as nothing calls for another look and the process
      count does not grow, none is. */
  lemma SweepIsOnce(l: ProcLoop, live: set<int>, procs: Option<int>, alive: set<int>, snap: Option<Snapshot>)
    requires Settled(l.v, procs, alive) && procs.value <= l.v.lastProcCount
    ensures !Stepped(Stepped(l, SweepStep(live)), SyncStep(procs, alive, snap)).v.forceAffinity
  {
    SettledSyncKeeps(SweptValue(l.v, live), l.cfg, procs, alive, snap);
  }
}
