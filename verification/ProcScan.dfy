/**
 What both modes read from `/proc` and how they pick the processes to bind: the common part
 of `full_scan` and `proc_cache_sync` in src/main.rs. A snapshot stands for the files read.
 */
module ProcScan {
  import opened Strings
  import opened Glob
  import opened Config
  import opened ProcCaches

  /** One numeric entry of `/proc`; None for a file that cannot be read or is empty. */
  datatype ProcInfo = ProcInfo(pid: int, cmdline: Option<string>, comm: Option<string>, tids: Option<seq<int>>)

  /** `procs` in directory order, and the readable thread names. */
  datatype Snapshot = Snapshot(procs: seq<ProcInfo>, threadComm: map<int, string>)

  function PkgOf(p: ProcInfo): Option<string> {
    if p.cmdline.Some? then p.cmdline else p.comm
  }

  /** Configured itself, by the part before its first colon, or by a wildcard package. */
  predicate Interested(pkg: string, cfg: AppConfig) {
    || pkg in cfg.pkgs
    || Split(pkg, ':')[0] in cfg.pkgs
    || exists i | 0 <= i < |cfg.wild| :: FnMatch(cfg.wild[i], pkg)
  }

  /** A process to bind: known by name, of interest, and with a readable task list. */
  predicate Target(p: ProcInfo, cfg: AppConfig) {
    PkgOf(p).Some? && Interested(PkgOf(p).value, cfg) && p.tids.Some?
  }

  /** The name a scan binds a thread by; read only for packages that have thread rules. */
  function ScanName(s: Snapshot, tid: int, hasThreadRules: bool): string {
    if hasThreadRules && tid in s.threadComm then s.threadComm[tid] else ""
  }

  function ScanDecision(c: Cache, s: Snapshot, p: ProcInfo, tid: int, cfg: AppConfig): Decision
    requires PkgOf(p).Some?
  {
    var pkg := PkgOf(p).value;
    var htr := HasThreadRules(cfg.rules, pkg);
    Decide(c, tid, p.pid, pkg, ScanName(s, tid, htr), htr, true, cfg)
  }

  function ScanFlag(p: ProcInfo, cfg: AppConfig): (string, bool)
    requires PkgOf(p).Some?
  {
    (PkgOf(p).value, HasThreadRules(cfg.rules, PkgOf(p).value))
  }
}
