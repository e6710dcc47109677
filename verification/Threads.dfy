/**
 src/process.rs, `affinity_set`: binding one thread, against the system calls as oracles. A
 thread is alive or not; a live thread has a current mask and may refuse a new one.
 */
module Threads {
  import opened Ranges
  import opened Config

  class ThreadTable {
    var live: set<int>
    var mask: map<int, set<nat>>
    /** Threads whose `sched_setaffinity` fails with an error other than ESRCH. */
    var refusing: set<int>
    /** The cpuset directory each thread was last written to; empty for the base directory. */
    var group: map<int, string>
    /** The (thread, mask) pairs whose failure was reported. */
    var reported: set<(int, string)>

    constructor (live: set<int>, refusing: set<int>)
      ensures this.live == live && this.refusing == refusing
    {
      this.live, this.refusing := live, refusing;
      mask, group, reported := map[], map[], {};
    }

    /** Whether the kernel says the thread already has this mask. */
    predicate AlreadyOn(tid: int, cpus: set<nat>)
      reads this
    {
      tid in live && tid in mask && mask[tid] == cpus
    }

    /** Returns true exactly for a thread that has exited, and then changes nothing. A live
        thread ends on the mask unless it refuses; the first refusal of a mask is recorded. */
    method AffinitySet(tid: int, cpus: set<nat>, dir: string, topo: Topology) returns (dead: bool)
      modifies this
      ensures live == old(live) && refusing == old(refusing)
      ensures dead <==> tid !in live
      ensures dead || old(AlreadyOn(tid, cpus)) ==>
                mask == old(mask) && group == old(group) && reported == old(reported)
      ensures !dead && !old(AlreadyOn(tid, cpus)) ==>
                && group == (if topo.cpusetEnabled then old(group)[tid := dir] else old(group))
                && mask == (if tid in refusing then old(mask) else old(mask)[tid := cpus])
                && reported == (if tid in refusing then old(reported) + {(tid, RangeString(cpus))} else old(reported))
      ensures !dead ==> AlreadyOn(tid, cpus) || (tid, RangeString(cpus)) in reported
    {
      if AlreadyOn(tid, cpus) {
        return false;
      }
      if topo.cpusetEnabled && tid in live {
        group := group[tid := dir];
      }
      if tid !in live {
        return true;
      }
      if tid in refusing {
        reported := reported + {(tid, RangeString(cpus))};
      } else {
        mask := mask[tid := cpus];
      }
      dead := false;
    }
  }
}
