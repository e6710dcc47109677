# Verification of the Aether OptExt thread binder

Aether OptExt binds Android threads to CPU sets. This project models the parts that decide
which thread gets which CPUs and that remember what was decided, and proves properties of them
in Dafny 4.11. `dafny verify dfyconfig.toml` checks everything.

## What is modelled

| file | part of the system |
|---|---|
| `Strings.dfy` | byte strings: trimming, splitting, decimal numbers |
| `Words.dfy`, `CpuSets.dfy` | the 1024-bit CPU mask as 16 machine words, against the set of its CPUs |
| `Ranges.dfy` | the range printer and parser behind cpuset directory names |
| `Utf8.dfy` | the bytes that are UTF-8, and what trimming white space removes |
| `RangeSyntax.dfy` | what one part of a range string denotes, by its text |
| `Clusters.dfy` | the second range printer, `fmt_cpus` |
| `Glob.dfy` | the name matcher `fnmatch` |
| `Config.dfy` | rules, and how `load` builds them |
| `RuleMatch.dfy` | the affinity of one thread |
| `AffinityMeaning.dfy` | that affinity in terms of the configured rules alone |
| `AutoCache.dfy` | the automatic assignment cache: `save`, then `merge`, then a binding |
| `ConfigMeaning.dfy` | what the configuration and cache files lead to, in terms of their entries |
| `Whitelist.dfy` | whitelist keys, the kernel's sliding-window filter, the userspace resolver |
| `Threads.dfy` | `affinity_set` against the system calls |
| `ProcCaches.dfy` | the process cache shared by both modes |
| `ProcScan.dfy`, `EventMode.dfy` | eBPF mode: events, full scan, sweep, whole runs |
| `Interleaving.dfy` | kernel handlers and userspace stepping against each other |
| `Atomicity.dfy` | without a kernel step in between, those steps are the operations of `EventMode.dfy` |
| `EventPaths.dfy` | from a fork, exec, rename or exit in the kernel to what userspace makes of it |
| `ExitRace.dfy` | an exit between finding a thread alive and publishing it |
| `RunProperties.dfy` | what holds of the cache in every such interleaving |
| `ProcMode.dfy` | proc mode: rebuilds, sweeps, whole runs, and runs across both modes |
| `ScanMeaning.dfy` | what both scans of `/proc` lead to, in terms of the files read and the rules |
| `SyncMeaning.dfy` | when proc mode looks at `/proc` again, and at which processes |

## How it is modelled

- A Rust string is the sequence of its UTF-8 bytes, each written as a character below 256. Integers
  are unbounded; where 64 bits matter (`usize` parsing, `end + 1` in `fmt_cpus`, the mask's words)
  the bound or the wrap is written out.
- Code that updates things in place is a class or a method with loops, and each such method is proved
  against a function of its inputs and of the old state. The properties are then lemmas about these
  functions.
- A CPU set outside `CpuSets.dfy` is the mathematical set of its CPUs. `SetOfInjective` shows that the
  words carry no more than that.
- System calls and files are inputs: the set of live threads, a snapshot of `/proc`, the process
  count, and the set of directory names whose creation fails (`Topology.broken`). A hash set is the
  list of its elements in iteration order; the theorems hold for every order.
- The protocol in `Interleaving.dfy` lets any thread number fork, exec, be renamed or exit at any time,
  any number of kernel handlers be in flight, and every answer of a system call be any answer. It
  assumes that no event is dropped, no entry of the applied map is evicted, and map operations
  succeed. `DroppedExitIsLost` shows that the first assumption is needed.
- Where code and documentation differ, the code is modelled: a thread gets the union of all matching
  rules, not the one of highest priority (src/rule_match.rs:18-26 against README.md); rules are keyed
  to an entry's first package only (src/config.rs:67, src/config.rs:84); `merge` keeps the first of two
  entries with one key, not the last as its comment says (src/config.rs:128-129).

## Where a promise fails, and exactly when it holds

- `merge` does not use the entry `save` has just written if an older entry names the same package as
  its first string behind a first element that is no string (`ShadowedEntryIgnored`). `SavedEntryUsed`
  proves that this is the only way.
- `fnmatch` is a glob matcher exactly for the non-empty patterns with at most one star
  (`FnMatchIsGlobIff`).
- `thread_affinity` lets a matched thread rule without a valid CPU fall to the present mask, and to None
  exactly for the empty package name if no thread rule is keyed to `*` (`MatchedRuleNoneIff`,
  `EmptyPackageIsNone`). That case belongs to the function alone: its caller `task_apply` passes a
  thread's name only with the package's has-thread-rules flag, and then never gets None
  (`MatchedRuleBinds`, at every point of a run `InterleavedMatchBinds`, in proc mode `NoBindingIff`).
- `fmt_cpus` prints every part in ascending order exactly for lists in which `usize::MAX` is not followed
  by 0 (`PrintableIffNoWrap`), and all these lists are read back right (`ParseFormatted`). Any other list
  is read back right exactly if other elements make up for each backwards part (`ParseFormattedIff`); a
  list without repetitions that lacks some CPU below 1024 never is (`ParseFormattedDistinct`,
  `WrappedListIsLost`).
- The kernel filter passes every resolvable name that the kernel stores without surrounding blanks
  (`PrefilterHasNoFalseNegatives`). With blanks, it can lose a name exactly if the trimmed name is
  shorter than 8 bytes and is followed by blanks, starts after byte 8, or is empty
  (`FilterLosesIff`, `TrailingBlankIsDropped`).
- After a proc-mode rebuild `pkgs` is exactly the set of owners of tasks if and only if each process that
  offers a binding wins some thread (`SyncIsComprehension`). Snapshots in which no thread is listed under
  two processes are of this kind (`DisjointSyncIsComprehension`), a torn reading need not be
  (`OverlapBreaksTight`). That every owner is in `pkgs` holds for all snapshots, and over whole runs a
  process in `pkgs` owns no task exactly if it won none in the last rebuild (`ConsistentFromFirstSync`).
- A thread exits between being found alive and being published, while of its number nothing but exits is
  on its way. Then, whatever goes on about other threads until the system is quiet, and unless a sweep
  or a scan starts, its entry is left behind exactly if it was not in the applied map and no earlier exit
  of its number was still on its way (`ExitRaceLeavesEntryIff`; both outcomes: `LeftEntryFromStart`,
  `OlderExitFromStart`). A sweep removes the entry (`SweepHeals`), and so does the next exit of a thread
  with its number (`QuietExitIsSeen`).

## Model

| member | source | states |
|---|---|---|
| Words.AndMask | src/cpuset.rs:27 | testing a word against a shifted one reads exactly the bit with that number |
| Words.OrBits | src/cpuset.rs:36 | the bits of an OR are those of either word |
| CpuSets.SetOfInjective | src/cpuset.rs:10-13 | masks with the same CPUs have the same 16 words |
| CpuSets.CountIsCardinality | src/cpuset.rs:30-32 | the sum of the words' population counts is the number of CPUs in the set |
| CpuSets.ZeroWordsEmpty | src/cpuset.rs:40-42 | all words are zero exactly for the empty set |
| CpuSets.CpuSet.Set | src/cpuset.rs:20-24 | adds one CPU, leaves all others, ignores numbers from 1024 on |
| CpuSets.CpuSet.IsSet | src/cpuset.rs:26-28 | true exactly for the members, false from 1024 on |
| CpuSets.CpuSet.Union | src/cpuset.rs:34-38 | the result is the union, also when a mask is joined with itself |
| CpuSets.CpuSet.Count | src/cpuset.rs:30-32 | the number of CPUs in the set |
| CpuSets.CpuSet.IsZero | src/cpuset.rs:40-42 | true exactly for the empty set |
| CpuSets.CpuSet.Equals | src/cpuset.rs:10 | comparing words is comparing sets |
| Ranges.PrintedRunsAreCanonical | src/cpuset.rs:55-89 | the printed runs are the only list of ascending, non-empty, non-adjacent runs that covers the set |
| Ranges.ToRangeString | src/cpuset.rs:55-89 | the loop over words and bits, with its shortcut for zero words, prints these runs |
| Ranges.PushRange | src/cpuset.rs:123-135 | appends one run with a comma unless it is the first; no run, no change |
| Ranges.ParseCpuRanges | src/cpuset.rs:138-176 | the CPUs denoted by the parts, intersected with the present mask if there is one |
| Ranges.FromRange | src/cpuset.rs:179-181 | the same without a mask |
| RangeSyntax.ParseNumber | src/cpuset.rs:144-165 | digits with any white space around them denote their CPU, `usize::MAX` nothing |
| RangeSyntax.ParsePlus | src/cpuset.rs:149 | a plus sign before them changes nothing |
| RangeSyntax.ParseInterval | src/cpuset.rs:148-159 | two numbers joined by a dash denote the interval between them, in either order |
| RangeSyntax.ParseOpenInterval | src/cpuset.rs:150 | with a second bound that is no number, the first bound's CPU alone |
| RangeSyntax.ParseBadNumber | src/cpuset.rs:149-153 | with a first bound that is no number, nothing |
| RangeSyntax.ParseBadPart | src/cpuset.rs:160-165 | a part that is no number denotes nothing |
| RangeSyntax.ParseBlank | src/cpuset.rs:144-147 | nor does a blank part |
| Ranges.ParseJoin | src/cpuset.rs:143-174 | parsing two strings joined by a comma gives the union, for all strings, malformed ones included |
| Ranges.PartOfPrintedRun | src/cpuset.rs:144-165 | one printed run is read back with the same bounds, in order; one that starts at `usize::MAX` is skipped |
| Ranges.ParseAnyRuns | src/cpuset.rs:144-174 | what any printed list of runs is read back as: a reversed run turned round, one that starts at `usize::MAX` skipped |
| Ranges.ParsePrinted | src/cpuset.rs:55-176 | printing then parsing is the identity on every 1024-bit set |
| Ranges.DirectoryNamesDistinguishSets | src/cpuset.rs:208-219 | two sets share a cpuset directory name exactly when they are equal |
| Strings.ParseDec | src/cpuset.rs:149-150 | a printed number is read back if it fits `usize`, and is an error otherwise |
| Strings.SplitAppend | src/cpuset.rs:143 | splitting at a character distributes over joining with it |
| Utf8.ValidUtf8Iff | src/main.rs:38 | the bytes taken as text are exactly the encodings of texts |
| Utf8.SpaceIff | src/cpuset.rs:144 | the bytes that trimming takes away are exactly the encodings of white-space scalars |
| Utf8.TrimMeaning | src/cpuset.rs:144 | trimming removes white space from both ends and leaves none there |
| Utf8.TrimAround | src/cpuset.rs:144 | white space around a text with plain ends is all that is trimmed |
| Utf8.CommStrMeaning | src/main.rs:36-39 | a thread's name is the trimmed text before the first NUL, empty if that is no UTF-8 |
| Clusters.FmtCpus | src/cpu.rs:76-88 | the nested loops print the runs of the list |
| Clusters.ParseFormatted | src/cpu.rs:76-88 | parsing a formatted non-empty list gives its elements below 1024, sorted or not |
| Clusters.PrintersAgree | src/cpu.rs:76-88 | on the ascending list of a non-empty set both printers give the same string |
| Clusters.PrintableIffNoWrap | src/cpu.rs:83-84 | all parts are ascending exactly if no `usize::MAX` is followed by 0 |
| Clusters.ParseFormattedIff | src/cpu.rs:76-88 | any list is read back right exactly if each part printed backwards is made up for: its own CPUs are read from some part, and what it is wrongly read as is in the list |
| Clusters.ParseFormattedDistinct | src/cpu.rs:76-88 | for a list without repetitions that lacks some CPU below 1024, exactly if no `usize::MAX` is followed by 0 |
| Clusters.WrappedListIsLost | src/cpu.rs:83-84 | with such a wrap an element can be lost on reading back |
| Clusters.FormattedEmpty | src/cpu.rs:77 | the empty list is printed as CPU 0 |
| Glob.FnMatchIsGlob | src/config.rs:3-10 | with at most one star it is the recursive glob matcher; prefix and suffix never overlap in the name |
| Glob.FnMatchIsGlobIff | src/config.rs:3-10 | and it agrees with that matcher on all names only for such patterns |
| Glob.FnMatchWithinGlob | src/config.rs:3-10 | it never accepts a name the glob rejects, whatever the number of stars |
| Glob.FnMatchReflexive | src/config.rs:3-10 | every non-empty string matches itself, stars included |
| Config.Load | src/config.rs:58-104 | the loops over entries, packages, groups and names build the loaded configuration |
| Config.LoadedMeaning | src/config.rs:62-101 | the rules are exactly those the entries give, the package set all names, the wildcards those with `*` or `?` |
| Config.EntryRuleSource | src/config.rs:84-98 | an entry gives one package rule and one thread rule per name of a group, all keyed to its first package |
| Config.LoadedDirsAgree | src/config.rs:74-84 | every loaded rule has a directory that is empty or the printed form of its own CPU set |
| Config.PushEntry | src/config.rs:84-98 | the pushes for one entry, as `load` and `merge` share them |
| ConfigMeaning.EntryPackageRule | src/config.rs:65-84 | an entry's package rule is for its first string and has the CPUs under `other`, or CPU 0 |
| ConfigMeaning.LoadedWild | src/config.rs:71 | the wildcard packages are the listed names with a star or a question mark |
| ConfigMeaning.ReloadedMeaning | src/main.rs:23-33 | a hot reload has exactly the rules and packages of the configuration file and of the merged entries of the cache file |
| ConfigMeaning.ReloadedAlone | src/config.rs:120-122 | without a cache file those of the configuration file alone |
| ConfigMeaning.StartMeaning | src/main.rs:254-298 | at the start also those of the cache file after the automatic assignment |
| ConfigMeaning.InterestedIff | src/main.rs:105-109 | a process is of interest by its name, by the part before the first colon, or by a wildcard package |
| RuleMatch.ThreadAffinity | src/rule_match.rs:12-69 | the union of matching thread rules, else of package rules, else the present mask, else nothing; with the matching directory |
| RuleMatch.EnsureCpusetDir | src/cpuset.rs:208-219 | names the directory of the set, or nothing if cpusets are off or creation fails |
| AffinityMeaning.AffinityMeaning | src/rule_match.rs:12-69 | over the configured rules: the matching thread rules' CPUs if they name any, else, if none matches, the package rules', else the present CPUs if a thread rule is meant for the package, else nothing; each with its kind |
| AffinityMeaning.ThreadRuleIff | src/rule_match.rs:17-31 | a binding is by thread rules exactly if a matching one names a CPU |
| AffinityMeaning.ThreadCpuByGlob | src/rule_match.rs:22 | matching is glob matching for patterns with at most one star |
| AffinityMeaning.OnlyRuleDir | src/rule_match.rs:39-46 | a single package rule gives its own directory, or else that of its CPUs |
| AffinityMeaning.SeveralRulesNoDir | src/rule_match.rs:47-49 | several package rules share none |
| AffinityMeaning.DirectoryIsNamed | src/cpuset.rs:208-219 | with cpusets on and creation succeeding a directory is named, by a string that denotes the set; else none |
| RuleMatch.AffinityIgnoresOrder | src/rule_match.rs:12-69 | permuting the rules changes nothing in the result |
| RuleMatch.AffinityIgnoresForeign | src/rule_match.rs:17-61 | only rules for the package, and thread rules whose pattern matches it, count |
| RuleMatch.AffinityIgnoresDuplicates | src/rule_match.rs:12-69 | duplicated rules change neither the CPUs nor the kind of binding |
| RuleMatch.AffinityDirNamesMask | src/rule_match.rs:27-51 | a result's directory is empty or parses back to its mask, and the mask is not empty if a CPU is present |
| RuleMatch.MatchedRuleNoneIff | src/rule_match.rs:53-61 | a matched thread rule ends in None exactly if its rules have no valid CPU, the package name is empty and no thread rule is keyed to `*`; otherwise without valid CPUs it gives the present mask |
| RuleMatch.EmptyPackageIsNone | src/rule_match.rs:53-61 | a loaded configuration with which that happens, for a call that no caller makes |
| AutoCache.Cache.Save | src/config.rs:160-219 | a blacklisted package changes nothing; else the package's old entries go and the new one is appended |
| AutoCache.Cache.Merge | src/config.rs:119-144 | adds the rules of the first entry of each key; a missing or malformed file changes nothing |
| AutoCache.MergedMeaning | src/config.rs:123-142 | the added rules and packages are exactly those of the entries whose key was not seen before |
| AutoCache.FiledThread | src/config.rs:166-195 | a thread of high or middle load is filed under its cluster's CPU string |
| ConfigMeaning.LoadMeaning | src/config.rs:221-230 | how a name's words place its load to the two thresholds |
| ConfigMeaning.SavedRules | src/config.rs:160-196 | the rules of a saved entry: the package gets the little cluster, heavy threads the big one, middling ones the middle one, and no other thread a rule |
| ConfigMeaning.GroupsAscend | src/config.rs:176-178 | its groups stand in the order of their CPU strings |
| ConfigMeaning.BlacklistedIff | src/config.rs:148-158 | the blacklisted packages, by end, name or start |
| AutoCache.SavesKeepLatest | src/config.rs:200-218 | after any saves: the untouched old entries, then each package's latest entry in order of last save |
| AutoCache.SavedFileIsDistinct | src/config.rs:123-129 | from an empty cache package names are distinct, and the first entry of a package is also its last |
| AutoCache.SaveIdempotent | src/config.rs:206-217 | saving the same input twice changes nothing more |
| AutoCache.SavedEntryUsed | src/config.rs:207-217 | `merge` uses the new entry exactly if no old entry shadows its package |
| AutoCache.ShadowedEntryIgnored | src/config.rs:207-217 | a file for which it does not |
| AutoCache.LastSaveUsed | src/config.rs:200-218 | after any saves `merge` uses the entry of a package's last save, unless an old entry shadows it |
| AutoCache.SavedThreadIsBound | src/config.rs:160-196 | after any number of saves and a merge, a thread of its package's last save with a name and load from 8 gets a thread-rule binding holding the whole big cluster, from 5 the middle one |
| AutoCache.SavedThreadGetsCluster | src/cpu.rs:67-71 | the same with the strings `detect` produces, CPU by CPU |
| AutoCache.Cache.HotReload | src/main.rs:23-33 | loads and merges anew, or keeps the configuration if the file cannot be read |
| AutoCache.StartDirsAgree | src/main.rs:254-298 | at the start, after load and merges of any files, every rule has a directory that agrees with its CPU set |
| AutoCache.ReloadedDirsAgree | src/config.rs:132-137 | and a hot reload keeps it so |
| AutoCache.LaterMergeHarmless | src/main.rs:285-299 | merging again after any saves changes neither CPUs nor kind of any binding of a package that was not saved |
| Whitelist.CommKeysBuild | src/bpf.rs:283-302 | a strictly increasing list of exactly the prefix and suffix keys, at most two per package |
| Whitelist.IncreasingUnique | src/bpf.rs:299-301 | such a list is determined by its elements |
| ConfigMeaning.KeyMeaning | src/bpf.rs:283-302 | a key is the first or the last 8 bytes of a package, or a shorter name filled up with NULs |
| ConfigMeaning.LessMeaning | src/bpf.rs:299 | keys are ordered byte by byte |
| Whitelist.WhitelistMatched | ebpf/src/main.rs:72-80 | true exactly if some 8-byte window of the 16 bytes is a key |
| Whitelist.CommToPkgFinds | src/bpf.rs:365-378 | finds a package whenever one fits, exact names first, then prefixes, then suffixes |
| Whitelist.LongNamesAdmitted | ebpf/src/main.rs:72-80 | names of 8 bytes or more that userspace resolves always pass the kernel filter |
| Whitelist.PrefilterHasNoFalseNegatives | ebpf/src/main.rs:72-80 | every name as the kernel stores it that userspace resolves passes the kernel filter over the same packages |
| Whitelist.FilterLosesIff | ebpf/src/main.rs:72-80 | some package set makes the filter drop a name that userspace resolves exactly if the trimmed name is short and followed by blanks, too far back, or empty |
| Whitelist.TrailingBlankIsDropped | src/main.rs:36-39 | a short name with a trailing blank is resolved but does not pass |
| EventMode.BpfMaps.CommMapInit | src/bpf.rs:305-335 | if the keys fit the map holds exactly them, else it is unchanged; up to half the capacity in packages always fits |
| EventMode.BpfMaps.AppliedSet | src/bpf.rs:338-343 | sets one thread's value |
| EventMode.BpfMaps.AppliedDel | src/bpf.rs:346-351 | removes one thread |
| EventMode.BpfMaps.AppliedClear | src/bpf.rs:354-362 | removes all threads, in any order |
| Threads.ThreadTable.AffinitySet | src/process.rs:200-227 | true exactly for an exited thread; a live one ends on the mask or its refusal is recorded once |
| ProcCaches.ProcCache.TaskDel | src/proccache.rs:31-42 | removes the task, and the process if that was its last |
| ProcCaches.ProcCache.PkgsPurge | src/proccache.rs:38-42 | forgets a process exactly if no task is left |
| ProcCaches.ProcCache.PkgLookupComm | src/proccache.rs:45-53 | the cached package, else the resolved one, which is then cached |
| ProcCaches.ProcCache.TaskPrepare | src/proccache.rs:57-75 | the decision, and the old entry removed only if a new binding follows |
| ProcCaches.UnmatchedIff | src/proccache.rs:57-64 | with the package's own flag `task_apply` finds nothing exactly for a package without thread rules and without CPUs in its package rules |
| ProcCaches.MatchedRuleBinds | src/proccache.rs:57-64 | so a matched thread rule never ends in None there |
| ProcCaches.ProcCache.AffinitySync | src/proccache.rs:91-99 | leaves the live tasks, returns exactly the removed ones, once each |
| ProcCaches.DeletionOrderIrrelevant | src/proccache.rs:95-97 | deleting a list of tasks has one result, whatever the order |
| ProcCaches.SweepHeals | src/proccache.rs:91-99 | from any cache, a sweep leaves only live threads, unchanged, and forgets exactly the processes that lost their last task |
| EventMode.TaskApply | src/proccache.rs:57-88 | binds, publishes and records a thread, or keeps a thread-rule binding, or drops a dead thread |
| EventMode.EventApply | src/main.rs:51-59 | false exactly if the package is unknown, and then changes nothing |
| EventMode.EventDispatch | src/main.rs:62-90 | the new cache and applied map for each kind of event |
| EventMode.FullScan | src/main.rs:93-123 | the cache and applied map rebuilt from a snapshot, empty if `/proc` cannot be read |
| ScanMeaning.FullScanIsRebuild | src/main.rs:93-123 | a full scan binds and publishes exactly the live threads, as a rebuild that looks at all processes binds them |
| ScanMeaning.FullTaskIff | src/main.rs:113-120 | a thread listed under one process is bound exactly if it is alive and as the files and rules ask |
| ScanMeaning.FullPkgIff | src/main.rs:121 | every process of interest whose threads can be listed enters `pkgs`, bound or not |
| EventMode.Sweep | src/main.rs:352-358 | the cache is swept and exactly the dead threads leave the applied map |
| EventMode.DispatchLatches | src/proccache.rs:66-73 | one event keeps a thread-rule binding a thread-rule binding, or removes it in exactly three ways |
| EventMode.BindingLatches | src/proccache.rs:57-88 | over any sequence of events a thread-rule binding stays one until it is removed |
| EventMode.RunOk | src/main.rs:323-358 | at every point of every eBPF run, with reloads of any files, cached flags are fresh and directories agree with masks |
| EventMode.LookupHitIsFresh | src/proccache.rs:45-53 | a lookup hit gives the flag that recomputing it would give |
| Interleaving.KernelKeepsWatch | ebpf/src/main.rs:101-202 | no tracepoint loses sight of a watched thread |
| Interleaving.HandlerKeepsWatch | ebpf/src/main.rs:117-200 | nor does any later step of a handler |
| Interleaving.NextKeepsInv | src/main.rs:62-90 | every single step of kernel or userspace keeps the protocol invariant |
| Interleaving.BoundThreadsAreWatched | src/main.rs:42-90 | in every interleaving a thread in `tasks` is in the applied map or has an EXIT event on its way |
| Interleaving.QuietExitIsSeen | ebpf/src/main.rs:184-202 | when nothing is in flight every bound thread's exit raises an EXIT event, whose dispatch removes that binding only |
| ExitRace.ExitRaceLeavesEntryIff | src/main.rs:42-48 | for an exit between `affinity_set` and publishing, with only exits of the number on their way and whatever goes on besides: at every quiet end the entry is left behind exactly if the thread was not in the applied map and no earlier exit was on its way |
| ExitRace.AboutToPublishReached | src/main.rs:42-90 | such a point is reached by an exec under a known name |
| ExitRace.LeftEntryFromStart | src/main.rs:42-90 | a run from the start of the program to an entry left behind |
| ExitRace.OlderExitFromStart | src/main.rs:42-90 | a run in which an older EXIT event of the number clears the entry |
| Interleaving.DroppedExitIsLost | ebpf/src/main.rs:83-88 | a dropped EXIT event breaks the protocol invariant |
| Atomicity.AloneIsDispatched | src/main.rs:62-90 | the small steps for one event amount to `event_dispatch` |
| Atomicity.AloneIsSwept | src/main.rs:352-358 | those of a sweep, in any order, to `affinity_sync` and the removals |
| Atomicity.AloneIsFullScanned | src/main.rs:93-123 | those of a scan, reloaded before or not, to `full_scan` |
| EventPaths.KernelIgnores | ebpf/src/main.rs:101-202 | the kernel raises nothing about a thread that it neither tracks nor knows by name |
| EventPaths.FirstWordIsFirst | src/main.rs:45 | what is published of a mask is its first word |
| EventPaths.ForkReachesBinding | ebpf/src/main.rs:101-126 | the child of a tracked thread is tracked and ends with what its package demands; its name counts only if it is the process's first thread |
| EventPaths.ForkOfUnknown | src/main.rs:53-55 | of a process that is not known nothing but the tracking changes |
| EventPaths.NamedForkReachesBinding | ebpf/src/main.rs:101-126 | so does the child of an untracked thread under a whitelisted name |
| EventPaths.ExecReachesBinding | ebpf/src/main.rs:130-150 | with the whitelist of its packages, a thread that runs a program under a resolvable name ends with what package and name demand |
| EventPaths.UnknownExecIsForgotten | src/main.rs:73-79 | under a whitelisted name that resolves to nothing it is forgotten |
| EventPaths.RenameReachesBinding | ebpf/src/main.rs:154-180 | a renamed thread of a known process ends with what its new name demands |
| EventPaths.RenameOfUnknown | src/main.rs:53-55 | of a process that is not known nothing changes |
| EventPaths.ExitIsForgotten | ebpf/src/main.rs:184-202 | a tracked thread that exits is forgotten, with its process if it was the first or the last thread |
| EventPaths.ExecThenRename | src/proccache.rs:45-53 | after an exec, a renamed thread of the process is bound in the process's package, whatever its name |
| RunProperties.InterleavedCacheOk | src/proccache.rs:45-88 | in every interleaving a lookup hit gives the flag that recomputing it would give, and directories agree with masks |
| RunProperties.AskIsStep | src/main.rs:51-123 | these calls are what the steps of userspace make, for events and in scans |
| RunProperties.InterleavedMatchBinds | src/proccache.rs:57-64 | at every call of `task_apply` in every interleaving a matched thread rule leads to a binding or keeps one |
| RunProperties.NextHolds | src/proccache.rs:57-88 | one step keeps a thread-rule binding one, or removes it, in exactly five ways |
| RunProperties.InterleavedBindingLatches | src/proccache.rs:57-88 | in every interleaving a thread-rule binding stays one until such a step |
| ProcMode.ProcState.Rebuild | src/main.rs:183-210 | the loop over `/proc` rebuilds the cache and tracks exactly its processes |
| ProcMode.ProcState.CheckReload | src/main.rs:151-173 | when a rebuild is due, and the counters |
| ProcMode.ProcState.Sync | src/main.rs:150-218 | the whole state after one sync, reloaded or not |
| SyncMeaning.SettledSyncKeeps | src/main.rs:151-175 | if nothing calls for another look a sync keeps all it knows |
| SyncMeaning.UnsettledSyncRebuilds | src/main.rs:177-218 | else it starts anew, and orders a full look exactly if there are more processes than at the last one |
| SyncMeaning.UnreadableSyncForgets | src/main.rs:177-218 | without a readable `/proc` it forgets everything |
| SyncMeaning.GrowthIsFollowedUp | src/main.rs:212-214 | when processes have become more, the next sync looks at all of them |
| SyncMeaning.ReloadIsFollowedUp | src/main.rs:361-365 | after a hot reload the next sync looks at all of them under the new configuration |
| SyncMeaning.SweepIsOnce | src/main.rs:369-373 | after a sweep none is called for until something changes |
| ProcMode.ProcState.Sweep | src/main.rs:369-373 | the swept cache, with everything else unchanged but the flag |
| ProcMode.OffersMembers | src/main.rs:183-206 | the offers of a rebuild are exactly the bindings that the threads of the scanned processes should get |
| ScanMeaning.MakesMeaning | src/main.rs:187-206 | an offer is what the process's command line or name, its threads' names and the rules ask for |
| ScanMeaning.RebuiltTaskIff | src/main.rs:187-206 | a thread listed under one process is bound exactly as these ask |
| ScanMeaning.ScannedThreadRule | src/main.rs:199-200 | a thread whose name a rule matches is bound by thread rules to its CPUs, in both scans |
| ScanMeaning.ThreadRuleScanned | src/main.rs:199-200 | every thread-rule binding of a scan comes from such a rule and name |
| ProcMode.NoBindingIff | src/main.rs:197-206 | a thread gets no offer exactly if its package has neither thread rules nor a CPU in its package rules; a matched thread rule always offers one |
| ProcMode.SyncIsComprehension | src/main.rs:177-214 | after a reload of any snapshot `tasks` is exactly the winning offers (thread rules first, then the latest), `pkgs` exactly the processes that made one, all tracked, and all owners among them; each owns a task exactly if each won a thread |
| ProcMode.DisjointSyncIsComprehension | src/main.rs:177-214 | with no thread under two processes `tasks` is exactly the set of bindings of the scanned processes' threads, and `pkgs` their owners |
| ProcMode.OverlapBreaksTight | src/main.rs:197-208 | a snapshot with a thread under two processes after which `pkgs` holds a process that owns no task |
| ProcMode.ConsistentFromFirstSync | src/main.rs:359-388 | from the first sync on, whatever the cache before and the snapshots, every owner is in `pkgs` and tracked, and a process in `pkgs` owns no task exactly if it won none in the last rebuild |
| ProcMode.TightFromFirstSync | src/main.rs:359-388 | with snapshots without overlap `pkgs` is then always exactly the owners |
| ProcMode.BindingsAlwaysAgree | src/proccache.rs:81-86 | in every run through both modes, with reloads and merges of any files, directories agree with masks and no mask is empty if a CPU is present |

## Left out

- JSON text, files and directories, `/proc`, sysfs, inotify, epoll, timers and the main loop's scheduling: inputs or not modelled; the JSON library is taken to read back what it wrote.
- The eBPF loader, tracepoint offsets and the reader thread: the ring buffer and the channel are one queue.
- Dead code in src/process.rs and `rule_prio`: not on any live path.
- `detect_core_types` and the sysfs part of `detect`: no binding reads the tiers of the first, and the second only collects the lists that `fmt_cpus` prints.
- The easter egg and `features` of the configuration file.
- A cpuset that narrows a thread's mask behind `sched_setaffinity`, and errors other than ESRCH beyond their being reported once.
- Process and thread numbers are integers; the casts between `i32` and `u32` keys are one-to-one and not written out.
- `Vec::sort` is an insertion sort with the same contract.
