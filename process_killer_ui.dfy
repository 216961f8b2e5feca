/**
 * `src/components/CommandPalette/ProcessKillerUI.tsx`: the process-terminator widget the
 * filtering hook injects. Its state (`processes`, `loading`, `terminatingId`) is the state
 * of `ProcessKiller`; the backend's answers (`list_processes`, and whether a kill call
 * resolved) arrive as method arguments, and what it says aloud is recorded in `spoken`.
 */
module ProcessKillerUI {
  import opened Wrappers
  import opened Strings

  /** An entry of `list_processes`; CPU and memory figures are not modelled. */
  datatype ProcessInfo = ProcessInfo(pid: nat, name: string)

  const MaxListed: nat := 5

  predicate NameHas(p: ProcessInfo, target: string) {
    Contains(Lower(p.name), Lower(target))
  }

  /** The processes, in backend order, whose lowercased name contains the lowercased target. */
  function Matching(all: seq<ProcessInfo>, target: string): (r: seq<ProcessInfo>)
    ensures |r| <= |all|
    ensures forall k :: 0 <= k < |r| ==> NameHas(r[k], target)
    ensures forall p :: p in r <==> p in all && NameHas(p, target)
  {
    if all == [] then []
    else (if NameHas(all[0], target) then [all[0]] else []) + Matching(all[1..], target)
  }

  /**
   * `all.filter(...).slice(0, 5)`: the first five matches in backend order, so with fewer
   * than five entries every matching process is listed.
   */
  function Listed(all: seq<ProcessInfo>, target: string): (r: seq<ProcessInfo>)
    ensures |r| <= MaxListed
    ensures |r| <= |Matching(all, target)| && r == Matching(all, target)[..|r|]
    ensures forall p :: p in all && NameHas(p, target) ==> p in r || |r| == MaxListed
  {
    var m := Matching(all, target);
    if |m| <= MaxListed then m else m[..MaxListed]
  }

  /** `prev.filter(p => p.pid !== pid)`. */
  function WithoutPid(ps: seq<ProcessInfo>, pid: nat): (r: seq<ProcessInfo>)
    ensures |r| <= |ps|
    ensures forall k :: 0 <= k < |r| ==> r[k].pid != pid
  {
    if ps == [] then []
    else (if ps[0].pid != pid then [ps[0]] else []) + WithoutPid(ps[1..], pid)
  }

  /** A process stays in the list iff its pid is not the one removed. */
  lemma {:induction false} WithoutPidMembers(ps: seq<ProcessInfo>, pid: nat, p: ProcessInfo)
    ensures p in WithoutPid(ps, pid) <==> p in ps && p.pid != pid
  {
    if ps != [] {
      WithoutPidMembers(ps[1..], pid, p);
      assert p in ps <==> p == ps[0] || p in ps[1..];
    }
  }

  /** Removing a pid that is not listed leaves the list as it was. */
  lemma {:induction false} WithoutAbsentPid(ps: seq<ProcessInfo>, pid: nat)
    requires forall k :: 0 <= k < |ps| ==> ps[k].pid != pid
    ensures WithoutPid(ps, pid) == ps
  {
    if ps != [] {
      WithoutAbsentPid(ps[1..], pid);
    }
  }

  /** Removal keeps the other entries in their order: it distributes over concatenation. */
  lemma {:induction false} WithoutPidAppend(a: seq<ProcessInfo>, b: seq<ProcessInfo>, pid: nat)
    ensures WithoutPid(a + b, pid) == WithoutPid(a, pid) + WithoutPid(b, pid)
  {
    if a != [] {
      assert (a + b)[0] == a[0];
      assert (a + b)[1..] == a[1..] + b;
      WithoutPidAppend(a[1..], b, pid);
    } else {
      assert a + b == b;
    }
  }

  /** With distinct pids, removing a listed entry's pid drops exactly that entry. */
  lemma WithoutListedPid(ps: seq<ProcessInfo>, k: nat)
    requires k < |ps|
    requires forall a, b :: 0 <= a < b < |ps| ==> ps[a].pid != ps[b].pid
    ensures WithoutPid(ps, ps[k].pid) == ps[..k] + ps[k + 1..]
  {
    forall j | 0 <= j < |ps| && j != k
      ensures ps[j].pid != ps[k].pid
    {
      if j < k {
        assert ps[j].pid != ps[k].pid;
      } else {
        assert ps[k].pid != ps[j].pid;
      }
    }
    WithoutOnlyAt(ps, k, ps[k].pid);
  }

  /** Removing a pid that only the entry at `k` carries drops that entry and keeps the rest in order. */
  lemma {:induction false} WithoutOnlyAt(ps: seq<ProcessInfo>, k: nat, pid: nat)
    requires k < |ps| && ps[k].pid == pid
    requires forall j :: 0 <= j < |ps| && j != k ==> ps[j].pid != pid
    ensures WithoutPid(ps, pid) == ps[..k] + ps[k + 1..]
    decreases k
  {
    var rest := ps[1..];
    if k == 0 {
      forall j | 0 <= j < |rest|
        ensures rest[j].pid != pid
      {
        assert rest[j] == ps[j + 1];
      }
      WithoutAbsentPid(rest, pid);
      assert ps[..0] + ps[1..] == rest;
    } else {
      forall j | 0 <= j < |rest| && j != k - 1
        ensures rest[j].pid != pid
      {
        assert rest[j] == ps[j + 1];
      }
      WithoutOnlyAt(rest, k - 1, pid);
      assert ps[..k] == [ps[0]] + rest[..k - 1];
      assert ps[k + 1..] == rest[k..];
    }
  }

  /** The backend call a kill button issues. */
  datatype KillRequest = KillPid(pid: nat) | KillTree(pid: nat)

  class ProcessKiller {
    /** The `initialTarget` prop the parent last supplied. */
    var target: string
    var processes: seq<ProcessInfo>
    var loading: bool
    var terminatingId: Option<nat>
    var spoken: seq<string>

    /** The widget as first rendered for `initialTarget`: loading, with an empty list. */
    constructor (initialTarget: string)
      ensures target == initialTarget && processes == [] && loading && terminatingId.None? && spoken == []
    {
      target := initialTarget;
      processes := [];
      loading := true;
      terminatingId := None;
      spoken := [];
    }

    /**
     * The parent re-renders with a new `initialTarget` (the kill query was edited). The
     * effect keyed on the prop fetches the list again only when the prop actually changed;
     * the shown list and the loading flag stay until that fetch answers.
     */
    method TargetChanged(newTarget: string) returns (refetch: bool)
      modifies this`target
      ensures target == newTarget
      ensures refetch <==> newTarget != old(target)
    {
      refetch := newTarget != target;
      target := newTarget;
    }

    /** Both kill buttons are enabled only while no kill is in flight. */
    predicate ButtonsEnabled()
      reads this
    {
      terminatingId.None?
    }

    /**
     * `fetchProcesses`: `answer` is what `list_processes` resolved to, or nothing when it
     * rejected, which leaves the list as it was. Loading ends either way.
     */
    method ProcessesFetched(answer: Option<seq<ProcessInfo>>)
      modifies this`processes, this`loading
      ensures !loading
      ensures processes == if answer.Some? then Listed(answer.value, target) else old(processes)
    {
      if answer.Some? {
        processes := Listed(answer.value, target);
      }
      loading := false;
    }

    /** A click on `Kill` (`tree` false) or `Tree` (`tree` true) of a listed entry: the kill is marked in flight and issued. */
    method KillClicked(p: ProcessInfo, tree: bool) returns (request: KillRequest)
      requires ButtonsEnabled() && p in processes
      modifies this`terminatingId
      ensures terminatingId == Some(p.pid)
      ensures request == if tree then KillTree(p.pid) else KillPid(p.pid)
    {
      terminatingId := Some(p.pid);
      request := if tree then KillTree(p.pid) else KillPid(p.pid);
    }

    /**
     * The kill call for `p` settled: when it resolved, the outcome is spoken and every
     * entry with that pid leaves the list; when it rejected, the list stays. Either way
     * nothing is in flight afterwards.
     */
    method KillSettled(p: ProcessInfo, tree: bool, resolved: bool)
      requires terminatingId == Some(p.pid)
      modifies this`processes, this`terminatingId, this`spoken
      ensures terminatingId.None?
      ensures processes == if resolved then WithoutPid(old(processes), p.pid) else old(processes)
      ensures spoken == old(spoken) +
        (if !resolved then [] else if tree then ["Terminated " + p.name + " and its child processes"] else ["Terminated " + p.name])
    {
      if resolved {
        if tree {
          spoken := spoken + ["Terminated " + p.name + " and its child processes"];
        } else {
          spoken := spoken + ["Terminated " + p.name];
        }
        processes := WithoutPid(processes, p.pid);
      }
      terminatingId := None;
    }
  }
}
