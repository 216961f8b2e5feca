/**
 * `src-tauri/src/services/system.rs`: the backend commands that end processes and press
 * media keys. The process table that `sysinfo` refreshes is an input: a sequence in the
 * table's iteration order, one entry per pid (the table is a map keyed by pid). Killing a
 * process, and each `keybd_event` call, is recorded in an output sequence instead of
 * happening.
 */
module ProcessControl {
  import opened Wrappers
  import opened Strings

  /** One entry of the process table: its pid, its executable name and its parent's pid, if any. */
  datatype Process = Process(pid: nat, name: string, parent: Option<nat>)

  /** The table is keyed by pid: no pid occurs twice. */
  predicate DistinctPids(procs: seq<Process>) {
    forall a, b :: 0 <= a < b < |procs| ==> procs[a].pid != procs[b].pid
  }

  predicate Distinct(s: seq<nat>) {
    forall a, b :: 0 <= a < b < |s| ==> s[a] != s[b]
  }

  predicate HasPid(procs: seq<Process>, pid: nat) {
    exists m :: 0 <= m < |procs| && procs[m].pid == pid
  }

  // ------------------------------------------------------------ kill by name

  /** The name test of `kill_process_by_name`: either lowercased name contains the other. */
  predicate NameMatches(p: Process, target: string) {
    Contains(Lower(p.name), target) || Contains(target, Lower(p.name))
  }

  /** The pids `kill_process_by_name` kills, in table order. */
  function MatchingPids(procs: seq<Process>, target: string): (r: seq<nat>)
    ensures |r| <= |procs|
    ensures forall x :: x in r <==> exists m :: 0 <= m < |procs| && procs[m].pid == x && NameMatches(procs[m], target)
    decreases |procs|
  {
    if procs == [] then []
    else
      var n := |procs| - 1;
      var r := MatchingPids(procs[..n], target);
      assert forall m :: 0 <= m < n ==> procs[..n][m] == procs[m];
      if NameMatches(procs[n], target) then r + [procs[n].pid] else r
  }

  /**
   * `kill_process_by_name(name)`: every process whose lowercased name contains the
   * lowercased target, or is contained in it, is killed; the answer is `Ok(true)` when at
   * least one was, and an error naming the target otherwise.
   */
  method KillByName(procs: seq<Process>, name: string) returns (killed: seq<nat>, r: Result<bool, string>)
    ensures killed == MatchingPids(procs, Lower(name))
    ensures r == if killed != [] then Ok(true) else Err("No process found matching '" + name + "'")
  {
    var target := Lower(name);
    var any := false;
    killed := [];
    var m := 0;
    while m < |procs|
      invariant 0 <= m <= |procs|
      invariant killed == MatchingPids(procs[..m], target)
      invariant any <==> killed != []
    {
      assert procs[..m + 1][..m] == procs[..m];
      var pName := Lower(procs[m].name);
      if Contains(pName, target) || Contains(target, pName) {
        killed := killed + [procs[m].pid];
        any := true;
      }
      m := m + 1;
    }
    assert procs[..m] == procs;
    if any {
      r := Ok(true);
    } else {
      r := Err("No process found matching '" + name + "'");
    }
  }

  /** An empty target is contained in every name, so it kills every process. */
  lemma EmptyTargetKillsAll(procs: seq<Process>)
    ensures forall m :: 0 <= m < |procs| ==> procs[m].pid in MatchingPids(procs, "")
  {
    forall m | 0 <= m < |procs|
      ensures NameMatches(procs[m], "")
    {
      ContainsEmpty(Lower(procs[m].name));
    }
  }

  // ------------------------------------------------------------- kill by pid

  /** `kill_process_by_pid(pid)`: the process is killed if the table has it, and an error names the pid otherwise. */
  function KillByPid(procs: seq<Process>, pid: nat): (r: Result<bool, string>)
    ensures r.Ok? <==> HasPid(procs, pid)
    ensures r.Ok? ==> r.value
  {
    if HasPid(procs, pid) then Ok(true) else Err("Process with PID " + DecimalString(pid) + " not found")
  }

  // ------------------------------------------------------------ kill a tree

  /** `p`'s parent is one of the pids in `s`. */
  predicate ParentIn(p: Process, s: seq<nat>) {
    p.parent.Some? && p.parent.value in s
  }

  /** The pid at `k` was appended because some process with that pid has its parent earlier in the list. */
  predicate DiscoveredAt(procs: seq<Process>, toKill: seq<nat>, k: nat)
    requires k < |toKill|
  {
    exists m :: 0 <= m < |procs| && procs[m].pid == toKill[k] && ParentIn(procs[m], toKill[..k])
  }

  /** Every process whose parent is in `s` is itself in `s`. */
  predicate ClosedUnderChildren(procs: seq<Process>, s: set<nat>) {
    forall m :: 0 <= m < |procs| && procs[m].parent.Some? && procs[m].parent.value in s ==> procs[m].pid in s
  }

  /**
   * The breadth-first search of `kill_process_tree`: starting from `root`, each listed pid
   * in turn adds, in table order, the processes whose parent it is and that are not listed
   * yet. The list starts with `root`, never repeats a pid, lists only processes found
   * through a parent already listed, and is closed: every child of a listed pid is listed.
   */
  method CollectTree(procs: seq<Process>, root: nat) returns (toKill: seq<nat>)
    ensures |toKill| >= 1 && toKill[0] == root && Distinct(toKill)
    ensures forall k :: 1 <= k < |toKill| ==> DiscoveredAt(procs, toKill, k)
    ensures ClosedUnderChildren(procs, set x | x in toKill)
  {
    toKill := [root];
    var i := 0;
    while i < |toKill|
      invariant 1 <= |toKill| && 0 <= i <= |toKill| && toKill[0] == root && Distinct(toKill)
      invariant forall k :: 1 <= k < |toKill| ==> DiscoveredAt(procs, toKill, k)
      invariant forall m :: 0 <= m < |procs| && ParentIn(procs[m], toKill[..i]) ==> procs[m].pid in toKill
      invariant |toKill| <= |procs| + 1
      decreases |procs| + 1 - i
    {
      var current := toKill[i];
      ghost var before := toKill;
      var m := 0;
      while m < |procs|
        invariant 0 <= m <= |procs|
        invariant |toKill| >= |before| >= 1 && toKill[..|before|] == before
        invariant toKill[0] == root && Distinct(toKill)
        invariant forall k :: 1 <= k < |toKill| ==> DiscoveredAt(procs, toKill, k)
        invariant forall x :: x in before ==> x in toKill
        invariant forall n :: 0 <= n < m && procs[n].parent == Some(current) ==> procs[n].pid in toKill
      {
        if procs[m].parent == Some(current) && procs[m].pid !in toKill {
          ghost var old' := toKill;
          toKill := toKill + [procs[m].pid];
          assert toKill[..|old'|] == old';
          forall k | 1 <= k < |toKill|
            ensures DiscoveredAt(procs, toKill, k)
          {
            if k < |old'| {
              assert DiscoveredAt(procs, old', k);
              var w :| 0 <= w < |procs| && procs[w].pid == old'[k] && ParentIn(procs[w], old'[..k]);
              assert old'[..k] == toKill[..k];
            } else {
              assert toKill[..k] == old';
              assert current in old';
              assert ParentIn(procs[m], toKill[..k]);
            }
          }
        }
        m := m + 1;
      }
      forall n | 0 <= n < |procs| && ParentIn(procs[n], toKill[..i + 1])
        ensures procs[n].pid in toKill
      {
        assert toKill[..i + 1] == before[..i] + [current];
        if procs[n].parent.value in before[..i] {
          assert ParentIn(procs[n], before[..i]);
        }
      }
      TreeLength(procs, toKill);
      i := i + 1;
    }
    assert toKill[..i] == toKill;
  }

  /** A list without repeats whose entries after the first are pids of the table is at most one longer than the table. */
  lemma TreeLength(procs: seq<Process>, toKill: seq<nat>)
    requires |toKill| >= 1 && Distinct(toKill)
    requires forall k :: 1 <= k < |toKill| ==> DiscoveredAt(procs, toKill, k)
    ensures |toKill| <= |procs| + 1
  {
    var rest := toKill[1..];
    var pids := seq(|procs|, m requires 0 <= m < |procs| => procs[m].pid);
    forall k | 0 <= k < |rest|
      ensures rest[k] in pids
    {
      assert DiscoveredAt(procs, toKill, k + 1);
      var m :| 0 <= m < |procs| && procs[m].pid == toKill[k + 1] && ParentIn(procs[m], toKill[..k + 1]);
      assert pids[m] == rest[k];
    }
    Pigeonhole(rest, pids);
  }

  /** A list without repeats drawn from `u` is no longer than `u`. */
  lemma {:induction false} Pigeonhole(s: seq<nat>, u: seq<nat>)
    requires forall a, b :: 0 <= a < b < |s| ==> s[a] != s[b]
    requires forall k :: 0 <= k < |s| ==> s[k] in u
    ensures |s| <= |u|
    decreases |s|
  {
    if s != [] {
      var n := |s| - 1;
      var j :| 0 <= j < |u| && u[j] == s[n];
      var u' := u[..j] + u[j + 1..];
      forall k | 0 <= k < n
        ensures s[k] in u'
      {
        var i :| 0 <= i < |u| && u[i] == s[k];
        assert i != j;
        if i < j {
          assert u'[i] == u[i];
        } else {
          assert u'[i - 1] == u[i];
        }
      }
      Pigeonhole(s[..n], u');
    }
  }

  /**
   * The list is exactly the processes reachable from `root` through parent links: it
   * lies inside every set that holds `root` and every child of its members.
   */
  lemma {:induction false} TreeIsLeast(procs: seq<Process>, toKill: seq<nat>, s: set<nat>)
    requires |toKill| >= 1 && toKill[0] in s
    requires forall k :: 1 <= k < |toKill| ==> DiscoveredAt(procs, toKill, k)
    requires ClosedUnderChildren(procs, s)
    ensures forall x :: x in toKill ==> x in s
    decreases |toKill|
  {
    if |toKill| > 1 {
      var n := |toKill| - 1;
      var prefix := toKill[..n];
      forall k | 1 <= k < |prefix|
        ensures DiscoveredAt(procs, prefix, k)
      {
        assert DiscoveredAt(procs, toKill, k);
        assert toKill[..k] == prefix[..k];
      }
      TreeIsLeast(procs, prefix, s);
      assert DiscoveredAt(procs, toKill, n);
      var m :| 0 <= m < |procs| && procs[m].pid == toKill[n] && ParentIn(procs[m], toKill[..n]);
      assert toKill == prefix + [toKill[n]];
    }
  }

  /** In a table keyed by pid, the process behind a listed pid has its parent listed before it. */
  lemma ParentListedEarlier(procs: seq<Process>, toKill: seq<nat>, k: nat, m: nat)
    requires DistinctPids(procs) && 1 <= k < |toKill| && m < |procs|
    requires DiscoveredAt(procs, toKill, k) && procs[m].pid == toKill[k]
    ensures ParentIn(procs[m], toKill[..k])
  {
    var w :| 0 <= w < |procs| && procs[w].pid == toKill[k] && ParentIn(procs[w], toKill[..k]);
    assert w == m;
  }

  /** The list read from its end. */
  function Reversed(s: seq<nat>): (r: seq<nat>)
    ensures |r| == |s| && forall k :: 0 <= k < |s| ==> r[k] == s[|s| - 1 - k]
  {
    if s == [] then [] else Reversed(s[1..]) + [s[0]]
  }

  /** The pids of `s` that the table has, in the order of `s`. */
  function Present(procs: seq<Process>, s: seq<nat>): seq<nat> {
    if s == [] then []
    else (if HasPid(procs, s[0]) then [s[0]] else []) + Present(procs, s[1..])
  }

  /** A pid is kept exactly when it is listed and the table has it. */
  lemma {:induction false} PresentMembers(procs: seq<Process>, s: seq<nat>)
    ensures forall x :: x in Present(procs, s) <==> x in s && HasPid(procs, x)
  {
    if s != [] {
      PresentMembers(procs, s[1..]);
      assert s == [s[0]] + s[1..];
    }
  }

  lemma PresentCons(procs: seq<Process>, p: nat, s: seq<nat>)
    ensures Present(procs, [p] + s) == (if HasPid(procs, p) then [p] else []) + Present(procs, s)
  {
    assert ([p] + s)[1..] == s;
  }

  lemma ReversedSnoc(s: seq<nat>, p: nat)
    ensures Reversed(s + [p]) == [p] + Reversed(s)
  {
    var a, b := Reversed(s + [p]), [p] + Reversed(s);
    assert forall k :: 0 <= k < |a| ==> a[k] == b[k];
  }

  /**
   * `kill_process_tree(pid)`: the tree is collected, then the listed pids that the table
   * has are killed from the end of the list back to its start (the root last). The answer
   * is `Ok(true)` whatever was found, even for an unknown pid.
   */
  method KillTree(procs: seq<Process>, root: nat) returns (toKill: seq<nat>, killed: seq<nat>, r: Result<bool, string>)
    ensures |toKill| >= 1 && toKill[0] == root && Distinct(toKill)
    ensures forall k :: 1 <= k < |toKill| ==> DiscoveredAt(procs, toKill, k)
    ensures ClosedUnderChildren(procs, set x | x in toKill)
    ensures killed == Present(procs, Reversed(toKill))
    ensures r == Ok(true)
  {
    toKill := CollectTree(procs, root);
    killed := [];
    var k := |toKill|;
    assert toKill[..k] == toKill;
    while k > 0
      invariant 0 <= k <= |toKill|
      invariant killed + Present(procs, Reversed(toKill[..k])) == Present(procs, Reversed(toKill))
    {
      var p := toKill[k - 1];
      assert toKill[..k] == toKill[..k - 1] + [p];
      ReversedSnoc(toKill[..k - 1], p);
      PresentCons(procs, p, Reversed(toKill[..k - 1]));
      if HasPid(procs, p) {
        killed := killed + [p];
      }
      k := k - 1;
    }
    r := Ok(true);
  }

  /** An unknown pid with no children collects only itself, kills nothing, and still answers `Ok(true)`. */
  lemma UnknownLeafKillsNothing(procs: seq<Process>, root: nat, toKill: seq<nat>)
    requires !HasPid(procs, root)
    requires forall m :: 0 <= m < |procs| ==> procs[m].parent != Some(root)
    requires |toKill| >= 1 && toKill[0] == root
    requires forall k :: 1 <= k < |toKill| ==> DiscoveredAt(procs, toKill, k)
    ensures toKill == [root] && Present(procs, Reversed(toKill)) == []
  {
    assert |toKill| > 1 ==> toKill[..1] == [root] && DiscoveredAt(procs, toKill, 1);
    assert Reversed([root]) == [root];
  }

  // ------------------------------------------------------------ media keys

  /** The seven media keys and their Win32 virtual-key codes. */
  datatype MediaKey = VolumeUp | VolumeDown | VolumeMute | PlayPause | NextTrack | PrevTrack | Stop

  function KeyCode(k: MediaKey): nat {
    match k
    case VolumeMute => 0xAD
    case VolumeDown => 0xAE
    case VolumeUp => 0xAF
    case NextTrack => 0xB0
    case PrevTrack => 0xB1
    case Stop => 0xB2
    case PlayPause => 0xB3
  }

  /** The action names `system_media_control` accepts. */
  function MediaKeyOf(action: string): (k: Option<MediaKey>)
    ensures k.Some? <==> action in {"volume_up", "volume_down", "volume_mute", "play_pause", "next", "prev", "stop"}
  {
    if action == "volume_up" then Some(VolumeUp)
    else if action == "volume_down" then Some(VolumeDown)
    else if action == "volume_mute" then Some(VolumeMute)
    else if action == "play_pause" then Some(PlayPause)
    else if action == "next" then Some(NextTrack)
    else if action == "prev" then Some(PrevTrack)
    else if action == "stop" then Some(Stop)
    else None
  }

  /** One `keybd_event` call: a key code and whether the key-up flag (2) is set. */
  datatype KeyEvent = KeyEvent(vk: nat, keyUp: bool)

  /** `n` press/release pairs of one key. */
  function Presses(vk: nat, n: nat): (events: seq<KeyEvent>)
    ensures |events| == 2 * n
    ensures forall j :: 0 <= j < n ==> events[2 * j] == KeyEvent(vk, false) && events[2 * j + 1] == KeyEvent(vk, true)
  {
    if n == 0 then [] else Presses(vk, n - 1) + [KeyEvent(vk, false), KeyEvent(vk, true)]
  }

  /**
   * `system_media_control(action, repeat)`: an unknown action is refused before any key
   * is sent; a known one sends a press and a release per repeat, once when no repeat is given.
   */
  method MediaControl(action: string, repeat: Option<nat>) returns (events: seq<KeyEvent>, r: Result<Unit, string>)
    ensures MediaKeyOf(action).None? ==> events == [] && r == Err("Unknown media action: " + action)
    ensures MediaKeyOf(action).Some? ==>
      r == Ok(Unit) && events == Presses(KeyCode(MediaKeyOf(action).value), if repeat.Some? then repeat.value else 1)
  {
    events := [];
    var key := MediaKeyOf(action);
    if key.None? {
      return events, Err("Unknown media action: " + action);
    }
    var vk := KeyCode(key.value);
    var count := if repeat.Some? then repeat.value else 1;
    var c := 0;
    while c < count
      invariant 0 <= c <= count
      invariant events == Presses(vk, c)
    {
      events := events + [KeyEvent(vk, false)];
      events := events + [KeyEvent(vk, true)];
      c := c + 1;
    }
    r := Ok(Unit);
  }
}
