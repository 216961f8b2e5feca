/**
 * `src-tauri/src/services/launcher/scanner.rs`: the installed-application scan. The
 * registry's App Paths entries and the files the directory walk yields are inputs (the
 * walk, the drive list and file metadata are outside the model); a file arrives with the
 * scan root it was found under, its full path, stem, extension and size (0 when its
 * metadata could not be read). Lower-casing is the ASCII `Strings.Lower`.
 */
module Scanner {
  import opened Wrappers
  import opened Strings

  datatype AppEntry = AppEntry(name: string, path: string, icon: Option<string>, category: Option<string>)

  /** One file under a scan root. */
  datatype ScannedFile = ScannedFile(root: string, path: string, stem: string, ext: string, size: nat)

  /** The architecture and extension markers `clean_app_name` removes, in the order it removes them. */
  const Markers: seq<string> := [".exe", "_x64", "_x86", "-x64", " (x64)", " (x86)"]

  /** `s.replace(ps[0], "").replace(ps[1], "")...`. */
  function RemoveEach(s: string, ps: seq<string>): (r: string)
    requires forall k :: 0 <= k < |ps| ==> |ps[k]| > 0
    ensures |r| <= |s|
    decreases |ps|
  {
    if ps == [] then s else RemoveEach(RemoveAll(s, ps[0]), ps[1..])
  }

  /** A string none of whose markers occurs is left as it was. */
  lemma {:induction false} RemoveEachAbsent(s: string, ps: seq<string>)
    requires forall k :: 0 <= k < |ps| ==> |ps[k]| > 0 && !Contains(s, ps[k])
    ensures RemoveEach(s, ps) == s
  {
    if ps != [] {
      RemoveAllAbsent(s, ps[0]);
      RemoveEachAbsent(s, ps[1..]);
    }
  }

  /** `clean_app_name`: every marker removed, in order, then white space trimmed. */
  function CleanAppName(name: string): (r: string)
    ensures |r| <= |name|
    ensures r == [] || (!IsSpace(r[0]) && !IsSpace(r[|r| - 1]))
  {
    Trim(RemoveEach(name, Markers))
  }

  /** A name without markers or surrounding white space is already clean. */
  lemma CleanPlainName(name: string)
    requires forall k :: 0 <= k < |Markers| ==> !Contains(name, Markers[k])
    requires name == [] || (!IsSpace(name[0]) && !IsSpace(name[|name| - 1]))
    ensures CleanAppName(name) == name
  {
    RemoveEachAbsent(name, Markers);
    TrimNoSpace(name);
  }

  const NoiseKeywords: seq<string> := [
    "uninstall", "redist", "setup", "vcredist", "dxsetup", "touchup", "crashhandler", "unins000",
    "unitycrashhandler", "report", "crashpad", "util", "handler", "helper", "worker", "overlay",
    "browser", "telemetry", "proxy", "debug", "sdk", "tools", "manager", "service", "identity"]

  /** Phrases that clear a name of the noise keywords it contains. */
  const Whitelist: seq<string> := ["football manager", "manager of", "sdk game", "midnightpad"]

  /** `is_noise`: the path argument is not consulted. */
  predicate IsNoise(name: string, path: string) {
    ContainsAny(Lower(name), NoiseKeywords) && !ContainsAny(Lower(name), Whitelist)
  }

  /** A name is noise exactly when its lower-case form contains a keyword and no whitelisted phrase. */
  lemma IsNoiseSpec(name: string, path: string)
    ensures IsNoise(name, path) <==>
      (exists k :: 0 <= k < |NoiseKeywords| && Contains(Lower(name), NoiseKeywords[k]))
      && (forall k :: 0 <= k < |Whitelist| ==> !Contains(Lower(name), Whitelist[k]))
  {
    var n := Lower(name);
    if ContainsAny(n, NoiseKeywords) {
      var k := ContainsAnyWitness(n, NoiseKeywords);
    }
    if ContainsAny(n, Whitelist) {
      var k := ContainsAnyWitness(n, Whitelist);
    }
    forall k | 0 <= k < |NoiseKeywords| && Contains(n, NoiseKeywords[k])
      ensures ContainsAny(n, NoiseKeywords)
    {
      ContainsAnyAt(n, NoiseKeywords, k);
    }
    forall k | 0 <= k < |Whitelist| && Contains(n, Whitelist[k])
      ensures ContainsAny(n, Whitelist)
    {
      ContainsAnyAt(n, Whitelist, k);
    }
  }

  /** The category of a scanned entry, from its lower-cased name and path and whether its root is a game library. */
  function Category(nameLower: string, pathLower: string, gameLibrary: bool): (c: Option<string>)
    ensures c == Some("launcher") <==>
      Contains(nameLower, "launcher") || Contains(nameLower, "client")
      || nameLower == "steam" || nameLower == "epic games" || nameLower == "riot client"
    ensures c == Some("game") <==> (c != Some("launcher") &&
      (gameLibrary || Contains(pathLower, "steamapps") || Contains(pathLower, "games") || Contains(pathLower, "xbox")))
    ensures c.None? <==> c != Some("launcher") && c != Some("game")
  {
    var isLauncher := Contains(nameLower, "launcher") || nameLower == "steam" || nameLower == "epic games"
      || nameLower == "riot client" || Contains(nameLower, "client");
    var inGameLibrary := gameLibrary || Contains(pathLower, "steamapps") || Contains(pathLower, "games")
      || Contains(pathLower, "xbox");
    if isLauncher then Some("launcher") else if inGameLibrary then Some("game") else None
  }

  /** A scan root whose lower-cased path names a game library. */
  predicate IsGameLibrary(root: string) {
    var r := Lower(root);
    Contains(r, "games") || Contains(r, "steamapps") || Contains(r, "xbox")
  }

  /** Executables smaller than this are taken for helpers and skipped. */
  const MinExeSize: nat := 3500000

  /**
   * What the walk makes of one file before de-duplication: nothing for other extensions,
   * noise names or small executables, otherwise an entry with the cleaned stem, the path,
   * no icon and the category above.
   */
  function Candidate(f: ScannedFile): (e: Option<AppEntry>)
    ensures e.Some? ==> f.ext == "lnk" || f.ext == "exe"
    ensures e.Some? ==> e.value.name == CleanAppName(f.stem) && !IsNoise(e.value.name, f.path)
    ensures e.Some? && f.ext == "exe" ==> f.size >= MinExeSize || Contains(Lower(e.value.name), "midnight")
    ensures e.Some? ==> e.value == AppEntry(CleanAppName(f.stem), f.path, None,
      Category(Lower(CleanAppName(f.stem)), Lower(f.path), IsGameLibrary(f.root)))
    ensures e.None? ==>
      || (f.ext != "lnk" && f.ext != "exe")
      || IsNoise(CleanAppName(f.stem), f.path)
      || (f.ext == "exe" && f.size < MinExeSize && !Contains(Lower(CleanAppName(f.stem)), "midnight"))
  {
    var name := CleanAppName(f.stem);
    if f.ext != "lnk" && f.ext != "exe" then None
    else if IsNoise(name, f.path) then None
    else if f.ext == "exe" && f.size < MinExeSize && !Contains(Lower(name), "midnight") then None
    else Some(AppEntry(name, f.path, None, Category(Lower(name), Lower(f.path), IsGameLibrary(f.root))))
  }

  /** The lower-cased names of `apps`. */
  function Names(apps: seq<AppEntry>): set<string> {
    if apps == [] then {} else Names(apps[..|apps| - 1]) + {Lower(apps[|apps| - 1].name)}
  }

  /** The lower-cased paths of `apps`. */
  function Paths(apps: seq<AppEntry>): set<string> {
    if apps == [] then {} else Paths(apps[..|apps| - 1]) + {Lower(apps[|apps| - 1].path)}
  }

  lemma {:induction false} NamesSpec(apps: seq<AppEntry>)
    ensures forall n :: n in Names(apps) <==> exists i :: 0 <= i < |apps| && Lower(apps[i].name) == n
    ensures forall p :: p in Paths(apps) <==> exists i :: 0 <= i < |apps| && Lower(apps[i].path) == p
  {
    if apps != [] {
      var init := apps[..|apps| - 1];
      NamesSpec(init);
      assert forall i :: 0 <= i < |init| ==> init[i] == apps[i];
    }
  }

  /** No two entries share a lower-cased name or a lower-cased path. */
  predicate Unique(apps: seq<AppEntry>) {
    forall i, j :: 0 <= i < j < |apps| ==>
      Lower(apps[i].name) != Lower(apps[j].name) && Lower(apps[i].path) != Lower(apps[j].path)
  }

  /** The list being built and the two seen sets. */
  datatype Acc = Acc(apps: seq<AppEntry>, paths: set<string>, names: set<string>)

  /** The seen sets are exactly the entries' lower-cased paths and names. */
  predicate Tracks(acc: Acc) {
    acc.names == Names(acc.apps) && acc.paths == Paths(acc.apps)
  }

  /** The de-duplication step both passes share: an entry is kept iff neither its path nor its name was seen. */
  function Admit(acc: Acc, e: AppEntry): Acc {
    if Lower(e.path) !in acc.paths && Lower(e.name) !in acc.names
    then Acc(acc.apps + [e], acc.paths + {Lower(e.path)}, acc.names + {Lower(e.name)})
    else acc
  }

  /** Admitting keeps the seen sets in step with the list and keeps the list free of clashes. */
  lemma AdmitKeeps(acc: Acc, e: AppEntry)
    requires Tracks(acc) && Unique(acc.apps)
    ensures Tracks(Admit(acc, e)) && Unique(Admit(acc, e).apps)
    ensures Lower(e.name) in Admit(acc, e).names || Lower(e.path) in Admit(acc, e).paths
  {
    NamesSpec(acc.apps);
    var a := Admit(acc, e);
    if a != acc {
      assert a.apps[..|a.apps| - 1] == acc.apps;
    }
  }

  /** One loop iteration: a dropped item (`None`) is skipped before any set is touched. */
  function AdmitOpt(acc: Acc, c: Option<AppEntry>): Acc {
    match c
    case None => acc
    case Some(e) => Admit(acc, e)
  }

  /** A loop over the candidates `cs`, continuing from `acc`. */
  function Pass(acc: Acc, cs: seq<Option<AppEntry>>): Acc {
    if cs == [] then acc else AdmitOpt(Pass(acc, cs[..|cs| - 1]), cs[|cs| - 1])
  }

  const Empty: Acc := Acc([], {}, {})

  /** A registry entry with its cleaned name, as the first pass pushes it. */
  function Cleaned(r: AppEntry): AppEntry {
    r.(name := CleanAppName(r.name))
  }

  /** What the registry loop makes of one entry: nothing for noise, else the cleaned entry. */
  function RegistryCandidate(r: AppEntry): (c: Option<AppEntry>)
    ensures c.Some? <==> !IsNoise(CleanAppName(r.name), r.path)
    ensures c.Some? ==> c.value == Cleaned(r)
  {
    if IsNoise(CleanAppName(r.name), r.path) then None else Some(Cleaned(r))
  }

  function RegistryCandidates(regs: seq<AppEntry>): (r: seq<Option<AppEntry>>)
    ensures |r| == |regs|
  {
    if regs == [] then [] else RegistryCandidates(regs[..|regs| - 1]) + [RegistryCandidate(regs[|regs| - 1])]
  }

  /** What the walk loop makes of each file. */
  function Candidates(files: seq<ScannedFile>): (r: seq<Option<AppEntry>>)
    ensures |r| == |files|
  {
    if files == [] then [] else Candidates(files[..|files| - 1]) + [Candidate(files[|files| - 1])]
  }

  lemma {:induction false} RegistryCandidatesAt(regs: seq<AppEntry>, k: nat)
    requires k < |regs|
    ensures RegistryCandidates(regs)[k] == RegistryCandidate(regs[k])
  {
    var init := regs[..|regs| - 1];
    var prefix, last := RegistryCandidates(init), RegistryCandidate(regs[|regs| - 1]);
    assert RegistryCandidates(regs) == prefix + [last];
    if k < |init| {
      RegistryCandidatesAt(init, k);
      assert init[k] == regs[k];
      assert (prefix + [last])[k] == prefix[k];
    } else {
      assert (prefix + [last])[k] == last;
    }
  }

  lemma {:induction false} CandidatesAt(files: seq<ScannedFile>, k: nat)
    requires k < |files|
    ensures Candidates(files)[k] == Candidate(files[k])
  {
    var init := files[..|files| - 1];
    var prefix, last := Candidates(init), Candidate(files[|files| - 1]);
    assert Candidates(files) == prefix + [last];
    if k < |init| {
      CandidatesAt(init, k);
      assert init[k] == files[k];
      assert (prefix + [last])[k] == prefix[k];
    } else {
      assert (prefix + [last])[k] == last;
    }
  }

  /** The state after the registry pass. */
  function RegistryPass(regs: seq<AppEntry>): Acc {
    Pass(Empty, RegistryCandidates(regs))
  }

  /** `scan_all`'s result for these inputs. */
  function ScanResult(regs: seq<AppEntry>, files: seq<ScannedFile>): seq<AppEntry> {
    Pass(RegistryPass(regs), Candidates(files)).apps
  }

  /** `scan_all`, with the registry entries and the walked files as inputs. */
  method ScanAll(regs: seq<AppEntry>, files: seq<ScannedFile>) returns (apps: seq<AppEntry>)
    ensures apps == ScanResult(regs, files)
  {
    apps := [];
    var seenPaths: set<string> := {};
    var seenNames: set<string> := {};
    for i := 0 to |regs|
      invariant Acc(apps, seenPaths, seenNames) == RegistryPass(regs[..i])
    {
      ghost var rcs := RegistryCandidates(regs[..i + 1]);
      assert regs[..i + 1][..i] == regs[..i];
      assert rcs == RegistryCandidates(regs[..i]) + [RegistryCandidate(regs[i])];
      assert rcs[..i] == RegistryCandidates(regs[..i]);
      var app := regs[i];
      app := app.(name := CleanAppName(app.name));
      var nameLower := Lower(app.name);
      var pathLower := Lower(app.path);
      if IsNoise(app.name, app.path) {
        assert RegistryCandidate(regs[i]) == None;
        continue;
      }
      assert RegistryCandidate(regs[i]) == Some(app);
      if pathLower !in seenPaths && nameLower !in seenNames {
        seenPaths := seenPaths + {pathLower};
        seenNames := seenNames + {nameLower};
        apps := apps + [app];
      }
    }
    assert regs[..|regs|] == regs;
    ghost var start := Acc(apps, seenPaths, seenNames);
    for i := 0 to |files|
      invariant Acc(apps, seenPaths, seenNames) == Pass(start, Candidates(files[..i]))
    {
      ghost var fcs := Candidates(files[..i + 1]);
      assert files[..i + 1][..i] == files[..i];
      assert fcs == Candidates(files[..i]) + [Candidate(files[i])];
      assert fcs[..i] == Candidates(files[..i]);
      var f := files[i];
      if f.ext == "lnk" || f.ext == "exe" {
        var name := CleanAppName(f.stem);
        if IsNoise(name, f.path) {
          assert Candidate(files[i]) == None;
          continue;
        }
        if f.ext == "exe" && f.size < MinExeSize && !Contains(Lower(name), "midnight") {
          assert Candidate(files[i]) == None;
          continue;
        }
        var nameLower := Lower(name);
        var pathLower := Lower(f.path);
        assert Candidate(files[i]) == Some(AppEntry(name, f.path, None, Category(nameLower, pathLower, IsGameLibrary(f.root))));
        if pathLower !in seenPaths && nameLower !in seenNames {
          var category := Category(nameLower, pathLower, IsGameLibrary(f.root));
          apps := apps + [AppEntry(name, f.path, None, category)];
          seenPaths := seenPaths + {pathLower};
          seenNames := seenNames + {nameLower};
        }
      } else {
        assert Candidate(files[i]) == None;
      }
    }
    assert files[..|files|] == files;
  }

  lemma {:induction false} PassKeeps(acc: Acc, cs: seq<Option<AppEntry>>)
    requires Tracks(acc) && Unique(acc.apps)
    ensures Tracks(Pass(acc, cs)) && Unique(Pass(acc, cs).apps)
  {
    if cs != [] {
      PassKeeps(acc, cs[..|cs| - 1]);
      if cs[|cs| - 1].Some? {
        AdmitKeeps(Pass(acc, cs[..|cs| - 1]), cs[|cs| - 1].value);
      }
    }
  }

  /** No two entries of the scan share a lower-cased name or a lower-cased path. */
  lemma ScanUnique(regs: seq<AppEntry>, files: seq<ScannedFile>)
    ensures Unique(ScanResult(regs, files))
  {
    PassKeeps(Empty, RegistryCandidates(regs));
    PassKeeps(RegistryPass(regs), Candidates(files));
  }

  /** A pass only appends, and what it appends are candidates it was given. */
  lemma {:induction false} PassFrom(acc: Acc, cs: seq<Option<AppEntry>>)
    ensures var apps := Pass(acc, cs).apps;
      |acc.apps| <= |apps| && apps[..|acc.apps|] == acc.apps
      && forall i :: |acc.apps| <= i < |apps| ==> Some(apps[i]) in cs
  {
    if cs != [] {
      var init := cs[..|cs| - 1];
      PassFrom(acc, init);
      var prev := Pass(acc, init).apps;
      var apps := Pass(acc, cs).apps;
      assert apps[..|prev|] == prev;
      forall i | |acc.apps| <= i < |apps|
        ensures Some(apps[i]) in cs
      {
        if i < |prev| {
          assert apps[i] == prev[i];
          assert Some(apps[i]) in init;
        } else {
          assert Some(apps[i]) == cs[|cs| - 1];
        }
      }
    }
  }

  /**
   * The registry entries come first: each is the candidate of a registry entry (cleaned,
   * not noise, its own icon and category kept). Every later entry is the candidate of a
   * walked file.
   */
  lemma ScanOrder(regs: seq<AppEntry>, files: seq<ScannedFile>)
    ensures var head := RegistryPass(regs).apps; var apps := ScanResult(regs, files);
      && |head| <= |apps| && apps[..|head|] == head
      && (forall i :: 0 <= i < |head| ==> Some(apps[i]) in RegistryCandidates(regs))
      && (forall i :: |head| <= i < |apps| ==> Some(apps[i]) in Candidates(files))
  {
    var first := RegistryPass(regs);
    var head := first.apps;
    assert forall i :: 0 <= i < |head| ==> Some(head[i]) in RegistryCandidates(regs) by {
      PassFrom(Empty, RegistryCandidates(regs));
    }
    PassFrom(first, Candidates(files));
    PrefixAt(Pass(first, Candidates(files)).apps, head);
  }

  lemma PrefixAt<T>(s: seq<T>, p: seq<T>)
    requires |p| <= |s| && s[..|p|] == p
    ensures forall i :: 0 <= i < |p| ==> s[i] == p[i]
  {
    forall i | 0 <= i < |p|
      ensures s[i] == p[i]
    {
      assert s[..|p|][i] == s[i];
    }
  }

  /** Once seen, a name or path stays seen. */
  lemma {:induction false} PassGrows(acc: Acc, cs: seq<Option<AppEntry>>, n: nat)
    requires n <= |cs|
    ensures Pass(acc, cs[..n]).names <= Pass(acc, cs).names
    ensures Pass(acc, cs[..n]).paths <= Pass(acc, cs).paths
    decreases |cs|
  {
    if n < |cs| {
      var init := cs[..|cs| - 1];
      assert init[..n] == cs[..n];
      PassGrows(acc, init, n);
    } else {
      assert cs[..n] == cs;
    }
  }

  /** Every candidate a pass is given leaves its name or its path seen. */
  lemma PassSeen(acc: Acc, cs: seq<Option<AppEntry>>, k: nat)
    requires Tracks(acc) && Unique(acc.apps)
    requires k < |cs| && cs[k].Some?
    ensures Lower(cs[k].value.name) in Pass(acc, cs).names || Lower(cs[k].value.path) in Pass(acc, cs).paths
  {
    PassKeeps(acc, cs[..k]);
    AdmitKeeps(Pass(acc, cs[..k]), cs[k].value);
    assert cs[..k + 1][..k] == cs[..k];
    PassGrows(acc, cs, k + 1);
  }

  /**
   * Nothing that passes the filters is lost without a reason: every such registry entry and
   * every such walked file shares its lower-cased name or path with an entry of the scan.
   */
  lemma ScanComplete(regs: seq<AppEntry>, files: seq<ScannedFile>)
    ensures var apps := ScanResult(regs, files);
      && (forall k :: 0 <= k < |regs| && !IsNoise(CleanAppName(regs[k].name), regs[k].path) ==>
            Lower(CleanAppName(regs[k].name)) in Names(apps) || Lower(regs[k].path) in Paths(apps))
      && (forall k :: 0 <= k < |files| && Candidate(files[k]).Some? ==>
            Lower(Candidate(files[k]).value.name) in Names(apps) || Lower(files[k].path) in Paths(apps))
  {
    var rcs := RegistryCandidates(regs);
    var fcs := Candidates(files);
    var start := RegistryPass(regs);
    PassKeeps(Empty, rcs);
    PassKeeps(start, fcs);
    PassGrows(start, fcs, 0);
    assert fcs[..0] == [];
    forall k | 0 <= k < |regs| && !IsNoise(CleanAppName(regs[k].name), regs[k].path)
      ensures Lower(CleanAppName(regs[k].name)) in start.names || Lower(regs[k].path) in start.paths
    {
      RegistryCandidatesAt(regs, k);
      PassSeen(Empty, rcs, k);
    }
    forall k | 0 <= k < |files| && Candidate(files[k]).Some?
      ensures Lower(Candidate(files[k]).value.name) in Pass(start, fcs).names
        || Lower(files[k].path) in Pass(start, fcs).paths
    {
      CandidatesAt(files, k);
      PassSeen(start, fcs, k);
    }
  }
}
