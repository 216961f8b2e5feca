/**
 * `src-tauri/src/services/launcher/shell.rs`: `launch_uwp` turns an application id, a
 * protocol URI or a system command into a `cmd` invocation. Spawning the process is
 * foreign: its failure text, if any, is a parameter.
 */
module Shell {
  import opened Wrappers
  import opened Strings

  const AppsFolder: string := "shell:appsFolder\\"

  /** `CREATE_NO_WINDOW`. */
  const CreateNoWindow: nat := 0x08000000

  /** The id names a protocol (it has a `:`). */
  predicate IsProtocol(id: string) { Contains(id, ":") }

  /** The id carries arguments (it has a space). */
  predicate HasArgs(id: string) { Contains(id, " ") }

  /** The id is a console snap-in or an executable. */
  predicate IsSystem(id: string) { EndsWith(id, ".msc") || EndsWith(id, ".exe") }

  /** `command_str`: protocols, commands with arguments and system files as given; anything else is an AppUserModelID. */
  function CommandString(id: string): (c: string)
    ensures IsProtocol(id) || HasArgs(id) || IsSystem(id) ==> c == id
    ensures !(IsProtocol(id) || HasArgs(id) || IsSystem(id)) ==> c == AppsFolder + id
  {
    if IsProtocol(id) || HasArgs(id) || IsSystem(id) then id else AppsFolder + id
  }

  /** The command always ends with the id, and the prefix is only ever the apps-folder one. */
  lemma CommandStringEndsWithId(id: string)
    ensures EndsWith(CommandString(id), id)
    ensures CommandString(id) == id || CommandString(id) == AppsFolder + id
  {
    var c := CommandString(id);
    assert c[|c| - |id|..] == id;
  }

  /** A command is never wrapped twice: the apps-folder form is itself a protocol. */
  lemma CommandStringIdempotent(id: string)
    ensures CommandString(CommandString(id)) == CommandString(id)
  {
    var c := CommandString(id);
    if c != id {
      assert OccursAt(c, ":", 5);
    }
  }

  /** The `cmd` argument list: a non-protocol command with arguments runs directly, everything else through `start`. */
  function CmdArgs(id: string): (args: seq<string>)
    ensures HasArgs(id) && !IsProtocol(id) ==> args == ["/C", CommandString(id)]
    ensures !(HasArgs(id) && !IsProtocol(id)) ==> args == ["/C", "start", "", CommandString(id)]
  {
    var command := CommandString(id);
    if HasArgs(id) && !IsProtocol(id) then ["/C", command] else ["/C", "start", "", command]
  }

  /** The process `launch_uwp` spawns. */
  datatype Spawn = Spawn(program: string, args: seq<string>, flags: nat)

  /**
   * `launch_uwp(id)`: the spawned process, and `Ok` unless spawning failed with
   * `spawnError`, whose text becomes the error.
   */
  function LaunchUwp(id: string, spawnError: Option<string>): (r: (Spawn, Result<Unit, string>))
    ensures r.0 == Spawn("cmd", CmdArgs(id), CreateNoWindow)
    ensures r.1.Ok? <==> spawnError.None?
    ensures spawnError.Some? ==> r.1 == Err(spawnError.value)
  {
    (Spawn("cmd", CmdArgs(id), CreateNoWindow), if spawnError.Some? then Err(spawnError.value) else Ok(Unit))
  }

  /** Whatever the id, `cmd` is told to run exactly that id, possibly under the apps-folder prefix, as its last argument. */
  lemma LaunchRunsId(id: string, spawnError: Option<string>)
    ensures var args := LaunchUwp(id, spawnError).0.args;
      |args| >= 2 && args[0] == "/C" && EndsWith(args[|args| - 1], id)
  {
    CommandStringEndsWithId(id);
  }

  /** A power command with arguments runs directly under `cmd /C`. */
  lemma ShutdownRunsDirectly()
    ensures CmdArgs("shutdown /s /t 0") == ["/C", "shutdown /s /t 0"]
  {
    var id := "shutdown /s /t 0";
    assert OccursAt(id, " ", 8);
    forall i | 0 <= i <= |id| - 1
      ensures !OccursAt(id, ":", i)
    {
      assert id[i..i + 1] == [id[i]];
    }
  }

  /** A settings URI goes through `start`, unchanged. */
  lemma SettingsUriGoesThroughStart()
    ensures CmdArgs("ms-settings:display") == ["/C", "start", "", "ms-settings:display"]
  {
    var id := "ms-settings:display";
    assert OccursAt(id, ":", 11);
  }
}
