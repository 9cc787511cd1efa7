/**
 * `_discover_scripts` of clouddeploy/server.py: one entry per `*.sh` file of the
 * scripts directory, in sorted path order, then the interactive shell entry.
 * The directory listing (and its sorting) is a parameter, as is `str.title()`.
 */
module ScriptPicker {

  /** A `*.sh` file found in the scripts directory. */
  datatype ScriptFile = ScriptFile(stem: string, path: string)

  datatype Script = Script(id: string, name: string, path: string, description: string)

  const ShellEntry: Script := Script("shell", "Interactive Shell", "bash", "Start a bash shell session")

  /** `s.replace("_", " ")`. */
  function UnderscoresToSpaces(s: string): string
  {
    seq(|s|, i requires 0 <= i < |s| => if s[i] == '_' then ' ' else s[i])
  }

  function Entry(f: ScriptFile, title: string -> string): Script
  {
    Script(f.stem, title(UnderscoresToSpaces(f.stem)), f.path, "Deployment helper script")
  }

  /** The loop of `_discover_scripts` over the sorted listing (empty when the directory is missing). */
  method DiscoverScripts(found: seq<ScriptFile>, title: string -> string) returns (scripts: seq<Script>)
    ensures |scripts| == |found| + 1
    ensures scripts[|found|] == ShellEntry
    ensures forall i :: 0 <= i < |found| ==> scripts[i] == Entry(found[i], title)
  {
    scripts := [];
    var i := 0;
    while i < |found|
      invariant 0 <= i <= |found|
      invariant |scripts| == i
      invariant forall k :: 0 <= k < i ==> scripts[k] == Entry(found[k], title)
    {
      scripts := scripts + [Entry(found[i], title)];
      i := i + 1;
    }
    scripts := scripts + [ShellEntry];
  }
}
