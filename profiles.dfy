/** Package profiles and the shell scripts rendered from them (`profiles.ts`): pure text. */
module Profiles {
  import opened Text

  /** `Profile`: a static descriptor; `script` holds the verification commands. */
  datatype Profile = Profile(id: string, name: string, description: string, packages: seq<string>, script: string)

  /** The entries of `BUILTIN_PROFILES`. Each verification script is written as the value of
      its trimmed template literal; `BuiltinScriptTrimmed` relates the two. */
  const NodeJs: Profile :=
    Profile("nodejs-22", "Node.js 22", "Node.js runtime with npm",
            ["nodejs", "npm"], "node --version\nnpm --version")
  const Python: Profile :=
    Profile("python3", "Python 3", "Python interpreter with pip",
            ["python3", "py3-pip"], "python3 --version\npip3 --version")
  const DevTools: Profile :=
    Profile("devtools", "Dev Tools", "GCC, Make, Git, and other build essentials",
            ["build-base", "git", "curl", "wget"], "gcc --version\ngit --version")
  const Rust: Profile :=
    Profile("rust", "Rust", "Rust compiler and Cargo",
            ["rust", "cargo"], "rustc --version\ncargo --version")
  const Go: Profile :=
    Profile("go", "Go", "Go programming language",
            ["go"], "go version")

  /** `BUILTIN_PROFILES`, in display order. */
  const BuiltinProfiles: seq<Profile> := [NodeJs, Python, DevTools, Rust, Go]

  /** The first two lines of every generated script. */
  const Shebang: string := "#!/bin/sh\nset -e\n"

  /** The lines of the `generateApplyScript` template; `p.script` is interpolated on a line
      of its own and may itself span several lines. */
  function ApplyTemplate(p: Profile): seq<string>
  {
    [ "#!/bin/sh",
      "set -e",
      "",
      "# Profile: " + p.name,
      "# Description: " + p.description,
      "# Packages: " + Join(p.packages, ", "),
      "",
      "echo \"==> Installing packages for profile: " + p.name + "\"",
      "apk add --no-cache " + Join(p.packages, " "),
      "",
      "echo \"==> Running verification...\"",
      p.script,
      "",
      "echo \"==> Profile '" + p.name + "' applied successfully!\"" ]
  }

  /** The lines of the `generateRemoveScript` template. */
  function RemoveTemplate(p: Profile): seq<string>
  {
    [ "#!/bin/sh",
      "set -e",
      "",
      "echo \"==> Removing packages for profile: " + p.name + "\"",
      "apk del " + Join(p.packages, " ") + " || true",
      "",
      "echo \"==> Profile '" + p.name + "' removed.\"" ]
  }

  /** A script starts with the shebang and `set -e` when its first two lines are those. */
  lemma ShebangFirst(lines: seq<string>)
    requires |lines| >= 2 && lines[0] == "#!/bin/sh" && lines[1] == "set -e"
    ensures |Terminated(lines)| >= |Shebang| && Terminated(lines)[..|Shebang|] == Shebang
  {
    var rest := Terminated(lines[2..]);
    assert Terminated(lines[1..]) == "set -e" + "\n" + rest;
    assert Terminated(lines) == "#!/bin/sh" + "\n" + ("set -e" + "\n" + rest);
    assert Terminated(lines) == Shebang + rest;
  }

  /** `generateApplyScript(profile)`: a `/bin/sh` script that aborts on the first failing
      command, each template line ended by a newline. */
  function ApplyScript(p: Profile): (r: string)
    ensures |r| >= |Shebang| && r[..|Shebang|] == Shebang
    ensures r[|r| - 1] == '\n'
  {
    ShebangFirst(ApplyTemplate(p));
    Terminated(ApplyTemplate(p))
  }

  /** `generateRemoveScript(profile)`: the same preamble; the removal tolerates failure. */
  function RemoveScript(p: Profile): (r: string)
    ensures |r| >= |Shebang| && r[..|Shebang|] == Shebang
    ensures r[|r| - 1] == '\n'
  {
    ShebangFirst(RemoveTemplate(p));
    Terminated(RemoveTemplate(p))
  }

  /** A text without a line break. */
  predicate SingleLine(s: string)
  {
    forall i :: 0 <= i < |s| ==> s[i] != '\n'
  }

  /** The fields rendered inside a single line hold no line break. */
  predicate WellFormed(p: Profile)
  {
    && SingleLine(p.name)
    && SingleLine(p.description)
    && (forall i :: 0 <= i < |p.packages| ==> SingleLine(p.packages[i]))
  }

  /** Single-line pieces joined with a single-line separator make a single line. */
  lemma {:induction false} JoinSingleLine(parts: seq<string>, sep: string)
    requires SingleLine(sep)
    requires forall i :: 0 <= i < |parts| ==> SingleLine(parts[i])
    ensures SingleLine(Join(parts, sep))
  {
    if |parts| >= 2 {
      JoinSingleLine(parts[1..], sep);
    }
  }

  /** A single line wrapped between two single lines is one line. */
  lemma Framed(before: string, x: string, after: string)
    requires SingleLine(before) && SingleLine(x) && SingleLine(after)
    ensures SingleLine(before + x + after)
  {
    var s := before + x + after;
    forall i | 0 <= i < |s| ensures s[i] != '\n' {
      if i < |before| {
        assert s[i] == before[i];
      } else if i < |before| + |x| {
        assert s[i] == x[i - |before|];
      } else {
        assert s[i] == after[i - |before| - |x|];
      }
    }
  }

  /** Every template line of the remove script is a single line. */
  lemma RemoveTemplateSingleLines(p: Profile)
    requires WellFormed(p)
    ensures forall i :: 0 <= i < |RemoveTemplate(p)| ==> SingleLine(RemoveTemplate(p)[i])
  {
    JoinSingleLine(p.packages, " ");
    Framed("echo \"==> Removing packages for profile: ", p.name, "\"");
    Framed("apk del ", Join(p.packages, " "), " || true");
    Framed("echo \"==> Profile '", p.name, "' removed.\"");
  }

  /** The header lines of the apply template, up to the package list, are single lines. */
  lemma ApplyHeaderSingleLines(p: Profile)
    requires WellFormed(p)
    ensures forall i :: 0 <= i < 6 ==> SingleLine(ApplyTemplate(p)[i])
  {
    JoinSingleLine(p.packages, ", ");
    Framed("# Profile: ", p.name, "");
    Framed("# Description: ", p.description, "");
    Framed("# Packages: ", Join(p.packages, ", "), "");
  }

  /** The installation lines of the apply template are single lines. */
  lemma ApplyInstallSingleLines(p: Profile)
    requires WellFormed(p)
    ensures forall i :: 6 <= i < 11 ==> SingleLine(ApplyTemplate(p)[i])
  {
    JoinSingleLine(p.packages, " ");
    Framed("echo \"==> Installing packages for profile: ", p.name, "\"");
    Framed("apk add --no-cache ", Join(p.packages, " "), "");
  }

  /** The closing lines of the apply template are single lines. */
  lemma ApplyClosingSingleLines(p: Profile)
    requires WellFormed(p)
    ensures forall i :: 12 <= i < 14 ==> SingleLine(ApplyTemplate(p)[i])
  {
    Framed("echo \"==> Profile '", p.name, "' applied successfully!\"");
  }

  /** The pieces of fourteen lines of which all but the twelfth are single lines. */
  lemma SplitFrame(lines: seq<string>)
    requires |lines| == 14
    requires forall i :: 0 <= i < |lines| && i != 11 ==> SingleLine(lines[i])
    ensures SplitAll(lines, '\n') == lines[..11] + Split(lines[11], '\n') + lines[12..]
  {
    var head := lines[..11];
    var tail := lines[12..];
    assert lines == head + [lines[11]] + tail;
    SplitAllAppend(head + [lines[11]], tail, '\n');
    SplitAllAppend(head, [lines[11]], '\n');
    SplitAllNoSeparator(head, '\n');
    SplitAllNoSeparator(tail, '\n');
    assert SplitAll([lines[11]], '\n') == Split(lines[11], '\n') + SplitAll([], '\n');
  }

  /** The pieces of the apply script are its template lines, with the verification
      script's own pieces in place of the line that interpolates it. */
  lemma ApplyScriptPieces(p: Profile)
    requires WellFormed(p)
    ensures Split(ApplyScript(p), '\n') ==
              ApplyTemplate(p)[..11] + Split(p.script, '\n') + ApplyTemplate(p)[12..] + [""]
  {
    ApplyHeaderSingleLines(p);
    ApplyInstallSingleLines(p);
    ApplyClosingSingleLines(p);
    SplitFrame(ApplyTemplate(p));
    SplitTerminated(ApplyTemplate(p));
  }

  /** The lines of the apply script, as a shell splitting it on newlines sees them: eleven
      header lines, then the verification script's own lines, then a blank line, the success
      message and the empty piece after the final newline. */
  lemma ApplyScriptLines(p: Profile)
    requires WellFormed(p)
    ensures Split(ApplyScript(p), '\n') ==
              [ "#!/bin/sh",
                "set -e",
                "",
                "# Profile: " + p.name,
                "# Description: " + p.description,
                "# Packages: " + Join(p.packages, ", "),
                "",
                "echo \"==> Installing packages for profile: " + p.name + "\"",
                "apk add --no-cache " + Join(p.packages, " "),
                "",
                "echo \"==> Running verification...\"" ]
              + Split(p.script, '\n')
              + [ "",
                  "echo \"==> Profile '" + p.name + "' applied successfully!\"",
                  "" ]
  {
    ApplyScriptPieces(p);
    var lines := ApplyTemplate(p);
    var head := [ "#!/bin/sh",
                "set -e",
                "",
                "# Profile: " + p.name,
                "# Description: " + p.description,
                "# Packages: " + Join(p.packages, ", "),
                "",
                "echo \"==> Installing packages for profile: " + p.name + "\"",
                "apk add --no-cache " + Join(p.packages, " "),
                "",
                "echo \"==> Running verification...\"" ];
    assert lines[..11] == head;
    assert lines[12..] + [""] == ["", "echo \"==> Profile '" + p.name + "' applied successfully!\"", ""];
  }

  /** The lines of the remove script: its seven template lines and the empty piece after
      the final newline. */
  lemma RemoveScriptLines(p: Profile)
    requires WellFormed(p)
    ensures Split(RemoveScript(p), '\n') ==
              [ "#!/bin/sh",
                "set -e",
                "",
                "echo \"==> Removing packages for profile: " + p.name + "\"",
                "apk del " + Join(p.packages, " ") + " || true",
                "",
                "echo \"==> Profile '" + p.name + "' removed.\"",
                "" ]
  {
    RemoveTemplateSingleLines(p);
    SplitAllNoSeparator(RemoveTemplate(p), '\n');
    SplitTerminated(RemoveTemplate(p));
  }

  /** A verification script written between a leading line break and a trailing line break
      plus indentation trims to its own text. */
  lemma TrimmedScript(core: string)
    requires |core| > 0 && !IsSpace(core[0]) && !IsSpace(core[|core| - 1])
    ensures Trim("\n" + core + "\n    ") == core
  {
    TrimAround("\n", core, "\n    ");
  }

  /** The built-in catalogue: five profiles with distinct ids, each well formed and each
      installing at least one package. */
  lemma BuiltinCatalogue()
    ensures |BuiltinProfiles| == 5
    ensures forall i, j :: 0 <= i < j < |BuiltinProfiles| ==> BuiltinProfiles[i].id != BuiltinProfiles[j].id
    ensures forall i :: 0 <= i < |BuiltinProfiles| ==> WellFormed(BuiltinProfiles[i])
    ensures forall i :: 0 <= i < |BuiltinProfiles| ==> |BuiltinProfiles[i].packages| >= 1
  {
    forall i | 0 <= i < |BuiltinProfiles| ensures WellFormed(BuiltinProfiles[i]) {
      BuiltinWellFormed(i);
    }
  }

  /** One built-in profile is well formed. */
  lemma BuiltinWellFormed(i: nat)
    requires i < |BuiltinProfiles|
    ensures WellFormed(BuiltinProfiles[i])
  {
    match i
    case 0 => NodeJsWellFormed();
    case 1 => PythonWellFormed();
    case 2 => DevToolsWellFormed();
    case 3 => RustWellFormed();
    case 4 => GoWellFormed();
  }

  lemma NodeJsWellFormed() ensures WellFormed(NodeJs) {}
  lemma PythonWellFormed() ensures WellFormed(Python) {}
  lemma DevToolsWellFormed() ensures WellFormed(DevTools) {}
  lemma RustWellFormed() ensures WellFormed(Rust) {}
  lemma GoWellFormed() ensures WellFormed(Go) {}

  /** Each built-in verification script is what `.trim()` leaves of its template literal:
      a line break, the commands, a line break and the closing indentation. */
  lemma BuiltinScriptTrimmed(i: nat)
    requires i < |BuiltinProfiles|
    ensures BuiltinProfiles[i].script == Trim("\n" + BuiltinProfiles[i].script + "\n    ")
  {
    TrimmedScript(BuiltinProfiles[i].script);
  }
}
