/** The profile installer (`ProfileManager`): a single-flight `installing` flag around the
    line-by-line injection of a profile's apply script into the serial console. */
module ProfileInstall {
  import opened Base
  import opened Text
  import opened Emulator
  import opened Profiles

  /** JavaScript truthiness of the `installing` state (a string or null): the empty id is falsy. */
  predicate Busy(installing: Option<string>)
  {
    installing.Some? && installing.value != ""
  }

  /** The Install button of one profile card. */
  datatype InstallButton = InstallButton(disabled: bool, caption: string)

  /** The button expressions: disabled without an emulator or while any install is in
      progress; labelled "Installing..." on the card being installed and "Install" elsewhere. */
  function Button(emulatorPresent: bool, installing: Option<string>, cardId: string): (b: InstallButton)
    ensures b.disabled <==> !emulatorPresent || installing.Some?
    ensures b.caption == "Installing..." <==> installing == Some(cardId)
    ensures b.caption == "Install" <==> installing != Some(cardId)
  {
    InstallButton(!emulatorPresent || installing != None,
                  if installing == Some(cardId) then "Installing..." else "Install")
  }

  /** The texts sent for a script: each newline-separated piece with a newline appended. */
  function Injected(script: string): (sent: seq<string>)
    ensures |sent| == |Split(script, '\n')|
    ensures forall i :: 0 <= i < |sent| ==> sent[i] == Split(script, '\n')[i] + "\n"
  {
    var lines := Split(script, '\n');
    seq(|lines|, i requires 0 <= i < |lines| => lines[i] + "\n")
  }

  class ProfileManager {
    /** The `installing` state: the id of the profile being installed, or null. */
    var installing: Option<string>

    constructor ()
      ensures installing == None
    {
      installing := None;
    }

    /** The guard of `handleInstall`: an emulator is present and no install is in progress,
        the flag tested by truthiness. */
    predicate Accepts(emulator: V86Emulator?)
      reads this
    {
      emulator != null && !Busy(installing)
    }

    /** `handleInstall(profile)`, run to completion: refuse when there is no emulator or an
        install is in progress; otherwise set `installing`, inject the apply script and
        clear `installing`. `sent` lists the texts handed to `sendSerial`. */
    method HandleInstall(emulator: V86Emulator?, profile: Profile) returns (sent: seq<string>)
      modifies this, if emulator != null then {emulator.instance} else {}
      ensures !old(Accepts(emulator)) ==> sent == [] && installing == old(installing)
      ensures old(Accepts(emulator)) ==> sent == Injected(ApplyScript(profile)) && installing == None
      ensures emulator != null && emulator.instance != null ==>
                emulator.instance.calls == old(emulator.instance.calls) +
                  (if old(Accepts(emulator)) then SerialSends(CharCodes(ApplyScript(profile) + "\n")) else [])
    {
      if emulator == null || Busy(installing) {
        return [];
      }
      installing := Some(profile.id);
      sent := Inject(emulator, ApplyScript(profile));
      installing := None;
    }
  }

  /** The loop of `handleInstall`: split the script on newlines and send every piece with
      a newline appended, in order. It changes nothing but the engine's requests, so the
      `installing` flag stays set throughout. */
  method Inject(emulator: V86Emulator, script: string) returns (sent: seq<string>)
    modifies emulator.instance
    ensures sent == Injected(script)
    ensures emulator.instance != null ==>
              emulator.instance.calls == old(emulator.instance.calls) + SerialSends(CharCodes(script + "\n"))
  {
    sent := [];
    var lines := Split(script, '\n');
    for i := 0 to |lines|
      invariant |sent| == i
      invariant forall k :: 0 <= k < i ==> sent[k] == lines[k] + "\n"
      invariant emulator.instance != null ==>
                  emulator.instance.calls == old(emulator.instance.calls) + SerialSends(CharCodes(Concat(sent)))
    {
      emulator.SendSerial(lines[i] + "\n");
      ConcatSnoc(sent, lines[i] + "\n");
      Sends(Concat(sent), lines[i] + "\n");
      sent := sent + [lines[i] + "\n"];
    }
    InjectedText(script);
  }

  /** Sending two texts one after the other makes the requests for their concatenation. */
  lemma Sends(a: string, b: string)
    ensures SerialSends(CharCodes(a + b)) == SerialSends(CharCodes(a)) + SerialSends(CharCodes(b))
  {
    CharCodesAppend(a, b);
    SerialSendsAppend(CharCodes(a), CharCodes(b));
  }

  /** All text handed to `sendSerial` during an install, concatenated, is the script
      followed by one extra newline. */
  lemma InjectedText(script: string)
    ensures Concat(Injected(script)) == script + "\n"
  {
    ConcatInjected(Split(script, '\n'), Injected(script));
    TerminatedSplit(script);
  }

  /** Pieces with a newline appended each concatenate to the newline-terminated pieces. */
  lemma {:induction false} ConcatInjected(lines: seq<string>, sent: seq<string>)
    requires |sent| == |lines|
    requires forall i :: 0 <= i < |sent| ==> sent[i] == lines[i] + "\n"
    ensures Concat(sent) == Terminated(lines)
  {
    if |lines| > 0 {
      ConcatInjected(lines[1..], sent[1..]);
    }
  }

  /** An enabled Install button means a click is accepted; a click is refused only when the
      button is disabled, except for the falsy empty id, which disables every button
      without blocking a second install. */
  lemma ButtonMatchesGuard(emulatorPresent: bool, installing: Option<string>, cardId: string)
    ensures !Button(emulatorPresent, installing, cardId).disabled ==> emulatorPresent && !Busy(installing)
    ensures emulatorPresent && !Busy(installing) ==>
              !Button(emulatorPresent, installing, cardId).disabled || installing == Some("")
  {
  }

  /** While a built-in profile installs, exactly its own card reads "Installing...". */
  lemma OneCardInstalling(k: nat, emulatorPresent: bool)
    requires k < |BuiltinProfiles|
    ensures forall i :: 0 <= i < |BuiltinProfiles| ==>
              (Button(emulatorPresent, Some(BuiltinProfiles[k].id), BuiltinProfiles[i].id).caption == "Installing..."
               <==> i == k)
  {
    BuiltinCatalogue();
  }
}
