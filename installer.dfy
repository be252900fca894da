/** The installer's main sequence: root guard, version gate, dependency
    resolution, payload placement (install_pyker with setup_local_bin), the
    data directory (create_pyker_dir) and the PATH check. Every outside
    effect is an input of the model: a Host describes what each check would
    observe and whether each file operation would succeed. */
module Installer {
  import opened Guards
  import opened Resolver

  /** The steps that can end a run early. The PATH check is not among them. */
  datatype Step = RootGuard | VersionGuard | Dependency | Payload | DataDir

  datatype Status =
    | Done(pathOk: bool)   // summary printed; the restart reminder shows when !pathOk
    | Aborted(step: Step)  // the step called sys.exit(1); for a guard on an interpreter
                           // older than 3.6, the SyntaxError that stops the script
                           // from compiling, with the same status and no effects
    | Crashed(step: Step)  // an exception escaped from the step

  /** The process exit status. An exception that escapes main ends a Python
      process with status 1, the same status sys.exit(1) gives. */
  function ExitCode(s: Status): (code: int)
    ensures code == 0 <==> s.Done?
    ensures code == 0 || code == 1
  {
    if s.Done? then 0 else 1
  }

  /** Side effects on the host, in the order they happen. */
  datatype Event =
    | Ran(strategy: Strategy)  // an install command for the dependency was started
    | MadeBinDir               // ~/.local/bin created (or found)
    | CopiedPayload            // pyker.py copied to ~/.local/bin/pyker
    | MadeExecutable           // its mode set to 0755
    | MadeDataDir              // ~/.pyker/logs created (or found)

  datatype Host = Host(
    euid: int,                    // os.geteuid()
    version: seq<int>,            // sys.version_info, numeric part
    candidates: seq<Candidate>,   // what each resolver strategy would do
    payloadPresent: bool,         // Path("pyker.py").exists()
    binDirOk: bool,               // mkdir of ~/.local/bin raises nothing
    copyOk: bool,                 // shutil.copy2 raises nothing
    chmodOk: bool,                // os.chmod raises nothing
    dataDirOk: bool,              // mkdir of ~/.pyker/logs raises nothing
    home: string,                 // Path.home(): an absolute, normalised path (no
                                  // doubled or trailing separator but the root)
    pathEnv: Option<string>)      // the PATH variable, if set

  /** `dir / name` for pathlib paths: no doubled separator after the root. */
  function Join(dir: string, name: string): string {
    if dir != [] && dir[|dir| - 1] == '/' then dir + name else dir + "/" + name
  }

  function LocalBin(home: string): string {
    Join(Join(home, ".local"), "bin")
  }

  /** Install commands started by the resolver, given the strategies that
      got as far as starting: every one of them but the in-process import probe. */
  function Commands(trace: seq<Strategy>): (evs: seq<Event>)
    ensures |evs| <= |trace|
    ensures Ran(ImportProbe) !in evs
    ensures forall s :: Ran(s) in evs ==> s in trace
    ensures MadeBinDir !in evs && CopiedPayload !in evs && MadeExecutable !in evs && MadeDataDir !in evs
  {
    if trace == [] then []
    else (if trace[0] == ImportProbe then [] else [Ran(trace[0])]) + Commands(trace[1..])
  }

  /** Where a run on `host` stops: the steps in order, each fatal one able
      to end the run; the PATH check only sets the flag of a completed run. */
  function Outcome(host: Host): Status {
    if IsRoot(host.euid) then Aborted(RootGuard)
    else if TooOld(host.version) then Aborted(VersionGuard)
    else
      var verdict := Resolve(host.candidates).verdict;
      if verdict.Exhausted? then Aborted(Dependency)
      else if verdict.Raised? then Crashed(Dependency)
      else if !host.payloadPresent then Aborted(Payload)
      else if !host.binDirOk then Crashed(Payload)
      else if !(host.copyOk && host.chmodOk) then Aborted(Payload)
      else if !host.dataDirOk then Crashed(DataDir)
      else Done(CheckPath(LocalBin(host.home), host.pathEnv))
  }

  /** What install_pyker does to the file system. */
  function PayloadEffects(host: Host): seq<Event> {
    if !host.payloadPresent || !host.binDirOk then []
    else if !host.copyOk then [MadeBinDir]
    else if !host.chmodOk then [MadeBinDir, CopiedPayload]
    else [MadeBinDir, CopiedPayload, MadeExecutable]
  }

  /** The side effects of a run on `host`, in order. */
  function Effects(host: Host): seq<Event> {
    if IsRoot(host.euid) || TooOld(host.version) then []
    else
      var r := Resolve(host.candidates);
      if r.verdict.Exhausted? then Commands(r.trace)
      else if r.verdict.Raised? then
        // the attempt that raised never started its command
        LastIsDecider(host.candidates);
        Commands(r.trace[..|r.trace| - 1])
      else
        var placed := PayloadEffects(host);
        if |placed| == 3 && host.dataDirOk then Commands(r.trace) + placed + [MadeDataDir]
        else Commands(r.trace) + placed
  }

  /** How a step that may stop the run ends. */
  datatype StepEnd =
    | Proceed  // the run goes on
    | Exit     // the step called sys.exit(1)
    | Throw    // an exception escaped from the step

  /** install_pyker, with setup_local_bin inside it: the payload must be in
      the working directory, then the binary directory is created, the
      payload copied into it and made executable. Errors from the copy and
      the chmod are caught and exit; an error from mkdir is not caught. */
  method InstallPyker(host: Host) returns (end: StepEnd, effects: seq<Event>, localBin: string)
    ensures end == Exit <==> !host.payloadPresent || (host.binDirOk && !(host.copyOk && host.chmodOk))
    ensures end == Throw <==> host.payloadPresent && !host.binDirOk
    ensures end == Proceed ==> localBin == LocalBin(host.home)
    // the missing payload is detected before any directory is created
    ensures MadeBinDir in effects <==> host.payloadPresent && host.binDirOk
    ensures CopiedPayload in effects <==> host.payloadPresent && host.binDirOk && host.copyOk
    ensures MadeExecutable in effects <==> host.payloadPresent && host.binDirOk && host.copyOk && host.chmodOk
    ensures effects == PayloadEffects(host)
  {
    effects, localBin := [], "";
    if !host.payloadPresent {
      return Exit, effects, localBin;
    }
    // setup_local_bin
    if !host.binDirOk {
      return Throw, effects, localBin;
    }
    localBin := LocalBin(host.home);
    effects := [MadeBinDir];
    // shutil.copy2, then os.chmod(..., 0o755)
    if !host.copyOk {
      return Exit, effects, localBin;
    }
    effects := effects + [CopiedPayload];
    if !host.chmodOk {
      return Exit, effects, localBin;
    }
    effects := effects + [MadeExecutable];
    end := Proceed;
  }

  /** main: run the steps in order, stop at the first fatal one. */
  method Install(host: Host) returns (status: Status, effects: seq<Event>, guidance: seq<Remedy>)
    ensures status == Outcome(host)
    ensures effects == Effects(host)
    ensures guidance == if status == Aborted(Dependency) then REMEDIATION else []
  {
    effects, guidance := [], [];

    // check_not_root
    if IsRoot(host.euid) {
      return Aborted(RootGuard), effects, guidance;
    }

    // check_python
    if TooOld(host.version) {
      return Aborted(VersionGuard), effects, guidance;
    }

    // install_psutil
    var verdict, trace, remedies := InstallPsutil(host.candidates);
    if verdict.Exhausted? {
      return Aborted(Dependency), Commands(trace), remedies;
    } else if verdict.Raised? {
      LastIsDecider(host.candidates);
      return Crashed(Dependency), Commands(trace[..|trace| - 1]), guidance;
    }
    effects := Commands(trace);

    // install_pyker
    var end, placed, localBin := InstallPyker(host);
    effects := effects + placed;
    if end == Exit {
      return Aborted(Payload), effects, guidance;
    } else if end == Throw {
      return Crashed(Payload), effects, guidance;
    }

    // create_pyker_dir
    if !host.dataDirOk {
      return Crashed(DataDir), effects, guidance;
    }
    effects := effects + [MadeDataDir];

    // check_path: advisory only
    var pathOk := CheckPath(localBin, host.pathEnv);
    status := Done(pathOk);
  }

  // ---------------------------------------------------------------------
  // Properties of the sequence
  // ---------------------------------------------------------------------

  /** The root guard runs first: a root run stops there, before any effect. */
  lemma RootGuardFirst(host: Host)
    ensures Outcome(host) == Aborted(RootGuard) <==> IsRoot(host.euid)
    ensures IsRoot(host.euid) ==> Effects(host) == []
  {
  }

  /** The version gate runs second and also stops before any effect. */
  lemma VersionGuardSecond(host: Host)
    ensures Outcome(host) == Aborted(VersionGuard) <==> !IsRoot(host.euid) && TooOld(host.version)
    ensures TooOld(host.version) ==> Effects(host) == [] && ExitCode(Outcome(host)) == 1
  {
  }

  /** Exhaustion is fatal, after the install commands and before any
      directory is created. */
  lemma DependencyFatal(host: Host)
    requires !IsRoot(host.euid) && !TooOld(host.version)
    requires Resolve(host.candidates).verdict.Exhausted?
    ensures Outcome(host) == Aborted(Dependency) && ExitCode(Outcome(host)) == 1
    ensures Effects(host) == Commands(Resolve(host.candidates).trace)
    ensures MadeBinDir !in Effects(host) && MadeDataDir !in Effects(host)
  {
  }

  /** An uncaught error ends the run at the dependency step with exit status
      1; the command that raised it was never started, and no directory exists. */
  lemma {:induction false} RaisedNotStarted(host: Host)
    requires !IsRoot(host.euid) && !TooOld(host.version) && Configured(host.candidates)
    requires Resolve(host.candidates).verdict.Raised?
    ensures Outcome(host) == Crashed(Dependency) && ExitCode(Outcome(host)) == 1
    ensures Ran(Resolve(host.candidates).verdict.at) !in Effects(host)
    ensures MadeBinDir !in Effects(host) && MadeDataDir !in Effects(host)
  {
    var r := Resolve(host.candidates);
    LastIsDecider(host.candidates);
    FixedOrder(host.candidates);
    var n := |r.trace| - 1;
    assert r.verdict.at !in r.trace[..n] by {
      forall t | 0 <= t < n ensures r.trace[..n][t] != r.trace[n] { }
    }
  }

  /** As written, every host without psutil crashes at the dependency step
      with exit status 1 before any command starts: pip never runs, and no
      manager is tried. */
  lemma {:induction false} AsWrittenCrashes(host: Host)
    requires !IsRoot(host.euid) && !TooOld(host.version) && Configured(host.candidates)
    requires host.candidates[0].response == Failure
    ensures var h := host.(candidates := PipAsWritten(host.candidates));
      Outcome(h) == Crashed(Dependency) && ExitCode(Outcome(h)) == 1 && Effects(h) == []
  {
    PipArgumentClash(host.candidates);
    assert [ImportProbe, PipUser][..1] == [ImportProbe];
  }

  /** A missing pyker.py stops the run before setup_local_bin creates any
      directory, with exit status 1. */
  lemma MissingPayloadBeforeMkdir(host: Host)
    requires !host.payloadPresent
    ensures ExitCode(Outcome(host)) == 1
    ensures MadeBinDir !in Effects(host) && MadeDataDir !in Effects(host)
    ensures !IsRoot(host.euid) && !TooOld(host.version) && Resolve(host.candidates).verdict.Resolved? ==>
      Outcome(host) == Aborted(Payload)
  {
  }

  /** The run completes, with exit status 0, exactly when every fatal step
      passes; the value check_path reads plays no part. */
  lemma CompletesIff(host: Host)
    ensures ExitCode(Outcome(host)) == 0 <==>
      !IsRoot(host.euid) && !TooOld(host.version) && Resolve(host.candidates).verdict.Resolved? &&
      host.payloadPresent && host.binDirOk && host.copyOk && host.chmodOk && host.dataDirOk
  {
  }

  /** The PATH check is advisory: with what shutil.which finds held fixed
      (the candidates), changing the value check_path reads changes neither
      the exit status nor the effects, only the flag of a completed run. */
  lemma PathCheckAdvisory(host: Host, pathEnv: Option<string>)
    ensures ExitCode(Outcome(host.(pathEnv := pathEnv))) == ExitCode(Outcome(host))
    ensures Effects(host.(pathEnv := pathEnv)) == Effects(host)
    ensures !Outcome(host).Done? ==> Outcome(host.(pathEnv := pathEnv)) == Outcome(host)
  {
  }

  /** A completed run reports whether ~/.local/bin occurs in PATH. */
  lemma PathFlag(host: Host)
    requires Outcome(host).Done?
    ensures Outcome(host).pathOk <==> exists i: nat :: OccursAt(PathValue(host.pathEnv), LocalBin(host.home), i)
  {
  }

  /** A completed run ends with the dependency commands followed by the
      payload placement and the data directory. */
  lemma CompletedEffects(host: Host)
    requires Outcome(host).Done?
    ensures Effects(host) ==
      Commands(Resolve(host.candidates).trace) + [MadeBinDir, CopiedPayload, MadeExecutable, MadeDataDir]
  {
  }

  /** A run on a host where psutil already imports and every file
      operation succeeds completes, with no install command, and reports
      whether ~/.local/bin is on PATH. */
  lemma {:induction false} AlreadyInstalled(host: Host)
    requires !IsRoot(host.euid) && !TooOld(host.version) && Configured(host.candidates)
    requires host.candidates[0].response == Success
    requires host.payloadPresent && host.binDirOk && host.copyOk && host.chmodOk && host.dataDirOk
    ensures Outcome(host) == Done(CheckPath(LocalBin(host.home), host.pathEnv))
    ensures Effects(host) == [MadeBinDir, CopiedPayload, MadeExecutable, MadeDataDir]
  {
    ProbeShortCircuit(host.candidates);
  }
}
