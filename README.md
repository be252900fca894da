# Pyker installer: a Dafny model

`install.py` installs Pyker, a small Python process manager, into the
invoking user's home directory without running as root; only the system
package manager fallback calls `sudo`. The run goes in a fixed order:

1. refuse to run as root;
2. require Python 3.6 or later;
3. make the `psutil` library importable, through a fallback chain;
4. copy `pyker.py` to `~/.local/bin/pyker`;
5. create `~/.pyker/logs`;
6. check that `~/.local/bin` is on `PATH`.

This project models the decision logic of that sequence and proves what it
promises. Each outside effect is an input of the model:

- whether `import psutil` works;
- whether a tool is found by `shutil.which`;
- how a command ends: exit 0, a non-zero exit, or an error nothing catches;
- whether `pyker.py` exists;
- whether each `mkdir`, `copy2` and `chmod` succeeds;
- the effective user id, the interpreter version, the home directory and
  the `PATH` variable.

Files:

- `guards.dfy` (module `Guards`): three checks with no side effects.
  - The root guard.
  - The version gate. It uses Python's lexicographic tuple order, and the
    model proves that order equal to its textbook definition.
  - The PATH check. It uses Python's substring test, and the model proves
    that test equal to "occurs at some position".
- `resolver.dfy` (module `Resolver`): the `psutil` fallback chain.
  - `Resolve` is the reference definition of an ordered, first-success-wins
    chain over a list of candidates. A candidate is a strategy, an
    availability flag and a response.
  - The method `InstallPsutil` is the loop the installer runs, proved equal
    to `Resolve`. It also prints the remediation list on exhaustion.
  - The lemmas cover the fixed order of `install.py`: import probe,
    `pip --user`, apt, yum, dnf, pacman, then pipx.
- `installer.dfy` (module `Installer`): `main` and `install_pyker` as
  methods.
  - The methods are proved against the functions `Outcome` (where the run
    stops) and `Effects` (the side effects, in order).
  - The lemmas state the sequencing properties. For example, no effect comes
    before a failed guard, a missing payload stops the run before any
    directory exists, and the PATH check itself never changes the exit status.

A run ends in one of three kinds of status:

- `Done(pathOk)`;
- `Aborted(step)`, where the code called `sys.exit(1)`;
- `Crashed(step)`, where an exception escaped. Python then also exits
  with status 1.

Three behaviours of the code that a reader might not expect:

- The PATH test is a plain substring test, not a test for a whole PATH
  entry.
- A failing `mkdir` is an uncaught exception, not a handled error.
- `install.py` contains no shell-completion step.

## Model

The resolver rows describe `Resolve` over hosts where pip really runs, that is, the corrected chain. As written, the program is `Resolve(PipAsWritten(...))`, and pip never gets as far as exiting: see "## Findings", `Resolver.PipArgumentClash` and `Installer.AsWrittenCrashes`.

| member | source | states |
|---|---|---|
| `Guards.LexLessIff` | install.py:36 | Python's tuple `<` holds exactly when `a` is a proper prefix of `b`, or when `a` is smaller at the first position where the two differ. |
| `Guards.LexLessTransitive` | install.py:36 | The tuple order used by the version gate is transitive. |
| `Guards.TooOld` | install.py:34-38 | For a version tuple with at least major and minor, the gate refuses exactly when major < 3, or major = 3 and minor < 6. Micro, release level and serial never matter. |
| `Guards.AcceptedUpward` | install.py:36 | An interpreter newer than an accepted one is accepted too. |
| `Guards.ContainsIff` | install.py:139 | Python's `needle in haystack` on strings holds exactly when `needle` occurs at some position of `haystack`. The empty string occurs everywhere. |
| `Guards.CheckPath` | install.py:134-147 | `check_path` returns true exactly when the text of the binary directory occurs somewhere in PATH. An unset PATH reads as the empty string. |
| `Guards.UnsetPathNeverMatches` | install.py:136-139 | With PATH unset, a non-empty binary directory is reported as not on PATH. |
| `Guards.AnywhereAccepted` | install.py:136-141 | For every directory and every PATH that contains its text anywhere, the directory is reported as on PATH. This includes a PATH whose entry only begins with it, such as `~/.local/binaries`. |
| `Resolver.Resolve` | install.py:41-101 | The reference chain never attempts more strategies than there are candidates. |
| `Resolver.InstallPsutil` | install.py:41-101 | The installer's loop returns exactly the verdict and trace of `Resolve`. It prints the six remediation lines, in the order apt, yum, dnf, pacman, pipx, venv, exactly when the verdict is exhaustion, and nothing otherwise. |
| `Resolver.ExhaustedIff` | install.py:64-101 | Resolution is exhausted exactly when every candidate either failed or was skipped because its tool is not on PATH. |
| `Resolver.LastIsDecider` | install.py:46-90 | A success or an escaping error is the last strategy attempted: nothing is tried after it. |
| `Resolver.DecidedAt` | install.py:53-90 | When candidate `k` is the first that succeeds or raises, the result is its verdict. The trace is the attempted strategies before `k`, then `k`. |
| `Resolver.NoneDecisive` | install.py:53-101 | When no candidate succeeds or raises, the verdict is exhaustion and every available strategy was attempted once, in order. |
| `Resolver.FallThrough` | install.py:71-79 | Failed or skipped candidates hand over to the rest of the chain: a present manager that fails moves on to the next one rather than aborting. |
| `Resolver.TraceUndecidedBefore` | install.py:53-90 | Every strategy in the trace belongs to an attempted candidate, and every earlier candidate failed or was skipped. |
| `Resolver.TraceAscending` | install.py:64-79 | Candidates listed in priority order are attempted in priority order, with no repeats. |
| `Resolver.ProbeShortCircuit` | install.py:45-51 | If `psutil` already imports, the result is success through the probe, and no install command is attempted. |
| `Resolver.PipUserSecond` | install.py:53-61 | In the corrected chain, after a failed probe, `pip --user` is attempted next, before any system manager. Its exit status alone decides: success ends the chain, and failure hands over to the system managers. |
| `Resolver.FixedOrder` | install.py:64-90 | The trace follows the fixed order probe, pip, apt, yum, dnf, pacman, pipx, and no strategy appears twice. |
| `Resolver.SkippedNotAttempted` | install.py:71-90 | A system manager or pipx whose binary `shutil.which` does not find is never attempted. |
| `Resolver.PipxLast` | install.py:81-90 | pipx is attempted only when it is on PATH and every earlier strategy failed or was skipped. |
| `Resolver.AtMostSixCommands` | install.py:53-90 | The trace starts with the import probe, and at most 1 + 4 + 1 install commands follow it. |
| `Resolver.NothingOnPath` | install.py:92-101 | With `psutil` missing, pip failing and no manager or pipx on PATH, resolution is exhausted after exactly the probe and pip. |
| `Resolver.RemedyMatchesAttempt` | install.py:64-98 | Each printed manual command for a system manager runs, under `sudo`, the same binary the chain tests with `shutil.which`, and names the same package the chain installs. |
| `Resolver.PipArgumentClash` | install.py:54-61 | As written, a host without `psutil` always stops at `pip --user` with an uncaught error, after exactly the probe and pip. The corrected chain resolves through pip when pip succeeds. |
| `Installer.InstallPyker` | install.py:103-132 | `install_pyker` exits when `pyker.py` is missing, before any directory is made. It raises when `mkdir` fails. It exits when the copy or the chmod fails. The effects are the binary directory, then the copy, then the mode change, each only when the step before it succeeded. |
| `Installer.Install` | install.py:156-183 | `main` ends in the status `Outcome(host)`, with side effects `Effects(host)`. It shows the remediation list exactly when it aborts at the dependency step. |
| `Installer.RootGuardFirst` | install.py:27-32 | The run aborts at the root guard exactly when euid = 0, and then nothing has happened. |
| `Installer.VersionGuardSecond` | install.py:34-39 | A non-root run on a too-old interpreter aborts at the version gate with exit status 1, before any side effect. |
| `Installer.DependencyFatal` | install.py:92-101 | Exhaustion aborts with status 1. Only the install commands have run, and no directory has been created. |
| `Installer.RaisedNotStarted` | install.py:53-90 | An uncaught error from the resolver ends the run at the dependency step with exit status 1. The command that raised is never recorded as started, and no directory is created. |
| `Installer.AsWrittenCrashes` | install.py:54-61 | As written, every non-root host on Python 3.7 or later without `psutil` crashes at the dependency step with exit status 1, before any install command starts. |
| `Installer.MissingPayloadBeforeMkdir` | install.py:114-121 | A missing `pyker.py` gives exit status 1, and neither `~/.local/bin` nor `~/.pyker/logs` is created. |
| `Installer.CompletesIff` | install.py:156-183 | The exit status is 0 exactly when every fatal step passes. The value `check_path` reads plays no part. |
| `Installer.PathCheckAdvisory` | install.py:134-147 | With what `shutil.which` finds held fixed, changing the value `check_path` reads changes neither the exit status nor the side effects, only the flag of a completed run. |
| `Installer.PathFlag` | install.py:136-141 | A completed run's flag says whether `~/.local/bin` occurs in PATH. |
| `Installer.AlreadyInstalled` | install.py:156-165 | On a non-root, new-enough host where `psutil` already imports and every file operation succeeds, the run completes with no install command. Its effects are exactly the binary directory, the copy, the mode change and the data directory. Its flag is the PATH check. |
| `Installer.CompletedEffects` | install.py:160-165 | A completed run has these effects, in order: the dependency's install commands, creating `~/.local/bin`, copying the payload, making it executable, and creating `~/.pyker/logs`. |

## Left out

- Printing: the `Colors` class, `print_colored`, the banner and the usage text. The model only records which remediation commands are shown and whether a completed run carries the restart reminder (`Done(false)`).
- The subprocess invocations, `shutil.which` and `import psutil`. They are foreign calls, so each is a `Candidate` whose availability and response are inputs. A `Candidate` carries no argument list. `InstallArgv` records the four system-manager argument vectors only to compare them with the printed remedies. The pip and pipx argument lists are not modelled.
- The `sudo` binary is not looked up before a system manager is tried. If it is missing, the error escapes before the command starts. The model covers this only as an `Exception` response that the host supplies. `Exception` always means an error raised before the command starts; an error raised while a command runs, such as an interrupt, is not modelled.
- Installer.PathCheckAdvisory: `Candidate.available` is the `shutil.which` result, modelled as its own input. Yet install.py:72 and 82 search the same PATH that `check_path` reads, and so do the `sudo` and `pipx` lookups at 75 and 85. `PathCheckAdvisory` therefore varies only what `check_path` reads. A real change of PATH can also change which manager is found, and with it the exit status.
- Reading `os.environ` and calling `Path.home()`. `PATH` and the home directory are fields of `Host`.
- File-system effects are recorded only as events (`MadeBinDir`, `CopiedPayload`, `MadeExecutable`, `MadeDataDir`). Their idempotence (`exist_ok=True`) and the file mode itself belong to the library, not to this script.
- Python 3.6 passes the version gate, but on 3.6 `subprocess.run` has no `capture_output` keyword. There, every install command raises a TypeError. The model assumes Python 3.7 or later for the subprocess calls.
- Installer.VersionGuardSecond: `Aborted(VersionGuard)` follows the text of `main`. On a real interpreter older than 3.6, `install.py` does not even compile, because it uses f-strings (lines 25, 74, 76, 127, 129 and 145). Python then stops with a SyntaxError before `main` runs, so neither the root guard nor the version gate's message is reached. The exit status, 1, and the empty effects are the same under either reading, and the lemma states both.
- Installer.RootGuardFirst: for a root user on an interpreter older than 3.6, `Aborted(RootGuard)` likewise stands for that SyntaxError, with the same exit status 1 and no effects.
- Exceptions the script does not anticipate, such as `Path.home()` failing or a keyboard interrupt, are not modelled.
- Shell-completion installation and startup-file editing. `install.py` has no such step.
- `pyker.py` itself. It is an opaque payload here.
- Resolver.Resolve: its own contract is only the length bound. Its meaning is stated by `DecidedAt`, `NoneDecisive`, `ExhaustedIff` and the lemmas that follow.

## Findings

| source | as written | input that shows it | evidently intended | confidence | as-written member | corrected member |
|---|---|---|---|---|---|---|
| install.py:55-57 | The `pip --user` call passes `capture_output=True` together with `stderr=subprocess.DEVNULL`. `subprocess.run` rejects that combination with a ValueError before starting pip. The handler catches only CalledProcessError, so the error escapes `install_psutil` and the script exits with a traceback. apt, yum, dnf, pacman and pipx are never tried. | Any host on which `import psutil` fails, for example Python 3.11 without psutil, where pip would install it. | Run pip with its diagnostics discarded. A non-zero exit falls through to the system managers. | high; not executed | `Resolver.PipArgumentClash` | `Resolver.PipUserSecond` |
