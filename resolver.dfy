/** The dependency resolver (install_psutil): an ordered, first-success-wins
    chain of ways to make the psutil library importable. Each attempt's
    outcome is an input to the model: whether the tool is on PATH
    (shutil.which) and how the import or the command ends. */
module Resolver {

  /** The four system package managers, in the order they are tried. */
  datatype Manager = Apt | Yum | Dnf | Pacman

  datatype Strategy =
    | ImportProbe              // `import psutil` in the running interpreter
    | PipUser                  // `python -m pip install --user psutil`
    | System(manager: Manager) // `sudo <manager> install ...`
    | Pipx                     // `pipx install psutil --include-deps`

  /** How an attempt ends. Failure is the error the code catches and moves on
      from: ImportError for the probe, CalledProcessError (a non-zero exit
      under check=True) for a command. Exception is any other error, which
      nothing catches; it ends the whole program with exit status 1. For a
      command it is an error subprocess.run raises before the command starts:
      arguments it refuses, or an executable (sudo) it cannot find. */
  datatype Response = Success | Failure | Exception

  /** One strategy together with what the host does with it. `available` is
      the shutil.which test. Only system managers and pipx consult it. */
  datatype Candidate = Candidate(strategy: Strategy, available: bool, response: Response)

  datatype Verdict =
    | Resolved(via: Strategy)   // the first attempt that succeeded
    | Exhausted                // every attempt failed or was skipped
    | Raised(at: Strategy)     // an attempt raised an error nothing catches

  /** The verdict, and the strategies attempted, in the order attempted. */
  datatype Resolution = Resolution(verdict: Verdict, trace: seq<Strategy>)

  /** The fixed priority order of install.py. */
  const ORDER: seq<Strategy> :=
    [ImportProbe, PipUser, System(Apt), System(Yum), System(Dnf), System(Pacman), Pipx]

  /** The candidate list describes one host, one candidate per strategy, in ORDER. */
  predicate Configured(cands: seq<Candidate>) {
    |cands| == |ORDER| && forall i | 0 <= i < |cands| :: cands[i].strategy == ORDER[i]
  }

  /** Only system managers and pipx are guarded by a shutil.which test. */
  predicate Gated(s: Strategy) {
    s.System? || s.Pipx?
  }

  /** A candidate is attempted unless its tool is gated and missing. */
  predicate Attempted(c: Candidate) {
    !Gated(c.strategy) || c.available
  }

  /** An attempted candidate whose outcome ends the resolver. */
  predicate Decisive(c: Candidate) {
    Attempted(c) && c.response != Failure
  }

  function Conclusion(c: Candidate): Verdict
    requires Decisive(c)
  {
    if c.response == Success then Resolved(c.strategy) else Raised(c.strategy)
  }

  /** The strategy a non-exhausted verdict names. */
  function Decider(v: Verdict): Strategy
    requires !v.Exhausted?
  {
    if v.Resolved? then v.via else v.at
  }

  /** Strategies of the attempted candidates, in order. */
  function AttemptedIn(cands: seq<Candidate>): (r: seq<Strategy>)
    ensures |r| <= |cands|
  {
    if cands == [] then []
    else Entry(cands[0]) + AttemptedIn(cands[1..])
  }

  /** Reference definition of the resolver: candidates are considered in
      order; a skipped one or a failed one passes on to the rest. */
  function Resolve(cands: seq<Candidate>): (r: Resolution)
    ensures |r.trace| <= |cands|
  {
    if cands == [] then Resolution(Exhausted, [])
    else
      var c := cands[0];
      if !Attempted(c) then Resolve(cands[1..])
      else if c.response == Failure then
        var rest := Resolve(cands[1..]);
        Resolution(rest.verdict, [c.strategy] + rest.trace)
      else Resolution(Conclusion(c), [c.strategy])
  }

  // ---------------------------------------------------------------------
  // The resolver as the installer runs it
  // ---------------------------------------------------------------------

  /** The manual commands printed when every strategy has failed. */
  datatype Remedy = ByManager(manager: Manager) | ByPipx | ByVenv

  const REMEDIATION: seq<Remedy> :=
    [ByManager(Apt), ByManager(Yum), ByManager(Dnf), ByManager(Pacman), ByPipx, ByVenv]

  /** The argument vector of each system manager attempt; it is run under sudo. */
  function InstallArgv(m: Manager): seq<string> {
    match m
    case Apt => ["apt", "install", "-y", "python3-psutil"]
    case Yum => ["yum", "install", "-y", "python3-psutil"]
    case Dnf => ["dnf", "install", "-y", "python3-psutil"]
    case Pacman => ["pacman", "-S", "--noconfirm", "python-psutil"]
  }

  /** The words of the command line a remedy prints; the printed line
      separates them with single spaces and adds alignment and a comment. */
  function Command(r: Remedy): seq<string> {
    match r
    case ByManager(Apt) => ["sudo", "apt", "install", "python3-psutil"]
    case ByManager(Yum) => ["sudo", "yum", "install", "python3-psutil"]
    case ByManager(Dnf) => ["sudo", "dnf", "install", "python3-psutil"]
    case ByManager(Pacman) => ["sudo", "pacman", "-S", "python-psutil"]
    case ByPipx => ["pipx", "install", "psutil"]
    case ByVenv => ["python3", "-m", "venv", "venv", "&&", "venv/bin/pip", "install", "psutil"]
  }

  /** install_psutil: tries each candidate in turn, skips a gated one whose
      tool is missing, returns on the first success, lets an uncaught error
      escape, and prints the remediation list when nothing worked. */
  method InstallPsutil(cands: seq<Candidate>) returns (verdict: Verdict, trace: seq<Strategy>, guidance: seq<Remedy>)
    ensures Resolution(verdict, trace) == Resolve(cands)
    ensures guidance == if verdict.Exhausted? then REMEDIATION else []
  {
    trace := [];
    var i := 0;
    while i < |cands|
      invariant 0 <= i <= |cands|
      invariant Resolve(cands) == Resolution(Resolve(cands[i..]).verdict, trace + Resolve(cands[i..]).trace)
    {
      var c := cands[i];
      assert cands[i..][0] == c && cands[i..][1..] == cands[i + 1..];
      if Attempted(c) {
        trace := trace + [c.strategy];
        if c.response == Success {
          return Resolved(c.strategy), trace, [];
        } else if c.response == Exception {
          return Raised(c.strategy), trace, [];
        }
      }
      i := i + 1;
    }
    verdict, guidance := Exhausted, REMEDIATION;
  }

  // ---------------------------------------------------------------------
  // Properties of the chain
  // ---------------------------------------------------------------------

  /** The first decisive candidate decides: everything attempted before it
      failed, and nothing after it is attempted. */
  lemma {:induction false} DecidedAt(cands: seq<Candidate>, k: nat)
    requires k < |cands| && Decisive(cands[k])
    requires forall j | 0 <= j < k :: !Decisive(cands[j])
    ensures Resolve(cands) == Resolution(Conclusion(cands[k]), AttemptedIn(cands[..k]) + [cands[k].strategy])
  {
    if k > 0 {
      DecidedAt(cands[1..], k - 1);
      assert cands[1..][..k - 1] == cands[..k][1..];
    }
  }

  /** When no candidate is decisive, the verdict is exhaustion and every
      available candidate was attempted. */
  lemma {:induction false} NoneDecisive(cands: seq<Candidate>)
    requires forall j | 0 <= j < |cands| :: !Decisive(cands[j])
    ensures Resolve(cands) == Resolution(Exhausted, AttemptedIn(cands))
  {
    if cands != [] {
      NoneDecisive(cands[1..]);
    }
  }

  /** Exhaustion happens exactly when every candidate failed or was skipped. */
  lemma {:induction false} ExhaustedIff(cands: seq<Candidate>)
    ensures Resolve(cands).verdict.Exhausted? <==> forall i | 0 <= i < |cands| :: !Decisive(cands[i])
  {
    if cands != [] {
      ExhaustedIff(cands[1..]);
      assert forall i | 1 <= i < |cands| :: cands[i] == cands[1..][i - 1];
    }
  }

  /** A resolution that is not exhausted ends with the strategy that decided it. */
  lemma {:induction false} LastIsDecider(cands: seq<Candidate>)
    requires !Resolve(cands).verdict.Exhausted?
    ensures Resolve(cands).trace != []
    ensures Resolve(cands).trace[|Resolve(cands).trace| - 1] == Decider(Resolve(cands).verdict)
  {
    if cands != [] && Attempted(cands[0]) && cands[0].response == Failure {
      LastIsDecider(cands[1..]);
    } else if cands != [] && !Attempted(cands[0]) {
      LastIsDecider(cands[1..]);
    }
  }

  /** The trace entry a single candidate contributes. */
  function Entry(c: Candidate): seq<Strategy> {
    if Attempted(c) then [c.strategy] else []
  }

  /** One failed or skipped candidate passes on to the rest. */
  lemma StepOver(cands: seq<Candidate>)
    requires cands != [] && !Decisive(cands[0])
    ensures Resolve(cands) == Resolution(Resolve(cands[1..]).verdict, Entry(cands[0]) + Resolve(cands[1..]).trace)
  {
  }

  lemma {:induction false} AttemptedInSnoc(cands: seq<Candidate>, c: Candidate)
    ensures AttemptedIn(cands + [c]) == AttemptedIn(cands) + Entry(c)
  {
    if cands != [] {
      assert (cands + [c])[1..] == cands[1..] + [c];
      AttemptedInSnoc(cands[1..], c);
    } else {
      assert AttemptedIn([c]) == Entry(c) + AttemptedIn([]);
    }
  }

  /** Failed or skipped candidates hand over to the rest of the chain: the
      resolver goes on to the next strategy rather than stopping. */
  lemma {:induction false} FallThrough(cands: seq<Candidate>, i: nat)
    requires i < |cands|
    requires forall j | 0 <= j <= i :: !Decisive(cands[j])
    ensures Resolve(cands) ==
      Resolution(Resolve(cands[i + 1..]).verdict, AttemptedIn(cands[..i + 1]) + Resolve(cands[i + 1..]).trace)
  {
    var tail, r := cands[i..], Resolve(cands[i + 1..]);
    var pre, entry := AttemptedIn(cands[..i]), Entry(cands[i]);
    assert Resolve(tail) == Resolution(r.verdict, entry + r.trace) by {
      assert tail[0] == cands[i] && tail[1..] == cands[i + 1..];
      StepOver(tail);
    }
    assert AttemptedIn(cands[..i + 1]) == pre + entry by {
      assert cands[..i + 1] == cands[..i] + [cands[i]];
      AttemptedInSnoc(cands[..i], cands[i]);
    }
    assert Resolve(cands) == Resolution(Resolve(tail).verdict, pre + Resolve(tail).trace) by {
      if i > 0 {
        FallThrough(cands, i - 1);
      } else {
        assert pre == [] && tail == cands;
      }
    }
    assert pre + (entry + r.trace) == (pre + entry) + r.trace;
  }

  /** No candidate before position `i` ends the resolver. */
  predicate UndecidedBefore(cands: seq<Candidate>, i: nat)
    requires i <= |cands|
  {
    forall j | 0 <= j < i :: !Decisive(cands[j])
  }

  /** Strategy `s` is that of an attempted candidate reached only after
      every earlier candidate failed or was skipped. */
  ghost predicate ReachedAttempt(cands: seq<Candidate>, s: Strategy) {
    exists i | 0 <= i < |cands| :: cands[i].strategy == s && Attempted(cands[i]) && UndecidedBefore(cands, i)
  }

  /** Every strategy in the trace belongs to an attempted candidate, and
      every candidate before that one failed or was skipped. */
  lemma {:induction false} TraceUndecidedBefore(cands: seq<Candidate>)
    ensures forall t | 0 <= t < |Resolve(cands).trace| :: ReachedAttempt(cands, Resolve(cands).trace[t])
  {
    if cands != [] {
      var c, rest := cands[0], cands[1..];
      TraceUndecidedBefore(rest);
      var r, r' := Resolve(cands), Resolve(rest);
      forall t | 0 <= t < |r.trace| ensures ReachedAttempt(cands, r.trace[t]) {
        if Attempted(c) && t == 0 {
          assert cands[0].strategy == r.trace[0] && UndecidedBefore(cands, 0);
        } else {
          assert !Decisive(c);
          var t' := if Attempted(c) then t - 1 else t;
          assert r.trace[t] == r'.trace[t'];
          assert ReachedAttempt(rest, r'.trace[t']);
          var i' :| 0 <= i' < |rest| && rest[i'].strategy == r'.trace[t'] && Attempted(rest[i']) &&
            UndecidedBefore(rest, i');
          assert cands[i' + 1] == rest[i'];
          forall j | 0 <= j < i' + 1 ensures !Decisive(cands[j]) {
            if j > 0 { assert cands[j] == rest[j - 1]; }
          }
          assert UndecidedBefore(cands, i' + 1);
        }
      }
    }
  }

  /** Rank of a strategy in ORDER. */
  function Rank(s: Strategy): nat {
    match s
    case ImportProbe => 0
    case PipUser => 1
    case System(Apt) => 2
    case System(Yum) => 3
    case System(Dnf) => 4
    case System(Pacman) => 5
    case Pipx => 6
  }

  /** Strictly increasing in rank: in priority order and without repeats. */
  predicate Ascending(ss: seq<Strategy>) {
    forall i, j | 0 <= i < j < |ss| :: Rank(ss[i]) < Rank(ss[j])
  }

  function Strategies(cands: seq<Candidate>): (ss: seq<Strategy>)
    ensures |ss| == |cands| && forall i | 0 <= i < |cands| :: ss[i] == cands[i].strategy
  {
    seq(|cands|, i requires 0 <= i < |cands| => cands[i].strategy)
  }

  /** Candidates listed in priority order are attempted in priority order. */
  lemma {:induction false} TraceAscending(cands: seq<Candidate>)
    requires Ascending(Strategies(cands))
    ensures Ascending(Resolve(cands).trace)
  {
    if cands != [] {
      var rest := cands[1..];
      assert Strategies(rest) == Strategies(cands)[1..];
      TraceAscending(rest);
      TraceUndecidedBefore(rest);
      var r, r' := Resolve(cands), Resolve(rest);
      forall t | 0 <= t < |r'.trace| ensures Rank(cands[0].strategy) < Rank(r'.trace[t]) {
        assert ReachedAttempt(rest, r'.trace[t]);
        var i :| 0 <= i < |rest| && rest[i].strategy == r'.trace[t] && Attempted(rest[i]) && UndecidedBefore(rest, i);
        assert Strategies(cands)[i + 1] == rest[i].strategy;
      }
    }
  }

  lemma {:induction false} ConfiguredAscending(cands: seq<Candidate>)
    requires Configured(cands)
    ensures Ascending(Strategies(cands))
  {
    assert Strategies(cands) == ORDER;
  }

  /** If psutil already imports, no install command runs at all. */
  lemma {:induction false} ProbeShortCircuit(cands: seq<Candidate>)
    requires Configured(cands) && cands[0].response == Success
    ensures Resolve(cands) == Resolution(Resolved(ImportProbe), [ImportProbe])
  {
  }

  /** pip --user comes right after a failed probe, before any system manager;
      its exit status alone decides, and success ends the chain. */
  lemma {:induction false} PipUserSecond(cands: seq<Candidate>)
    requires Configured(cands) && cands[0].response == Failure
    ensures |Resolve(cands).trace| >= 2 && Resolve(cands).trace[..2] == [ImportProbe, PipUser]
    ensures cands[1].response == Success ==> Resolve(cands) == Resolution(Resolved(PipUser), [ImportProbe, PipUser])
    ensures cands[1].response == Failure ==> Resolve(cands).verdict == Resolve(cands[2..]).verdict
  {
    assert cands[1..][1..] == cands[2..];
  }

  /** System managers and pipx go in the fixed order apt, yum, dnf, pacman,
      pipx, each at most once, all after pip --user. */
  lemma {:induction false} FixedOrder(cands: seq<Candidate>)
    requires Configured(cands)
    ensures Ascending(Resolve(cands).trace)
    ensures forall t, u | 0 <= t < u < |Resolve(cands).trace| :: Resolve(cands).trace[t] != Resolve(cands).trace[u]
  {
    ConfiguredAscending(cands);
    TraceAscending(cands);
  }

  /** A gated strategy whose tool is not on PATH is never attempted. */
  lemma {:induction false} SkippedNotAttempted(cands: seq<Candidate>, i: nat)
    requires Configured(cands) && i < |cands|
    requires Gated(cands[i].strategy) && !cands[i].available
    ensures cands[i].strategy !in Resolve(cands).trace
  {
    TraceUndecidedBefore(cands);
    if cands[i].strategy in Resolve(cands).trace {
      var t :| 0 <= t < |Resolve(cands).trace| && Resolve(cands).trace[t] == cands[i].strategy;
      assert ReachedAttempt(cands, Resolve(cands).trace[t]);
      var i' :| 0 <= i' < |cands| && cands[i'].strategy == Resolve(cands).trace[t] && Attempted(cands[i']) &&
        UndecidedBefore(cands, i');
      RankInOrder(i);
      RankInOrder(i');
    }
  }

  /** pipx is attempted only when it is on PATH and every earlier strategy
      failed or was skipped. */
  lemma {:induction false} PipxLast(cands: seq<Candidate>)
    requires Configured(cands) && Pipx in Resolve(cands).trace
    ensures cands[6].available
    ensures forall j | 0 <= j < 6 :: !Decisive(cands[j])
  {
    TraceUndecidedBefore(cands);
    var t :| 0 <= t < |Resolve(cands).trace| && Resolve(cands).trace[t] == Pipx;
    assert ReachedAttempt(cands, Resolve(cands).trace[t]);
    var i :| 0 <= i < |cands| && cands[i].strategy == Resolve(cands).trace[t] && Attempted(cands[i]) &&
      UndecidedBefore(cands, i);
    RankInOrder(i);
  }

  lemma RankInOrder(i: nat)
    requires i < |ORDER|
    ensures Rank(ORDER[i]) == i
  {
  }

  /** At most 1 + 4 + 1 install commands: the six strategies after the probe. */
  lemma {:induction false} AtMostSixCommands(cands: seq<Candidate>)
    requires Configured(cands)
    ensures Resolve(cands).trace != [] && Resolve(cands).trace[0] == ImportProbe
    ensures |Resolve(cands).trace[1..]| <= 6 && ImportProbe !in Resolve(cands).trace[1..]
  {
    FixedOrder(cands);
    assert Resolve(cands).trace[0] == ImportProbe;
  }

  /** With no usable manager or pipx, a missing psutil and a failing pip,
      resolution is exhausted after exactly the probe and pip. */
  lemma {:induction false} NothingOnPath(cands: seq<Candidate>)
    requires Configured(cands)
    requires cands[0].response == Failure && cands[1].response == Failure
    requires forall i | 2 <= i < |cands| :: !cands[i].available
    ensures Resolve(cands) == Resolution(Exhausted, [ImportProbe, PipUser])
  {
    NoneDecisive(cands);
    assert cands[..1] == [cands[0]] && cands[1..][..1] == [cands[1]];
    assert AttemptedIn(cands[2..]) == [] by {
      NoneAttempted(cands[2..]);
    }
    assert cands[1..][1..] == cands[2..];
  }

  lemma {:induction false} NoneAttempted(cands: seq<Candidate>)
    requires forall i | 0 <= i < |cands| :: !Attempted(cands[i])
    ensures AttemptedIn(cands) == []
  {
    if cands != [] { NoneAttempted(cands[1..]); }
  }

  // ---------------------------------------------------------------------
  // The pip --user call as written
  // ---------------------------------------------------------------------

  /** The pip --user call passes capture_output=True together with an
      explicit stderr. subprocess.run refuses that combination with a
      ValueError before it starts pip. Only CalledProcessError is caught, so
      the error escapes, whatever pip itself would have done. */
  function AsWritten(c: Candidate): (w: Candidate)
    ensures w.strategy == c.strategy && w.available == c.available
    ensures c.strategy != PipUser ==> w == c
    ensures c.strategy == PipUser ==> w.response == Exception
  {
    if c.strategy == PipUser then c.(response := Exception) else c
  }

  /** The candidate list as the program as written treats it. */
  function PipAsWritten(cands: seq<Candidate>): (w: seq<Candidate>)
    ensures |w| == |cands|
  {
    seq(|cands|, i requires 0 <= i < |cands| => AsWritten(cands[i]))
  }

  /** As written, a host without psutil never gets past pip --user: the
      program dies there, even where pip, or a later manager, would succeed.
      The corrected resolver resolves through pip when pip succeeds. */
  lemma {:induction false} PipArgumentClash(cands: seq<Candidate>)
    requires Configured(cands) && cands[0].response == Failure
    ensures Resolve(PipAsWritten(cands)) == Resolution(Raised(PipUser), [ImportProbe, PipUser])
    ensures cands[1].response == Success ==> Resolve(cands).verdict == Resolved(PipUser)
  {
    var w := PipAsWritten(cands);
    assert w[0] == cands[0] && w[1].strategy == PipUser && w[1].response == Exception;
    DecidedAt(w, 1);
    assert w[..1] == [w[0]];
  }

  // ---------------------------------------------------------------------
  // The printed remedies
  // ---------------------------------------------------------------------

  /** A remedy for a system manager names the binary the chain tests with
      shutil.which and runs under sudo, and the package the chain installs. */
  lemma RemedyMatchesAttempt(m: Manager)
    ensures var words, argv := Command(ByManager(m)), InstallArgv(m);
      |words| == 4 && words[0] == "sudo" && words[1] == argv[0] && words[3] == argv[|argv| - 1]
  {
  }
}
