/** The installer's three checks that have no side effects: the root guard
    (check_not_root), the interpreter version gate (check_python) and the
    PATH check (check_path). */
module Guards {

  datatype Option<T> = None | Some(value: T)

  // ---------------------------------------------------------------------
  // Root guard
  // ---------------------------------------------------------------------

  /** The installer refuses to run exactly when the effective user id is 0. */
  predicate IsRoot(euid: int) {
    euid == 0
  }

  // ---------------------------------------------------------------------
  // Version gate
  // ---------------------------------------------------------------------

  /** Python's `<` on tuples of integers. The first position where the two
      differ decides. When no position differs, the shorter tuple is the smaller. */
  function LexLess(a: seq<int>, b: seq<int>): bool
  {
    if a == [] then b != []
    else if b == [] then false
    else if a[0] != b[0] then a[0] < b[0]
    else LexLess(a[1..], b[1..])
  }

  /** `a` and `b` agree before position `k` and `a` is smaller at `k`. */
  ghost predicate FirstBelowAt(a: seq<int>, b: seq<int>, k: nat) {
    k < |a| && k < |b| && a[..k] == b[..k] && a[k] < b[k]
  }

  /** `a` is a proper prefix of `b`. */
  ghost predicate ProperPrefix(a: seq<int>, b: seq<int>) {
    |a| < |b| && a == b[..|a|]
  }

  /** The recursive comparison agrees with the textbook definition of the
      lexicographic order. */
  lemma {:induction false} LexLessIff(a: seq<int>, b: seq<int>)
    ensures LexLess(a, b) <==> ProperPrefix(a, b) || exists k: nat :: FirstBelowAt(a, b, k)
  {
    if a == [] || b == [] {
    } else if a[0] != b[0] {
      if a[0] < b[0] {
        assert FirstBelowAt(a, b, 0);
      }
    } else {
      var a', b' := a[1..], b[1..];
      LexLessIff(a', b');
      assert ProperPrefix(a, b) <==> ProperPrefix(a', b') by {
        if ProperPrefix(a', b') { assert a == [a[0]] + a' && b[..|a|] == [b[0]] + b'[..|a'|]; }
        if ProperPrefix(a, b) { assert a' == a[..|a|][1..] && b'[..|a'|] == b[..|a|][1..]; }
      }
      forall k: nat | FirstBelowAt(a', b', k) ensures FirstBelowAt(a, b, k + 1) {
        assert a[..k + 1] == [a[0]] + a'[..k] && b[..k + 1] == [b[0]] + b'[..k];
      }
      forall k: nat | FirstBelowAt(a, b, k) ensures k > 0 && FirstBelowAt(a', b', k - 1) {
        assert a'[..k - 1] == a[..k][1..] && b'[..k - 1] == b[..k][1..];
      }
    }
  }

  /** The tuple order is transitive. */
  lemma {:induction false} LexLessTransitive(a: seq<int>, b: seq<int>, c: seq<int>)
    requires LexLess(a, b) && LexLess(b, c)
    ensures LexLess(a, c)
  {
    if a != [] && b != [] && c != [] && a[0] == b[0] && b[0] == c[0] {
      LexLessTransitive(a[1..], b[1..], c[1..]);
    }
  }

  /** The oldest interpreter the installer accepts, compared as a tuple. */
  const MINIMUM_VERSION: seq<int> := [3, 6]

  /** `sys.version_info < (3, 6)`. The interpreter's version tuple also holds
      a micro number, a release level and a serial. They are never compared:
      when major and minor equal 3 and 6, the comparison stops at the end of
      (3, 6) and calls the longer tuple the greater one. */
  function TooOld(version: seq<int>): (below: bool)
    ensures |version| >= 2 ==> (below <==> version[0] < 3 || (version[0] == 3 && version[1] < 6))
  {
    if |version| >= 2 then
      var minor := version[1..];
      assert MINIMUM_VERSION[1..] == [6] && minor[1..] == version[2..];
      assert LexLess(version, MINIMUM_VERSION) == if version[0] != 3 then version[0] < 3 else LexLess(minor, [6]);
      assert LexLess(minor, [6]) == if version[1] != 6 then version[1] < 6 else LexLess(version[2..], []);
      LexLess(version, MINIMUM_VERSION)
    else
      LexLess(version, MINIMUM_VERSION)
  }

  /** An interpreter newer than an accepted one is accepted too. */
  lemma AcceptedUpward(v: seq<int>, w: seq<int>)
    requires !TooOld(v) && LexLess(v, w)
    ensures !TooOld(w)
  {
    if TooOld(w) {
      LexLessTransitive(v, w, MINIMUM_VERSION);
    }
  }

  // ---------------------------------------------------------------------
  // PATH check
  // ---------------------------------------------------------------------

  /** Python's `needle in haystack` on strings: a substring test. */
  function Contains(haystack: string, needle: string): bool
    decreases |haystack|
  {
    if |needle| > |haystack| then false
    else if haystack[..|needle|] == needle then true
    else Contains(haystack[1..], needle)
  }

  /** `needle` occurs in `haystack` starting at position `i`. */
  ghost predicate OccursAt(haystack: string, needle: string, i: nat) {
    i + |needle| <= |haystack| && haystack[i..i + |needle|] == needle
  }

  lemma {:induction false} ContainsIff(haystack: string, needle: string)
    ensures Contains(haystack, needle) <==> exists i: nat :: OccursAt(haystack, needle, i)
    decreases |haystack|
  {
    if |needle| > |haystack| {
    } else if haystack[..|needle|] == needle {
      assert OccursAt(haystack, needle, 0);
    } else {
      var rest := haystack[1..];
      ContainsIff(rest, needle);
      forall i: nat | OccursAt(rest, needle, i) ensures OccursAt(haystack, needle, i + 1) {
        assert haystack[i + 1..i + 1 + |needle|] == rest[i..i + |needle|];
      }
      forall i: nat | OccursAt(haystack, needle, i) ensures i > 0 && OccursAt(rest, needle, i - 1) {
        assert haystack[i..i + |needle|] == rest[i - 1..i - 1 + |needle|];
      }
    }
  }

  /** `os.environ.get('PATH', '')`: an unset PATH reads as the empty string. */
  function PathValue(pathEnv: Option<string>): string {
    match pathEnv
    case Some(p) => p
    case None => ""
  }

  /** The binary directory counts as on PATH when its text occurs anywhere in
      PATH, not only as a whole colon-separated entry. */
  function CheckPath(localBin: string, pathEnv: Option<string>): (onPath: bool)
    ensures onPath <==> exists i: nat :: OccursAt(PathValue(pathEnv), localBin, i)
  {
    ContainsIff(PathValue(pathEnv), localBin);
    Contains(PathValue(pathEnv), localBin)
  }

  /** With PATH unset, no non-empty directory is found on it. */
  lemma UnsetPathNeverMatches(localBin: string)
    requires localBin != ""
    ensures !CheckPath(localBin, None)
  {
  }

  /** The directory counts as on PATH wherever its text occurs, also when
      it is only the beginning of a longer entry, such as ~/.local/binaries. */
  lemma AnywhereAccepted(localBin: string, before: string, after: string)
    ensures CheckPath(localBin, Some(before + localBin + after))
  {
    var p := before + localBin + after;
    assert OccursAt(p, localBin, |before|) by {
      assert p[|before|..|before| + |localBin|] == localBin;
    }
  }
}
