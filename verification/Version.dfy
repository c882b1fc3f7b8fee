/** Acceptance of an upgrade between two release numbers, internal/core/manifest.go. */
module Version {
  import opened Decimal
  import opened Wrappers

  datatype UpgradeError = NotPatchUpgrade | Downgrade

  function TrimLeftV(s: string): (r: string)
    ensures r == "" || r[0] != 'v'
  {
    if s != "" && s[0] == 'v' then TrimLeftV(s[1..]) else s
  }

  function TrimRightV(s: string): (r: string)
    ensures r == "" || r[|r| - 1] != 'v'
    ensures r <= s
  {
    if s != "" && s[|s| - 1] == 'v' then TrimRightV(s[..|s| - 1]) else s
  }

  /** strings.Trim(s, "v"): every v at either end goes. */
  function TrimV(s: string): string {
    TrimRightV(TrimLeftV(s))
  }

  /** strings.Split(s, "."). */
  function SplitDots(s: string): (parts: seq<string>)
    ensures |parts| >= 1
    ensures forall i :: 0 <= i < |parts| ==> '.' !in parts[i]
    decreases |s|
  {
    if '.' !in s then [s]
    else
      var i := FirstDot(s);
      [s[..i]] + SplitDots(s[i + 1..])
  }

  function FirstDot(s: string): (i: nat)
    requires '.' in s
    ensures i < |s| && s[i] == '.' && '.' !in s[..i]
  {
    if s[0] == '.' then 0 else 1 + FirstDot(s[1..])
  }

  /** Go's string order: the first difference decides, and a proper prefix comes first. */
  predicate Below(a: string, b: string) {
    if b == "" then false
    else if a == "" then true
    else if a[0] != b[0] then a[0] < b[0]
    else Below(a[1..], b[1..])
  }

  function ValidateVersionUpgrade(oldVersion: string, newVersion: string): (r: Result<(), UpgradeError>)
  {
    var oldSemVer := SplitDots(TrimV(oldVersion));
    var newSemVer := SplitDots(TrimV(newVersion));
    if |oldSemVer| < 3 || |newSemVer| < 3 then Failure(NotPatchUpgrade)
    else if oldSemVer[0] == newSemVer[0] && oldSemVer[1] == newSemVer[1] then
      if Below(newSemVer[2], oldSemVer[2]) then Failure(Downgrade) else Success(())
    else Failure(NotPatchUpgrade)
  }

  predicate Accepted(oldVersion: string, newVersion: string) {
    ValidateVersionUpgrade(oldVersion, newVersion).Success?
  }

  function Triple(a: string, b: string, c: string): string {
    a + "." + (b + "." + c)
  }

  function Numbered(v: bool, major: nat, minor: nat, third: string): string {
    var s := Triple(Digits(major), Digits(minor), third);
    if v then "v" + s else s
  }

  /** A release number major.minor.patch, with an optional leading v, as the release tags are written. */
  function Release(v: bool, major: nat, minor: nat, patch: nat): string {
    Numbered(v, major, minor, Digits(patch))
  }

  /** A pre-release of that release. */
  function PreRelease(v: bool, major: nat, minor: nat, patch: nat, tag: string): string {
    Numbered(v, major, minor, Digits(patch) + "-" + tag)
  }

  // ---------------------------------------------------------------- splitting

  lemma {:induction false} FirstDotOf(a: string, s: string)
    requires '.' !in a && '.' in s && a <= s && |a| < |s| && s[|a|] == '.'
    ensures FirstDot(s) == |a|
  {
    if a != "" {
      assert s[0] == a[0] && a[0] != '.';
      FirstDotOf(a[1..], s[1..]);
    }
  }

  lemma SplitAtDot(a: string, b: string)
    requires '.' !in a
    ensures SplitDots(a + "." + b) == [a] + SplitDots(b)
  {
    var s := a + "." + b;
    assert s[|a|] == '.';
    assert a <= s;
    FirstDotOf(a, s);
    assert s[..|a|] == a && s[|a| + 1..] == b;
  }

  // ---------------------------------------------------------------- string order

  lemma {:induction false} BelowIrreflexive(a: string)
    ensures !Below(a, a)
  {
    if a != "" { BelowIrreflexive(a[1..]); }
  }

  lemma {:induction false} BelowTrichotomy(a: string, b: string)
    ensures Below(a, b) || a == b || Below(b, a)
    ensures !(Below(a, b) && Below(b, a))
  {
    if a != "" && b != "" {
      BelowTrichotomy(a[1..], b[1..]);
      if a[0] == b[0] && a[1..] == b[1..] {
        assert a == [a[0]] + a[1..] == b;
      }
    }
  }

  lemma {:induction false} BelowTransitive(a: string, b: string, c: string)
    requires !Below(b, a) && !Below(c, b)
    ensures !Below(c, a)
  {
    if a != "" && b != "" && c != "" {
      if a[0] == b[0] && b[0] == c[0] { BelowTransitive(a[1..], b[1..], c[1..]); }
    }
  }

  // ---------------------------------------------------------------- acceptance is a preorder within one minor line

  predicate ThreeParts(v: string) {
    |SplitDots(TrimV(v))| >= 3
  }

  lemma AcceptedReflexive(v: string)
    ensures Accepted(v, v) <==> ThreeParts(v)
  {
    if ThreeParts(v) { BelowIrreflexive(SplitDots(TrimV(v))[2]); }
  }

  lemma AcceptedTransitive(a: string, b: string, c: string)
    requires Accepted(a, b) && Accepted(b, c)
    ensures Accepted(a, c)
  {
    BelowTransitive(SplitDots(TrimV(a))[2], SplitDots(TrimV(b))[2], SplitDots(TrimV(c))[2]);
  }

  /** Two releases can be upgraded in some direction exactly when their first two parts agree;
      in both directions exactly when the third agrees as well. */
  lemma AcceptedWithinOneLine(a: string, b: string)
    requires ThreeParts(a) && ThreeParts(b)
    ensures Accepted(a, b) || Accepted(b, a) <==> SplitDots(TrimV(a))[..2] == SplitDots(TrimV(b))[..2]
    ensures Accepted(a, b) && Accepted(b, a) <==> SplitDots(TrimV(a))[..3] == SplitDots(TrimV(b))[..3]
  {
    var p, q := SplitDots(TrimV(a)), SplitDots(TrimV(b));
    BelowTrichotomy(p[2], q[2]);
    BelowIrreflexive(p[2]);
    assert p[..2] == [p[0], p[1]] && q[..2] == [q[0], q[1]];
    assert p[..3] == [p[0], p[1], p[2]] && q[..3] == [q[0], q[1], q[2]];
  }

  // ---------------------------------------------------------------- against numeric precedence

  lemma TrimRelease(s: string)
    requires s != "" && s[0] != 'v' && s[|s| - 1] != 'v'
    ensures TrimV(s) == s && TrimV("v" + s) == s
  {
    assert ("v" + s)[1..] == s;
  }

  lemma DigitsHaveNoDot(n: nat)
    ensures '.' !in Digits(n)
  {
  }

  lemma SplitTriple(a: string, b: string, c: string)
    requires '.' !in a && '.' !in b && '.' !in c
    ensures SplitDots(Triple(a, b, c)) == [a, b, c]
  {
    SplitAtDot(a, b + "." + c);
    SplitAtDot(b, c);
  }

  lemma EndsOfTriple(a: string, b: string, c: string)
    requires a != "" && c != ""
    ensures Triple(a, b, c) != ""
    ensures Triple(a, b, c)[0] == a[0]
    ensures Triple(a, b, c)[|Triple(a, b, c)| - 1] == c[|c| - 1]
  {
  }

  lemma PartsOfNumbered(v: bool, major: nat, minor: nat, third: string)
    requires third != "" && '.' !in third && third[|third| - 1] != 'v'
    ensures SplitDots(TrimV(Numbered(v, major, minor, third))) == [Digits(major), Digits(minor), third]
  {
    DigitsHaveNoDot(major);
    DigitsHaveNoDot(minor);
    SplitTriple(Digits(major), Digits(minor), third);
    EndsOfTriple(Digits(major), Digits(minor), third);
    TrimRelease(Triple(Digits(major), Digits(minor), third));
  }

  lemma PartsOfRelease(v: bool, major: nat, minor: nat, patch: nat)
    ensures SplitDots(TrimV(Release(v, major, minor, patch))) == [Digits(major), Digits(minor), Digits(patch)]
  {
    DigitsHaveNoDot(patch);
    assert Digits(patch)[|Digits(patch)| - 1] != 'v';
    PartsOfNumbered(v, major, minor, Digits(patch));
  }

  /** Numerals of equal length compare as strings the way they compare as numbers. */
  lemma {:induction false} BelowIsLessAtEqualLength(a: string, b: string)
    requires AllDigits(a) && AllDigits(b) && |a| == |b|
    ensures Below(a, b) <==> Value(a) < Value(b)
  {
    if a != "" {
      BelowIsLessAtEqualLength(a[1..], b[1..]);
      var k := |a| - 1;
      assert a == [a[0]] + a[1..] && b == [b[0]] + b[1..];
      ValueOfConcat([a[0]], a[1..]);
      ValueOfConcat([b[0]], b[1..]);
      ValueOfDigit(a[0]);
      ValueOfDigit(b[0]);
      ValueBounds(a[1..]);
      ValueBounds(b[1..]);
      LeadingDigitDecides(Value([a[0]]), Value([b[0]]), Pow10(k), Value(a[1..]), Value(b[1..]));
    }
  }

  lemma ValueOfDigit(c: char)
    requires IsDigit(c)
    ensures Value([c]) == c as int - '0' as int
  {
    assert [c][..0] == "";
  }

  lemma LeadingDigitDecides(x: nat, y: nat, p: nat, r: nat, t: nat)
    requires r < p && t < p
    ensures x < y ==> x * p + r < y * p + t
    ensures x > y ==> x * p + r > y * p + t
  {
    if x < y { assert (x + 1) * p <= y * p; }
    if x > y { assert (y + 1) * p <= x * p; }
  }

  /** A shorter string is compared with the leading part of the longer one, and comes first on a tie. */
  lemma {:induction false} BelowComparesLeadingPart(a: string, b: string)
    requires |a| < |b|
    ensures Below(a, b) <==> !Below(b[..|a|], a)
    ensures Below(b, a) <==> Below(b[..|a|], a)
  {
    if a == "" {
      assert b[..0] == "";
    } else {
      BelowComparesLeadingPart(a[1..], b[1..]);
      assert b[..|a|][1..] == b[1..][..|a[1..]|];
    }
  }

  /** The patch numbers of two releases are ordered alike as strings and as numbers. */
  predicate PatchOrdersAgree(p: nat, q: nat) {
    Below(Digits(q), Digits(p)) <==> q < p
  }

  /** The number that the first k digits form. */
  function LeadingDigits(n: nat, k: nat): (m: nat)
    requires 0 < k <= |Digits(n)|
  {
    Value(Digits(n)[..k])
  }

  /** When string order and numeric order agree: equally many digits, or the shorter number is
      at most the number formed by equally many leading digits of the longer one. */
  predicate LeadingDigitsInOrder(p: nat, q: nat) {
    var dp, dq := |Digits(p)|, |Digits(q)|;
    dp == dq || (dp < dq && p <= LeadingDigits(q, dp)) || (dq < dp && q <= LeadingDigits(p, dq))
  }

  lemma {:induction false} Pow10Monotone(j: nat, k: nat)
    requires j <= k
    ensures Pow10(j) <= Pow10(k)
  {
    if j < k { Pow10Monotone(j, k - 1); }
  }

  lemma ShorterIsLess(p: nat, q: nat)
    requires |Digits(p)| < |Digits(q)|
    ensures p < q
  {
    ValueOfDigits(p);
    ValueOfDigits(q);
    ValueBounds(Digits(p));
    ValueBounds(Digits(q));
    Pow10Monotone(|Digits(p)|, |Digits(q)| - 1);
  }

  lemma OrdersAgreeShorterFirst(p: nat, q: nat)
    requires |Digits(p)| < |Digits(q)|
    ensures Below(Digits(p), Digits(q)) <==> p <= LeadingDigits(q, |Digits(p)|)
    ensures Below(Digits(q), Digits(p)) <==> p > LeadingDigits(q, |Digits(p)|)
  {
    var a, b := Digits(p), Digits(q);
    BelowComparesLeadingPart(a, b);
    BelowIsLessAtEqualLength(b[..|a|], a);
    ValueOfDigits(p);
  }

  lemma PatchOrdersAgreeExactly(p: nat, q: nat)
    ensures PatchOrdersAgree(p, q) <==> LeadingDigitsInOrder(p, q)
  {
    ValueOfDigits(p);
    ValueOfDigits(q);
    if |Digits(p)| == |Digits(q)| {
      BelowIsLessAtEqualLength(Digits(q), Digits(p));
    } else if |Digits(p)| < |Digits(q)| {
      ShorterIsLess(p, q);
      OrdersAgreeShorterFirst(p, q);
    } else {
      ShorterIsLess(q, p);
      OrdersAgreeShorterFirst(q, p);
    }
  }

  /** Numeric precedence of releases, section 11.2 of Semantic Versioning 2.0.0, restricted to one minor line. */
  predicate PatchUpgrade(major: nat, minor: nat, patch: nat, major': nat, minor': nat, patch': nat) {
    major == major' && minor == minor' && patch <= patch'
  }

  /** The check accepts exactly the patch upgrades, except when string order inverts the two patch numbers. */
  lemma AcceptedReleases(v: bool, major: nat, minor: nat, patch: nat, v': bool, major': nat, minor': nat, patch': nat)
    ensures var accepted := Accepted(Release(v, major, minor, patch), Release(v', major', minor', patch'));
            if major != major' || minor != minor' then !accepted
            else accepted == PatchUpgrade(major, minor, patch, major', minor', patch') <==> LeadingDigitsInOrder(patch, patch')
  {
    AcceptedByParts(v, major, minor, patch, v', major', minor', patch');
    PatchOrdersAgreeExactly(patch, patch');
  }

  lemma AcceptedByParts(v: bool, major: nat, minor: nat, patch: nat, v': bool, major': nat, minor': nat, patch': nat)
    ensures Accepted(Release(v, major, minor, patch), Release(v', major', minor', patch'))
            <==> major == major' && minor == minor' && !Below(Digits(patch'), Digits(patch))
  {
    PartsOfRelease(v, major, minor, patch);
    PartsOfRelease(v', major', minor', patch');
    if Digits(major) == Digits(major') { DigitsInjective(major, major'); }
    if Digits(minor) == Digits(minor') { DigitsInjective(minor, minor'); }
  }

  /** The smallest inversion: 1.2.9 to 1.2.10 is refused as a downgrade, and 1.2.10 to 1.2.9 is accepted. */
  lemma NineAndTen()
    ensures ValidateVersionUpgrade(Release(true, 1, 2, 9), Release(true, 1, 2, 10)) == Failure(Downgrade)
    ensures Accepted(Release(true, 1, 2, 10), Release(true, 1, 2, 9))
  {
    PartsOfRelease(true, 1, 2, 9);
    PartsOfRelease(true, 1, 2, 10);
    NumeralsNineAndTen();
  }

  lemma NumeralsNineAndTen()
    ensures Below(Digits(10), Digits(9)) && !Below(Digits(9), Digits(10))
  {
    assert Digits(10 / 10) == ['1'];
  }

  /** A pre-release is ordered the wrong way round (section 11.3 of Semantic Versioning 2.0.0 puts it before
      its release): from the release to its own pre-release is accepted, the way back refused. */
  lemma PreReleaseInverted(v: bool, v': bool, major: nat, minor: nat, patch: nat, tag: string)
    requires tag != "" && '.' !in tag && tag[|tag| - 1] != 'v'
    ensures Accepted(Release(v, major, minor, patch), PreRelease(v', major, minor, patch, tag))
    ensures ValidateVersionUpgrade(PreRelease(v', major, minor, patch, tag), Release(v, major, minor, patch)) == Failure(Downgrade)
  {
    ProperPrefixFirst(Digits(patch), "-" + tag);
    PartsOfRelease(v, major, minor, patch);
    PartsOfPreRelease(v', major, minor, patch, tag);
    DecidedByThird(Release(v, major, minor, patch), PreRelease(v', major, minor, patch, tag),
                   Digits(major), Digits(minor), Digits(patch), Digits(patch) + ("-" + tag));
    DecidedByThird(PreRelease(v', major, minor, patch, tag), Release(v, major, minor, patch),
                   Digits(major), Digits(minor), Digits(patch) + ("-" + tag), Digits(patch));
  }

  lemma PartsOfPreRelease(v: bool, major: nat, minor: nat, patch: nat, tag: string)
    requires tag != "" && '.' !in tag && tag[|tag| - 1] != 'v'
    ensures SplitDots(TrimV(PreRelease(v, major, minor, patch, tag))) == [Digits(major), Digits(minor), Digits(patch) + ("-" + tag)]
  {
    DigitsHaveNoDot(patch);
    var third := Digits(patch) + "-" + tag;
    assert third == Digits(patch) + ("-" + tag);
    PartsOfNumbered(v, major, minor, third);
  }

  lemma {:induction false} ProperPrefixFirst(a: string, suffix: string)
    requires suffix != ""
    ensures Below(a, a + suffix) && !Below(a + suffix, a)
  {
    assert (a + suffix)[..|a|] == a;
    BelowComparesLeadingPart(a, a + suffix);
    BelowIrreflexive(a);
  }

  lemma DecidedByThird(a: string, b: string, first: string, second: string, p: string, q: string)
    requires SplitDots(TrimV(a)) == [first, second, p] && SplitDots(TrimV(b)) == [first, second, q]
    ensures ValidateVersionUpgrade(a, b) == if Below(q, p) then Failure(Downgrade) else Success(())
  {
  }

  // ---------------------------------------------------------------- the verdicts

  predicate OnlyV(s: string) {
    forall i :: 0 <= i < |s| ==> s[i] == 'v'
  }

  lemma {:induction false} TrimLeftExactly(s: string) returns (k: nat)
    ensures k <= |s| && TrimLeftV(s) == s[k..] && OnlyV(s[..k])
  {
    k := 0;
    if s != "" && s[0] == 'v' {
      var rest := TrimLeftExactly(s[1..]);
      k := rest + 1;
      assert s[1..][rest..] == s[k..];
      assert s[..k] == [s[0]] + s[1..][..rest];
    }
  }

  lemma {:induction false} TrimRightExactly(s: string) returns (k: nat)
    ensures k <= |s| && TrimRightV(s) == s[..k] && OnlyV(s[k..])
  {
    k := |s|;
    if s != "" && s[|s| - 1] == 'v' {
      k := TrimRightExactly(s[..|s| - 1]);
      assert s[..|s| - 1][..k] == s[..k];
      assert s[k..] == s[..|s| - 1][k..] + [s[|s| - 1]];
    }
  }

  /** Every v goes at either end, and nothing else. */
  lemma TrimExactly(s: string) returns (j: nat, k: nat)
    ensures j <= k <= |s| && TrimV(s) == s[j..k] && OnlyV(s[..j]) && OnlyV(s[k..])
    ensures j < k ==> s[j] != 'v' && s[k - 1] != 'v'
  {
    j := TrimLeftExactly(s);
    var m := TrimRightExactly(s[j..]);
    k := j + m;
    assert s[j..][..m] == s[j..k] && s[j..][m..] == s[k..];
    assert TrimLeftV(s) == s[j..] && TrimV(s) == s[j..k];
    assert j < k ==> TrimV(s)[0] == s[j] && TrimV(s)[k - j - 1] == s[k - 1] && TrimLeftV(s)[0] == s[j];
  }

  /** No patch upgrade: a version without three parts, or another first or second part. */
  lemma NotPatchExactly(oldVersion: string, newVersion: string)
    ensures var (p, q) := (SplitDots(TrimV(oldVersion)), SplitDots(TrimV(newVersion)));
            ValidateVersionUpgrade(oldVersion, newVersion) == Failure(NotPatchUpgrade)
            <==> |p| < 3 || |q| < 3 || p[..2] != q[..2]
  {
    var p, q := SplitDots(TrimV(oldVersion)), SplitDots(TrimV(newVersion));
    if |p| >= 3 && |q| >= 3 { assert p[..2] == [p[0], p[1]] && q[..2] == [q[0], q[1]]; }
  }

  /** Another major or minor number is no patch upgrade, whichever is higher; only a smaller patch number, as strings
      go, is called a downgrade. */
  lemma ReleaseVerdicts(v: bool, a: nat, b: nat, c: nat, v': bool, a': nat, b': nat, c': nat)
    ensures var r := ValidateVersionUpgrade(Release(v, a, b, c), Release(v', a', b', c'));
            && (r == Failure(NotPatchUpgrade) <==> a != a' || b != b')
            && (r == Failure(Downgrade) <==> a == a' && b == b' && Below(Digits(c'), Digits(c)))
            && (r == Success(()) <==> a == a' && b == b' && !Below(Digits(c'), Digits(c)))
  {
    PartsOfRelease(v, a, b, c);
    PartsOfRelease(v', a', b', c');
    if Digits(a) == Digits(a') { DigitsInjective(a, a'); }
    if Digits(b) == Digits(b') { DigitsInjective(b, b'); }
  }
}
