/** Version numbers as text: the scanner, `FromStr`, `ToString` and the language they share. */
module VersionText {
  import opened Outcomes
  import opened Scanners
  import opened Decimal

  datatype Version = Version(major: usize, minor: usize, patch: usize, release: Option<string>)

  /** A version text taken apart, before the numerals are converted. */
  datatype Parts = Parts(major: string, minor: string, patch: string, release: Option<string>)
  {
    /** The grammar: three numerals and an optional release word. */
    predicate Grammatical() {
      Numeral(major) && Numeral(minor) && Numeral(patch) && (release.Some? ==> Word(release.value, Skewer))
    }

    function Text(): string {
      major + ['.'] + (minor + ['.'] + (patch + if release.Some? then ['-'] + release.value else ""))
    }

    predicate Fits()
      requires Grammatical()
    {
      ParseNat(major) <= USIZE_MAX && ParseNat(minor) <= USIZE_MAX && ParseNat(patch) <= USIZE_MAX
    }

    function Value(): Version
      requires Grammatical() && Fits()
    {
      Version(ParseNat(major), ParseNat(minor), ParseNat(patch), release)
    }

    /** The same version with the leading zeros of its numbers removed. */
    function Normal(): (r: Parts)
      requires Grammatical()
      ensures r.Grammatical()
    {
      Parts(StripZeros(major), StripZeros(minor), StripZeros(patch), release)
    }
  }

  /** The three dotted numerals; the third must not run on into another digit. */
  function ScanNumbers(s: string): (r: Option<(string, string, string, string)>)
    ensures r.Some? ==>
              var (major, minor, patch, rest) := r.value;
              && Numeral(major) && Numeral(minor) && Numeral(patch) && Stops(rest, Digits)
              && s == major + ['.'] + (minor + ['.'] + (patch + rest))
  {
    match Terminated(s, Digits, '.')
    case None => None
    case Some((major, s1)) =>
      match Terminated(s1, Digits, '.')
      case None => None
      case Some((minor, s2)) =>
        match Take1(s2, Digits)
        case None => None
        case Some((patch, s3)) =>
          if Take1(s3, Digits).Some? then None else Some((major, minor, patch, s3))
  }

  /** The optional "-release" suffix: a hyphen with no word behind it is left unread. */
  function ScanRelease(s: string): (r: (Option<string>, string))
    ensures s == (if r.0.Some? then ['-'] + r.0.value else "") + r.1
    ensures r.0.Some? ==> Word(r.0.value, Skewer)
  {
    if s != "" && s[0] == '-' then
      match Take1(s[1..], Skewer)
      case Some((word, rest)) => (Some(word), rest)
      case None => (None, s)
    else (None, s)
  }

  lemma Regroup(a: string, b: string, c: string, d: string, e: string)
    ensures a + ['.'] + (b + ['.'] + (c + (d + e))) == a + ['.'] + (b + ['.'] + (c + d)) + e
  {
    assert c + (d + e) == c + d + e;
    assert b + ['.'] + (c + d + e) == b + ['.'] + (c + d) + e;
  }

  function ScanVersion(s: string): (r: Option<(Parts, string)>)
    ensures r.Some? ==> r.value.0.Grammatical() && s == r.value.0.Text() + r.value.1
  {
    match ScanNumbers(s)
    case None => None
    case Some((major, minor, patch, s1)) =>
      var (release, rest) := ScanRelease(s1);
      var suffix := if release.Some? then ['-'] + release.value else "";
      Regroup(major, minor, patch, suffix, rest);
      Some((Parts(major, minor, patch, release), rest))
  }

  /** `parse_version`: converting a numeral that does not fit a usize panics. */
  function ParseVersion(s: string): Outcome<(Version, string)> {
    match ScanVersion(s)
    case None => Err
    case Some((parts, rest)) => if parts.Fits() then Ok((parts.Value(), rest)) else Panic
  }

  /** `Version::from_str`: text left over is an error. */
  function FromStr(s: string): Outcome<Version> {
    match ParseVersion(s)
    case Ok((version, rest)) => if rest == "" then Ok(version) else Err
    case Err => Err
    case Panic => Panic
  }

  function ToString(v: Version): string {
    var suffix := match v.release
      case None => ""
      case Some(release) => ['-'] + release;
    PrintNat(v.major) + ['.'] + (PrintNat(v.minor) + ['.'] + (PrintNat(v.patch) + suffix))
  }

  lemma ScanNumbersExact(major: string, minor: string, patch: string, rest: string)
    requires Numeral(major) && Numeral(minor) && Numeral(patch) && Stops(rest, Digits)
    ensures ScanNumbers(major + ['.'] + (minor + ['.'] + (patch + rest))) == Some((major, minor, patch, rest))
  {
    TerminatedExact(major, '.', minor + ['.'] + (patch + rest), Digits);
    TerminatedExact(minor, '.', patch + rest, Digits);
    Take1Exact(patch, rest, Digits);
  }

  /** Greedy scanning is complete: every grammatical text is scanned back into exactly its parts. */
  lemma ScanExact(p: Parts)
    requires p.Grammatical()
    ensures ScanVersion(p.Text()) == Some((p, ""))
  {
    var suffix := if p.release.Some? then ['-'] + p.release.value else "";
    ScanNumbersExact(p.major, p.minor, p.patch, suffix);
    if p.release.Some? {
      assert suffix[1..] == p.release.value;
      assert p.release.value == p.release.value + "";
      Take1Exact(p.release.value, "", Skewer);
    }
  }

  /** The split of a version text is unique. */
  lemma PartsUnique(p: Parts, q: Parts)
    requires p.Grammatical() && q.Grammatical() && p.Text() == q.Text()
    ensures p == q
  {
    ScanExact(p);
    ScanExact(q);
  }

  /** `from_str` accepts exactly the grammatical texts whose numbers fit, with their value. */
  lemma AcceptsExactly(s: string, v: Version)
    ensures FromStr(s) == Ok(v) <==>
            exists p: Parts :: p.Grammatical() && p.Text() == s && p.Fits() && p.Value() == v
  {
    if FromStr(s) == Ok(v) {
      var (p, rest) := ScanVersion(s).value;
      assert p.Text() + "" == p.Text();
      assert p.Grammatical() && p.Text() == s && p.Fits() && p.Value() == v;
    }
    forall p: Parts | p.Grammatical() && p.Text() == s && p.Fits() && p.Value() == v
      ensures FromStr(s) == Ok(v)
    {
      ScanExact(p);
    }
  }

  /** `s` begins with these three dotted numerals, of which one is too large, whatever follows them. */
  ghost predicate TooLarge(s: string, a: string, b: string, c: string, rest: string) {
    && Numeral(a) && Numeral(b) && Numeral(c) && Stops(rest, Digits)
    && s == a + ['.'] + (b + ['.'] + (c + rest))
    && (ParseNat(a) > USIZE_MAX || ParseNat(b) > USIZE_MAX || ParseNat(c) > USIZE_MAX)
  }

  /** `from_str` panics exactly on texts that begin with three dotted numerals of which one is too large. */
  lemma PanicsExactly(s: string)
    ensures FromStr(s).Panic? <==> exists a, b, c, rest :: TooLarge(s, a, b, c, rest)
  {
    forall a, b, c, rest | TooLarge(s, a, b, c, rest) ensures FromStr(s).Panic? {
      ScanNumbersExact(a, b, c, rest);
    }
    if FromStr(s).Panic? {
      var (a, b, c, rest) := ScanNumbers(s).value;
      assert TooLarge(s, a, b, c, rest);
    }
  }

  /** The bound is that of 64 bits: a number from there on panics, and no other does. */
  lemma LargeNumberPanics(n: nat)
    ensures var read := FromStr(Parts(PrintNat(n), "0", "0", None).Text());
            if n < 18446744073709551616 then read == Ok(Version(n, 0, 0, None)) else read == Panic
  {
    var p := Parts(PrintNat(n), "0", "0", None);
    ParsePrint(n);
    ParsePrint(0);
    assert PrintNat(0) == "0";
    assert p.Grammatical() && (p.Fits() <==> n < 18446744073709551616);
    ScanExact(p);
  }

  ghost predicate WellFormed(v: Version) {
    v.release.Some? ==> Word(v.release.value, Skewer)
  }

  function Printed(v: Version): (p: Parts)
    ensures p.Text() == ToString(v)
    ensures WellFormed(v) ==> p.Grammatical() && p.Fits() && p.Value() == v
  {
    var p := Parts(PrintNat(v.major), PrintNat(v.minor), PrintNat(v.patch), v.release);
    ParsePrint(v.major);
    ParsePrint(v.minor);
    ParsePrint(v.patch);
    p
  }

  /** Printing then parsing is the identity exactly for versions with no release or a well-formed one. */
  lemma RoundTrip(v: Version)
    ensures FromStr(ToString(v)) == Ok(v) <==> WellFormed(v)
  {
    AcceptsExactly(ToString(v), v);
    if WellFormed(v) {
      var p := Printed(v);
      assert p.Grammatical() && p.Text() == ToString(v) && p.Fits() && p.Value() == v;
    }
  }

  /** What an accepted text prints as: the same text without the leading zeros of its numbers. */
  lemma NormalForm(p: Parts)
    requires p.Grammatical() && p.Fits()
    ensures FromStr(p.Text()) == Ok(p.Value())
    ensures ToString(p.Value()) == p.Normal().Text()
    ensures FromStr(p.Normal().Text()) == Ok(p.Value())
  {
    ScanExact(p);
    PrintParse(p.major);
    PrintParse(p.minor);
    PrintParse(p.patch);
    assert Printed(p.Value()) == p.Normal();
    RoundTrip(p.Value());
  }

  /** Two accepted texts parse to the same version exactly when their normal forms are the same text. */
  lemma SameVersion(p: Parts, q: Parts)
    requires p.Grammatical() && p.Fits() && q.Grammatical() && q.Fits()
    ensures FromStr(p.Text()) == FromStr(q.Text()) <==> p.Normal().Text() == q.Normal().Text()
  {
    NormalForm(p);
    NormalForm(q);
  }

  // ----- accepted texts, spelled out

  /** `s` is three dotted numerals for the numbers of this version, and behind a hyphen its release, if any. */
  ghost predicate Spells(s: string, v: Version, a: string, b: string, c: string) {
    && Denotes(a, v.major) && Denotes(b, v.minor) && Denotes(c, v.patch)
    && match v.release
       case None => s == a + "." + b + "." + c
       case Some(release) => ReleaseWord(release) && s == a + "." + b + "." + c + "-" + release
  }

  ghost predicate ReleaseWord(r: string) {
    r != "" && forall i :: 0 <= i < |r| ==> r[i] in LOWER || r[i] in DIGITS || r[i] == '-'
  }

  lemma ReleaseIsWord(r: string)
    ensures ReleaseWord(r) <==> Word(r, Skewer)
  {
    forall i | 0 <= i < |r| ensures Member(Skewer, r[i]) <==> r[i] in LOWER || r[i] in DIGITS || r[i] == '-' {
      ClassesListed(r[i]);
    }
  }

  lemma FlatText(a: string, b: string, c: string, release: Option<string>)
    ensures Parts(a, b, c, release).Text() ==
            a + "." + b + "." + c + match release case None => "" case Some(r) => "-" + r
  {
    var suffix := if release.Some? then ['-'] + release.value else "";
    assert b + ['.'] + (c + suffix) == b + "." + c + suffix;
    assert a + ['.'] + (b + "." + c + suffix) == a + "." + b + "." + c + suffix;
  }

  lemma SpelledIsParts(s: string, v: Version, a: string, b: string, c: string)
    ensures Spells(s, v, a, b, c) <==>
            var p := Parts(a, b, c, v.release);
            p.Grammatical() && p.Text() == s && p.Fits() && p.Value() == v
  {
    ReadsExactly(a, v.major);
    ReadsExactly(b, v.minor);
    ReadsExactly(c, v.patch);
    FlatText(a, b, c, v.release);
    if v.release.Some? {
      ReleaseIsWord(v.release.value);
      assert a + "." + b + "." + c + "-" + v.release.value == a + "." + b + "." + c + ("-" + v.release.value);
    } else {
      assert a + "." + b + "." + c + "" == a + "." + b + "." + c;
    }
  }

  /** `from_str` gives a version exactly for the texts that spell it: major, minor and patch in this order, in
      decimal digits, and the release. */
  lemma ReadsAsSpelled(s: string, v: Version)
    ensures FromStr(s) == Ok(v) <==> exists a, b, c :: Spells(s, v, a, b, c)
  {
    AcceptsExactly(s, v);
    if p: Parts :| p.Grammatical() && p.Text() == s && p.Fits() && p.Value() == v {
      assert p == Parts(p.major, p.minor, p.patch, v.release);
      SpelledIsParts(s, v, p.major, p.minor, p.patch);
      assert Spells(s, v, p.major, p.minor, p.patch);
    }
    if a, b, c :| Spells(s, v, a, b, c) {
      SpelledIsParts(s, v, a, b, c);
    }
  }

  predicate NoLeadingZero(s: string) { s == "0" || (s != "" && s[0] != '0') }

  /** What a version prints as spells it, without leading zeros. */
  lemma PrintsAsSpelled(v: Version) returns (a: string, b: string, c: string)
    requires WellFormed(v)
    ensures Spells(ToString(v), v, a, b, c) && NoLeadingZero(a) && NoLeadingZero(b) && NoLeadingZero(c)
  {
    a, b, c := PrintNat(v.major), PrintNat(v.minor), PrintNat(v.patch);
    PrintsDenoting(v.major);
    PrintsDenoting(v.minor);
    PrintsDenoting(v.patch);
    var p := Printed(v);
    assert p == Parts(a, b, c, v.release);
    SpelledIsParts(ToString(v), v, a, b, c);
  }
}
