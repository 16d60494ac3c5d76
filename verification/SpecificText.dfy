/** Specifics as text: vendor:product:variant:version. */
module SpecificText {
  import opened Outcomes
  import opened Scanners
  import V = VersionText

  datatype Specific = Specific(vendor: string, product: string, variant: string, version: V.Version)

  datatype Parts = Parts(vendor: string, product: string, variant: string, version: V.Parts)
  {
    predicate Grammatical() {
      && Word(vendor, Domain) && Word(product, Skewer) && Word(variant, Skewer)
      && version.Grammatical()
    }

    function Text(): string {
      vendor + [':'] + (product + [':'] + (variant + [':'] + version.Text()))
    }

    function Value(): Specific
      requires Grammatical() && version.Fits()
    {
      Specific(vendor, product, variant, version.Value())
    }
  }

  /** The three colon-terminated words and the text behind them. */
  function ScanNames(s: string): (r: Option<(string, string, string, string)>)
    ensures r.Some? ==>
              var (vendor, product, variant, rest) := r.value;
              && Word(vendor, Domain) && Word(product, Skewer) && Word(variant, Skewer)
              && s == vendor + [':'] + (product + [':'] + (variant + [':'] + rest))
  {
    match Terminated(s, Domain, ':')
    case None => None
    case Some((vendor, s1)) =>
      match Terminated(s1, Skewer, ':')
      case None => None
      case Some((product, s2)) =>
        match Terminated(s2, Skewer, ':')
        case None => None
        case Some((variant, s3)) => Some((vendor, product, variant, s3))
  }

  /** `parse_specific`. */
  function ParseSpecific(s: string): Outcome<(Specific, string)> {
    match ScanNames(s)
    case None => Err
    case Some((vendor, product, variant, s1)) =>
      match V.ParseVersion(s1)
      case Ok((version, rest)) => Ok((Specific(vendor, product, variant, version), rest))
      case Err => Err
      case Panic => Panic
  }

  /** `Specific::from_str`: text left over is an error. */
  function FromStr(s: string): Outcome<Specific> {
    match ParseSpecific(s)
    case Ok((specific, rest)) => if rest == "" then Ok(specific) else Err
    case Err => Err
    case Panic => Panic
  }

  function ToString(sp: Specific): string {
    sp.vendor + [':'] + (sp.product + [':'] + (sp.variant + [':'] + V.ToString(sp.version)))
  }

  lemma ScanNamesExact(vendor: string, product: string, variant: string, rest: string)
    requires Word(vendor, Domain) && Word(product, Skewer) && Word(variant, Skewer)
    ensures ScanNames(vendor + [':'] + (product + [':'] + (variant + [':'] + rest)))
            == Some((vendor, product, variant, rest))
  {
    TerminatedExact(vendor, ':', product + [':'] + (variant + [':'] + rest), Domain);
    TerminatedExact(product, ':', variant + [':'] + rest, Skewer);
    TerminatedExact(variant, ':', rest, Skewer);
  }

  /** Behind its three names a specific is parsed as its version is. */
  lemma FromStrOfParts(vendor: string, product: string, variant: string, rest: string)
    requires Word(vendor, Domain) && Word(product, Skewer) && Word(variant, Skewer)
    ensures FromStr(vendor + [':'] + (product + [':'] + (variant + [':'] + rest))) ==
            match V.FromStr(rest)
            case Ok(version) => Ok(Specific(vendor, product, variant, version))
            case Err => Err
            case Panic => Panic
  {
    ScanNamesExact(vendor, product, variant, rest);
  }

  /** `from_str` accepts exactly the grammatical texts whose numbers fit, with their value. */
  lemma AcceptsExactly(s: string, sp: Specific)
    ensures FromStr(s) == Ok(sp) <==>
            exists p: Parts :: p.Grammatical() && p.Text() == s && p.version.Fits() && p.Value() == sp
  {
    if FromStr(s) == Ok(sp) {
      var (vendor, product, variant, rest) := ScanNames(s).value;
      V.AcceptsExactly(rest, sp.version);
      var v: V.Parts :| v.Grammatical() && v.Text() == rest && v.Fits() && v.Value() == sp.version;
      var p := Parts(vendor, product, variant, v);
      assert p.Grammatical() && p.Text() == s && p.version.Fits() && p.Value() == sp;
    }
    forall p: Parts | p.Grammatical() && p.Text() == s && p.version.Fits() && p.Value() == sp
      ensures FromStr(s) == Ok(sp)
    {
      FromStrOfParts(p.vendor, p.product, p.variant, p.version.Text());
      V.AcceptsExactly(p.version.Text(), sp.version);
    }
  }

  /** `s` is three well-formed names and this rest. */
  ghost predicate Named(s: string, vendor: string, product: string, variant: string, rest: string) {
    && Word(vendor, Domain) && Word(product, Skewer) && Word(variant, Skewer)
    && s == vendor + [':'] + (product + [':'] + (variant + [':'] + rest))
  }

  /** `from_str` panics exactly when three well-formed names are followed by three dotted numerals of which
      one is too large, whatever follows them. */
  lemma PanicsExactly(s: string)
    ensures FromStr(s).Panic? <==>
            exists vendor, product, variant, rest, a, b, c, tail ::
              Named(s, vendor, product, variant, rest) && V.TooLarge(rest, a, b, c, tail)
  {
    forall vendor, product, variant, rest, a, b, c, tail |
      Named(s, vendor, product, variant, rest) && V.TooLarge(rest, a, b, c, tail)
      ensures FromStr(s).Panic?
    {
      V.PanicsExactly(rest);
      FromStrOfParts(vendor, product, variant, rest);
    }
    if FromStr(s).Panic? {
      var (vendor, product, variant, rest) := ScanNames(s).value;
      V.PanicsExactly(rest);
      var a, b, c, tail :| V.TooLarge(rest, a, b, c, tail);
      assert Named(s, vendor, product, variant, rest);
    }
  }

  /** The split of a specific text is unique. */
  lemma PartsUnique(p: Parts, q: Parts)
    requires p.Grammatical() && q.Grammatical() && p.Text() == q.Text()
    ensures p == q
  {
    ScanNamesExact(p.vendor, p.product, p.variant, p.version.Text());
    ScanNamesExact(q.vendor, q.product, q.variant, q.version.Text());
    V.PartsUnique(p.version, q.version);
  }

  ghost predicate WellFormed(sp: Specific) {
    && Word(sp.vendor, Domain) && Word(sp.product, Skewer) && Word(sp.variant, Skewer)
    && V.WellFormed(sp.version)
  }

  /** Printing then parsing is the identity exactly when every field is in its character class. */
  lemma RoundTrip(sp: Specific)
    ensures FromStr(ToString(sp)) == Ok(sp) <==> WellFormed(sp)
  {
    if WellFormed(sp) {
      V.RoundTrip(sp.version);
      FromStrOfParts(sp.vendor, sp.product, sp.variant, V.ToString(sp.version));
    }
    AcceptsExactly(ToString(sp), sp);
  }

  // ----- accepted texts, spelled out

  ghost predicate VendorWord(s: string) {
    s != "" && forall i :: 0 <= i < |s| ==> s[i] in LOWER || s[i] in DIGITS || s[i] in "-."
  }

  lemma VendorIsWord(s: string)
    ensures VendorWord(s) <==> Word(s, Domain)
  {
    forall i | 0 <= i < |s| ensures Member(Domain, s[i]) <==> s[i] in LOWER || s[i] in DIGITS || s[i] in "-." {
      ClassesListed(s[i]);
    }
  }

  /** `s` is vendor, product and variant, each followed by a colon, and a text that spells the version. */
  ghost predicate Spells(s: string, sp: Specific, rest: string) {
    && VendorWord(sp.vendor) && V.ReleaseWord(sp.product) && V.ReleaseWord(sp.variant)
    && s == sp.vendor + ":" + sp.product + ":" + sp.variant + ":" + rest
    && exists a, b, c :: V.Spells(rest, sp.version, a, b, c)
  }

  lemma FlatText(vendor: string, product: string, variant: string, rest: string)
    ensures vendor + [':'] + (product + [':'] + (variant + [':'] + rest))
         == vendor + ":" + product + ":" + variant + ":" + rest
  {
    assert product + [':'] + (variant + [':'] + rest) == product + ":" + variant + ":" + rest;
    assert vendor + [':'] + (product + ":" + variant + ":" + rest) == vendor + ":" + product + ":" + variant + ":" + rest;
  }

  lemma SpelledIsNamed(s: string, sp: Specific, rest: string)
    ensures Spells(s, sp, rest) <==>
            Named(s, sp.vendor, sp.product, sp.variant, rest) && V.FromStr(rest) == Ok(sp.version)
  {
    VendorIsWord(sp.vendor);
    V.ReleaseIsWord(sp.product);
    V.ReleaseIsWord(sp.variant);
    FlatText(sp.vendor, sp.product, sp.variant, rest);
    V.ReadsAsSpelled(rest, sp.version);
  }

  /** `from_str` gives a specific exactly for the texts that spell it: vendor, product, variant and version in
      this order. */
  lemma ReadsAsSpelled(s: string, sp: Specific)
    ensures FromStr(s) == Ok(sp) <==> exists rest :: Spells(s, sp, rest)
  {
    if FromStr(s) == Ok(sp) {
      var (vendor, product, variant, rest) := ScanNames(s).value;
      assert Named(s, vendor, product, variant, rest) && V.FromStr(rest) == Ok(sp.version);
      SpelledIsNamed(s, sp, rest);
    }
    if rest :| Spells(s, sp, rest) {
      SpelledIsNamed(s, sp, rest);
      FromStrOfParts(sp.vendor, sp.product, sp.variant, rest);
    }
  }

  /** What a specific prints as spells it. */
  lemma PrintsAsSpelled(sp: Specific)
    requires WellFormed(sp)
    ensures Spells(ToString(sp), sp, V.ToString(sp.version))
  {
    V.RoundTrip(sp.version);
    SpelledIsNamed(ToString(sp), sp, V.ToString(sp.version));
  }
}
