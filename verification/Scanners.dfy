/** The longest-match scanners every text parser is built from. */
module Scanners {
  import opened Outcomes

  datatype CharClass = Digits | Skewer | Domain | Segment

  predicate IsDigit(c: char) { '0' <= c <= '9' }
  predicate IsLower(c: char) { 'a' <= c <= 'z' }
  predicate IsAlpha(c: char) { IsLower(c) || 'A' <= c <= 'Z' }

  predicate Member(cls: CharClass, c: char) {
    match cls
    case Digits => IsDigit(c)
    case Skewer => c == '-' || IsLower(c) || IsDigit(c)
    case Domain => c == '-' || c == '.' || IsLower(c) || IsDigit(c)
    case Segment => c == '-' || c == '.' || c == '/' || c == '_' || IsAlpha(c) || IsDigit(c)
  }

  /** A non-empty run of characters of one class. */
  predicate Word(s: string, cls: CharClass) {
    s != "" && forall i :: 0 <= i < |s| ==> Member(cls, s[i])
  }

  /** No word of the class starts here. */
  predicate Stops(s: string, cls: CharClass) {
    s == "" || !Member(cls, s[0])
  }

  /** Length of the longest prefix of `s` inside the class. */
  function Span(s: string, cls: CharClass): (n: nat)
    ensures n <= |s|
    ensures forall i :: 0 <= i < n ==> Member(cls, s[i])
    ensures n < |s| ==> !Member(cls, s[n])
  {
    if Stops(s, cls) then 0 else 1 + Span(s[1..], cls)
  }

  /** The word at the head of `s` and what follows it. */
  function Take1(s: string, cls: CharClass): (r: Option<(string, string)>)
    ensures r.Some? ==> s == r.value.0 + r.value.1 && Word(r.value.0, cls) && Stops(r.value.1, cls)
    ensures r.None? <==> Stops(s, cls)
  {
    var n := Span(s, cls);
    if n == 0 then None else Some((s[..n], s[n..]))
  }

  /** A word closed by the character `end`, which is consumed. */
  function Terminated(s: string, cls: CharClass, end: char): (r: Option<(string, string)>)
    ensures r.Some? ==> s == r.value.0 + [end] + r.value.1 && Word(r.value.0, cls)
  {
    match Take1(s, cls)
    case None => None
    case Some((word, rest)) => if rest != "" && rest[0] == end then Some((word, rest[1..])) else None
  }

  /** Longest match finds exactly the word that was written, whatever follows it. */
  lemma Take1Exact(w: string, rest: string, cls: CharClass)
    requires Word(w, cls) && Stops(rest, cls)
    ensures Take1(w + rest, cls) == Some((w, rest))
  {
    var s := w + rest;
    assert forall i :: 0 <= i < |w| ==> s[i] == w[i];
    assert |w| < |s| ==> s[|w|] == rest[0];
    assert s[..|w|] == w && s[|w|..] == rest;
  }

  lemma TerminatedExact(w: string, end: char, rest: string, cls: CharClass)
    requires Word(w, cls) && !Member(cls, end)
    ensures Terminated(w + [end] + rest, cls, end) == Some((w, rest))
  {
    assert w + [end] + rest == w + ([end] + rest);
    Take1Exact(w, [end] + rest, cls);
    assert ([end] + rest)[1..] == rest;
  }

  // ----- the classes, character by character

  const LOWER := "abcdefghijklmnopqrstuvwxyz"
  const UPPER := "ABCDEFGHIJKLMNOPQRSTUVWXYZ"
  const DIGITS := "0123456789"

  lemma DigitsListed(c: char)
    ensures IsDigit(c) <==> c in DIGITS
  {
    if IsDigit(c) {
      assert DIGITS[c as int - '0' as int] == c;
    }
  }

  lemma LowerListed(c: char)
    ensures IsLower(c) <==> c in LOWER
  {
    if IsLower(c) {
      assert LOWER[c as int - 'a' as int] == c;
    }
  }

  lemma UpperListed(c: char)
    ensures IsAlpha(c) && !IsLower(c) <==> c in UPPER
  {
    if IsAlpha(c) && !IsLower(c) {
      assert UPPER[c as int - 'A' as int] == c;
    }
  }

  /** What each class consists of. */
  lemma ClassesListed(c: char)
    ensures Member(Digits, c) <==> c in DIGITS
    ensures Member(Skewer, c) <==> c in LOWER || c in DIGITS || c == '-'
    ensures Member(Domain, c) <==> c in LOWER || c in DIGITS || c in "-."
    ensures Member(Segment, c) <==> c in LOWER || c in UPPER || c in DIGITS || c in "-./_"
  {
    DigitsListed(c);
    LowerListed(c);
    UpperListed(c);
  }
}
