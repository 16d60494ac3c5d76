/** Addresses as text: the segment parser, the printer as it is written, and `parent`. */
module AddressText {
  import opened Outcomes
  import opened Scanners
  import opened Seqs

  type Segments = seq<string>

  ghost predicate WellFormed(segments: Segments) {
    segments != [] && forall i :: 0 <= i < |segments| ==> Word(segments[i], Segment)
  }

  /** The segments with one colon between neighbours. */
  function Join(segments: Segments): string
    requires segments != []
  {
    if |segments| == 1 then segments[0] else segments[0] + [':'] + Join(segments[1..])
  }

  /** The colon-separated segments that follow; a colon with no segment behind it is left unread. */
  function ParseMore(s: string): (r: (Segments, string))
    ensures forall i :: 0 <= i < |r.0| ==> Word(r.0[i], Segment)
    decreases |s|
  {
    if s != "" && s[0] == ':' then
      match Take1(s[1..], Segment)
      case None => ([], s)
      case Some((segment, s1)) =>
        var (more, rest) := ParseMore(s1);
        ([segment] + more, rest)
    else ([], s)
  }

  /** `parse_address`: one segment, then as many as follow. */
  function ParseAddress(s: string): Option<(Segments, string)> {
    match Take1(s, Segment)
    case None => None
    case Some((segment, s1)) =>
      var (more, rest) := ParseMore(s1);
      Some(([segment] + more, rest))
  }

  /** `Address::from_str`: text left over is an error. */
  function FromStr(s: string): Outcome<Segments> {
    match ParseAddress(s)
    case Some((segments, rest)) => if rest == "" then Ok(segments) else Err
    case None => Err
  }

  /** Every segment followed by a colon. */
  function Closed(segments: Segments): string {
    if segments == [] then "" else segments[0] + [':'] + Closed(segments[1..])
  }

  lemma {:induction false} ClosedAppend(segments: Segments, segment: string)
    ensures Closed(segments + [segment]) == Closed(segments) + segment + [':']
  {
    if segments == [] {
      assert Closed([segment]) == segment + [':'] + Closed([]);
    } else {
      ClosedAppend(segments[1..], segment);
      assert (segments + [segment])[1..] == segments[1..] + [segment];
    }
  }

  /** `Address::to_string`. The separator test compares the index with the length, which it never
      reaches, so the last segment gets a colon too. */
  method ToString(segments: Segments) returns (rtn: string)
    ensures rtn == Closed(segments)
  {
    rtn := "";
    for i := 0 to |segments|
      invariant rtn == Closed(segments[..i])
    {
      ClosedAppend(segments[..i], segments[i]);
      assert segments[..i + 1] == segments[..i] + [segments[i]];
      rtn := rtn + segments[i];
      if i != |segments| {
        rtn := rtn + [':'];
      }
    }
    assert segments[..|segments|] == segments;
  }

  /** `Vec::remove` panics on an index that is out of bounds. */
  function VecRemove<T>(v: seq<T>, index: nat): Outcome<seq<T>> {
    if index < |v| then Ok(v[..index] + v[index + 1..]) else Panic
  }

  /** `Address::parent`. The segment to remove is named by the length, one past the last index, so
      only the empty address gets an answer. */
  function Parent(segments: Segments): (parent: Outcome<Option<Segments>>)
    ensures parent == if segments == [] then Ok(None) else Panic
  {
    if segments == [] then Ok(None)
    else
      match VecRemove(segments, |segments|)
      case Ok(rest) => Ok(Some(rest))
      case Err => Err
      case Panic => Panic
  }

  /** What `parent` has the look of: the address without its last segment. */
  function IntendedParent(segments: Segments): Option<Segments> {
    if segments == [] then None else Some(segments[..|segments| - 1])
  }

  /** Taking the index of the last segment instead would have given it. The code as written gives it exactly
      for the empty address. */
  lemma ParentAsIntended(segments: Segments)
    ensures segments != [] ==> VecRemove(segments, |segments| - 1) == Ok(IntendedParent(segments).value)
    ensures Parent(segments) == Ok(IntendedParent(segments)) <==> segments == []
  {
    if segments != [] {
      var front := segments[..|segments| - 1];
      assert front + segments[|segments|..] == front;
    }
  }

  /** The n-th ancestor in the intended sense, if there is one. */
  function Ancestor(segments: Segments, n: nat): Option<Segments> {
    if n == 0 then Some(segments)
    else
      match Ancestor(segments, n - 1)
      case None => None
      case Some(child) => IntendedParent(child)
  }

  /** Going up drops one segment a step, reaches the empty address in as many steps as there are segments,
      and nothing after that. */
  lemma {:induction false} AncestorExactly(segments: Segments, n: nat)
    ensures Ancestor(segments, n) == if n <= |segments| then Some(segments[..|segments| - n]) else None
  {
    if n == 0 {
      assert segments[..|segments|] == segments;
    } else {
      AncestorExactly(segments, n - 1);
      if n <= |segments| {
        var child := segments[..|segments| - (n - 1)];
        assert child[..|child| - 1] == segments[..|segments| - n];
      }
    }
  }

  /** What may follow the first segment in a joined text. */
  function Rest(more: Segments): string {
    if more == [] then "" else [':'] + Join(more)
  }

  lemma JoinCons(segment: string, more: Segments)
    ensures Join([segment] + more) == segment + Rest(more)
  {
    assert ([segment] + more)[1..] == more;
    if more != [] {
      assert segment + ([':'] + Join(more)) == segment + [':'] + Join(more);
    }
  }

  lemma {:induction false} ParseMoreExact(segments: Segments)
    requires forall i :: 0 <= i < |segments| ==> Word(segments[i], Segment)
    ensures ParseMore(Rest(segments)) == (segments, "")
  {
    if segments != [] {
      var more := segments[1..];
      assert segments == [segments[0]] + more;
      JoinCons(segments[0], more);
      Take1Exact(segments[0], Rest(more), Segment);
      assert Rest(segments)[1..] == Join(segments);
      ParseMoreExact(more);
    }
  }

  /** Parsing the colon-joined text returns the segments with nothing left over. */
  lemma JoinParses(segments: Segments)
    requires WellFormed(segments)
    ensures FromStr(Join(segments)) == Ok(segments)
  {
    assert segments == [segments[0]] + segments[1..];
    JoinCons(segments[0], segments[1..]);
    Take1Exact(segments[0], Rest(segments[1..]), Segment);
    ParseMoreExact(segments[1..]);
  }

  lemma {:induction false} ParseMoreSound(s: string)
    ensures s == Rest(ParseMore(s).0) + ParseMore(s).1
    decreases |s|
  {
    if s != "" && s[0] == ':' && Take1(s[1..], Segment).Some? {
      var (segment, s1) := Take1(s[1..], Segment).value;
      var (more, rest) := ParseMore(s1);
      ParseMoreSound(s1);
      JoinCons(segment, more);
      assert s == [':'] + (segment + s1);
      Assoc(segment, Rest(more), rest);
      Assoc([':'], segment + Rest(more), rest);
    }
  }

  /** `from_str` accepts exactly the colon-joined texts of well-formed segment lists. */
  lemma AcceptsExactly(s: string, segments: Segments)
    ensures FromStr(s) == Ok(segments) <==> WellFormed(segments) && Join(segments) == s
  {
    if FromStr(s) == Ok(segments) {
      var (segment, s1) := Take1(s, Segment).value;
      var more := ParseMore(s1).0;
      ParseMoreSound(s1);
      JoinCons(segment, more);
      assert s1 == Rest(more);
    }
    if WellFormed(segments) && Join(segments) == s {
      JoinParses(segments);
    }
  }

  /** Joining well-formed segment lists is injective. */
  lemma JoinInjective(a: Segments, b: Segments)
    requires WellFormed(a) && WellFormed(b) && Join(a) == Join(b)
    ensures a == b
  {
    JoinParses(a);
    JoinParses(b);
  }

  lemma {:induction false} ClosedIsJoin(segments: Segments)
    requires segments != []
    ensures Closed(segments) == Join(segments) + [':']
  {
    if |segments| == 1 {
      assert segments[1..] == [];
    } else {
      ClosedIsJoin(segments[1..]);
    }
  }

  lemma {:induction false} JoinEndsInWord(segments: Segments)
    requires WellFormed(segments)
    ensures Join(segments) != "" && Join(segments)[|Join(segments)| - 1] != ':'
  {
    if |segments| > 1 {
      JoinEndsInWord(segments[1..]);
    }
  }

  /** The printer does not invert the parser: what it prints for any address is rejected. */
  lemma PrintedNeverParses(segments: Segments)
    ensures FromStr(Closed(segments)) == Err
  {
    var s := Closed(segments);
    if segments != [] {
      ClosedIsJoin(segments);
    }
    if FromStr(s).Ok? {
      var parsed := FromStr(s).value;
      AcceptsExactly(s, parsed);
      JoinEndsInWord(parsed);
    }
  }

  /** Only the final colon is in the way: without it the printed text parses back exactly when
      the address is well formed. */
  lemma PrintedWithoutLastColon(segments: Segments)
    requires segments != []
    ensures Closed(segments) != ""
    ensures FromStr(Closed(segments)[..|Closed(segments)| - 1]) == Ok(segments) <==> WellFormed(segments)
  {
    ClosedIsJoin(segments);
    assert Closed(segments)[..|Closed(segments)| - 1] == Join(segments);
    AcceptsExactly(Join(segments), segments);
  }

  // ----- accepted texts, spelled out

  predicate SegmentWord(s: string) {
    s != "" && forall i :: 0 <= i < |s| ==> s[i] in LOWER || s[i] in UPPER || s[i] in DIGITS || s[i] in "-./_"
  }

  lemma SegmentIsWord(s: string)
    ensures SegmentWord(s) <==> Word(s, Segment)
  {
    forall i | 0 <= i < |s|
      ensures Member(Segment, s[i]) <==> s[i] in LOWER || s[i] in UPPER || s[i] in DIGITS || s[i] in "-./_"
    {
      ClassesListed(s[i]);
    }
  }

  /** A word alone is an address of one segment, and in front of an address, with a colon between, one more. */
  lemma ReadsAsSpelled(word: string, s: string, more: Segments)
    requires SegmentWord(word)
    ensures FromStr(word) == Ok([word])
    ensures FromStr(s) == Ok(more) ==> FromStr(word + ":" + s) == Ok([word] + more)
  {
    SegmentIsWord(word);
    JoinParses([word]);
    AcceptsExactly(s, more);
    if FromStr(s) == Ok(more) {
      JoinCons(word, more);
      assert ([word] + more)[1..] == more;
      JoinParses([word] + more);
    }
  }

  /** Every accepted text is such a word, or such a word, a colon and an accepted text. */
  lemma OnlySpelledReads(s: string, segments: Segments)
    requires FromStr(s) == Ok(segments)
    ensures segments != [] && SegmentWord(segments[0])
    ensures if |segments| == 1 then s == segments[0]
            else FromStr(Join(segments[1..])) == Ok(segments[1..]) && s == segments[0] + ":" + Join(segments[1..])
  {
    AcceptsExactly(s, segments);
    SegmentIsWord(segments[0]);
    if |segments| > 1 {
      JoinParses(segments[1..]);
    }
  }
}
