/** The pattern of a condition's reason, ^[A-Za-z]([A-Za-z0-9_,:]*[A-Za-z0-9_])?$,
    which the CRD validates and the status sync applies to ACK's reasons. */
module Reason {
  predicate Letter(c: char) { 'A' <= c <= 'Z' || 'a' <= c <= 'z' }

  predicate Word(c: char) { Letter(c) || '0' <= c <= '9' || c == '_' }

  predicate Inner(c: char) { Word(c) || c == ',' || c == ':' }

  /** The language of the pattern: a letter, optionally followed by any run of
      inner characters that ends in a word character. */
  ghost predicate InPattern(s: string) {
    || (|s| == 1 && Letter(s[0]))
    || (exists middle: string, last: char ::
          && |s| > 1 && Letter(s[0])
          && s == [s[0]] + middle + [last]
          && (forall c <- middle :: Inner(c)) && Word(last))
  }

  /** The states of a matcher that reads one character at a time. */
  datatype State = Start | Accepting | Pending | Dead

  function Step(q: State, c: char): State {
    match q
    case Start => if Letter(c) then Accepting else Dead
    case Accepting => if Word(c) then Accepting else if Inner(c) then Pending else Dead
    case Pending => if Word(c) then Accepting else if Inner(c) then Pending else Dead
    case Dead => Dead
  }

  function Run(q: State, s: string): State
    decreases |s|
  {
    if s == [] then q else Run(Step(q, s[0]), s[1..])
  }

  /** regex.MatchString(s) */
  predicate Matches(s: string) {
    Run(Start, s) == Accepting
  }

  lemma {:induction false} RunInside(q: State, s: string)
    requires q == Accepting || q == Pending
    ensures Run(q, s) == if exists c <- s :: !Inner(c) then Dead
                         else if s == [] then q
                         else if Word(s[|s| - 1]) then Accepting else Pending
    decreases |s|
  {
    if s != [] {
      assert s == [s[0]] + s[1..];
      if Inner(s[0]) {
        RunInside(Step(q, s[0]), s[1..]);
      } else {
        RunDead(s[1..]);
      }
    }
  }

  lemma {:induction false} RunDead(s: string)
    ensures Run(Dead, s) == Dead
  {
    if s != [] { RunDead(s[1..]); }
  }

  /** The matcher accepts exactly the pattern's language. */
  lemma MatchesIffInPattern(s: string)
    ensures Matches(s) <==> InPattern(s)
  {
    if s == [] || !Letter(s[0]) {
      if s != [] { RunDead(s[1..]); }
    } else {
      RunInside(Accepting, s[1..]);
      if Matches(s) && |s| > 1 {
        var middle, last := s[1..|s| - 1], s[|s| - 1];
        assert s == [s[0]] + middle + [last];
        forall c <- middle ensures Inner(c) { assert c in s[1..]; }
      }
      if |s| > 1 && InPattern(s) {
        var middle: string, last: char :| s == [s[0]] + middle + [last] && (forall c <- middle :: Inner(c))
          && Word(last);
        assert s[1..] == middle + [last];
      }
    }
  }

  lemma PatternIsNotEmpty(s: string)
    ensures InPattern(s) ==> s != ""
  {
  }

  /** Plain identifiers, as all the operator's own reasons are, fit the pattern. */
  lemma IdentifierFits(s: string)
    requires s != [] && Letter(s[0]) && forall i :: 0 <= i < |s| ==> Letter(s[i])
    ensures InPattern(s)
  {
    if |s| > 1 {
      var middle, last := s[1..|s| - 1], s[|s| - 1];
      assert s == [s[0]] + middle + [last];
    }
  }
}
