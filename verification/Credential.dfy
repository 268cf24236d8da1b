/** Generated master passwords and the engine tables (controllers/credential.go). */
module Credential {
  import opened Wrappers

  /** "0123456789" */
  const DIGITS: string := Range('0', 10)
  function Specials(): string { "~=+%^*()[]{}!#$?|" }
  /** "ABCDEFGHIJKLMNOPQRSTUVWXYZabcdefghijklmnopqrstuvwxyz" */
  const LETTERS: string := Range('A', 26) + Range('a', 26)
  const ALL: string := LETTERS + DIGITS + Specials()
  const LENGTH: nat := 12

  /** The n characters from first on. */
  function Range(first: char, n: nat): (s: string)
    requires first as int + n <= 128
    ensures |s| == n && forall i :: 0 <= i < n ==> s[i] as int == first as int + i
  {
    seq(n, i requires 0 <= i < n => (first as int + i) as char)
  }

  /** What AWS demands of a master password and what the generator promises. */
  ghost predicate Acceptable(password: string) {
    && |password| == LENGTH
    && (forall c <- password :: c in ALL)
    && (exists c <- password :: c in DIGITS)
    && (exists c <- password :: c in Specials())
    && '/' !in password && '"' !in password && '@' !in password
  }

  lemma InRange(first: char, n: nat, c: char)
    requires first as int + n <= 128
    ensures c in Range(first, n) <==> first as int <= c as int < first as int + n
  {
    if first as int <= c as int < first as int + n { assert Range(first, n)[c as int - first as int] == c; }
  }

  /** In characters: twelve letters, digits or specials, of each of the last two one. */
  lemma AcceptableMeans(password: string)
    ensures Acceptable(password) <==>
            && |password| == 12
            && (forall c <- password ::
                  'A' <= c <= 'Z' || 'a' <= c <= 'z' || '0' <= c <= '9' || c in "~=+%^*()[]{}!#$?|")
            && (exists c <- password :: '0' <= c <= '9')
            && (exists c <- password :: c in "~=+%^*()[]{}!#$?|")
  {
    hide Range;
    assert Specials() == "~=+%^*()[]{}!#$?|";
    hide Specials;
    AlphabetIsSafe();
    forall c: char
      ensures c in DIGITS <==> '0' <= c <= '9'
      ensures c in ALL <==> 'A' <= c <= 'Z' || 'a' <= c <= 'z' || '0' <= c <= '9' || c in Specials()
    {
      InRange('0', 10, c);
      InRange('A', 26, c);
      InRange('a', 26, c);
    }
  }

  lemma AlphabetIsSafe()
    ensures '/' !in ALL && '"' !in ALL && '@' !in ALL
  {
    forall c <- ALL ensures c != '/' && c != '"' && c != '@' {
      if c in LETTERS {
        assert 'A' <= c <= 'Z' || 'a' <= c <= 'z';
      } else if c in DIGITS {
        assert '0' <= c <= '9';
      } else {
        assert c in Specials();
      }
    }
  }

  /** Any rearrangement of a buffer holding a digit, a special and otherwise
      letters of the alphabet is an acceptable password. */
  lemma RearrangedIsAcceptable(buffer: string, password: string)
    requires |buffer| == LENGTH && buffer[0] in DIGITS && buffer[1] in Specials()
    requires forall c <- buffer :: c in ALL
    requires multiset(password) == multiset(buffer)
    ensures Acceptable(password)
  {
    AlphabetIsSafe();
    assert |password| == |multiset(password)| == |multiset(buffer)| == |buffer|;
    forall c <- password ensures c in ALL {
      assert c in multiset(buffer);
    }
    assert buffer[0] in multiset(password);
    assert buffer[1] in multiset(password);
  }

  /** crypto/rand.Int(reader, s): any value in range. */
  method GetRandInt(s: nat) returns (i: nat)
    requires s > 0
    ensures i < s
  {
    var draw: int := *;
    i := draw % s;
  }

  /** rand.Shuffle: swaps each position, from the last down, with any position
      not after it. */
  method Shuffle(buffer: array<char>)
    modifies buffer
    ensures multiset(buffer[..]) == multiset(old(buffer[..]))
  {
    var i := buffer.Length;
    while i > 1
      invariant 0 <= i <= buffer.Length
      invariant multiset(buffer[..]) == multiset(old(buffer[..]))
    {
      i := i - 1;
      var j := GetRandInt(i + 1);
      buffer[i], buffer[j] := buffer[j], buffer[i];
    }
  }

  /** Any character of the alphabet. */
  method Draw() returns (c: char)
    ensures c in ALL
  {
    var a := GetRandInt(|ALL|);
    c := ALL[a];
  }

  method DrawDigit() returns (c: char)
    ensures c in DIGITS && c in ALL
  {
    var d := GetRandInt(|DIGITS|);
    c := DIGITS[d];
    assert ALL[|LETTERS| + d] == c;
  }

  method DrawSpecial() returns (c: char)
    ensures c in Specials() && c in ALL
  {
    var s := GetRandInt(|Specials()|);
    c := Specials()[s];
    assert ALL[|LETTERS| + |DIGITS| + s] == c;
  }

  method GeneratePassword() returns (password: string)
    ensures Acceptable(password)
  {
    hide Specials;
    var buffer := new char[LENGTH];
    buffer[0] := DrawDigit();
    buffer[1] := DrawSpecial();
    var i := 2;
    while i < LENGTH
      invariant 2 <= i <= LENGTH
      invariant buffer[0] in DIGITS && buffer[1] in Specials()
      invariant forall k :: 0 <= k < i ==> buffer[k] in ALL
    {
      buffer[i] := Draw();
      i := i + 1;
    }
    ghost var filled := buffer[..];
    Shuffle(buffer);
    password := buffer[..];
    RearrangedIsAcceptable(filled, password);
  }

  function GenerateUsername(engine: string): string {
    if engine in ["postgres", "aurora-postgresql"] then "postgres" else "admin"
  }

  function GenerateDBName(engine: string): Option<string> {
    if engine in ["postgres", "aurora-postgresql"] then Some("postgres")
    else if engine in ["mysql", "mariadb", "aurora", "aurora-mysql"] then Some("mydb")
    else if engine in ["oracle-se2", "oracle-se2-cdb", "oracle-ee", "oracle-ee-cdb", "custom-oracle-ee"]
    then Some("ORCL")
    else None
  }

  function GenerateBindingType(engine: string): string {
    if engine in ["postgres", "aurora-postgresql"] then "postgresql"
    else if engine in ["mysql", "mariadb", "aurora", "aurora-mysql"] then "mysql"
    else if engine in ["oracle-se2", "oracle-se2-cdb", "oracle-ee", "oracle-ee-cdb", "custom-oracle-ee"] then "oracle"
    else if engine in ["sqlserver-ee", "sqlserver-se", "sqlserver-ex", "sqlserver-web"] then "sqlserver"
    else ""
  }
}
