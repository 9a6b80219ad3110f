/**
 * String-level rules behind the payload tags: words joined by "_" and cut
 * apart again, and serde's snake_case renaming of a name made of
 * capitalised words.  Nothing here knows the catalog.
 */
module Naming {
  predicate IsLowerAscii(c: char) { 'a' <= c <= 'z' }

  /** A run of lower-case ASCII letters. */
  predicate LowerCaseLetters(s: string) {
    s == [] || (IsLowerAscii(s[0]) && LowerCaseLetters(s[1..]))
  }

  predicate LowerCaseWord(s: string) {
    s != [] && LowerCaseLetters(s)
  }

  /** Every piece is a lower-case word. */
  predicate LowerCaseWords(ps: seq<string>) {
    ps == [] || (LowerCaseWord(ps[0]) && LowerCaseWords(ps[1..]))
  }

  lemma {:induction false} LowerCaseLettersOf(s: string)
    requires forall i :: 0 <= i < |s| ==> IsLowerAscii(s[i])
    ensures LowerCaseLetters(s)
  {
    if s != [] {
      LowerCaseLettersOf(s[1..]);
    }
  }

  /** Pieces joined by "_". */
  function Join(ps: seq<string>): string {
    if ps == [] then ""
    else if |ps| == 1 then ps[0]
    else ps[0] + ("_" + Join(ps[1..]))
  }

  lemma Associative(a: string, b: string, c: string)
    ensures (a + b) + c == a + (b + c)
  {
  }

  /** A string cut at every "_": the pieces in order, empty ones included. */
  function Split(t: string): (r: seq<string>)
    ensures r != []
  {
    if t == [] then [""]
    else
      var rest := Split(t[1..]);
      if t[0] == '_' then [""] + rest else [[t[0]] + rest[0]] + rest[1..]
  }

  /** Joining the pieces of a cut gives back the string that was cut. */
  lemma {:induction false} JoinSplit(t: string)
    ensures Join(Split(t)) == t
  {
    if t != [] {
      JoinSplit(t[1..]);
      var rest := Split(t[1..]);
      if t[0] == '_' {
        assert Join([""] + rest) == "" + ("_" + Join(rest));
      } else {
        var ps := [[t[0]] + rest[0]] + rest[1..];
        if |rest| > 1 {
          Associative([t[0]], rest[0], "_" + Join(rest[1..]));
        }
        assert t == [t[0]] + t[1..];
      }
    }
  }

  /** A piece without "_" stays whole: it extends the first piece of what follows. */
  lemma {:induction false} SplitPrefix(p: string, t: string)
    requires LowerCaseLetters(p)
    ensures Split(p + t) == [p + Split(t)[0]] + Split(t)[1..]
  {
    if p != [] {
      SplitPrefix(p[1..], t);
      assert (p + t)[1..] == p[1..] + t;
      assert [p[0]] + (p[1..] + Split(t)[0]) == p + Split(t)[0];
    } else {
      assert p + t == t;
      var s0 := Split(t)[0];
      assert [] + s0 == s0;
      assert [s0] + Split(t)[1..] == Split(t);
    }
  }

  /** Cutting pieces joined by "_" gives back the pieces, when none contains "_". */
  lemma {:induction false} SplitJoin(ps: seq<string>)
    requires ps != [] && LowerCaseWords(ps)
    ensures Split(Join(ps)) == ps
  {
    SplitPrefix(ps[0], if |ps| == 1 then "" else "_" + Join(ps[1..]));
    if |ps| == 1 {
      assert Split("") == [""];
      assert ps[0] + "" == ps[0];
      assert ps == [ps[0]];
    } else {
      SplitJoin(ps[1..]);
      var t := "_" + Join(ps[1..]);
      assert t[0] == '_' && t[1..] == Join(ps[1..]);
      assert Split(t) == [""] + ps[1..];
      assert ps[0] + "" == ps[0];
      assert ps == [ps[0]] + ps[1..];
    }
  }

  // ---- snake_case ----

  predicate IsUpperAscii(c: char) { 'A' <= c <= 'Z' }

  function ToAsciiLowercase(c: char): char {
    if IsUpperAscii(c) then (c as int + 32) as char else c
  }

  function ToAsciiUppercase(c: char): char {
    if IsLowerAscii(c) then (c as int - 32) as char else c
  }

  /** A word as it appears inside a variant name: first letter in upper case. */
  function Capitalized(s: string): string {
    if s == [] then [] else [ToAsciiUppercase(s[0])] + s[1..]
  }

  /** Capitalised pieces run together, as in a Rust type name. */
  function CamelJoin(ps: seq<string>): string {
    if ps == [] then [] else Capitalized(ps[0]) + CamelJoin(ps[1..])
  }

  /**
   * serde's snake_case renaming of a variant name: every character is
   * lower-cased, and an upper-case letter after the first character is
   * preceded by "_".
   */
  function SnakeCase(s: string): string {
    if s == [] then [] else [ToAsciiLowercase(s[0])] + SnakeTail(s[1..])
  }

  function SnakeTail(s: string): string {
    if s == [] then []
    else (if IsUpperAscii(s[0]) then ['_', ToAsciiLowercase(s[0])] else [ToAsciiLowercase(s[0])]) + SnakeTail(s[1..])
  }

  /** Upper-casing a lower-case letter gives an upper-case letter that lower-cases back. */
  lemma CaseRoundTrip(c: char)
    requires IsLowerAscii(c)
    ensures IsUpperAscii(ToAsciiUppercase(c)) && ToAsciiLowercase(ToAsciiUppercase(c)) == c
  {
  }

  lemma {:induction false} SnakeTailAppend(a: string, b: string)
    ensures SnakeTail(a + b) == SnakeTail(a) + SnakeTail(b)
  {
    if a == [] {
      assert a + b == b;
    } else {
      assert (a + b)[0] == a[0];
      assert (a + b)[1..] == a[1..] + b;
      SnakeTailAppend(a[1..], b);
    }
  }

  /** Lower-case letters pass through the renaming unchanged. */
  lemma {:induction false} SnakeTailOfLowerCase(s: string)
    requires LowerCaseLetters(s)
    ensures SnakeTail(s) == s
  {
    if s != [] {
      SnakeTailOfLowerCase(s[1..]);
      assert s == [s[0]] + s[1..];
    }
  }

  /** The renaming of an upper-case letter and what follows it. */
  lemma SnakeTailOfUpper(c: char, t: string)
    requires IsUpperAscii(c)
    ensures SnakeTail([c] + t) == ['_', ToAsciiLowercase(c)] + SnakeTail(t)
  {
    var x := [c] + t;
    assert x[0] == c && x[1..] == t;
  }

  /** A capitalised word after the first becomes "_" and the word. */
  lemma SnakeTailOfCapitalized(s: string, rest: string)
    requires LowerCaseWord(s)
    ensures SnakeTail(Capitalized(s) + rest) == "_" + (s + SnakeTail(rest))
  {
    var c := ToAsciiUppercase(s[0]);
    var t := SnakeTail(rest);
    calc {
      SnakeTail(Capitalized(s) + rest);
      { assert Capitalized(s) + rest == [c] + (s[1..] + rest); }
      SnakeTail([c] + (s[1..] + rest));
      { CaseRoundTrip(s[0]); SnakeTailOfUpper(c, s[1..] + rest); }
      ['_', s[0]] + SnakeTail(s[1..] + rest);
      { SnakeTailAppend(s[1..], rest); SnakeTailOfLowerCase(s[1..]); }
      ['_', s[0]] + (s[1..] + t);
      { assert [s[0]] + s[1..] == s; }
      "_" + (s + t);
    }
  }

  /** After the first word, each word of a name becomes "_" and the word. */
  lemma {:induction false} SnakeTailOfCamel(ps: seq<string>)
    requires LowerCaseWords(ps)
    ensures SnakeTail(CamelJoin(ps)) == if ps == [] then "" else "_" + Join(ps)
  {
    if ps != [] {
      SnakeTailOfCapitalized(ps[0], CamelJoin(ps[1..]));
      SnakeTailOfCamel(ps[1..]);
    }
  }

  /** The snake_case form of capitalised words run together is the words joined by "_". */
  lemma SnakeCaseOfCamel(ps: seq<string>)
    requires ps != []
    requires LowerCaseWords(ps)
    ensures SnakeCase(CamelJoin(ps)) == Join(ps)
  {
    var p, rest := ps[0], CamelJoin(ps[1..]);
    CaseRoundTrip(p[0]);
    var name := [ToAsciiUppercase(p[0])] + (p[1..] + rest);
    assert CamelJoin(ps) == name;
    assert name[0] == ToAsciiUppercase(p[0]) && name[1..] == p[1..] + rest;
    SnakeTailAppend(p[1..], rest);
    SnakeTailOfLowerCase(p[1..]);
    SnakeTailOfCamel(ps[1..]);
    Associative([p[0]], p[1..], SnakeTail(rest));
    assert [p[0]] + p[1..] == p;
  }
}
