/** Symbol names as the streaming endpoint stores them: stripped and upper-cased. */
module Symbols {

  type Symbol = string

  predicate IsSpace(c: char) { c == ' ' || '\t' <= c <= '\r' || '\U{001C}' <= c <= '\U{001F}' }

  function Strip(s: string): string {
    if s != [] && IsSpace(s[0]) then Strip(s[1..])
    else if s != [] && IsSpace(s[|s| - 1]) then Strip(s[..|s| - 1])
    else s
  }

  function UpperChar(c: char): char {
    if 'a' <= c <= 'z' then ((c as int) - 32) as char else c
  }

  function Upper(s: string): string { seq(|s|, i requires 0 <= i < |s| => UpperChar(s[i])) }

  function Normalise(s: string): Symbol { Upper(Strip(s)) }

  lemma {:induction false} StripEnds(s: string)
    ensures var t := Strip(s); t != [] ==> !IsSpace(t[0]) && !IsSpace(t[|t| - 1])
  {
    if s != [] && IsSpace(s[0]) {
      StripEnds(s[1..]);
    } else if s != [] && IsSpace(s[|s| - 1]) {
      StripEnds(s[..|s| - 1]);
    }
  }

  /** A stored name is found again under its own normal form. */
  lemma NormaliseIdempotent(s: string)
    ensures Normalise(Normalise(s)) == Normalise(s)
  {
    StripEnds(s);
    var t := Normalise(s);
    assert Strip(t) == t;
    assert Upper(t) == t;
  }

  /** The non-empty normal forms of a client's list, in order. */
  ghost function NormalForms(names: seq<string>): seq<Symbol> {
    if names == [] then []
    else
      var y := Normalise(names[|names| - 1]);
      NormalForms(names[..|names| - 1]) + if y == "" then [] else [y]
  }

  predicate IsNormal(y: Symbol) { y != "" && Normalise(y) == y }

  lemma {:induction false} NormalFormsAreNormal(names: seq<string>)
    ensures forall y <- NormalForms(names) :: IsNormal(y)
  {
    if names != [] {
      NormalFormsAreNormal(names[..|names| - 1]);
      NormaliseIdempotent(names[|names| - 1]);
    }
  }

  // ----- which names have one normal form

  /** The same character, or the same letter of the alphabet in either case. */
  predicate SameLetter(c: char, d: char) {
    || c == d
    || ('a' <= c <= 'z' && 'A' <= d <= 'Z' && c as int - 'a' as int == d as int - 'A' as int)
    || ('A' <= c <= 'Z' && 'a' <= d <= 'z' && c as int - 'A' as int == d as int - 'a' as int)
  }

  predicate SameLetters(s: string, t: string) {
    |s| == |t| && forall i :: 0 <= i < |s| ==> SameLetter(s[i], t[i])
  }

  predicate Blank(s: string) {
    forall i :: 0 <= i < |s| ==> s[i] in {' ', '\t', '\n', '\U{000B}', '\U{000C}', '\r',
                                          '\U{001C}', '\U{001D}', '\U{001E}', '\U{001F}'}
  }

  /** `t` is `s` without some of the white space around it. */
  ghost predicate Inside(s: string, t: string) {
    exists p, q :: Blank(p) && Blank(q) && s == p + t + q
  }

  /** The names differ in nothing but letter case and the white space around them. */
  ghost predicate SpeltAlike(s: string, t: string) {
    exists u, v :: Inside(s, u) && Inside(t, v) && SameLetters(u, v)
  }

  lemma BlankIsSpace(s: string)
    ensures Blank(s) <==> forall i :: 0 <= i < |s| ==> IsSpace(s[i])
  {
    forall c: char
      ensures IsSpace(c) <==> c in {' ', '\t', '\n', '\U{000B}', '\U{000C}', '\r',
                                    '\U{001C}', '\U{001D}', '\U{001E}', '\U{001F}'}
    {
    }
  }

  lemma SameLetterIff(c: char, d: char)
    ensures UpperChar(c) == UpperChar(d) <==> SameLetter(c, d)
    ensures SameLetter(c, d) ==> (IsSpace(c) <==> IsSpace(d))
  {
  }

  lemma SameLettersIff(s: string, t: string)
    ensures Upper(s) == Upper(t) <==> SameLetters(s, t)
  {
    if Upper(s) == Upper(t) {
      assert |s| == |Upper(s)| == |Upper(t)| == |t|;
      forall i | 0 <= i < |s| ensures SameLetter(s[i], t[i]) {
        assert Upper(s)[i] == Upper(t)[i];
        SameLetterIff(s[i], t[i]);
      }
    } else if SameLetters(s, t) {
      forall i | 0 <= i < |s| ensures Upper(s)[i] == Upper(t)[i] {
        SameLetterIff(s[i], t[i]);
      }
    }
  }

  lemma {:induction false} StripTrailing(u: string, q: string)
    requires Blank(q)
    ensures Strip(u + q) == Strip(u)
    decreases |u| + |q|
  {
    BlankIsSpace(q);
    if q == [] {
      assert u + q == u;
    } else if u == [] {
      assert u + q == q && q[1..] == [] + q[1..];
      StripTrailing([], q[1..]);
    } else if IsSpace(u[0]) {
      assert (u + q)[1..] == u[1..] + q;
      StripTrailing(u[1..], q);
    } else {
      assert (u + q)[..|u + q| - 1] == u + q[..|q| - 1];
      StripTrailing(u, q[..|q| - 1]);
    }
  }

  lemma {:induction false} StripLeading(p: string, u: string)
    requires Blank(p)
    ensures Strip(p + u) == Strip(u)
  {
    BlankIsSpace(p);
    if p == [] {
      assert p + u == u;
    } else {
      assert (p + u)[1..] == p[1..] + u;
      StripLeading(p[1..], u);
    }
  }

  lemma InsideStrips(s: string, t: string)
    requires Inside(s, t)
    ensures Strip(s) == Strip(t)
  {
    var p, q :| Blank(p) && Blank(q) && s == p + t + q;
    StripTrailing(p + t, q);
    StripLeading(p, t);
  }

  lemma InsideWider(p: string, u: string, q: string, t: string)
    requires Inside(u, t) && Blank(p) && Blank(q)
    ensures Inside(p + u + q, t)
  {
    var p1, q1 :| Blank(p1) && Blank(q1) && u == p1 + t + q1;
    assert Blank(p + p1) && Blank(q1 + q) && p + u + q == (p + p1) + t + (q1 + q);
  }

  lemma {:induction false} StripIsInside(s: string)
    ensures Inside(s, Strip(s))
  {
    if s != [] && IsSpace(s[0]) {
      StripIsInside(s[1..]);
      BlankIsSpace([s[0]]);
      InsideWider([s[0]], s[1..], [], Strip(s));
      assert s == [s[0]] + s[1..] + [];
    } else if s != [] && IsSpace(s[|s| - 1]) {
      var front, last := s[..|s| - 1], [s[|s| - 1]];
      StripIsInside(front);
      BlankIsSpace(last);
      InsideWider([], front, last, Strip(s));
      assert s == [] + front + last;
    } else {
      assert Blank([]) && s == [] + s + [];
    }
  }

  lemma {:induction false} StripSameLetters(u: string, v: string)
    requires SameLetters(u, v)
    ensures SameLetters(Strip(u), Strip(v))
    decreases |u|
  {
    if u != [] {
      SameLetterIff(u[0], v[0]);
      SameLetterIff(u[|u| - 1], v[|v| - 1]);
      if IsSpace(u[0]) {
        StripSameLetters(u[1..], v[1..]);
      } else if IsSpace(u[|u| - 1]) {
        StripSameLetters(u[..|u| - 1], v[..|v| - 1]);
      }
    }
  }

  /** Names have one normal form exactly when they differ in nothing but letter case and the
      white space around them. */
  lemma NormalFormsAgreeIff(s: string, t: string)
    ensures Normalise(s) == Normalise(t) <==> SpeltAlike(s, t)
  {
    SameLettersIff(Strip(s), Strip(t));
    StripIsInside(s);
    StripIsInside(t);
    if SpeltAlike(s, t) {
      var u, v :| Inside(s, u) && Inside(t, v) && SameLetters(u, v);
      InsideStrips(s, u);
      InsideStrips(t, v);
      StripSameLetters(u, v);
    }
  }

  lemma NothingOutside(s: string, t: string)
    requires Inside(s, t) && (s != "" ==> !IsSpace(s[0]) && !IsSpace(s[|s| - 1]))
    ensures t == s
  {
    var p, q :| Blank(p) && Blank(q) && s == p + t + q;
    BlankIsSpace(p);
    BlankIsSpace(q);
  }

  lemma NormalEnds(s: string)
    ensures var t := Normalise(s); t != "" ==> !IsSpace(t[0]) && !IsSpace(t[|t| - 1])
    ensures forall c <- Normalise(s) :: !('a' <= c <= 'z')
  {
    StripEnds(s);
  }

  lemma NormalIsUpper(s: string)
    ensures Upper(Normalise(s)) == Normalise(s)
  {
  }

  /** A normal form is a spelling of the name, in capitals and with no white space around it. */
  lemma NormalFormIs(s: string)
    ensures SpeltAlike(s, Normalise(s))
    ensures forall c <- Normalise(s) :: !('a' <= c <= 'z')
    ensures forall t :: Inside(Normalise(s), t) ==> t == Normalise(s)
  {
    NormaliseIdempotent(s);
    NormalFormsAgreeIff(s, Normalise(s));
    NormalEnds(s);
    forall t | Inside(Normalise(s), t) ensures t == Normalise(s) {
      NothingOutside(Normalise(s), t);
    }
  }

  /** A name is skipped exactly when it is all white space. */
  lemma EmptyNormalFormIff(s: string)
    ensures Normalise(s) == "" <==> Blank(s)
  {
    if Blank(s) {
      StripTrailing([], s);
      assert [] + s == s;
    } else {
      StripIsInside(s);
      var p, q :| Blank(p) && Blank(q) && s == p + Strip(s) + q;
      assert Strip(s) == [] ==> s == p + q;
    }
  }
}
