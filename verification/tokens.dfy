/** Output comparison: strings.Fields and Compare of internal/judge/engine.go. */
module Tokens {
  import opened Basics

  /** unicode.IsSpace, the separator set of strings.Fields. */
  predicate IsSpace(c: char) {
    || '\t' <= c <= '\r' || c == ' '
    || c == '\U{0085}' || c == '\U{00A0}' || c == '\U{1680}'
    || '\U{2000}' <= c <= '\U{200A}' || c == '\U{2028}' || c == '\U{2029}'
    || c == '\U{202F}' || c == '\U{205F}' || c == '\U{3000}'
  }

  /** The characters with the property White_Space of Unicode. */
  const WHITE_SPACE: set<char> := {
    '\U{0009}', '\U{000A}', '\U{000B}', '\U{000C}', '\U{000D}', '\U{0020}', '\U{0085}', '\U{00A0}', '\U{1680}',
    '\U{2000}', '\U{2001}', '\U{2002}', '\U{2003}', '\U{2004}', '\U{2005}', '\U{2006}', '\U{2007}', '\U{2008}',
    '\U{2009}', '\U{200A}', '\U{2028}', '\U{2029}', '\U{202F}', '\U{205F}', '\U{3000}'}

  lemma SpaceIsWhiteSpace(c: char)
    ensures IsSpace(c) <==> c in WHITE_SPACE
  {
    var code := c as int;
    assert c == code as char;
  }

  predicate IsToken(t: string) {
    t != "" && forall i :: 0 <= i < |t| ==> !IsSpace(t[i])
  }

  /** The length of the longest space-free prefix. */
  function Lead(s: string): (n: nat)
    ensures n <= |s|
    ensures forall i :: 0 <= i < n ==> !IsSpace(s[i])
    ensures n < |s| ==> IsSpace(s[n])
  {
    if s == "" || IsSpace(s[0]) then 0 else 1 + Lead(s[1..])
  }

  /** strings.Fields: the maximal space-free runs, in order. */
  function Fields(s: string): seq<string> {
    if s == "" then []
    else if IsSpace(s[0]) then Fields(s[1..])
    else [s[..Lead(s)]] + Fields(s[Lead(s)..])
  }

  predicate Compare(actual: string, expected: string) {
    var a, b := Fields(actual), Fields(expected);
    |a| == |b| && forall i :: 0 <= i < |a| ==> a[i] == b[i]
  }

  /** Tokens separated by single spaces. */
  function Join(ts: seq<string>): string {
    if ts == [] then "" else if |ts| == 1 then ts[0] else ts[0] + " " + Join(ts[1..])
  }

  function Canonical(s: string): string {
    Join(Fields(s))
  }

  lemma {:induction false} FieldsAreTokens(s: string)
    ensures forall t :: t in Fields(s) ==> IsToken(t)
  {
    if s == "" {
    } else if IsSpace(s[0]) {
      FieldsAreTokens(s[1..]);
    } else {
      FieldsAreTokens(s[Lead(s)..]);
    }
  }

  lemma {:induction false} LeadOfToken(t: string, rest: string)
    requires IsToken(t) && (rest == "" || IsSpace(rest[0]))
    ensures Lead(t + rest) == |t|
  {
    assert (t + rest)[1..] == t[1..] + rest;
    if |t| > 1 {
      LeadOfToken(t[1..], rest);
    } else {
      assert t[1..] + rest == rest;
    }
  }

  /** A token in front of whitespace is the first field. */
  lemma FirstField(t: string, rest: string)
    requires IsToken(t) && (rest == "" || IsSpace(rest[0]))
    ensures Fields(t + rest) == [t] + Fields(rest)
  {
    LeadOfToken(t, rest);
    assert (t + rest)[..|t|] == t && (t + rest)[|t|..] == rest;
  }

  lemma FieldsPastToken(t: string, more: string, rest: string, b: string)
    requires IsToken(t) && (more == "" || IsSpace(more[0])) && (rest == "" || IsSpace(rest[0]))
    requires Fields(rest) == Fields(more) + Fields(b)
    ensures Fields(t + rest) == Fields(t + more) + Fields(b)
  {
    FirstField(t, more);
    FirstField(t, rest);
    ConcatAssociates([t], Fields(more), Fields(b));
  }

  /** Fields distributes over concatenation across any whitespace character. */
  lemma {:induction false} FieldsAcrossSpace(a: string, c: char, b: string)
    requires IsSpace(c)
    ensures Fields(a + [c] + b) == Fields(a) + Fields(b)
  {
    if a == "" {
      assert (a + [c] + b)[1..] == b;
    } else if IsSpace(a[0]) {
      assert (a + [c] + b)[1..] == a[1..] + [c] + b;
      FieldsAcrossSpace(a[1..], c, b);
    } else {
      var t, more := a[..Lead(a)], a[Lead(a)..];
      FieldsAcrossSpace(more, c, b);
      FieldsPastToken(t, more, more + [c] + b, b);
      TokenInFront(a, t, more, [c], b);
    }
  }

  lemma TokenInFront(a: string, t: string, more: string, c: string, b: string)
    requires |t| <= |a| && t == a[..|t|] && more == a[|t|..]
    ensures t + more == a && t + (more + c + b) == a + c + b
  {
    assert t + more == a;
    ConcatAssociates(t, more + c, b);
    ConcatAssociates(t, more, c);
  }

  /** Splitting the single-space join of any tokens returns those tokens. */
  lemma {:induction false} FieldsOfJoin(ts: seq<string>)
    requires forall t :: t in ts ==> IsToken(t)
    ensures Fields(Join(ts)) == ts
  {
    if ts == [] {
    } else {
      var t := ts[0];
      FirstField(t, "");
      assert t + "" == t;
      if |ts| > 1 {
        FieldsAcrossSpace(t, ' ', Join(ts[1..]));
        FieldsOfJoin(ts[1..]);
      }
    }
  }

  /** Compare is equality of normal forms, so it is an equivalence, and it sees only the tokens. */
  lemma CompareIsCanonicalEquality(a: string, b: string)
    ensures Compare(a, b) <==> Canonical(a) == Canonical(b)
    ensures Compare(a, Canonical(a))
  {
    FieldsAreTokens(a);
    FieldsAreTokens(b);
    FieldsOfJoin(Fields(a));
    FieldsOfJoin(Fields(b));
    if Compare(a, b) {
      assert Fields(a) == Fields(b);
    }
  }
}
