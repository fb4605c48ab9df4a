/** The few Python string operations the model needs. */
module Strings {
  import opened Common
  import opened Sorting

  /** `x or default` on a string that may be absent: the empty string counts as absent. */
  function OrElse(x: Option<string>, default: string): string {
    if x.Some? && x.value != "" then x.value else default
  }

  /** The characters str.strip() removes. */
  predicate IsSpace(c: char) {
    || ('\t' <= c <= '\r') || ('\U{1c}' <= c <= ' ') || c == '\U{85}' || c == '\U{a0}' || c == '\U{1680}'
    || ('\U{2000}' <= c <= '\U{200a}') || c == '\U{2028}' || c == '\U{2029}' || c == '\U{202f}' || c == '\U{205f}'
    || c == '\U{3000}'
  }

  /** The same characters, one by one. */
  lemma Blanks(c: char)
    ensures IsSpace(c) <==> c as int in {
      0x9, 0xa, 0xb, 0xc, 0xd, 0x1c, 0x1d, 0x1e, 0x1f, 0x20, 0x85, 0xa0, 0x1680, 0x2000, 0x2001, 0x2002, 0x2003, 0x2004,
      0x2005, 0x2006, 0x2007, 0x2008, 0x2009, 0x200a, 0x2028, 0x2029, 0x202f, 0x205f, 0x3000}
  {
  }

  function StripLeft(s: string): string {
    if s != "" && IsSpace(s[0]) then StripLeft(s[1..]) else s
  }

  function StripRight(s: string): string {
    if s != "" && IsSpace(s[|s| - 1]) then StripRight(s[..|s| - 1]) else s
  }

  function Strip(s: string): string {
    StripRight(StripLeft(s))
  }

  ghost predicate IsStripped(s: string) {
    s != "" ==> !IsSpace(s[0]) && !IsSpace(s[|s| - 1])
  }

  lemma {:induction false} StripRightStops(s: string)
    ensures StripRight(s) <= s
    ensures StripRight(s) != "" ==> !IsSpace(StripRight(s)[|StripRight(s)| - 1])
    ensures s != "" && !IsSpace(s[|s| - 1]) ==> StripRight(s) == s
  {
    if s != "" && IsSpace(s[|s| - 1]) {
      StripRightStops(s[..|s| - 1]);
    }
  }

  lemma {:induction false} StripLeftStops(s: string)
    ensures StripLeft(s) != "" ==> !IsSpace(StripLeft(s)[0])
    ensures s != "" && !IsSpace(s[0]) ==> StripLeft(s) == s
  {
    if s != "" && IsSpace(s[0]) {
      StripLeftStops(s[1..]);
    }
  }

  lemma StripStrips(s: string)
    ensures IsStripped(Strip(s))
    ensures IsStripped(s) ==> Strip(s) == s
  {
    StripLeftStops(s);
    StripRightStops(StripLeft(s));
  }

  ghost predicate AreBlanks(s: string) {
    forall c :: c in s ==> IsSpace(c)
  }

  lemma {:induction false} StripLeftCuts(s: string) returns (before: string)
    ensures AreBlanks(before) && s == before + StripLeft(s)
  {
    before := "";
    if s != "" && IsSpace(s[0]) {
      before := StripLeftCuts(s[1..]);
      before := [s[0]] + before;
    }
  }

  lemma {:induction false} StripRightCuts(s: string) returns (after: string)
    ensures AreBlanks(after) && s == StripRight(s) + after
  {
    after := "";
    if s != "" && IsSpace(s[|s| - 1]) {
      after := StripRightCuts(s[..|s| - 1]);
      after := after + [s[|s| - 1]];
    }
  }

  /** Stripping takes blanks off both ends and nothing else, until none is left there. */
  lemma StripCuts(s: string) returns (before: string, after: string)
    ensures AreBlanks(before) && AreBlanks(after) && s == before + Strip(s) + after
    ensures IsStripped(Strip(s))
  {
    before := StripLeftCuts(s);
    after := StripRightCuts(StripLeft(s));
    StripStrips(s);
  }

  /** str.lower() on the ASCII letters. */
  function LowerChar(c: char): char {
    if 'A' <= c <= 'Z' then (c as int + 32) as char else c
  }

  function Lower(s: string): string {
    seq(|s|, i requires 0 <= i < |s| => LowerChar(s[i]))
  }

  const UPPER := "ABCDEFGHIJKLMNOPQRSTUVWXYZ"
  const LOWER := "abcdefghijklmnopqrstuvwxyz"

  /** Each capital letter becomes its small one, and nothing else changes. */
  lemma LowerLetters(c: char)
    ensures forall k :: 0 <= k < 26 && UPPER[k] == c ==> LowerChar(c) == LOWER[k]
    ensures c !in UPPER ==> LowerChar(c) == c
  {
    if 'A' <= c <= 'Z' {
      assert UPPER[c as int - 'A' as int] == c;
    }
  }

  function Digit(d: nat): char
    requires d < 10
  {
    ('0' as int + d) as char
  }

  /** str() of a natural number. */
  function Decimal(n: nat): (s: string)
    ensures s != "" && forall c :: c in s ==> '0' <= c <= '9'
  {
    if n < 10 then [Digit(n)] else Decimal(n / 10) + [Digit(n % 10)]
  }

  lemma {:induction false} DecimalIsInjective(m: nat, n: nat)
    requires Decimal(m) == Decimal(n)
    ensures m == n
  {
    var s := Decimal(m);
    assert s[|s| - 1] == Digit(m % 10) && s[|s| - 1] == Digit(n % 10);
    assert m % 10 == n % 10;
    if m >= 10 && n >= 10 {
      assert Decimal(m / 10) == s[..|s| - 1] && Decimal(n / 10) == s[..|s| - 1];
      DecimalIsInjective(m / 10, n / 10);
    }
  }

  /** The first separator splits a string in one way. */
  lemma FirstFieldIsUnique(a: string, x: string, b: string, y: string, sep: char)
    requires sep !in a && sep !in b
    requires a + [sep] + x == b + [sep] + y
    ensures a == b && x == y
  {
    var s, t := a + [sep] + x, b + [sep] + y;
    assert s[|a|] == sep && t[|b|] == sep;
    assert forall i :: 0 <= i < |a| ==> s[i] == a[i];
    assert forall i :: 0 <= i < |b| ==> t[i] == b[i];
    assert a == s[..|a|] && b == t[..|b|];
    assert x == s[|a| + 1..] && y == t[|b| + 1..];
  }

  // ---------------------------------------------------------------------------------------
  // Order
  // ---------------------------------------------------------------------------------------

  /** Python compares strings by code point, left to right. */
  predicate StringLe(a: string, b: string) {
    a == "" || (b != "" && (a[0] < b[0] || (a[0] == b[0] && StringLe(a[1..], b[1..]))))
  }

  lemma {:induction false} StringLeTotal(a: string, b: string)
    ensures StringLe(a, b) || StringLe(b, a)
    ensures StringLe(a, b) && StringLe(b, a) ==> a == b
  {
    if a != "" && b != "" && a[0] == b[0] {
      StringLeTotal(a[1..], b[1..]);
      assert a == [a[0]] + a[1..] && b == [b[0]] + b[1..];
    }
  }

  lemma {:induction false} StringLeTransitive(a: string, b: string, c: string)
    requires StringLe(a, b) && StringLe(b, c)
    ensures StringLe(a, c)
  {
    if a != "" && a[0] == b[0] && b[0] == c[0] {
      StringLeTransitive(a[1..], b[1..], c[1..]);
    }
  }

  lemma StringLeIsOrder()
    ensures TotalPreorder(StringLe) && Antisymmetric(StringLe)
  {
    forall a, b
      ensures StringLe(a, b) || StringLe(b, a)
      ensures StringLe(a, b) && StringLe(b, a) ==> a == b
    {
      StringLeTotal(a, b);
    }
    forall a, b, c | StringLe(a, b) && StringLe(b, c)
      ensures StringLe(a, c)
    {
      StringLeTransitive(a, b, c);
    }
  }

  /** Two sorted lists without repetition and with the same members are the same list. */
  lemma SameSortedList(c: seq<string>, d: seq<string>)
    requires Distinct(c) && Distinct(d) && Ordered(c, StringLe) && Ordered(d, StringLe)
    requires forall v :: v in c <==> v in d
    ensures c == d
  {
    DistinctIffSingly(c);
    DistinctIffSingly(d);
    forall v
      ensures multiset(c)[v] == multiset(d)[v]
    {
      assert v in c <==> v in multiset(c);
      assert v in d <==> v in multiset(d);
    }
    assert multiset(c) == multiset(d);
    StringLeIsOrder();
    OrderedIsUnique(c, d, StringLe);
  }

  /** Some listing of a set: the order a Python set is iterated in is not specified. */
  method ListSet(s: set<string>) returns (r: seq<string>)
    ensures forall n :: n in r <==> n in s
    ensures Distinct(r)
  {
    r := [];
    var left := s;
    while left != {}
      invariant forall n :: n in s <==> n in r || n in left
      invariant Distinct(r) && forall n :: n in r ==> n !in left
      decreases left
    {
      var n :| n in left;
      r := r + [n];
      left := left - {n};
    }
  }

  /** sorted(s) */
  method SortedStrings(s: set<string>) returns (r: seq<string>)
    ensures Ordered(r, StringLe) && Distinct(r)
    ensures forall n :: n in r <==> n in s
  {
    var listing := ListSet(s);
    StringLeIsOrder();
    SortOrdered(listing, StringLe);
    SortKeeps(listing, StringLe);
    r := Sort(listing, StringLe);
    SameMembers(listing, r);
    RearrangedDistinct(listing, r);
  }
}
