/** The string operations of the Rust standard library that the daemon relies on. */
module Text {
  // ---- ASCII case ----

  function LowerChar(c: char): char {
    if 'A' <= c <= 'Z' then (c as int + 32) as char else c
  }

  function ToLower(s: string): (r: string)
    ensures |r| == |s| && forall i :: 0 <= i < |s| ==> r[i] == LowerChar(s[i])
  {
    seq(|s|, i requires 0 <= i < |s| => LowerChar(s[i]))
  }

  predicate SameName(a: string, b: string) {
    ToLower(a) == ToLower(b)
  }

  /** The same letter, or the two cases of one ASCII letter. */
  predicate SameLetter(c: char, d: char) {
    || c == d
    || ('A' <= c <= 'Z' && d as int == c as int + 32)
    || ('A' <= d <= 'Z' && c as int == d as int + 32)
  }

  /** Names are compared letter by letter, ASCII case aside. */
  lemma SameNameIff(a: string, b: string)
    ensures SameName(a, b) <==> |a| == |b| && forall i :: 0 <= i < |a| ==> SameLetter(a[i], b[i])
  {
    forall i | 0 <= i < |a| && i < |b| ensures LowerChar(a[i]) == LowerChar(b[i]) <==> SameLetter(a[i], b[i]) {}
    if SameName(a, b) {
      assert |ToLower(a)| == |ToLower(b)|;
      assert forall i :: 0 <= i < |a| ==> ToLower(a)[i] == ToLower(b)[i];
    }
  }

  // ---- White space ----

  /** The Unicode White_Space property, which Rust's `trim` family uses. */
  predicate IsSpace(c: char) {
    || '\t' <= c <= '\r'
    || c == ' '
    || c in {'\U{85}', '\U{A0}', '\U{1680}', '\U{2028}', '\U{2029}', '\U{202F}', '\U{205F}', '\U{3000}'}
    || '\U{2000}' <= c <= '\U{200A}'
  }

  function TrimStart(s: string): string {
    if s != [] && IsSpace(s[0]) then TrimStart(s[1..]) else s
  }

  function TrimEnd(s: string): string {
    if s != [] && IsSpace(s[|s| - 1]) then TrimEnd(s[..|s| - 1]) else s
  }

  function Trim(s: string): string {
    TrimEnd(TrimStart(s))
  }

  predicate Trimmed(s: string) {
    s == [] || (!IsSpace(s[0]) && !IsSpace(s[|s| - 1]))
  }

  lemma TrimEndFacts(s: string)
    ensures var t := TrimEnd(s);
      && (t == [] || (t[0] == s[0] && !IsSpace(t[|t| - 1])))
      && |t| <= |s|
  {
  }

  lemma TrimFacts(s: string)
    ensures Trimmed(Trim(s))
    ensures Trimmed(s) ==> Trim(s) == s
  {
    TrimStartFacts(s);
    TrimEndFacts(TrimStart(s));
  }

  lemma TrimStartFacts(s: string)
    ensures TrimStart(s) == [] || !IsSpace(TrimStart(s)[0])
  {
  }

  /** How the store and the list table normalise an address: `address.trim().to_ascii_lowercase()`. */
  function Canonical(address: string): string {
    ToLower(Trim(address))
  }

  lemma CanonicalIdempotent(address: string)
    ensures Canonical(Canonical(address)) == Canonical(address)
    ensures Trimmed(Canonical(address))
  {
    TrimFacts(address);
    TrimFacts(Canonical(address));
  }

  // ---- Searching ----

  /** The first position of `c`, or -1. */
  function IndexOf(s: string, c: char): (k: int)
    ensures -1 <= k < |s|
    ensures k >= 0 ==> s[k] == c && c !in s[..k]
    ensures k < 0 ==> c !in s
  {
    if s == [] then -1
    else if s[0] == c then 0
    else
      var k := IndexOf(s[1..], c);
      assert s == [s[0]] + s[1..];
      if k < 0 then -1
      else
        assert s[..k + 1] == [s[0]] + s[1..][..k];
        k + 1
  }

  /** The last position of `c`, or -1. */
  function LastIndexOf(s: string, c: char): (k: int)
    ensures -1 <= k < |s|
    ensures k >= 0 ==> s[k] == c && c !in s[k + 1..]
    ensures k < 0 ==> c !in s
  {
    if s == [] then -1
    else if s[|s| - 1] == c then |s| - 1
    else
      var k := LastIndexOf(s[..|s| - 1], c);
      assert s == s[..|s| - 1] + [s[|s| - 1]];
      if k < 0 then -1
      else
        assert s[k + 1..] == s[..|s| - 1][k + 1..] + [s[|s| - 1]];
        k
  }

  predicate OccursAt(s: string, pat: string, i: nat) {
    i + |pat| <= |s| && s[i..i + |pat|] == pat
  }

  /** The first position at which `pat` occurs, searching from `from`; -1 if it does not. */
  function Find(s: string, pat: string, from: nat := 0): (k: int)
    requires from <= |s|
    ensures k < 0 ==> forall i :: from <= i <= |s| ==> !OccursAt(s, pat, i)
    ensures k >= 0 ==> from <= k && OccursAt(s, pat, k) && forall i :: from <= i < k ==> !OccursAt(s, pat, i)
    decreases |s| - from
  {
    if OccursAt(s, pat, from) then from
    else if from == |s| then -1
    else Find(s, pat, from + 1)
  }

  // ---- Byte order, as the database's default collation sorts text ----

  predicate LexLe(a: string, b: string) {
    a == [] || (b != [] && (a[0] < b[0] || (a[0] == b[0] && LexLe(a[1..], b[1..]))))
  }

  lemma LexLeTotal(a: string, b: string)
    ensures LexLe(a, b) || LexLe(b, a)
  {
  }

  lemma {:induction false} LexLeAntisymmetric(a: string, b: string)
    requires LexLe(a, b) && LexLe(b, a)
    ensures a == b
  {
    if a != [] && b != [] {
      LexLeAntisymmetric(a[1..], b[1..]);
      assert a == [a[0]] + a[1..] && b == [b[0]] + b[1..];
    }
  }

  lemma LexLeTransitive(a: string, b: string, c: string)
    requires LexLe(a, b) && LexLe(b, c)
    ensures LexLe(a, c)
  {
  }

  /** The order is that of the first difference; a prefix comes before what continues it. */
  lemma {:induction false} LexLeIff(a: string, b: string)
    ensures LexLe(a, b) <==>
      a <= b || exists i :: 0 <= i < |a| && i < |b| && a[..i] == b[..i] && a[i] < b[i]
  {
    if a != [] && b != [] {
      var a', b' := a[1..], b[1..];
      assert a == [a[0]] + a' && b == [b[0]] + b';
      if a[0] == b[0] {
        LexLeIff(a', b');
        if i :| 0 <= i < |a'| && i < |b'| && a'[..i] == b'[..i] && a'[i] < b'[i] {
          assert a[..i + 1] == [a[0]] + a'[..i] && b[..i + 1] == [b[0]] + b'[..i];
          assert a[i + 1] < b[i + 1];
        }
        if i :| 0 <= i < |a| && i < |b| && a[..i] == b[..i] && a[i] < b[i] {
          assert a'[..i - 1] == a[..i][1..] && b'[..i - 1] == b[..i][1..];
          assert a'[i - 1] < b'[i - 1];
        }
      } else if a[0] < b[0] {
        assert a[..0] == b[..0];
      } else {
        forall i | 0 <= i < |a| && i < |b| && a[i] < b[i] ensures a[..i] != b[..i] {
          if i > 0 { assert a[..i][0] != b[..i][0]; }
        }
      }
    }
  }

  predicate IsLeast(m: string, s: set<string>) {
    m in s && forall x :: x in s ==> LexLe(m, x)
  }

  lemma LeastExists(s: set<string>)
    requires s != {}
    ensures exists m :: IsLeast(m, s)
  {
    var m :| m in s;
    LexLeTotal(m, m);
    var rest := s - {m};
    if rest != {} {
      LeastExists(rest);
      var n :| IsLeast(n, rest);
      LexLeTotal(m, n);
      if LexLe(m, n) {
        forall x | x in s ensures LexLe(m, x) {
          if x in rest { LexLeTransitive(m, n, x); }
        }
        assert IsLeast(m, s);
      } else {
        forall x | x in s ensures LexLe(n, x) {
          assert x == m || x in rest;
        }
        assert IsLeast(n, s);
      }
    } else {
      assert s == {m};
      assert IsLeast(m, s);
    }
  }

  ghost function Least(s: set<string>): (m: string)
    requires s != {}
    ensures IsLeast(m, s)
  {
    LeastExists(s);
    var m :| IsLeast(m, s);
    m
  }

  /** `r` lists exactly the elements of `s`, each once, in ascending order. */
  ghost predicate SortedListing(r: seq<string>, s: set<string>) {
    && (forall x :: x in s <==> x in r)
    && (forall i, j :: 0 <= i < j < |r| ==> r[i] != r[j] && LexLe(r[i], r[j]))
  }

  /** The listing itself: what `SELECT address ... ORDER BY address` returns. */
  ghost function Listing(s: set<string>): seq<string> {
    if s == {} then [] else [Least(s)] + Listing(s - {Least(s)})
  }

  lemma {:induction false} ListingSorted(s: set<string>)
    ensures SortedListing(Listing(s), s)
  {
    if s != {} {
      var m := Least(s);
      ListingSorted(s - {m});
      assert forall x :: x in s <==> x == m || x in s - {m};
    }
  }

  method PickLeast(s: set<string>) returns (m: string)
    requires s != {}
    ensures m == Least(s)
  {
    LeastExists(s);
    m :| m in s && forall x :: x in s ==> LexLe(m, x);
    LexLeAntisymmetric(m, Least(s));
  }

  method SortAddresses(s: set<string>) returns (r: seq<string>)
    ensures r == Listing(s)
  {
    var rest := s;
    r := [];
    while rest != {}
      invariant r + Listing(rest) == Listing(s)
      decreases rest
    {
      var m := PickLeast(rest);
      assert r + Listing(rest) == (r + [m]) + Listing(rest - {m});
      r := r + [m];
      rest := rest - {m};
    }
  }
}
