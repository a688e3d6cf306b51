/** Classification of delivery status notifications by their `Status:` line. */
module Bounces {
  import opened Text

  datatype BounceKind = Hard | Soft | Unknown

  // ---- Lines, as Rust's `str::lines` splits them ----

  /** Up to the first LF, without that LF; a CR right before the LF belongs to the line end. */
  function FirstLine(text: string): (line: string)
    ensures |line| <= |text|
  {
    var k := IndexOf(text, '\n');
    if k < 0 then text
    else if k > 0 && text[k - 1] == '\r' then text[..k - 1]
    else text[..k]
  }

  function AfterLine(text: string): (rest: string)
    ensures text != [] ==> |rest| < |text|
  {
    var k := IndexOf(text, '\n');
    if k < 0 then [] else text[k + 1..]
  }

  function Lines(text: string): seq<string>
    decreases |text|
  {
    if text == [] then [] else [FirstLine(text)] + Lines(AfterLine(text))
  }

  // ---- One line ----

  const STATUS := "status:"

  /** The kind a line decides, if it is a failure status: `class.subject...` with class 5 or 4. */
  function LineKind(line: string): BounceKind {
    var l := TrimStart(line);
    if |l| < 7 || !SameName(l[..7], STATUS) then Unknown
    else
      var value := Trim(l[7..]);
      var dot := IndexOf(value, '.');
      if dot < 0 then Unknown
      else if value[..dot] == "5" then Hard
      else if value[..dot] == "4" then Soft
      else Unknown
  }

  /** The first line that decides, decides; `f` says what a line decides. */
  function FirstBy(f: string -> BounceKind, lines: seq<string>): BounceKind {
    if lines == [] then Unknown
    else if f(lines[0]) != Unknown then f(lines[0])
    else FirstBy(f, lines[1..])
  }

  function FirstKind(lines: seq<string>): BounceKind {
    FirstBy(LineKind, lines)
  }

  /** Scan the lines, skipping every one that does not decide. */
  method Classify(text: string) returns (kind: BounceKind)
    ensures kind == FirstKind(Lines(text))
  {
    var rest := text;
    while rest != []
      invariant FirstKind(Lines(rest)) == FirstKind(Lines(text))
      decreases |rest|
    {
      var line := TrimStart(FirstLine(rest));
      ghost var here := FirstLine(rest);
      rest := AfterLine(rest);
      if |line| < 7 || !SameName(line[..7], STATUS) {
        continue;
      }
      var value := Trim(line[7..]);
      var dot := IndexOf(value, '.');
      if dot < 0 {
        continue;
      }
      if value[..dot] == "5" {
        return Hard;
      }
      if value[..dot] == "4" {
        return Soft;
      }
    }
    kind := Unknown;
  }

  // ---- Laws ----

  /** What a deciding line looks like, without reference to how it is scanned. */
  ghost predicate StatusLine(line: string, digit: char) {
    exists lead: string, word: string, gap: string, tail: string ::
      && line == lead + word + gap + [digit, '.'] + tail
      && AllSpace(lead) && AllSpace(gap)
      && SameName(word, STATUS)
  }

  predicate AllSpace(s: string) {
    forall c | c in s :: IsSpace(c)
  }

  lemma {:induction false} TrimStartSplit(s: string)
    ensures var t := TrimStart(s);
      && |t| <= |s| && s[|s| - |t|..] == t && AllSpace(s[..|s| - |t|])
      && (t != [] ==> !IsSpace(t[0]))
  {
    if s != [] && IsSpace(s[0]) {
      TrimStartSplit(s[1..]);
      var n := |s| - |TrimStart(s)|;
      assert s[..n] == [s[0]] + s[1..][..n - 1];
    }
  }

  lemma {:induction false} TrimStartSkips(lead: string, s: string)
    requires AllSpace(lead) && (s != [] ==> !IsSpace(s[0]))
    ensures TrimStart(lead + s) == s
  {
    if lead == [] {
      assert lead + s == s;
    } else {
      assert (lead + s)[1..] == lead[1..] + s;
      assert lead[0] in lead;
      TrimStartSkips(lead[1..], s);
    }
  }

  lemma {:induction false} TrimEndPrefix(s: string)
    ensures var t := TrimEnd(s); |t| <= |s| && t == s[..|t|] && AllSpace(s[|t|..])
  {
    if s != [] && IsSpace(s[|s| - 1]) {
      var s' := s[..|s| - 1];
      TrimEndPrefix(s');
      assert s[|TrimEnd(s)|..] == s'[|TrimEnd(s)|..] + [s[|s| - 1]];
    }
  }

  lemma {:induction false} TrimEndReaches(s: string, i: nat)
    requires i < |s| && !IsSpace(s[i])
    ensures |TrimEnd(s)| > i
  {
    if IsSpace(s[|s| - 1]) {
      TrimEndReaches(s[..|s| - 1], i);
    }
  }

  /** A digit and a dot are never trimmed away. */
  lemma TrimKeepsStatus(digit: char, tail: string)
    requires !IsSpace(digit)
    ensures var t := Trim([digit, '.'] + tail); |t| >= 2 && t[0] == digit && t[1] == '.'
  {
    var s := [digit, '.'] + tail;
    TrimEndPrefix(s);
    TrimEndReaches(s, 1);
  }

  lemma StatusWord(word: string)
    requires SameName(word, STATUS)
    ensures |word| == 7 && !IsSpace(word[0])
  {
  }

  /** A line counts as a permanent or transient failure exactly when it is a status line of that class. */
  lemma LineKindIff(line: string)
    ensures LineKind(line) == Hard <==> StatusLine(line, '5')
    ensures LineKind(line) == Soft <==> StatusLine(line, '4')
  {
    if LineKind(line) != Unknown { KindHasShape(line); }
    forall digit | digit in {'4', '5'} && StatusLine(line, digit)
      ensures LineKind(line) == if digit == '5' then Hard else Soft
    {
      ShapeHasKind(line, digit);
    }
  }

  lemma KindHasShape(line: string)
    requires LineKind(line) != Unknown
    ensures StatusLine(line, if LineKind(line) == Hard then '5' else '4')
  {
    var l := TrimStart(line);
    TrimStartSplit(line);
    var lead, word, after := line[..|line| - |l|], l[..7], l[7..];
    var digit := if LineKind(line) == Hard then '5' else '4';
    var gap, tail := ValueShape(after, digit);
    Pieces(line, lead, l, word, after, gap, [digit, '.'], tail);
  }

  lemma ValueShape(after: string, digit: char) returns (gap: string, tail: string)
    requires IndexOf(Trim(after), '.') >= 0 && Trim(after)[..IndexOf(Trim(after), '.')] == [digit]
    ensures after == gap + ([digit, '.'] + tail) && AllSpace(gap)
  {
    TrimStartSplit(after);
    var started, value := TrimStart(after), Trim(after);
    TrimEndPrefix(started);
    assert |value[..IndexOf(value, '.')]| == 1;
    assert value[0] == [digit][0] && value[1] == '.';
    gap, tail := after[..|after| - |started|], started[2..];
    assert started == [digit, '.'] + tail;
  }

  lemma Pieces(line: string, lead: string, l: string, word: string, after: string, gap: string, d: string, tail: string)
    requires line == lead + l && l == word + after && after == gap + (d + tail)
    ensures line == lead + word + gap + d + tail
  {
  }

  lemma ShapeHasKind(line: string, digit: char)
    requires digit in {'4', '5'} && StatusLine(line, digit)
    ensures LineKind(line) == if digit == '5' then Hard else Soft
  {
    var lead: string, word: string, gap: string, tail: string :|
      && line == lead + word + gap + [digit, '.'] + tail
      && AllSpace(lead) && AllSpace(gap) && SameName(word, STATUS);
    var rest := [digit, '.'] + tail;
    StatusWord(word);
    Regroup(lead, word, gap, [digit, '.'], tail);
    TrimStartSkips(lead, word + (gap + rest));
    TrimStartSkips(gap, rest);
    TrimKeepsStatus(digit, tail);
    WordThenValue(word, gap + rest);
    DigitThenDot(Trim(gap + rest), digit);
  }

  lemma Regroup(a: string, b: string, c: string, d: string, e: string)
    ensures a + b + c + d + e == a + (b + (c + (d + e)))
  {
  }

  lemma WordThenValue(word: string, after: string)
    requires |word| == 7
    ensures (word + after)[..7] == word && (word + after)[7..] == after
  {
  }

  lemma DigitThenDot(value: string, digit: char)
    requires |value| >= 2 && value[0] == digit && value[1] == '.' && digit != '.'
    ensures IndexOf(value, '.') == 1 && value[..1] == [digit]
  {
  }

  /** A text is not a failure report exactly when none of its lines is a status line of class 4 or 5. */
  lemma {:induction false} UnknownIff(lines: seq<string>)
    ensures FirstKind(lines) == Unknown <==> forall l :: l in lines ==> !StatusLine(l, '4') && !StatusLine(l, '5')
  {
    if lines != [] {
      UnknownIff(lines[1..]);
      LineKindIff(lines[0]);
      assert lines == [lines[0]] + lines[1..];
      assert lines[0] in lines;
    }
  }

  lemma StatusLineWithCr(line: string, digit: char)
    requires StatusLine(line, digit)
    ensures StatusLine(line + "\r", digit)
  {
    var lead: string, word: string, gap: string, tail: string :|
      && line == lead + word + gap + [digit, '.'] + tail
      && AllSpace(lead) && AllSpace(gap) && SameName(word, STATUS);
    assert line + "\r" == lead + word + gap + [digit, '.'] + (tail + "\r");
  }

  lemma StatusLineWithoutCr(line: string, digit: char)
    requires StatusLine(line + "\r", digit)
    ensures StatusLine(line, digit)
  {
    var lead: string, word: string, gap: string, tail: string :|
      && line + "\r" == lead + word + gap + [digit, '.'] + tail
      && AllSpace(lead) && AllSpace(gap) && SameName(word, STATUS);
    DropLast(line, '\r', lead + word + gap + [digit, '.'], tail);
    assert line == lead + word + gap + [digit, '.'] + tail[..|tail| - 1];
  }

  lemma DropLast(line: string, c: char, front: string, tail: string)
    requires line + [c] == front + tail && front != [] && front[|front| - 1] != c
    ensures tail != [] && line == front + tail[..|tail| - 1]
  {
    assert (line + [c])[|line|] == c;
    assert line == (front + tail)[..|line|];
  }

  /** A trailing CR never changes what a line decides. */
  lemma TrailingCr(line: string)
    ensures LineKind(line + "\r") == LineKind(line)
  {
    LineKindIff(line);
    LineKindIff(line + "\r");
    forall digit | digit in {'4', '5'}
      ensures StatusLine(line, digit) <==> StatusLine(line + "\r", digit)
    {
      if StatusLine(line, digit) { StatusLineWithCr(line, digit); }
      if StatusLine(line + "\r", digit) { StatusLineWithoutCr(line, digit); }
    }
  }

  lemma CutIndex(text: string, c: char, n: nat)
    requires n <= |text| && 0 <= IndexOf(text, c) < n
    ensures IndexOf(text[..n], c) == IndexOf(text, c)
  {
  }

  /** A cut at a later LF leaves the first line as it is. */
  lemma CutLater(text: string, n: nat)
    requires n < |text| && 0 <= IndexOf(text, '\n') < n
    ensures IndexOf(text[..n], '\n') == IndexOf(text, '\n') && FirstLine(text[..n]) == FirstLine(text)
  {
    CutIndex(text, '\n', n);
    var k := IndexOf(text, '\n');
    CutTwice(text, n, k);
    if k > 0 { CutTwice(text, n, k - 1); }
  }

  lemma CutTwice(text: string, n: nat, k: nat)
    requires k <= n <= |text|
    ensures text[..n][..k] == text[..k]
  {
  }

  lemma RestOfCut(text: string, n: nat, k: nat)
    requires k < n < |text|
    ensures text[..n][k + 1..] == text[k + 1..][..n - k - 1]
    ensures text[n + 1..] == text[k + 1..][n - k..]
  {
  }

  ghost predicate IgnoresCr(f: string -> BounceKind) {
    forall l {:trigger l + "\r"} :: f(l + "\r") == f(l)
  }

  /** A cut at the first LF: what comes before it is the first line, up to a trailing CR. */
  lemma CutFirst(f: string -> BounceKind, text: string, n: nat)
    requires IgnoresCr(f)
    requires n < |text| && IndexOf(text, '\n') == n
    ensures FirstBy(f, Lines(text[..n])) == if n == 0 then Unknown else f(FirstLine(text))
  {
    var a := text[..n];
    if n > 0 {
      LastLine(a);
      if text[n - 1] == '\r' {
        assert a == text[..n - 1] + "\r";
      }
    }
  }

  lemma LastLine(a: string)
    requires a != [] && IndexOf(a, '\n') < 0
    ensures Lines(a) == [a]
  {
  }

  lemma FirstIndexAtMost(s: string, c: char, n: nat)
    requires n < |s| && s[n] == c
    ensures 0 <= IndexOf(s, c) <= n
  {
  }

  function OrElse(a: BounceKind, b: BounceKind): BounceKind {
    if a != Unknown then a else b
  }

  lemma LineByLine(f: string -> BounceKind, text: string)
    requires text != []
    ensures FirstBy(f, Lines(text)) == OrElse(f(FirstLine(text)), FirstBy(f, Lines(AfterLine(text))))
  {
  }

  lemma CutAfterLine(text: string, n: nat)
    requires n < |text| && 0 <= IndexOf(text, '\n') < n
    ensures var k := IndexOf(text, '\n');
      && AfterLine(text) == text[k + 1..]
      && AfterLine(text[..n]) == text[k + 1..][..n - k - 1]
      && text[n + 1..] == text[k + 1..][n - k..]
  {
    CutLater(text, n);
    RestOfCut(text, n, IndexOf(text, '\n'));
  }

  /** Cut a text at any LF: the part before it decides, unless that part decides nothing. */
  lemma {:induction false} CutDecides(f: string -> BounceKind, text: string, n: nat)
    requires f("") == Unknown && IgnoresCr(f)
    requires n < |text| && text[n] == '\n'
    ensures FirstBy(f, Lines(text)) == OrElse(FirstBy(f, Lines(text[..n])), FirstBy(f, Lines(text[n + 1..])))
    decreases |text|
  {
    FirstIndexAtMost(text, '\n', n);
    LineByLine(f, text);
    if IndexOf(text, '\n') < n {
      CutEarlier(f, text, n);
    } else {
      CutFirst(f, text, n);
    }
  }

  lemma {:induction false} CutEarlier(f: string -> BounceKind, text: string, n: nat)
    requires f("") == Unknown && IgnoresCr(f)
    requires n < |text| && text[n] == '\n' && 0 <= IndexOf(text, '\n') < n
    ensures OrElse(f(FirstLine(text)), FirstBy(f, Lines(AfterLine(text))))
         == OrElse(FirstBy(f, Lines(text[..n])), FirstBy(f, Lines(text[n + 1..])))
    decreases |text|, 0
  {
    var rest, m := AfterLine(text), n - IndexOf(text, '\n') - 1;
    CutLater(text, n);
    CutAfterLine(text, n);
    LineByLine(f, text[..n]);
    CutDecides(f, rest, m);
  }

  /** Reading two texts one after the other: the first decides, unless it is not a failure report. */
  lemma ClassifyConcat(a: string, b: string)
    ensures FirstKind(Lines(a + "\n" + b)) ==
      if FirstKind(Lines(a)) != Unknown then FirstKind(Lines(a)) else FirstKind(Lines(b))
  {
    var text := a + "\n" + b;
    assert text[..|a|] == a && text[|a| + 1..] == b;
    forall l ensures LineKind(l + "\r") == LineKind(l) { TrailingCr(l); }
    CutDecides(LineKind, text, |a|);
  }
}
