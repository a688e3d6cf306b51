/** Lines on the wire: reading them, the DATA framing, and CRLF normalisation. */
module Framing {
  import opened Messages
  import opened Seqs

  const CR: byte := 13
  const LF: byte := 10
  const DOT: byte := 46

  // ---- Lines ----

  /** How long the first line is, its LF included; the whole input if it has no LF. */
  function LineLength(s: seq<byte>): (n: nat)
    ensures n <= |s| && (s != [] ==> n > 0)
    ensures forall i :: 0 <= i < n - 1 ==> s[i] != LF
    ensures n < |s| ==> s[n - 1] == LF
  {
    if s == [] then 0 else if s[0] == LF then 1 else 1 + LineLength(s[1..])
  }

  function Line(s: seq<byte>): seq<byte> {
    s[..LineLength(s)]
  }

  function Tail(s: seq<byte>): (rest: seq<byte>)
    ensures s != [] ==> |rest| < |s|
  {
    s[LineLength(s)..]
  }

  /** A line as one read delivers it: an LF at the end and nowhere else. */
  predicate IsLine(l: seq<byte>) {
    l != [] && l[|l| - 1] == LF && forall i :: 0 <= i < |l| - 1 ==> l[i] != LF
  }

  lemma LineOfConcat(l: seq<byte>, rest: seq<byte>)
    requires IsLine(l)
    ensures Line(l + rest) == l && Tail(l + rest) == rest
  {
    var s := l + rest;
    assert s[|l| - 1] == LF;
    assert forall i :: 0 <= i < |l| - 1 ==> s[i] == l[i];
    LineEndsAtLf(s, |l| - 1);
  }

  lemma LineEndsAtLf(s: seq<byte>, k: nat)
    requires k < |s| && s[k] == LF && forall i :: 0 <= i < k ==> s[i] != LF
    ensures LineLength(s) == k + 1
  {
  }

  // ---- DATA ----

  predicate Terminator(line: seq<byte>) {
    line == [DOT, CR, LF] || line == [DOT, LF]
  }

  function Unstuff(line: seq<byte>): seq<byte> {
    if line != [] && line[0] == DOT then line[1..] else line
  }

  /** The message of a DATA phase, and the bytes after it. */
  function Data(s: seq<byte>): (r: (seq<byte>, seq<byte>))
    ensures |r.1| <= |s|
    decreases |s|
  {
    if s == [] then ([], [])
    else if Terminator(Line(s)) then ([], Tail(s))
    else
      var (message, rest) := Data(Tail(s));
      (Unstuff(Line(s)) + message, rest)
  }

  /** Reading one more ordinary line. */
  lemma DataStep(message: seq<byte>, s: seq<byte>)
    requires s != [] && !Terminator(Line(s))
    ensures (message + Data(s).0, Data(s).1) == ((message + Unstuff(Line(s))) + Data(Tail(s)).0, Data(Tail(s)).1)
  {
    assert message + (Unstuff(Line(s)) + Data(Tail(s)).0) == (message + Unstuff(Line(s))) + Data(Tail(s)).0;
  }

  /** A buffered byte stream. */
  class Reader {
    var rest: seq<byte>

    constructor (input: seq<byte>)
      ensures rest == input
    {
      rest := input;
    }

    /** `read_until(b'\n')`: an empty result means the peer has closed the connection. */
    method ReadUntilLf() returns (line: seq<byte>)
      modifies this
      ensures line == Line(old(rest)) && rest == Tail(old(rest))
    {
      var n := 0;
      while n < |rest| && rest[n] != LF
        invariant 0 <= n <= |rest|
        invariant forall i :: 0 <= i < n ==> rest[i] != LF
      {
        n := n + 1;
      }
      if n < |rest| {
        LineEndsAtLf(rest, n);
        n := n + 1;
      } else {
        assert LineLength(rest) == |rest|;
      }
      line, rest := rest[..n], rest[n..];
    }

    /** Collect lines until the terminator or the end of the stream, undoing dot-stuffing. */
    method ReadData() returns (message: seq<byte>)
      modifies this
      ensures (message, rest) == Data(old(rest))
    {
      message := [];
      assert [] + Data(rest).0 == Data(rest).0;
      while true
        invariant Data(old(rest)) == (message + Data(rest).0, Data(rest).1)
        decreases |rest|
      {
        ghost var before := rest;
        var line := ReadUntilLf();
        if line == [] || line == [DOT, CR, LF] || line == [DOT, LF] {
          assert message + [] == message;
          return;
        }
        DataStep(message, before);
        var start := if line[0] == DOT then 1 else 0;
        message := message + line[start..];
      }
    }
  }

  // ---- The client's side of DATA (section 4.5.2 of RFC 5321) ----

  function StuffLine(line: seq<byte>): seq<byte> {
    if line != [] && line[0] == DOT then [DOT] + line else line
  }

  function Stuff(message: seq<byte>): seq<byte>
    decreases |message|
  {
    if message == [] then [] else StuffLine(Line(message)) + Stuff(Tail(message))
  }

  const END := [DOT, CR, LF]

  predicate Terminated(message: seq<byte>) {
    message == [] || message[|message| - 1] == LF
  }

  lemma OneStuffedLine(line: seq<byte>, rest: seq<byte>)
    requires IsLine(line)
    ensures Data(StuffLine(line) + rest) == (line + Data(rest).0, Data(rest).1)
  {
    var sent := StuffLine(line);
    assert IsLine(sent);
    LineOfConcat(sent, rest);
    assert !Terminator(sent) by {
      if line[0] == DOT { assert sent[0] == DOT && sent[1] == DOT; }
    }
    assert Unstuff(sent) == line;
  }

  lemma FirstLineOf(message: seq<byte>)
    requires message != []
    ensures var (line, tail) := (Line(message), Tail(message));
      && message == line + tail
      && (if line[|line| - 1] == LF then IsLine(line) && (Terminated(message) <==> Terminated(tail))
          else LF !in message && !Terminated(message) && tail == [])
  {
    if LineLength(message) == |message| {
      assert Line(message) == message;
    }
  }

  lemma StuffedStep(line: seq<byte>, stuffed: seq<byte>, more: seq<byte>)
    requires IsLine(line)
    ensures var r := Data(stuffed + more);
      Data((StuffLine(line) + stuffed) + more) == (line + r.0, r.1)
  {
    Assoc(StuffLine(line), stuffed, more);
    OneStuffedLine(line, stuffed + more);
  }

  /** A dot-stuffed message of whole lines is read back, and reading goes on with whatever follows. */
  lemma {:induction false} ReadsTerminated(message: seq<byte>, more: seq<byte>)
    requires Terminated(message)
    ensures Data(Stuff(message) + more) == (message + Data(more).0, Data(more).1)
    decreases |message|
  {
    if message == [] {
      assert [] + more == more && [] + Data(more).0 == Data(more).0;
    } else {
      var line, tail := Line(message), Tail(message);
      FirstLineOf(message);
      ReadsTerminated(tail, more);
      StuffedStep(line, Stuff(tail), more);
      Assoc(line, tail, Data(more).0);
    }
  }

  lemma {:induction false} LineOfUnterminated(s: seq<byte>)
    requires LF !in s
    ensures LineLength(s) == |s|
  {
  }

  /** A last line without its LF takes the terminator in, and its dots come off in the same way. */
  lemma OpenLineReads(line: seq<byte>, rest: seq<byte>)
    requires line != [] && LF !in line
    ensures Data(StuffLine(line) + (END + rest)) == ((line + END) + Data(rest).0, Data(rest).1)
  {
    assert StuffLine(line) + END == StuffLine(line + END);
    Assoc(StuffLine(line), END, rest);
    OneStuffedLine(line + END, rest);
  }

  /**
   * What is read of a message that does not end its last line: the terminator has become part of the
   * message, and so has everything up to the next terminator.
   */
  lemma {:induction false} UnterminatedSwallowsEnd(message: seq<byte>, rest: seq<byte>)
    requires !Terminated(message)
    ensures Data(Stuff(message) + (END + rest)) == ((message + END) + Data(rest).0, Data(rest).1)
    decreases |message|
  {
    var line, tail := Line(message), Tail(message);
    FirstLineOf(message);
    if line[|line| - 1] == LF {
      UnterminatedSwallowsEnd(tail, rest);
      StuffedStep(line, Stuff(tail), END + rest);
      Assoc(line, tail + END, Data(rest).0);
      Assoc(line, tail, END);
    } else {
      assert Stuff(tail) == [] && StuffLine(line) + [] == StuffLine(line);
      assert line + [] == line;
      OpenLineReads(line, rest);
    }
  }

  lemma EndReads(rest: seq<byte>)
    ensures Data(END + rest) == ([], rest)
  {
    LineOfConcat(END, rest);
  }

  /**
   * The exact framing round trip, whatever follows: reading the dot-stuffed message and its
   * terminator gives back the message and leaves the rest, if and only if its last line is terminated.
   */
  lemma FramingRoundTrip(message: seq<byte>, rest: seq<byte>)
    ensures Data(Stuff(message) + END + rest) == (message, rest) <==> Terminated(message)
  {
    Assoc(Stuff(message), END, rest);
    if Terminated(message) {
      ReadsTerminated(message, END + rest);
      EndReads(rest);
      assert message + [] == message;
    } else {
      UnterminatedSwallowsEnd(message, rest);
    }
  }

  // ---- A stream that ends inside DATA ----

  /** Some line of the stream is a terminator. */
  predicate Ended(s: seq<byte>)
    decreases |s|
  {
    s != [] && (Terminator(Line(s)) || Ended(Tail(s)))
  }

  lemma OpenLineIsNoEnd(line: seq<byte>)
    requires line != [] && LF !in line
    ensures Data(line) == (Unstuff(line), []) && !Ended(line)
  {
    LineOfUnterminated(line);
    assert Line(line) == line && Tail(line) == [];
    assert Unstuff(line) + [] == Unstuff(line);
    assert line[|line| - 1] in line;
  }

  /** The peer may leave the terminator out: the message reads the same, for every message whatever. */
  lemma {:induction false} EndOfStreamReads(message: seq<byte>)
    ensures Data(Stuff(message)) == (message, []) && !Ended(Stuff(message))
    decreases |message|
  {
    if message != [] {
      var line, tail := Line(message), Tail(message);
      FirstLineOf(message);
      EndOfStreamReads(tail);
      if line[|line| - 1] == LF {
        OneStuffedLine(line, Stuff(tail));
        StuffedIsNoEnd(line, Stuff(tail));
      } else {
        assert Stuff(message) == StuffLine(line) + [];
        assert StuffLine(message) == Stuff(message);
        OpenLineIsNoEnd(StuffLine(message));
      }
    }
  }

  lemma StuffedIsNoEnd(line: seq<byte>, rest: seq<byte>)
    requires IsLine(line) && !Ended(rest)
    ensures !Ended(StuffLine(line) + rest)
  {
    var sent := StuffLine(line);
    LineOfConcat(sent, rest);
    if line[0] == DOT { assert sent[0] == DOT && sent[1] == DOT; }
  }

  lemma OpenLineSeesEnd(line: seq<byte>)
    requires line != [] && LF !in line
    ensures Data(line + END) != Data(line)
  {
    OpenLineIsNoEnd(line);
    var whole := line + END;
    assert IsLine(whole);
    LineOfConcat(whole, []);
    assert whole + [] == whole;
    assert Data([]) == ([], []);
    assert |Data(whole).0| == |Unstuff(whole)| > |Unstuff(line)|;
  }

  /**
   * When an end of stream passes for a terminator: sending one after what has come in changes nothing
   * exactly when none has come in yet and the last line is complete.
   */
  lemma {:induction false} EndUnseenIff(s: seq<byte>)
    ensures Data(s + END) == Data(s) <==> !Ended(s) && Terminated(s)
    decreases |s|
  {
    if s == [] {
      assert s + END == END + [];
      EndReads([]);
    } else {
      var line, tail := Line(s), Tail(s);
      FirstLineOf(s);
      if line[|line| - 1] == LF {
        Assoc(line, tail, END);
        LineOfConcat(line, tail + END);
        EndUnseenIff(tail);
        SamePrefix(Unstuff(line), Data(tail + END).0, Data(tail).0);
        assert |tail + END| != |tail|;
      } else {
        OpenLineSeesEnd(s);
      }
    }
  }

  lemma SamePrefix(p: seq<byte>, a: seq<byte>, b: seq<byte>)
    ensures p + a == p + b <==> a == b
  {
    assert (p + a)[|p|..] == a && (p + b)[|p|..] == b;
  }

  // ---- CRLF normalisation ----

  /** How many bytes the line terminator at the front takes up, if there is one. */
  function Break(s: seq<byte>): (n: nat)
    ensures n <= |s|
  {
    if |s| >= 2 && s[0] == CR && s[1] == LF then 2
    else if s != [] && (s[0] == CR || s[0] == LF) then 1
    else 0
  }

  function Normalize(s: seq<byte>): seq<byte>
    decreases |s|
  {
    if s == [] then []
    else if Break(s) > 0 then [CR, LF] + Normalize(s[Break(s)..])
    else [s[0]] + Normalize(s[1..])
  }

  /** What the front of the input becomes. */
  function Front(s: seq<byte>): (r: seq<byte>)
    requires s != []
  {
    if Break(s) > 0 then [CR, LF] else [s[0]]
  }

  function Behind(s: seq<byte>): seq<byte>
    requires s != []
  {
    if Break(s) > 0 then s[Break(s)..] else s[1..]
  }

  lemma NormalizeStep(out: seq<byte>, s: seq<byte>)
    requires s != []
    ensures out + Normalize(s) == (out + Front(s)) + Normalize(Behind(s))
  {
    Assoc(out, Front(s), Normalize(Behind(s)));
  }

  method NormalizeCrlf(bytes: seq<byte>) returns (out: seq<byte>)
    ensures out == Normalize(bytes)
  {
    out := [];
    var i := 0;
    assert bytes[0..] == bytes && [] + Normalize(bytes) == Normalize(bytes);
    while i < |bytes|
      invariant 0 <= i <= |bytes|
      invariant out + Normalize(bytes[i..]) == Normalize(bytes)
    {
      ghost var rest := bytes[i..];
      NormalizeStep(out, rest);
      if bytes[i] == CR && i + 1 < |bytes| && bytes[i + 1] == LF {
        assert Behind(rest) == bytes[i + 2..];
        out := out + [CR, LF];
        i := i + 2;
      } else if bytes[i] == CR || bytes[i] == LF {
        assert Behind(rest) == bytes[i + 1..];
        out := out + [CR, LF];
        i := i + 1;
      } else {
        assert Behind(rest) == bytes[i + 1..];
        out := out + [bytes[i]];
        i := i + 1;
      }
    }
    assert out + [] == out;
  }

  /** A CR has its LF after it, and an LF its CR before it. */
  predicate Paired(s: seq<byte>, i: nat)
    requires i < |s|
  {
    && (s[i] == CR ==> i + 1 < |s| && s[i + 1] == LF)
    && (s[i] == LF ==> i > 0 && s[i - 1] == CR)
  }

  /** No bare CR and no bare LF. */
  predicate CrlfOnly(s: seq<byte>) {
    forall i | 0 <= i < |s| :: Paired(s, i)
  }

  lemma CrlfOnlyConcat(a: seq<byte>, b: seq<byte>)
    requires CrlfOnly(a)
    ensures CrlfOnly(a + b) <==> CrlfOnly(b)
  {
    var s := a + b;
    forall i | 0 <= i < |a| ensures Paired(s, i) {
      assert Paired(a, i);
    }
    forall i | 0 <= i < |b| ensures Paired(b, i) <==> Paired(s, |a| + i) {
      if i == 0 && a != [] { assert Paired(a, |a| - 1); }
    }
    if CrlfOnly(b) {
      forall i | 0 <= i < |s| ensures Paired(s, i) {
        if i >= |a| { assert Paired(b, i - |a|); }
      }
    }
  }

  lemma {:induction false} NormalizeIsCrlf(s: seq<byte>)
    ensures CrlfOnly(Normalize(s))
    decreases |s|
  {
    if s != [] {
      var head := if Break(s) > 0 then [CR, LF] else [s[0]];
      var rest := if Break(s) > 0 then s[Break(s)..] else s[1..];
      NormalizeIsCrlf(rest);
      CrlfOnlyConcat(head, Normalize(rest));
    }
  }

  lemma {:induction false} CrlfStays(s: seq<byte>)
    requires CrlfOnly(s)
    ensures Normalize(s) == s
    decreases |s|
  {
    if s != [] {
      assert Paired(s, 0);
      var head := if s[0] == CR then [CR, LF] else [s[0]];
      var rest := s[|head|..];
      assert s == head + rest;
      CrlfOnlyConcat(head, rest);
      CrlfStays(rest);
    }
  }

  /** Normalisation leaves an input alone exactly when it has no bare CR or LF; so it is idempotent. */
  lemma NormalizeFixedIff(s: seq<byte>)
    ensures Normalize(s) == s <==> CrlfOnly(s)
    ensures Normalize(Normalize(s)) == Normalize(s)
  {
    NormalizeIsCrlf(s);
    if CrlfOnly(s) { CrlfStays(s); }
    CrlfStays(Normalize(s));
  }

  /** The contents of the lines, without their terminators; the last one is what follows the last terminator. */
  function Contents(s: seq<byte>): (r: seq<seq<byte>>)
    ensures r != []
    decreases |s|
  {
    if s == [] then [[]]
    else if Break(s) > 0 then [[]] + Contents(s[Break(s)..])
    else
      var rest := Contents(s[1..]);
      [[s[0]] + rest[0]] + rest[1..]
  }

  /** Only terminators change: every line keeps its content, and no line is added or lost. */
  lemma {:induction false} NormalizeKeepsLines(s: seq<byte>)
    ensures Contents(Normalize(s)) == Contents(s)
    decreases |s|
  {
    if s != [] {
      var n := Normalize(s);
      if Break(s) > 0 {
        NormalizeKeepsLines(s[Break(s)..]);
        assert n[2..] == Normalize(s[Break(s)..]);
      } else {
        NormalizeKeepsLines(s[1..]);
        assert n[1..] == Normalize(s[1..]);
      }
    }
  }

  lemma {:induction false} NormalizeTerminated(s: seq<byte>)
    ensures Terminated(Normalize(s)) <==> s == [] || s[|s| - 1] in {CR, LF}
    ensures Normalize(s) == [] <==> s == []
    decreases |s|
  {
    if s != [] {
      var rest := if Break(s) > 0 then s[Break(s)..] else s[1..];
      NormalizeTerminated(rest);
      if rest != [] { assert rest[|rest| - 1] == s[|s| - 1]; }
    }
  }

  /** End to end: what a client normalises and sends is what the daemon reads, for any input that ends a line. */
  lemma SubmissionRoundTrip(input: seq<byte>, rest: seq<byte>)
    ensures Data(Stuff(Normalize(input)) + END + rest) == (Normalize(input), rest)
       <==> input == [] || input[|input| - 1] in {CR, LF}
  {
    FramingRoundTrip(Normalize(input), rest);
    NormalizeTerminated(input);
  }
}
