/** What every session keeps, what it answers, and what it makes of a well-formed client's input. */
module SessionLaws {
  import opened Wrappers
  import opened Seqs
  import opened Text
  import opened Messages
  import opened Bounces
  import opened Framing
  import opened Lists
  import opened Sign
  import opened Recipients
  import opened Pipeline
  import opened Lifecycle
  import opened Sessions

  // ---- The session invariant ----

  /** Recipients are only ever collected under a sender. */
  predicate Sound(v: Vars) {
    v.recipients != [] ==> v.mailFrom.Some?
  }

  lemma RespondKeepsSound(setup: Setup, v: Vars, request: Option<Request>)
    requires Sound(v)
    ensures Sound(Respond(setup, v, request).1)
  {
  }

  /** Whatever the peer sends: no message is handed on without a sender from MAIL and a known recipient. */
  lemma {:induction false} SubmissionsHaveSender(setup: Setup, v: Vars, input: seq<byte>)
    requires Sound(v)
    ensures forall a :: a in Behaviour(setup, v, input) && a.Submit? ==> a.tx.sender.Some? && a.tx.recipients != []
    decreases |input|
  {
    if input != [] {
      var request := setup.parse(Line(input));
      if request == Some(DataPhase) && v.recipients != [] {
        SubmissionsHaveSender(setup, Reset(v), Data(Tail(input)).1);
      } else if request != Some(Quit) {
        RespondKeepsSound(setup, v, request);
        SubmissionsHaveSender(setup, Respond(setup, v, request).1, Tail(input));
      }
    }
  }

  // ---- Replies ----

  predicate OneLine(text: string) {
    '\r' !in text && '\n' !in text
  }

  /** One CRLF-terminated line. */
  predicate ReplyLine(text: string) {
    |text| >= 2 && text[|text| - 2..] == "\r\n" && OneLine(text[..|text| - 2])
  }

  /** A reply whose text is one line is one line, and starts as its text does. */
  lemma ReplyIsLine(text: string)
    requires OneLine(text) && text != ""
    ensures ReplyLine(Reply(text)) && Reply(text)[0] == text[0]
  {
  }

  lemma TwoPartReply(a: string, b: string)
    requires OneLine(a) && OneLine(b) && a != ""
    ensures ReplyLine(Reply(a + b)) && Reply(a + b)[0] == a[0]
  {
  }

  lemma AcceptedIsLine()
    ensures OneLine(ACCEPTED_TEXT) && ACCEPTED_TEXT[0] == '2'
  {
  }

  lemma FailureIsLine()
    ensures ReplyLine(PostReply(Err(Delivery))) && PostReply(Err(Delivery))[0] == '4'
  {
    ReplyIsLine("451 4.3.0 Temporary processing failure");
  }

  /** Unless that is blank, it is the first 200 characters with a space for each CR and LF. */
  lemma SanitizeKeepsText(text: string)
    ensures var (r, n) := (Sanitize(text), if |text| < 200 then |text| else 200);
      || (forall i :: 0 <= i < n ==> IsSpace(text[i]))
      || (|r| == n && forall i :: 0 <= i < n ==> r[i] == if text[i] == '\r' || text[i] == '\n' then ' ' else text[i])
  {
    var n := if |text| < 200 then |text| else 200;
    var cleaned := Flatten(text)[..n];
    if Trim(cleaned) == "" {
      BlankIsSpace(cleaned);
      forall i | 0 <= i < n ensures IsSpace(text[i]) {
        assert cleaned[i] in cleaned;
      }
    }
  }

  lemma BlankIsSpace(s: string)
    requires Trim(s) == ""
    ensures forall c :: c in s ==> IsSpace(c)
  {
    TrimStartSplit(s);
    TrimEndPrefix(TrimStart(s));
    var k := |s| - |TrimStart(s)|;
    assert s == s[..k] + s[k..];
  }

  /** Sanitising leaves one line, neither blank nor over-long, and keeps text that is already safe. */
  lemma SanitizeIsSafe(text: string)
    ensures var r := Sanitize(text);
      && OneLine(r) && Trim(r) != "" && |r| <= 200
      && (OneLine(text) && |text| <= 200 && Trim(text) != "" ==> r == text)
  {
    var flat := Flatten(text);
    assert OneLine(flat);
    var cleaned := flat[..if |text| < 200 then |text| else 200];
    assert OneLine(cleaned);
    if OneLine(text) && |text| <= 200 {
      assert forall i :: 0 <= i < |text| ==> text[i] in text;
      assert cleaned == text;
    }
    assert Trim("Message rejected") == "Message rejected" by { TrimFacts("Message rejected"); }
  }

  /** The reply tells the result: 2xx unless refused or failed, 5xx for a refusal, 4xx for a failure. */
  lemma PostReplyTellsResult(r: Result<PostOutcome>)
    ensures var reply := PostReply(r);
      && ReplyLine(reply)
      && reply[0] == if r.Err? then '4' else if r.value.Rejected? then '5' else '2'
  {
    AcceptedIsLine();
    match r {
      case Err(_) => FailureIsLine();
      case Ok(Distributed(_)) => ReplyIsLine(ACCEPTED_TEXT);
      case Ok(Held(_)) => TwoPartReply(ACCEPTED_TEXT, " (held for moderation)");
      case Ok(Discarded(_)) => TwoPartReply(ACCEPTED_TEXT, " (not distributed)");
      case Ok(Rejected(reason)) =>
        SanitizeIsSafe(reason);
        TwoPartReply("550 5.7.1 ", Sanitize(reason));
    }
  }

  lemma OneReplyIsLine(cfg: Config, s: State, recipient: Recipient, ingress: Ingress, raw: seq<byte>, io: PostIO)
    ensures ReplyLine(ProcessedOne(cfg, s, recipient, ingress, raw, io).1)
  {
    if recipient.PostTo? {
      PostReplyTellsResult(Handled(cfg, s, recipient.list, ingress, raw, io).1);
    } else {
      ReplyIsLine("250 2.1.5 Bounce recorded");
    }
  }

  /** The last recipient's reply comes last, after those to the recipients before it. */
  lemma LastReply(
      cfg: Config, s: State, recipients: seq<Recipient>, ingress: Ingress, raw: seq<byte>, io: nat -> PostIO)
      returns (last: string)
    requires recipients != []
    ensures Processed(cfg, s, recipients, ingress, raw, io).1
         == Processed(cfg, s, recipients[..|recipients| - 1], ingress, raw, io).1 + [last]
    ensures ReplyLine(last)
  {
    var n := |recipients| - 1;
    var before := Processed(cfg, s, recipients[..n], ingress, raw, io).0;
    OneReplyIsLine(cfg, before, recipients[n], ingress, raw, io(n));
    last := ProcessedOne(cfg, before, recipients[n], ingress, raw, io(n)).1;
  }

  /** `f` answers a sequence by answering all but the last, and then the last. */
  ghost predicate AnswersInTurn(f: seq<Recipient> -> seq<string>) {
    forall rs: seq<Recipient> :: |f(rs)| == |rs| && (rs != [] ==> f(rs)[..|rs| - 1] == f(rs[..|rs| - 1]))
  }

  lemma {:induction false} PrefixAnswered(f: seq<Recipient> -> seq<string>, rs: seq<Recipient>, k: nat)
    requires AnswersInTurn(f) && k <= |rs|
    ensures f(rs)[..k] == f(rs[..k])
    decreases |rs|
  {
    assert |f(rs)| == |rs|;
    if k == |rs| {
      assert rs[..k] == rs && f(rs)[..k] == f(rs);
    } else {
      var init := rs[..|rs| - 1];
      PrefixAnswered(f, init, k);
      assert init[..k] == rs[..k];
      assert f(rs)[..|rs| - 1] == f(init) && f(rs)[..|rs| - 1][..k] == f(rs)[..k];
    }
  }

  /** One reply per envelope recipient; the first k are those to the first k recipients alone. */
  lemma RepliesInOrder(
      cfg: Config, s: State, recipients: seq<Recipient>, ingress: Ingress, raw: seq<byte>, io: nat -> PostIO, k: nat)
    requires k <= |recipients|
    ensures Processed(cfg, s, recipients, ingress, raw, io).1[..k]
         == Processed(cfg, s, recipients[..k], ingress, raw, io).1
  {
    ghost var f := rs => Processed(cfg, s, rs, ingress, raw, io).1;
    forall rs: seq<Recipient> | rs != [] ensures f(rs)[..|rs| - 1] == f(rs[..|rs| - 1]) {
      var last := LastReply(cfg, s, rs, ingress, raw, io);
    }
    PrefixAnswered(f, recipients, k);
  }

  /** Each of them is one line, whatever a policy's reason says. */
  lemma {:induction false} RepliesAreLines(
      cfg: Config, s: State, recipients: seq<Recipient>, ingress: Ingress, raw: seq<byte>, io: nat -> PostIO)
    ensures forall r :: r in Processed(cfg, s, recipients, ingress, raw, io).1 ==> ReplyLine(r)
    decreases |recipients|
  {
    if recipients != [] {
      RepliesAreLines(cfg, s, recipients[..|recipients| - 1], ingress, raw, io);
      var last := LastReply(cfg, s, recipients, ingress, raw, io);
    }
  }

  /** Over SMTP there is a single reply, a 2xx exactly when some recipient was answered with one. */
  lemma SmtpReplyIff(replies: seq<string>)
    ensures var reply := ClosingReply(Smtp, replies);
      ReplyLine(reply) && reply[0] == if AnyOk(replies) then '2' else '4'
  {
    AcceptedIsLine();
    ReplyIsLine(ACCEPTED_TEXT);
    FailedIsLine();
  }

  lemma FailedIsLine()
    ensures ReplyLine(FAILED) && FAILED[0] == '4'
  {
    ReplyIsLine("451 4.3.0 Message could not be processed");
  }

  lemma OneReply(reply: string)
    ensures Concat([reply]) == reply
  {
    assert [reply][..0] == [];
    assert Concat([reply]) == Concat([reply][..0]) + reply;
    assert Concat([]) == "";
  }

  /** A policy's refusal reaches the peer over LMTP only; over SMTP it reads as a temporary failure. */
  lemma RefusalOverSmtp(reason: string)
    ensures var reply := PostReply(Ok(Rejected(reason)));
      && ClosingReply(Lmtp, [reply]) == reply && reply[0] == '5'
      && ClosingReply(Smtp, [reply]) == FAILED && FAILED[0] == '4'
  {
    var r: Result<PostOutcome> := Ok(Rejected(reason));
    PostReplyTellsResult(r);
    FailedIsLine();
    var reply := PostReply(r);
    OneReply(reply);
    assert !AnyOk([reply]);
  }

  // ---- Sessions are runs ----

  /** The lifecycle step behind one recipient of a message. */
  function StepFor(recipient: Recipient, ingress: Ingress, raw: seq<byte>, io: PostIO): Step {
    match recipient
    case PostTo(list) => Post(list, ingress, raw, io)
    case BounceFor(list, address) => Bounce(list, address, raw)
  }

  function StepsFor(recipients: seq<Recipient>, ingress: Ingress, raw: seq<byte>, io: nat -> PostIO): seq<Step>
    decreases |recipients|
  {
    if recipients == [] then []
    else
      var n := |recipients| - 1;
      StepsFor(recipients[..n], ingress, raw, io) + [StepFor(recipients[n], ingress, raw, io(n))]
  }

  lemma OneIsStep(cfg: Config, s: State, recipient: Recipient, ingress: Ingress, raw: seq<byte>, io: PostIO)
    ensures ProcessedOne(cfg, s, recipient, ingress, raw, io).0 == Next(cfg, s, StepFor(recipient, ingress, raw, io))
  {
  }

  lemma {:induction false} ProcessedIsRun(
      cfg: Config, steps: seq<Step>, recipients: seq<Recipient>, ingress: Ingress, raw: seq<byte>, io: nat -> PostIO)
    ensures Processed(cfg, Reached(cfg, steps), recipients, ingress, raw, io).0
         == Reached(cfg, steps + StepsFor(recipients, ingress, raw, io))
    decreases |recipients|
  {
    if recipients == [] {
      assert steps + [] == steps;
    } else {
      var n := |recipients| - 1;
      ProcessedIsRun(cfg, steps, recipients[..n], ingress, raw, io);
      var more := StepsFor(recipients[..n], ingress, raw, io);
      OneIsStep(cfg, Reached(cfg, steps + more), recipients[n], ingress, raw, io(n));
      ReachedLast(cfg, steps + more, StepFor(recipients[n], ingress, raw, io(n)));
      Assoc(steps, more, [StepFor(recipients[n], ingress, raw, io(n))]);
    }
  }

  /** The messages that a session hands on, in order. */
  function Submissions(acts: seq<Act>): seq<Transaction> {
    if acts == [] then []
    else (if acts[0].Submit? then [acts[0].tx] else []) + Submissions(acts[1..])
  }

  /** The lifecycle steps behind the messages of a session, of which `n` were handed on before. */
  function StepsOf(setup: Setup, world: World, n: nat, txs: seq<Transaction>): seq<Step>
    decreases |txs|
  {
    if txs == [] then []
    else
      StepsFor(txs[0].recipients, IngressFor(setup, txs[0]), txs[0].message, world(n))
      + StepsOf(setup, world, n + 1, txs[1..])
  }

  /**
   * Whatever a peer sends, a session takes the daemon from a reachable state to a reachable state, so
   * that everything proved about runs holds of every state any sequence of sessions leads to.
   */
  lemma {:induction false} SessionIsRun(
      cfg: Config, setup: Setup, world: World, steps: seq<Step>, n: nat, out: string, acts: seq<Act>)
    ensures Performed(cfg, setup, world, Reached(cfg, steps), n, out, acts).0
         == Reached(cfg, steps + StepsOf(setup, world, n, Submissions(acts)))
    decreases |acts|
  {
    if acts == [] {
      assert steps + [] == steps;
    } else if acts[0].Say? {
      SessionIsRun(cfg, setup, world, steps, n, out + acts[0].text, acts[1..]);
      assert Submissions(acts) == Submissions(acts[1..]);
    } else {
      var tx := acts[0].tx;
      var here := StepsFor(tx.recipients, IngressFor(setup, tx), tx.message, world(n));
      var replies := Processed(cfg, Reached(cfg, steps), tx.recipients, IngressFor(setup, tx), tx.message, world(n)).1;
      ProcessedIsRun(cfg, steps, tx.recipients, IngressFor(setup, tx), tx.message, world(n));
      SessionIsRun(cfg, setup, world, steps + here, n + 1, out + ClosingReply(setup.protocol, replies), acts[1..]);
      Assoc(steps, here, StepsOf(setup, world, n + 1, Submissions(acts[1..])));
      assert Submissions(acts)[1..] == Submissions(acts[1..]);
    }
  }

  // ---- The round trip ----

  type Printer = Request -> seq<byte>

  /** A client that writes requests as lines the parser reads back. */
  ghost predicate Speaks(parse: Parser, write: Printer, requests: set<Request>) {
    forall r :: r in requests ==> IsLine(write(r)) && parse(write(r)) == Some(r)
  }

  /** One message as a client submits it: sender, recipients, content. */
  datatype Mailing = Mailing(sender: string, rcpts: seq<string>, message: seq<byte>)

  ghost function RequestsOf(m: Mailing): set<Request> {
    {Mail(m.sender), DataPhase} + set to | to in m.rcpts :: Rcpt(to)
  }

  /** The RCPT lines, followed by `rest`. */
  function PrintRcpts(write: Printer, rcpts: seq<string>, rest: seq<byte>): seq<byte> {
    if rcpts == [] then rest else write(Rcpt(rcpts[0])) + PrintRcpts(write, rcpts[1..], rest)
  }

  /** The bytes of one transaction, sent without waiting for replies, followed by `rest`. */
  function PrintMailing(write: Printer, m: Mailing, rest: seq<byte>): seq<byte> {
    write(Mail(m.sender)) + PrintRcpts(write, m.rcpts, write(DataPhase) + (Stuff(m.message) + END + rest))
  }

  /** A pipelined sequence of transactions. */
  function PrintAll(write: Printer, mailings: seq<Mailing>): seq<byte> {
    if mailings == [] then [] else PrintMailing(write, mailings[0], PrintAll(write, mailings[1..]))
  }

  function Known(lists: map<string, List>, to: string): seq<Recipient> {
    match ClassifyRecipient(lists, to) case Some(r) => [r] case None => []
  }

  /** The known recipients, in order. */
  function Accepted(lists: map<string, List>, rcpts: seq<string>): seq<Recipient> {
    if rcpts == [] then []
    else Known(lists, rcpts[0]) + Accepted(lists, rcpts[1..])
  }

  /** A mailing the session can take in: its last line is complete, and it has a known recipient. */
  predicate Acceptable(setup: Setup, m: Mailing) {
    Terminated(m.message) && Accepted(setup.lists, m.rcpts) != []
  }

  function TransactionOf(setup: Setup, helo: string, m: Mailing): Transaction {
    Transaction(helo, Some(m.sender), Accepted(setup.lists, m.rcpts), m.message)
  }

  function TransactionsOf(setup: Setup, helo: string, mailings: seq<Mailing>): seq<Transaction> {
    seq(|mailings|, i requires 0 <= i < |mailings| => TransactionOf(setup, helo, mailings[i]))
  }

  /** One request line that is not an accepted DATA or a QUIT. */
  lemma OneRequest(setup: Setup, v: Vars, line: seq<byte>, r: Request, rest: seq<byte>)
    requires IsLine(line) && setup.parse(line) == Some(r)
    requires !r.Quit? && !(r.DataPhase? && v.recipients != [])
    ensures Submissions(Behaviour(setup, v, line + rest))
         == Submissions(Behaviour(setup, Respond(setup, v, Some(r)).1, rest))
  {
    LineOfConcat(line, rest);
    var (text, v') := Respond(setup, v, Some(r));
    assert Behaviour(setup, v, line + rest) == [Say(text)] + Behaviour(setup, v', rest);
    assert ([Say(text)] + Behaviour(setup, v', rest))[1..] == Behaviour(setup, v', rest);
  }

  function WithRecipients(v: Vars, more: seq<Recipient>): Vars {
    v.(recipients := v.recipients + more)
  }

  lemma OneRcpt(setup: Setup, v: Vars, line: seq<byte>, to: string, rest: seq<byte>)
    requires v.mailFrom.Some? && IsLine(line) && setup.parse(line) == Some(Rcpt(to))
    ensures Submissions(Behaviour(setup, v, line + rest))
         == Submissions(Behaviour(setup, WithRecipients(v, Known(setup.lists, to)), rest))
  {
    OneRequest(setup, v, line, Rcpt(to), rest);
    assert v.recipients + [] == v.recipients;
  }

  lemma {:induction false} AllRcpts(setup: Setup, write: Printer, v: Vars, rcpts: seq<string>, rest: seq<byte>)
    requires v.mailFrom.Some?
    requires forall to :: to in rcpts ==> IsLine(write(Rcpt(to))) && setup.parse(write(Rcpt(to))) == Some(Rcpt(to))
    ensures Submissions(Behaviour(setup, v, PrintRcpts(write, rcpts, rest)))
         == Submissions(Behaviour(setup, WithRecipients(v, Accepted(setup.lists, rcpts)), rest))
    decreases |rcpts|
  {
    if rcpts == [] {
      assert WithRecipients(v, []) == v;
    } else {
      var to := rcpts[0];
      OneRcpt(setup, v, write(Rcpt(to)), to, PrintRcpts(write, rcpts[1..], rest));
      AllRcpts(setup, write, WithRecipients(v, Known(setup.lists, to)), rcpts[1..], rest);
      AddTwice(v, Known(setup.lists, to), Accepted(setup.lists, rcpts[1..]));
    }
  }

  lemma AddTwice(v: Vars, a: seq<Recipient>, b: seq<Recipient>)
    ensures WithRecipients(WithRecipients(v, a), b) == WithRecipients(v, a + b)
  {
  }

  lemma OneData(setup: Setup, v: Vars, line: seq<byte>, message: seq<byte>, rest: seq<byte>)
    requires IsLine(line) && setup.parse(line) == Some(DataPhase)
    requires v.recipients != [] && Terminated(message)
    ensures Submissions(Behaviour(setup, v, line + (Stuff(message) + END + rest)))
         == [Transaction(v.helo, v.mailFrom, v.recipients, message)] + Submissions(Behaviour(setup, Reset(v), rest))
  {
    LineOfConcat(line, Stuff(message) + END + rest);
    FramingRoundTrip(message, rest);
    var tx := Transaction(v.helo, v.mailFrom, v.recipients, message);
    var more := Behaviour(setup, Reset(v), rest);
    assert Behaviour(setup, v, line + (Stuff(message) + END + rest)) == [Say(GO_AHEAD), Submit(tx)] + more;
    assert ([Say(GO_AHEAD), Submit(tx)] + more)[1..] == [Submit(tx)] + more;
    assert ([Submit(tx)] + more)[1..] == more;
  }

  function HandOn(v: Vars, message: seq<byte>): (acts: seq<Act>)
    ensures |acts| == 2
  {
    [Say(GO_AHEAD), Submit(Transaction(v.helo, v.mailFrom, v.recipients, message))]
  }

  /** The acts of an accepted DATA line and the session after it. */
  lemma DataActs(setup: Setup, v: Vars, line: seq<byte>, input: seq<byte>)
    requires IsLine(line) && setup.parse(line) == Some(DataPhase) && v.recipients != []
    ensures Behaviour(setup, v, line + input)
         == HandOn(v, Data(input).0) + Behaviour(setup, Reset(v), Data(input).1)
  {
    LineOfConcat(line, input);
  }

  /** A session whose input ends with the message does this, and does something else for any other message. */
  lemma LastDataActs(setup: Setup, v: Vars, line: seq<byte>, input: seq<byte>, message: seq<byte>)
    requires IsLine(line) && setup.parse(line) == Some(DataPhase) && v.recipients != []
    ensures Data(input) == (message, []) ==> Behaviour(setup, v, line + input) == HandOn(v, message)
    ensures Data(input).0 != message ==> Behaviour(setup, v, line + input) != HandOn(v, message)
  {
    DataActs(setup, v, line, input);
    assert Behaviour(setup, Reset(v), []) == [];
    assert HandOn(v, message) + [] == HandOn(v, message);
    assert Behaviour(setup, v, line + input)[1] == HandOn(v, Data(input).0)[1];
  }

  lemma TerminatorReads(message: seq<byte>)
    ensures if Terminated(message) then Data(Stuff(message) + END) == (message, [])
            else Data(Stuff(message) + END).0 != message
  {
    FramingRoundTrip(message, []);
    assert Stuff(message) + END + [] == Stuff(message) + END;
    if !Terminated(message) {
      UnterminatedSwallowsEnd(message, []);
      assert END + [] == END;
    }
  }

  /**
   * A peer that goes away inside DATA: the session hands on what has come in, as if the terminator had,
   * and whether the terminator came makes no difference exactly when the last line is complete.
   */
  lemma EndOfStreamHandsOn(setup: Setup, v: Vars, line: seq<byte>, message: seq<byte>)
    requires IsLine(line) && setup.parse(line) == Some(DataPhase) && v.recipients != []
    ensures Behaviour(setup, v, line + Stuff(message)) == HandOn(v, message)
    ensures Behaviour(setup, v, line + (Stuff(message) + END)) == Behaviour(setup, v, line + Stuff(message))
       <==> Terminated(message)
  {
    EndOfStreamReads(message);
    TerminatorReads(message);
    LastDataActs(setup, v, line, Stuff(message), message);
    LastDataActs(setup, v, line, Stuff(message) + END, message);
  }

  lemma SpeaksEach(parse: Parser, write: Printer, m: Mailing)
    requires Speaks(parse, write, RequestsOf(m))
    ensures IsLine(write(Mail(m.sender))) && parse(write(Mail(m.sender))) == Some(Mail(m.sender))
    ensures IsLine(write(DataPhase)) && parse(write(DataPhase)) == Some(DataPhase)
    ensures forall to :: to in m.rcpts ==> IsLine(write(Rcpt(to))) && parse(write(Rcpt(to))) == Some(Rcpt(to))
  {
  }

  /** MAIL and the RCPT lines, up to the DATA line. */
  lemma MailAndRcpts(setup: Setup, write: Printer, v: Vars, m: Mailing, data: seq<byte>)
    requires Speaks(setup.parse, write, RequestsOf(m))
    ensures Submissions(Behaviour(setup, v, write(Mail(m.sender)) + PrintRcpts(write, m.rcpts, data)))
         == Submissions(Behaviour(setup, Vars(v.helo, Some(m.sender), Accepted(setup.lists, m.rcpts)), data))
  {
    SpeaksEach(setup.parse, write, m);
    OneRequest(setup, v, write(Mail(m.sender)), Mail(m.sender), PrintRcpts(write, m.rcpts, data));
    AllRcpts(setup, write, Vars(v.helo, Some(m.sender), []), m.rcpts, data);
    assert [] + Accepted(setup.lists, m.rcpts) == Accepted(setup.lists, m.rcpts);
  }

  /** One transaction, from any variables, leaves exactly itself and a session ready for the next. */
  lemma OneMailing(setup: Setup, write: Printer, v: Vars, m: Mailing, rest: seq<byte>)
    requires Speaks(setup.parse, write, RequestsOf(m)) && Acceptable(setup, m)
    ensures Submissions(Behaviour(setup, v, PrintMailing(write, m, rest)))
         == [TransactionOf(setup, v.helo, m)] + Submissions(Behaviour(setup, Vars(v.helo, None, []), rest))
  {
    SpeaksEach(setup.parse, write, m);
    MailAndRcpts(setup, write, v, m, write(DataPhase) + (Stuff(m.message) + END + rest));
    OneData(setup, Vars(v.helo, Some(m.sender), Accepted(setup.lists, m.rcpts)), write(DataPhase), m.message, rest);
  }

  lemma TransactionsCons(setup: Setup, helo: string, mailings: seq<Mailing>)
    requires mailings != []
    ensures TransactionsOf(setup, helo, mailings)
         == [TransactionOf(setup, helo, mailings[0])] + TransactionsOf(setup, helo, mailings[1..])
  {
  }

  /**
   * The session round trip: for any pipelined sequence of well-formed transactions, the session hands
   * on exactly that sequence, each with its sender, its known recipients in order, and its message.
   */
  lemma {:induction false} SessionRoundTrip(setup: Setup, write: Printer, v: Vars, mailings: seq<Mailing>)
    requires forall m :: m in mailings ==> Speaks(setup.parse, write, RequestsOf(m)) && Acceptable(setup, m)
    ensures Submissions(Behaviour(setup, v, PrintAll(write, mailings))) == TransactionsOf(setup, v.helo, mailings)
    decreases |mailings|
  {
    if mailings != [] {
      var m, tail := mailings[0], mailings[1..];
      assert m in mailings;
      assert forall x :: x in tail ==> x in mailings;
      OneMailing(setup, write, v, m, PrintAll(write, tail));
      SessionRoundTrip(setup, write, Vars(v.helo, None, []), tail);
      TransactionsCons(setup, v.helo, mailings);
    }
  }

  /**
   * From a client's bytes to the daemon's state: a pipelined sequence of well-formed transactions takes
   * a reachable state to the one reached by exactly their posts and bounces, in order.
   */
  lemma MailingsAreRun(
      cfg: Config, setup: Setup, world: World, write: Printer, steps: seq<Step>, n: nat, out: string,
      v: Vars, mailings: seq<Mailing>)
    requires forall m :: m in mailings ==> Speaks(setup.parse, write, RequestsOf(m)) && Acceptable(setup, m)
    ensures Performed(cfg, setup, world, Reached(cfg, steps), n, out, Behaviour(setup, v, PrintAll(write, mailings))).0
         == Reached(cfg, steps + StepsOf(setup, world, n, TransactionsOf(setup, v.helo, mailings)))
  {
    SessionIsRun(cfg, setup, world, steps, n, out, Behaviour(setup, v, PrintAll(write, mailings)));
    SessionRoundTrip(setup, write, v, mailings);
  }
}
