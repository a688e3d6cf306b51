/** What the peer is told, in terms of how each of its posts ended. */
module ReplyLaws {
  import opened Wrappers
  import opened Seqs
  import opened Messages
  import opened Bounces
  import opened Framing
  import opened Lists
  import opened Sign
  import opened Recipients
  import opened Pipeline
  import opened Lifecycle
  import opened Sessions
  import opened SessionLaws

  // ---- Lines of a text ----

  function WithoutCr(line: string): string {
    if line != "" && line[|line| - 1] == '\r' then line[..|line| - 1] else line
  }

  lemma LinesCons(line: string, rest: string)
    requires '\n' !in line
    ensures Lines(line + "\n" + rest) == [WithoutCr(line)] + Lines(rest)
  {
    var text := line + "\n" + rest;
    assert text[|line|] == '\n' && text[..|line|] == line && text[|line| + 1..] == rest;
    FirstIndexAtMost(text, '\n', |line|);
    assert forall i :: 0 <= i < |line| ==> text[i] == line[i] && line[i] in line;
    if |line| > 0 { assert text[..|line| - 1] == line[..|line| - 1]; }
  }

  lemma {:induction false} ConcatCons(first: string, rest: seq<string>)
    ensures Concat([first] + rest) == first + Concat(rest)
  {
    if rest == [] {
      assert [first] + rest == [first];
      OneReply(first);
      assert first + "" == first;
    } else {
      var all := [first] + rest;
      assert all[..|all| - 1] == [first] + rest[..|rest| - 1];
      ConcatCons(first, rest[..|rest| - 1]);
      Assoc(first, Concat(rest[..|rest| - 1]), rest[|rest| - 1]);
    }
  }

  /** The lines are the replies without their CRLF. */
  predicate LinesOf(lines: seq<string>, replies: seq<string>) {
    |lines| == |replies| && forall k :: 0 <= k < |lines| ==> lines[k] + "\r\n" == replies[k]
  }

  lemma LinesOfCons(line: string, lines: seq<string>, reply: string, replies: seq<string>)
    requires line + "\r\n" == reply && LinesOf(lines, replies)
    ensures LinesOf([line] + lines, [reply] + replies)
  {
  }

  /** Replies that are one line each, written one after the other, are the lines of what is written, in order. */
  lemma {:induction false} RepliesAreTheLines(replies: seq<string>)
    requires forall r :: r in replies ==> ReplyLine(r)
    ensures LinesOf(Lines(Concat(replies)), replies)
  {
    if replies != [] {
      var first, rest := replies[0], replies[1..];
      assert first in replies && forall r :: r in rest ==> r in replies;
      RepliesAreTheLines(rest);
      OneLineMore(first, rest);
      assert replies == [first] + rest;
    }
  }

  lemma OneLineMore(first: string, rest: seq<string>)
    requires ReplyLine(first) && LinesOf(Lines(Concat(rest)), rest)
    ensures LinesOf(Lines(Concat([first] + rest)), [first] + rest)
  {
    ConcatCons(first, rest);
    LineOfReply(first, Concat(rest));
    LinesOfCons(first[..|first| - 2], Lines(Concat(rest)), first, rest);
  }

  lemma LineOfReply(reply: string, rest: string)
    requires ReplyLine(reply)
    ensures Lines(reply + rest) == [reply[..|reply| - 2]] + Lines(rest)
    ensures reply[..|reply| - 2] + "\r\n" == reply
  {
    var text := reply[..|reply| - 2];
    var line := text + "\r";
    assert reply == text + reply[|reply| - 2..];
    assert reply == line + "\n";
    assert '\n' !in line by {
      assert forall i :: 0 <= i < |line| ==> line[i] == if i < |text| then text[i] else '\r';
    }
    LinesCons(line, rest);
    assert WithoutCr(line) == text;
  }

  // ---- One reply for each post ----

  /** The first digit tells how the post ended, and a refusal carries its reason. */
  ghost predicate Tells(reply: string, r: Result<PostOutcome>) {
    && reply != ""
    && (reply[0] == '5' <==> r.Ok? && r.value.Rejected?)
    && (reply[0] == '4' <==> r.Err?)
    && (reply[0] == '2' <==> r.Ok? && !r.value.Rejected?)
    && (r.Ok? && r.value.Rejected? ==> reply == "550 5.7.1 " + Sanitize(r.value.reason) + "\r\n")
    && (r.Ok? && r.value.Distributed? ==> reply == "250 2.6.0 Message accepted" + "\r\n")
    && (r.Ok? && r.value.Held? ==> reply == "250 2.6.0 Message accepted" + " (held for moderation)" + "\r\n")
    && (r.Ok? && r.value.Discarded? ==> reply == "250 2.6.0 Message accepted" + " (not distributed)" + "\r\n")
  }

  /** The state in which the k-th recipient of a message is handled. */
  ghost function StateAt(
      cfg: Config, steps: seq<Step>, recipients: seq<Recipient>, ingress: Ingress, raw: seq<byte>,
      io: nat -> PostIO, k: nat)
      : State
    requires k <= |recipients|
  {
    Reached(cfg, steps + StepsFor(recipients[..k], ingress, raw, io))
  }

  /** How the k-th recipient, a list, has its post end. */
  ghost function EndAt(
      cfg: Config, steps: seq<Step>, recipients: seq<Recipient>, ingress: Ingress, raw: seq<byte>,
      io: nat -> PostIO, k: nat)
      : Result<PostOutcome>
    requires k < |recipients| && recipients[k].PostTo?
  {
    StepResult(cfg, StateAt(cfg, steps, recipients, ingress, raw, io, k), Post(recipients[k].list, ingress, raw, io(k)))
  }

  /** The reply answers the k-th recipient: for a list by how its post ended, for a bounce by a 2xx. */
  ghost predicate Answers(
      reply: string, cfg: Config, steps: seq<Step>, recipients: seq<Recipient>, ingress: Ingress, raw: seq<byte>,
      io: nat -> PostIO, k: nat)
    requires k < |recipients|
  {
    if recipients[k].PostTo? then Tells(reply, EndAt(cfg, steps, recipients, ingress, raw, io, k))
    else reply != "" && reply[0] == '2'
  }

  lemma PostReplyTells(r: Result<PostOutcome>)
    ensures Tells(PostReply(r), r)
  {
    PostReplyTellsResult(r);
  }

  lemma HandledIsStep(cfg: Config, s: State, list: List, ingress: Ingress, raw: seq<byte>, io: PostIO)
    ensures Handled(cfg, s, list, ingress, raw, io).1 == StepResult(cfg, s, Post(list, ingress, raw, io))
  {
  }

  lemma OneAnswers(
      cfg: Config, s: State, recipient: Recipient, ingress: Ingress, raw: seq<byte>, io: PostIO)
    ensures var reply := ProcessedOne(cfg, s, recipient, ingress, raw, io).1;
      if recipient.PostTo? then Tells(reply, StepResult(cfg, s, Post(recipient.list, ingress, raw, io)))
      else reply != "" && reply[0] == '2'
  {
    if recipient.PostTo? {
      HandledIsStep(cfg, s, recipient.list, ingress, raw, io);
      PostReplyTells(StepResult(cfg, s, Post(recipient.list, ingress, raw, io)));
    } else {
      ReplyIsLine("250 2.1.5 Bounce recorded");
    }
  }

  /** The k-th reply is that of handling the k-th recipient in the state the first k leave. */
  lemma ReplyAt(
      cfg: Config, s: State, recipients: seq<Recipient>, ingress: Ingress, raw: seq<byte>, io: nat -> PostIO, k: nat)
    requires k < |recipients|
    ensures Processed(cfg, s, recipients, ingress, raw, io).1[k] ==
      ProcessedOne(cfg, Processed(cfg, s, recipients[..k], ingress, raw, io).0, recipients[k], ingress, raw, io(k)).1
  {
    var upTo := recipients[..k + 1];
    RepliesInOrder(cfg, s, recipients, ingress, raw, io, k + 1);
    assert upTo[..k] == recipients[..k] && upTo[k] == recipients[k] && upTo != [];
    assert Processed(cfg, s, recipients, ingress, raw, io).1[k]
        == Processed(cfg, s, recipients, ingress, raw, io).1[..k + 1][k];
  }

  /** For any recipients and any k: the k-th reply answers the k-th recipient by how its own handling ended. */
  lemma RepliesAnswer(
      cfg: Config, steps: seq<Step>, recipients: seq<Recipient>, ingress: Ingress, raw: seq<byte>,
      io: nat -> PostIO, k: nat)
    requires k < |recipients|
    ensures Answers(Processed(cfg, Reached(cfg, steps), recipients, ingress, raw, io).1[k],
                    cfg, steps, recipients, ingress, raw, io, k)
  {
    ReplyAt(cfg, Reached(cfg, steps), recipients, ingress, raw, io, k);
    ProcessedIsRun(cfg, steps, recipients[..k], ingress, raw, io);
    OneAnswers(cfg, StateAt(cfg, steps, recipients, ingress, raw, io, k), recipients[k], ingress, raw, io(k));
  }

  // ---- What is written after DATA ----

  /** Over LMTP, a line for each recipient in turn that answers it; over SMTP, one line for all of them. */
  ghost predicate Written(
      text: string, protocol: Protocol, cfg: Config, steps: seq<Step>, recipients: seq<Recipient>, ingress: Ingress,
      raw: seq<byte>, io: nat -> PostIO)
  {
    match protocol
    case Lmtp =>
      && |Lines(text)| == |recipients|
      && forall k {:trigger Lines(text)[k]} :: 0 <= k < |recipients| ==>
           Answers(Lines(text)[k] + "\r\n", cfg, steps, recipients, ingress, raw, io, k)
    case Smtp =>
      && text != ""
      && (text[0] == '2' <==> exists k :: 0 <= k < |recipients| && Good(cfg, steps, recipients, ingress, raw, io, k))
      && (text[0] != '2' ==> text[0] == '4')
  }

  /** The k-th recipient is answered with success: a bounce, or a post that neither failed nor was refused. */
  ghost predicate Good(
      cfg: Config, steps: seq<Step>, recipients: seq<Recipient>, ingress: Ingress, raw: seq<byte>,
      io: nat -> PostIO, k: nat)
    requires k < |recipients|
  {
    recipients[k].PostTo? ==>
      var r := EndAt(cfg, steps, recipients, ingress, raw, io, k); r.Ok? && !r.value.Rejected?
  }

  lemma ClosingIsWritten(
      protocol: Protocol, cfg: Config, steps: seq<Step>, recipients: seq<Recipient>, ingress: Ingress, raw: seq<byte>,
      io: nat -> PostIO)
    ensures Written(ClosingReply(protocol, Processed(cfg, Reached(cfg, steps), recipients, ingress, raw, io).1),
                    protocol, cfg, steps, recipients, ingress, raw, io)
  {
    var replies := Processed(cfg, Reached(cfg, steps), recipients, ingress, raw, io).1;
    forall k | 0 <= k < |recipients|
      ensures Answers(replies[k], cfg, steps, recipients, ingress, raw, io, k)
    {
      RepliesAnswer(cfg, steps, recipients, ingress, raw, io, k);
    }
    match protocol {
      case Lmtp =>
        RepliesAreLines(cfg, Reached(cfg, steps), recipients, ingress, raw, io);
        RepliesAreTheLines(replies);
      case Smtp =>
        SmtpReplyIff(replies);
        SmtpMeansGood(cfg, steps, recipients, ingress, raw, io, replies);
    }
  }

  lemma SmtpMeansGood(
      cfg: Config, steps: seq<Step>, recipients: seq<Recipient>, ingress: Ingress, raw: seq<byte>, io: nat -> PostIO,
      replies: seq<string>)
    requires |replies| == |recipients|
    requires forall k :: 0 <= k < |recipients| ==> Answers(replies[k], cfg, steps, recipients, ingress, raw, io, k)
    ensures AnyOk(replies) <==> exists k :: 0 <= k < |recipients| && Good(cfg, steps, recipients, ingress, raw, io, k)
  {
    forall k | 0 <= k < |recipients|
      ensures (replies[k] != "" && replies[k][0] == '2') <==> Good(cfg, steps, recipients, ingress, raw, io, k)
    {
      assert Answers(replies[k], cfg, steps, recipients, ingress, raw, io, k);
    }
    if AnyOk(replies) {
      var r :| r in replies && r != "" && r[0] == '2';
      var k :| 0 <= k < |replies| && replies[k] == r;
      assert Good(cfg, steps, recipients, ingress, raw, io, k);
    }
    if k :| 0 <= k < |recipients| && Good(cfg, steps, recipients, ingress, raw, io, k) {
      assert replies[k] in replies;
    }
  }

  /**
   * What a session writes once a message has come in after DATA, in terms of how the message's posts end:
   * the go-ahead, then the answers, then what the rest of the session says.
   */
  lemma DataIsAnswered(
      cfg: Config, setup: Setup, world: World, steps: seq<Step>, n: nat, out: string, v: Vars, line: seq<byte>,
      input: seq<byte>)
      returns (text: string)
    requires IsLine(line) && setup.parse(line) == Some(DataPhase) && v.recipients != []
    ensures var ingress := Ingress(setup.remoteIp, v.helo, match v.mailFrom case Some(from) => from case None => "");
      var (message, rest) := Data(input);
      && Written(text, setup.protocol, cfg, steps, v.recipients, ingress, message, world(n))
      && Performed(cfg, setup, world, Reached(cfg, steps), n, out, Behaviour(setup, v, line + input))
           == Performed(cfg, setup, world, Reached(cfg, steps + StepsFor(v.recipients, ingress, message, world(n))),
                        n + 1, out + GO_AHEAD + text, Behaviour(setup, Reset(v), rest))
  {
    var (message, rest) := Data(input);
    var tx := Transaction(v.helo, v.mailFrom, v.recipients, message);
    var ingress := IngressFor(setup, tx);
    DataActs(setup, v, line, input);
    assert HandOn(v, message) == [Say(GO_AHEAD), Submit(tx)];
    PerformSubmit(cfg, setup, world, Reached(cfg, steps), n, out, tx, Behaviour(setup, Reset(v), rest));
    ProcessedIsRun(cfg, steps, v.recipients, ingress, message, world(n));
    ClosingIsWritten(setup.protocol, cfg, steps, v.recipients, ingress, message, world(n));
    text := ClosingReply(
      setup.protocol, Processed(cfg, Reached(cfg, steps), v.recipients, ingress, message, world(n)).1);
  }

  // ---- The other requests ----

  /** Which requests succeed, by the first digit of their replies. */
  lemma RequestAnswered(setup: Setup, v: Vars, request: Option<Request>)
    requires request != Some(DataPhase) || v.recipients == []
    ensures var text := Respond(setup, v, request).0;
      text != "" && text[0] ==
        match request
        case None => '5'
        case Some(Unsupported) => '5'
        case Some(DataPhase) => '5'
        case Some(Rcpt(to)) => if v.mailFrom.Some? && ClassifyRecipient(setup.lists, to).Some? then '2' else '5'
        case Some(_) => '2'
  {
  }

  /**
   * EHLO, LHLO, HELO and RSET drop whatever transaction was under way, and MAIL starts over: what the
   * session hands on afterwards does not depend on the sender or the recipients named before.
   */
  lemma RequestsForget(setup: Setup, v: Vars, w: Vars, line: seq<byte>, r: Request, rest: seq<byte>)
    requires IsLine(line) && setup.parse(line) == Some(r)
    requires r.Ehlo? || r.Lhlo? || r.Helo? || r.Rset? || r.Mail?
    requires r.Rset? || r.Mail? ==> v.helo == w.helo
    ensures var helo := if r.Rset? || r.Mail? then v.helo else r.host;
      var after := Vars(helo, if r.Mail? then Some(r.from) else None, []);
      && Submissions(Behaviour(setup, v, line + rest)) == Submissions(Behaviour(setup, after, rest))
      && Submissions(Behaviour(setup, w, line + rest)) == Submissions(Behaviour(setup, after, rest))
  {
    OneRequest(setup, v, line, r, rest);
    OneRequest(setup, w, line, r, rest);
  }

  /** A RCPT counts only under a sender, and only for a known recipient; then it goes to the end. */
  lemma RcptCounts(setup: Setup, v: Vars, line: seq<byte>, to: string, rest: seq<byte>)
    requires IsLine(line) && setup.parse(line) == Some(Rcpt(to))
    ensures Submissions(Behaviour(setup, v, line + rest)) == Submissions(Behaviour(setup,
      if v.mailFrom.Some? && ClassifyRecipient(setup.lists, to).Some?
      then Vars(v.helo, v.mailFrom, v.recipients + [ClassifyRecipient(setup.lists, to).value])
      else v, rest))
  {
    OneRequest(setup, v, line, Rcpt(to), rest);
  }
}
