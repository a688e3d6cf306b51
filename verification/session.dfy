/**
 * The SMTP/LMTP session: a byte stream in, replies out, and messages handed to the pipeline. The
 * request parser belongs to a library and is an arbitrary function of the line.
 */
module Sessions {
  import opened Wrappers
  import opened Text
  import opened Messages
  import opened Framing
  import opened Lists
  import opened Sign
  import opened Recipients
  import opened Pipeline

  datatype Request =
    | Ehlo(host: string) | Lhlo(host: string) | Helo(host: string)
    | Mail(from: string) | Rcpt(to: string) | DataPhase
    | Rset | Noop | Quit | Unsupported

  type Parser = seq<byte> -> Option<Request>

  datatype Protocol = Lmtp | Smtp

  datatype Setup = Setup(protocol: Protocol, host: string, remoteIp: string, lists: map<string, List>, parse: Parser)

  /** The session's variables; the sender is unset until MAIL. */
  datatype Vars = Vars(helo: string, mailFrom: Option<string>, recipients: seq<Recipient>)

  const START := Vars("", None, [])

  /** One message as the session hands it on. */
  datatype Transaction = Transaction(
    helo: string, sender: Option<string>, recipients: seq<Recipient>, message: seq<byte>)

  /** What the session does: write a reply, or hand over a message and answer for it. */
  datatype Act = Say(text: string) | Submit(tx: Transaction)

  function Reset(v: Vars): Vars {
    v.(mailFrom := None, recipients := [])
  }

  function Hello(v: Vars, host: string): Vars {
    Reset(v).(helo := host)
  }

  /** A reply: one line of text and its CRLF. */
  function Reply(text: string): string {
    text + "\r\n"
  }

  /** The acts of one request other than an accepted DATA, and the variables afterwards. */
  function Respond(setup: Setup, v: Vars, request: Option<Request>): (string, Vars) {
    match request
    case None => (Reply("500 5.5.2 Syntax error"), v)
    case Some(r) =>
      match r
      case Ehlo(h) => ("250-" + setup.host + " greets you\r\n250 PIPELINING\r\n", Hello(v, h))
      case Lhlo(h) => ("250-" + setup.host + " greets you\r\n250 PIPELINING\r\n", Hello(v, h))
      case Helo(h) => (Reply("250 " + setup.host), Hello(v, h))
      case Mail(from) => (Reply("250 2.1.0 OK"), v.(mailFrom := Some(from), recipients := []))
      case Rcpt(to) =>
        if v.mailFrom.None? then (Reply("503 5.5.1 MAIL first"), v)
        else (match ClassifyRecipient(setup.lists, to)
              case Some(recipient) => (Reply("250 2.1.5 OK"), v.(recipients := v.recipients + [recipient]))
              case None => (Reply("550 5.1.1 No such mailing list"), v))
      case DataPhase => (Reply("503 5.5.1 No valid recipients"), v)
      case Rset => (Reply("250 2.0.0 OK"), Reset(v))
      case Noop => (Reply("250 2.0.0 OK"), v)
      case Quit => (Reply("221 2.0.0 Bye"), v)
      case Unsupported => (Reply("502 5.5.1 Command not implemented"), v)
  }

  const GO_AHEAD := Reply("354 Start mail input; end with <CRLF>.<CRLF>")

  /** Everything a session does with an input, from given variables. Each round consumes a line. */
  function Behaviour(setup: Setup, v: Vars, input: seq<byte>): seq<Act>
    decreases |input|
  {
    if input == [] then []
    else
      var request := setup.parse(Line(input));
      if request == Some(DataPhase) && v.recipients != [] then
        var (message, rest) := Data(Tail(input));
        [Say(GO_AHEAD), Submit(Transaction(v.helo, v.mailFrom, v.recipients, message))]
        + Behaviour(setup, Reset(v), rest)
      else
        var (text, v') := Respond(setup, v, request);
        [Say(text)] + (if request == Some(Quit) then [] else Behaviour(setup, v', Tail(input)))
  }

  // ---- Replies ----

  function Flatten(text: string): string {
    seq(|text|, i requires 0 <= i < |text| => if text[i] == '\r' || text[i] == '\n' then ' ' else text[i])
  }

  /** Free text made safe for a reply: one line, at most 200 characters, never blank. */
  function Sanitize(text: string): string {
    var cleaned := Flatten(text)[..if |text| < 200 then |text| else 200];
    if Trim(cleaned) == "" then "Message rejected" else cleaned
  }

  const ACCEPTED_TEXT := "250 2.6.0 Message accepted"

  function PostReply(r: Result<PostOutcome>): string {
    match r
    case Err(_) => Reply("451 4.3.0 Temporary processing failure")
    case Ok(outcome) =>
      match outcome
      case Distributed(_) => Reply(ACCEPTED_TEXT)
      case Held(_) => Reply(ACCEPTED_TEXT + " (held for moderation)")
      case Discarded(_) => Reply(ACCEPTED_TEXT + " (not distributed)")
      case Rejected(reason) => Reply("550 5.7.1 " + Sanitize(reason))
  }

  const BOUNCE_REPLY := Reply("250 2.1.5 Bounce recorded")

  /** Handle one envelope recipient. */
  ghost function ProcessedOne(cfg: Config, s: State, recipient: Recipient, ingress: Ingress, raw: seq<byte>, io: PostIO)
      : (State, string)
  {
    match recipient
    case PostTo(list) =>
      var (s', r) := Handled(cfg, s, list, ingress, raw, io);
      (s', PostReply(r))
    case BounceFor(list, address) => (Bounced(cfg, s, list, address, raw), BOUNCE_REPLY)
  }

  /** Handle the recipients in order, one reply each; `io` answers for each recipient in turn. */
  ghost function Processed(
      cfg: Config, s: State, recipients: seq<Recipient>, ingress: Ingress, raw: seq<byte>, io: nat -> PostIO)
      : (r: (State, seq<string>))
    ensures |r.1| == |recipients|
    decreases |recipients|
  {
    if recipients == [] then (s, [])
    else
      var n := |recipients| - 1;
      var (s', replies) := Processed(cfg, s, recipients[..n], ingress, raw, io);
      var (s'', reply) := ProcessedOne(cfg, s', recipients[n], ingress, raw, io(n));
      (s'', replies + [reply])
  }

  function Concat(lines: seq<string>): string {
    if lines == [] then "" else Concat(lines[..|lines| - 1]) + lines[|lines| - 1]
  }

  predicate AnyOk(replies: seq<string>) {
    exists r | r in replies :: r != "" && r[0] == '2'
  }

  const ACCEPTED := Reply(ACCEPTED_TEXT)
  const FAILED := Reply("451 4.3.0 Message could not be processed")

  /** LMTP answers once per recipient, SMTP once for all of them. */
  function ClosingReply(protocol: Protocol, replies: seq<string>): string {
    match protocol
    case Lmtp => Concat(replies)
    case Smtp => if AnyOk(replies) then ACCEPTED else FAILED
  }

  function IngressFor(setup: Setup, tx: Transaction): Ingress {
    Ingress(setup.remoteIp, tx.helo, match tx.sender case Some(from) => from case None => "")
  }

  /** The world's answers: for the n-th submitted message of a session and each of its recipients. */
  type World = nat -> nat -> PostIO

  /** The daemon's state and the bytes written after the acts; `n` messages were submitted before. */
  ghost function Performed(cfg: Config, setup: Setup, world: World, s: State, n: nat, out: string, acts: seq<Act>)
      : (State, string)
    decreases |acts|
  {
    if acts == [] then (s, out)
    else match acts[0]
      case Say(text) => Performed(cfg, setup, world, s, n, out + text, acts[1..])
      case Submit(tx) =>
        var (s', replies) := Processed(cfg, s, tx.recipients, IngressFor(setup, tx), tx.message, world(n));
        Performed(cfg, setup, world, s', n + 1, out + ClosingReply(setup.protocol, replies), acts[1..])
  }

  // ---- The code ----

  method SanitizeReply(text: string) returns (r: string)
    ensures r == Sanitize(text)
  {
    var cleaned := "";
    var i := 0;
    while i < |text| && i < 200
      invariant 0 <= i <= |text| && i <= 200
      invariant cleaned == Flatten(text)[..i]
    {
      cleaned := cleaned + [if text[i] == '\r' || text[i] == '\n' then ' ' else text[i]];
      i := i + 1;
    }
    r := if Trim(cleaned) == "" then "Message rejected" else cleaned;
  }

  method PostAndReply(daemon: Daemon, list: List, ingress: Ingress, raw: seq<byte>, io: PostIO) returns (reply: string)
    modifies daemon`log, daemon.store
    ensures (daemon.Current(), reply) == ProcessedOne(daemon.cfg, old(daemon.Current()), PostTo(list), ingress, raw, io)
  {
    var r := daemon.HandleOne(list, ingress, raw, io);
    match r {
      case Err(_) => reply := Reply("451 4.3.0 Temporary processing failure");
      case Ok(Distributed(_)) => reply := Reply(ACCEPTED_TEXT);
      case Ok(Held(_)) => reply := Reply(ACCEPTED_TEXT + " (held for moderation)");
      case Ok(Discarded(_)) => reply := Reply(ACCEPTED_TEXT + " (not distributed)");
      case Ok(Rejected(reason)) =>
        var text := SanitizeReply(reason);
        reply := Reply("550 5.7.1 " + text);
    }
  }

  method Process(daemon: Daemon, recipients: seq<Recipient>, ingress: Ingress, raw: seq<byte>, io: nat -> PostIO)
      returns (replies: seq<string>)
    modifies daemon`log, daemon.store
    ensures (daemon.Current(), replies) == Processed(daemon.cfg, old(daemon.Current()), recipients, ingress, raw, io)
  {
    replies := [];
    for i := 0 to |recipients|
      invariant (daemon.Current(), replies)
        == Processed(daemon.cfg, old(daemon.Current()), recipients[..i], ingress, raw, io)
    {
      assert recipients[..i + 1][..i] == recipients[..i];
      var reply: string;
      match recipients[i] {
        case PostTo(list) =>
          reply := PostAndReply(daemon, list, ingress, raw, io(i));
        case BounceFor(list, address) =>
          daemon.HandleBounce(list, address, raw);
          reply := BOUNCE_REPLY;
      }
      replies := replies + [reply];
    }
    assert recipients[..|recipients|] == recipients;
  }

  method AnswerFor(protocol: Protocol, replies: seq<string>) returns (text: string)
    ensures text == ClosingReply(protocol, replies)
  {
    if protocol == Lmtp {
      text := "";
      for i := 0 to |replies|
        invariant text == Concat(replies[..i])
      {
        assert replies[..i + 1][..i] == replies[..i];
        text := text + replies[i];
      }
      assert replies[..|replies|] == replies;
    } else {
      text := if AnyOk(replies) then ACCEPTED else FAILED;
    }
  }

  /**
   * One connection, from the greeting to the end of the input or QUIT. The daemon and its sessions share
   * one table of lists.
   */
  method HandleConnection(daemon: Daemon, reader: Reader, setup: Setup, world: World) returns (out: string)
    requires setup.lists == daemon.cfg.lists
    modifies daemon`log, daemon.store, reader
    ensures (daemon.Current(), out) == Performed(
      daemon.cfg, setup, world, old(daemon.Current()), 0, "220 " + setup.host + " carriers ready\r\n",
      Behaviour(setup, START, old(reader.rest)))
  {
    out := "220 " + setup.host + " carriers ready\r\n";
    var v := START;
    var n: nat := 0;
    ghost var target := Performed(
      daemon.cfg, setup, world, daemon.Current(), 0, out, Behaviour(setup, START, reader.rest));
    while true
      invariant target == Performed(
        daemon.cfg, setup, world, daemon.Current(), n, out, Behaviour(setup, v, reader.rest))
      decreases |reader.rest|
    {
      ghost var input := reader.rest;
      var line := reader.ReadUntilLf();
      if line == [] {
        break;
      }
      var request := setup.parse(line);
      if request == Some(DataPhase) && v.recipients != [] {
        out := out + GO_AHEAD;
        var message := reader.ReadData();
        var tx := Transaction(v.helo, v.mailFrom, v.recipients, message);
        ghost var rest := Behaviour(setup, Reset(v), reader.rest);
        assert Behaviour(setup, v, input) == [Say(GO_AHEAD), Submit(tx)] + rest;
        PerformSubmit(daemon.cfg, setup, world, daemon.Current(), n, out[..|out| - |GO_AHEAD|], tx, rest);
        var replies := Process(daemon, tx.recipients, IngressFor(setup, tx), message, world(n));
        var text := AnswerFor(setup.protocol, replies);
        out := out + text;
        v := Reset(v);
        n := n + 1;
      } else {
        var (text, v') := Respond(setup, v, request);
        ghost var rest := if request == Some(Quit) then [] else Behaviour(setup, v', reader.rest);
        assert ([Say(text)] + rest)[1..] == rest;
        out := out + text;
        if request == Some(Quit) {
          break;
        }
        v := v';
      }
    }
  }

  lemma PerformSubmit(
      cfg: Config, setup: Setup, world: World, s: State, n: nat, out: string, tx: Transaction, rest: seq<Act>)
    ensures var (s', replies) := Processed(cfg, s, tx.recipients, IngressFor(setup, tx), tx.message, world(n));
      Performed(cfg, setup, world, s, n, out, [Say(GO_AHEAD), Submit(tx)] + rest)
      == Performed(cfg, setup, world, s', n + 1, out + GO_AHEAD + ClosingReply(setup.protocol, replies), rest)
  {
    var acts := [Say(GO_AHEAD), Submit(tx)] + rest;
    assert acts[1..] == [Submit(tx)] + rest;
    assert ([Submit(tx)] + rest)[1..] == rest;
  }
}
