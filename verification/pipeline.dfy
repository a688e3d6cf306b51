/**
 * A message's way through the daemon: intake checks, the two policy halves, preparation of the
 * outgoing copies, delivery, and the moderation queue. Each operation is given once as a function of
 * the state and once as the imperative code, which is proved to compute it.
 */
module Pipeline {
  import opened Wrappers
  import opened Text
  import opened Messages
  import opened Storage
  import opened SieveEngine
  import opened Policy
  import opened Lists
  import opened Transform
  import opened Sign
  import opened Verps
  import opened Bounces

  datatype BounceConfig = BounceConfig(threshold: real, hardWeight: real, softWeight: real)

  /**
   * The daemon's configuration, together with the library functions it calls: whether a message
   * parses, its view as fields and body, the author's name and address, the Subject, the text of a
   * byte string, whether a text is an IP address, and how an added field is written.
   */
  datatype Config = Config(
    lists: map<string, List>,
    engine: PolicyEngine,
    bounce: BounceConfig,
    parseable: seq<byte> -> bool,
    view: seq<byte> -> Message,
    author: seq<byte> -> (Option<string>, Option<string>),
    subject: seq<byte> -> Option<string>,
    decode: seq<byte> -> string,
    validIp: string -> bool,
    emit: Emitter)

  /** The view of a message loses nothing: fields and body are copied verbatim. */
  ghost predicate Faithful(cfg: Config) {
    forall raw :: Render(cfg.view(raw)) == raw
  }

  // ---- What the outside world answers during one operation ----

  datatype FinalizeIO = FinalizeIO(verdict: Result<AuthVerdict>, sign: SignIO)

  /** Whether the smarthost is reachable, the DKIM2 link for each recipient, and who is accepted. */
  datatype DeliverIO = DeliverIO(connects: bool, link: string -> Result<string>, accepts: string -> bool)

  datatype PostIO = PostIO(intake: Result<AuthVerdict>, finalize: FinalizeIO, deliver: DeliverIO)

  // ---- Results ----

  /** What a prepared message was made from. */
  datatype Origin = Origin(raw: seq<byte>, verdict: AuthVerdict, munged: bool)

  datatype Prepared = Prepared(
    message: seq<byte>, layers: Layers, recipients: seq<string>,
    returnPathLocal: string, listDomain: string, dkim2Original: Option<seq<byte>>, origin: Origin)

  datatype PostOutcome = Distributed(count: nat) | Held(id: int) | Discarded(reason: string) | Rejected(reason: string)

  /** Every way a post can be settled without being sent. */
  type Unsent = o: PostOutcome | !o.Distributed? witness Held(0)

  datatype Disposition = Distribute(prepared: Prepared) | NotSent(outcome: Unsent)

  /** A copy handed to the smarthost. */
  datatype Copy = Copy(
    list: List, recipient: string, returnPath: string,
    link: seq<Field>, layers: Layers, bytes: seq<byte>, origin: Origin)

  /** The history of a run: copies handed over, and posts settled. */
  datatype Entry = Sent(copy: Copy) | Done(list: string, raw: seq<byte>, outcome: PostOutcome)

  datatype State = State(tables: Tables, log: seq<Entry>)

  // ---- Built-in checks ----

  function ContextFor(cfg: Config, list: List, ingress: Ingress, raw: seq<byte>, extra: map<string, string>): Context {
    Context(map[ENV_LIST := list.name, ENV_LIST_ID := ListId(list)] + extra, ingress.mailFrom, cfg.view(raw))
  }

  predicate CarriesListId(fields: seq<Field>, id: string) {
    exists f | f in fields :: Named(f, "List-Id") && Find(ToLower(f.value), ToLower(id)) >= 0
  }

  const DISCARD := Emit(DiscardMessage, Halt, Halt)

  /** `loop.sieve` */
  function LoopScript(ctx: Context): Script {
    if CarriesListId(ctx.message.fields, EnvVar(ctx, ENV_LIST_ID)) then DISCARD else Halt
  }

  function MessageId(m: Message): Option<string> {
    FirstValue(m.fields, "Message-ID")
  }

  /** `duplicate.sieve`: without a Message-ID there is nothing to key on. */
  function DuplicateScript(ctx: Context): Script {
    match MessageId(ctx.message)
    case None => Halt
    case Some(id) => Emit(DuplicateId(id), DISCARD, Halt)
  }

  predicate Loops(cfg: Config, list: List, raw: seq<byte>) {
    CarriesListId(cfg.view(raw).fields, ListId(list))
  }

  lemma DiscardRun(sets: MembershipSets, dup: Duplicates)
    ensures Path(DISCARD, sets, dup) == Trace([DiscardMessage], Ended, dup)
    ensures FirstDecisive([DiscardMessage]) == Dropped
  {
  }

  lemma LoopRun(cfg: Config, list: List, ingress: Ingress, raw: seq<byte>)
    ensures var r := Conclude(Path(LoopScript(ContextFor(cfg, list, ingress, raw, map[])), NO_LISTS, Inert));
      r.Ok? && r.value.outcome == if Loops(cfg, list, raw) then Dropped else Keep
  {
  }

  lemma DuplicateRun(cfg: Config, list: List, ingress: Ingress, raw: seq<byte>, seen: set<(string, string)>)
    ensures var script := DuplicateScript(ContextFor(cfg, list, ingress, raw, map[]));
      var t := Path(script, NO_LISTS, Recording(list.name, seen));
      var id := MessageId(cfg.view(raw));
      && Conclude(t).Ok?
      && Conclude(t).value.outcome == (if id.Some? && (list.name, id.value) in seen then Dropped else Keep)
      && t.dup == Recording(list.name, if id.Some? then seen + {(list.name, id.value)} else seen)
  {
    var id := MessageId(cfg.view(raw));
    if id.Some? {
      var dup' := Recording(list.name, seen + {(list.name, id.value)});
      DiscardRun(NO_LISTS, dup');
      assert Path(Halt, NO_LISTS, dup') == Trace([], Ended, dup');
      var e := DuplicateId(id.value);
      var t := Path(DuplicateScript(ContextFor(cfg, list, ingress, raw, map[])), NO_LISTS, Recording(list.name, seen));
      if (list.name, id.value) in seen {
        assert t.events == [e, DiscardMessage];
        assert [e, DiscardMessage][1..] == [DiscardMessage];
      } else {
        assert t == Path(Halt, NO_LISTS, dup').(events := [e] + []);
        assert t.events == [e] && [e][1..] == [];
        assert FirstDecisive([]) == Keep;
      }
    }
  }

  // ---- Queue rows and membership ----

  function Sender(cfg: Config, raw: seq<byte>): Option<string> {
    match cfg.author(raw).1 case Some(a) => Some(ToLower(a)) case None => None
  }

  function RowFor(cfg: Config, list: List, ingress: Ingress, raw: seq<byte>): HeldRow {
    HeldRow(list.name, ingress.mailFrom, ingress.helo, ingress.remoteIp,
            if cfg.parseable(raw) then Sender(cfg, raw) else None,
            if cfg.parseable(raw) then cfg.subject(raw) else None,
            raw)
  }

  ghost function SetsOf(t: Tables, list: string): MembershipSets {
    MembershipSets(
      set k | k in t.members && k.0 == list && t.members[k].subscribed :: k.1,
      set k | k in t.members && k.0 == list && t.members[k].poster :: k.1,
      set k | k in t.members && k.0 == list && t.members[k].moderator :: k.1)
  }

  // ---- The operations as functions of the state ----

  function Munge(cfg: Config, list: List, raw: seq<byte>, wanted: bool): Option<(string, string)> {
    if wanted then Some(MungeEnv(list, cfg.author(raw).0, cfg.author(raw).1)) else None
  }

  /** The outgoing message before signing. */
  function Outgoing(cfg: Config, list: List, raw: seq<byte>, munge: bool): Message {
    Augmented(cfg.emit, list, Munge(cfg, list, raw, munge), cfg.view(raw))
  }

  ghost function PreparedFor(
      cfg: Config, t: Tables, list: List, raw: seq<byte>, v: AuthVerdict, out: Outcome, io: SignIO)
      : Result<Prepared>
  {
    match Layering(cfg.emit, io, Outgoing(cfg, list, raw, out.mungeFrom), out.noOwnDkim)
    case Err(e) => Err(e)
    case Ok(layers) => Ok(Prepared(
      Render(layers.Whole()), layers, Listing(t.Deliverable(list.name)),
      LocalPart(list.cfg.postingAddress), list.domain,
      if ShouldSignDkim2(v, out.noOwnDkim) then Some(raw) else None,
      Origin(raw, v, out.mungeFrom)))
  }

  predicate EndsHeld(d: Result<Disposition>) {
    d.Ok? && d.value.NotSent? && d.value.outcome.Held?
  }

  /** The only table a disposition writes to is the queue, and only when the message is held. */
  function Queued(t: Tables, row: HeldRow, d: Result<Disposition>): Tables {
    if EndsHeld(d) then t.Enqueue(row) else t
  }

  function HoldAs(t: Tables): Disposition {
    NotSent(Held(t.lastId + 1))
  }

  /** What the after half's outcome leads to. */
  ghost function Concluded(cfg: Config, t: Tables, list: List, raw: seq<byte>, v: AuthVerdict, out: Outcome, io: SignIO)
      : Result<Disposition>
  {
    match out.decision
    case Approve =>
      (match PreparedFor(cfg, t, list, raw, v, out, io)
       case Err(e) => Err(e)
       case Ok(p) => Ok(Distribute(p)))
    case Moderate => Ok(HoldAs(t))
    case Discard => Ok(NotSent(Discarded("discarded by after-policy")))
    case Reject(reason) => Ok(NotSent(Rejected(reason)))
  }

  /** The after half of the policy chain, and what it leads to. */
  ghost function Finalized(cfg: Config, t: Tables, list: List, ingress: Ingress, raw: seq<byte>, io: FinalizeIO)
      : Result<Disposition>
  {
    match io.verdict
    case Err(e) => Err(e)
    case Ok(v) =>
      match After(cfg.engine, list.domain, ContextFor(cfg, list, ingress, raw, EnvPairs(v)), SetsOf(t, list.name))
      case Err(e) => Err(e)
      case Ok(out) => Concluded(cfg, t, list, raw, v, out, io.sign)
  }

  const LOOP_REASON := "message already carries this List-Id (loop)"
  const DUPLICATE_REASON := "duplicate message (Message-ID already seen)"

  /** Why the built-in checks drop a message, if they do. */
  function Screened(cfg: Config, t: Tables, list: List, raw: seq<byte>): Option<string> {
    var id := MessageId(cfg.view(raw));
    if Loops(cfg, list, raw) then Some(LOOP_REASON)
    else if id.Some? && (list.name, id.value) in t.seen then Some(DUPLICATE_REASON)
    else None
  }

  /** The tables once a message that was not dropped has been recorded. */
  function Recorded(cfg: Config, t: Tables, list: List, raw: seq<byte>): Tables {
    match MessageId(cfg.view(raw)) case Some(id) => t.RecordMessage(list.name, id) case None => t
  }

  /** What the before half's decision leads to. */
  ghost function Acted(
      cfg: Config, t: Tables, list: List, ingress: Ingress, raw: seq<byte>, d: Decision, io: FinalizeIO)
      : Result<Disposition>
  {
    match d
    case Approve => Finalized(cfg, t, list, ingress, raw, io)
    case Moderate => Ok(HoldAs(t))
    case Discard => Ok(NotSent(Discarded("discarded by policy")))
    case Reject(reason) => Ok(NotSent(Rejected(reason)))
  }

  /** The before half of the policy chain, and what it leads to. */
  ghost function Judged(cfg: Config, t: Tables, list: List, ingress: Ingress, raw: seq<byte>, io: PostIO)
      : Result<Disposition>
  {
    match io.intake
    case Err(e) => Err(e)
    case Ok(v) =>
      var ctx := ContextFor(cfg, list, ingress, raw, EnvPairs(v));
      match Before(cfg.engine, list.cfg.policy, list.domain, ctx, SetsOf(t, list.name))
      case Err(e) => Err(e)
      case Ok(out) => Acted(cfg, t, list, ingress, raw, out.decision, io.finalize)
  }

  /** Whether the message gets as far as being recorded. */
  predicate Enters(cfg: Config, t: Tables, list: List, raw: seq<byte>) {
    cfg.parseable(raw) && Screened(cfg, t, list, raw).None?
  }

  function Entered(cfg: Config, t: Tables, list: List, raw: seq<byte>): Tables {
    if Enters(cfg, t, list, raw) then Recorded(cfg, t, list, raw) else t
  }

  ghost function TakenIn(cfg: Config, t: Tables, list: List, ingress: Ingress, raw: seq<byte>, io: PostIO)
      : Result<Disposition>
  {
    if !cfg.parseable(raw) then Err(Unparseable)
    else match Screened(cfg, t, list, raw)
      case Some(reason) => Ok(NotSent(Discarded(reason)))
      case None => Judged(cfg, Recorded(cfg, t, list, raw), list, ingress, raw, io)
  }

  /** The link a delivery carries: none unless the inbound message takes part in a DKIM2 chain. */
  function LinkFor(cfg: Config, p: Prepared, io: DeliverIO, recipient: string): Result<seq<Field>> {
    if p.dkim2Original.None? then Ok([])
    else match io.link(recipient)
      case Err(e) => Err(e)
      case Ok(v) => Ok(LinkFields(cfg.emit, v))
  }

  function CopyFor(list: List, p: Prepared, recipient: string, link: seq<Field>): Copy {
    Copy(list, recipient, Verp(p.returnPathLocal, p.listDomain, recipient),
         link, p.layers, RenderFields(link) + p.message, p.origin)
  }

  /** One copy per recipient, in order; a signing failure ends delivery where it happens. */
  function CopiesFor(cfg: Config, list: List, p: Prepared, io: DeliverIO, recipients: seq<string>)
      : (seq<Copy>, Result<nat>)
  {
    if recipients == [] then ([], Ok(0))
    else
      match LinkFor(cfg, p, io, recipients[0])
      case Err(e) => ([], Err(e))
      case Ok(link) =>
        var (copies, rest) := CopiesFor(cfg, list, p, io, recipients[1..]);
        var r := match rest
          case Err(e) => Err(e)
          case Ok(n) => Ok(n + if io.accepts(recipients[0]) then 1 else 0);
        ([CopyFor(list, p, recipients[0], link)] + copies, r)
  }

  function Delivered(cfg: Config, list: List, p: Prepared, io: DeliverIO): (seq<Copy>, Result<nat>) {
    if p.recipients == [] then ([], Ok(0))
    else if !io.connects then ([], Err(Error.Delivery))
    else CopiesFor(cfg, list, p, io, p.recipients)
  }

  function SentEntries(copies: seq<Copy>): (r: seq<Entry>)
    ensures |r| == |copies|
    ensures forall i :: 0 <= i < |r| ==> r[i] == Sent(copies[i])
  {
    seq(|copies|, i requires 0 <= i < |copies| => Sent(copies[i]))
  }

  lemma SentStep(before: seq<Entry>, sent: seq<Copy>, copy: Copy, rest: seq<Copy>)
    ensures sent + ([copy] + rest) == (sent + [copy]) + rest
    ensures (before + SentEntries(sent)) + [Sent(copy)] == before + SentEntries(sent + [copy])
  {
  }

  /** The copies that carrying out a disposition hands over. */
  function CopiesOf(cfg: Config, list: List, d: Result<Disposition>, io: DeliverIO): seq<Copy> {
    match d
    case Ok(Distribute(p)) => Delivered(cfg, list, p, io).0
    case _ => []
  }

  /** How it ends. */
  function ResultOf(cfg: Config, list: List, d: Result<Disposition>, io: DeliverIO): Result<PostOutcome> {
    match d
    case Err(e) => Err(e)
    case Ok(NotSent(outcome)) => Ok(outcome)
    case Ok(Distribute(p)) =>
      match Delivered(cfg, list, p, io).1
      case Err(e) => Err(e)
      case Ok(n) => Ok(Distributed(n))
  }

  function DoneEntries(list: List, raw: seq<byte>, r: Result<PostOutcome>): seq<Entry> {
    if r.Ok? then [Done(list.name, raw, r.value)] else []
  }

  /** Carry out a disposition: deliver what is to be sent, and note how the post was settled. */
  function Settled(cfg: Config, s: State, list: List, raw: seq<byte>, d: Result<Disposition>, io: DeliverIO)
      : (State, Result<PostOutcome>)
  {
    var r := ResultOf(cfg, list, d, io);
    (s.(log := s.log + SentEntries(CopiesOf(cfg, list, d, io)) + DoneEntries(list, raw, r)), r)
  }

  const UNPARSEABLE: Disposition := NotSent(Discarded("failed to parse RFC 5322 message"))

  /** A message that does not parse is accepted and dropped. */
  ghost function PostDisposition(cfg: Config, t: Tables, list: List, ingress: Ingress, raw: seq<byte>, io: PostIO)
      : Result<Disposition>
  {
    var d := TakenIn(cfg, t, list, ingress, raw, io);
    if d == Err(Unparseable) then Ok(UNPARSEABLE) else d
  }

  /** An inbound post to one list. */
  ghost function Handled(cfg: Config, s: State, list: List, ingress: Ingress, raw: seq<byte>, io: PostIO)
      : (State, Result<PostOutcome>)
  {
    var d := PostDisposition(cfg, s.tables, list, ingress, raw, io);
    var t := Queued(Entered(cfg, s.tables, list, raw), RowFor(cfg, list, ingress, raw), d);
    Settled(cfg, s.(tables := t), list, raw, d, io.deliver)
  }

  function IngressOf(cfg: Config, row: HeldRow): Ingress {
    Ingress(if cfg.validIp(row.remoteIp) then row.remoteIp else "127.0.0.1", row.helo, row.mailFrom)
  }

  /** A moderator's approval; the queue entry is consumed unless an error comes first. */
  ghost function ApprovedById(
      cfg: Config, s: State, id: int, list: Option<List>, finalize: FinalizeIO, deliver: DeliverIO)
      : (State, Result<PostOutcome>)
  {
    if id !in s.tables.queue || list.None? || list.value.name != s.tables.queue[id].list then (s, Err(NotFound))
    else
      var row := s.tables.queue[id];
      var ingress := IngressOf(cfg, row);
      var d := Finalized(cfg, s.tables, list.value, ingress, row.raw, finalize);
      var t := Queued(s.tables, RowFor(cfg, list.value, ingress, row.raw), d);
      var (s', r) := Settled(cfg, s.(tables := t), list.value, row.raw, d, deliver);
      (if r.Ok? then s'.(tables := s'.tables.DeleteHeld(id)) else s', r)
  }

  function Weight(cfg: Config, kind: BounceKind): Option<real> {
    match kind
    case Hard => Some(cfg.bounce.hardWeight)
    case Soft => Some(cfg.bounce.softWeight)
    case Unknown => None
  }

  function KindOf(cfg: Config, raw: seq<byte>): BounceKind {
    FirstKind(Lines(cfg.decode(raw)))
  }

  /** A message to a bounce address. */
  function Bounced(cfg: Config, s: State, list: List, address: string, raw: seq<byte>): State {
    match Weight(cfg, KindOf(cfg, raw))
    case None => s
    case Some(w) => s.(tables := s.tables.RecordBounce(list.name, address, w, cfg.bounce.threshold))
  }

  // ---- The daemon ----

  class Daemon {
    const cfg: Config
    const store: Store
    ghost var log: seq<Entry>

    ghost function Current(): State
      reads this, store
    {
      State(store.Content(), log)
    }

    constructor (cfg: Config, store: Store)
      ensures this.cfg == cfg && this.store == store && Current() == State(store.Content(), [])
    {
      this.cfg, this.store, log := cfg, store, [];
    }

    /** Collect each role from its own flag. */
    method MembershipSetsFor(list: string) returns (sets: MembershipSets)
      ensures sets == SetsOf(store.Content(), list)
    {
      var subscribers, posters, moderators: set<string> := {}, {}, {};
      ghost var t := store.Content();
      var rest := store.members.Keys;
      ghost var done: set<MemberKey> := {};
      while rest != {}
        invariant done !! rest && done + rest == t.members.Keys
        invariant subscribers == set k | k in done && k.0 == list && t.members[k].subscribed :: k.1
        invariant posters == set k | k in done && k.0 == list && t.members[k].poster :: k.1
        invariant moderators == set k | k in done && k.0 == list && t.members[k].moderator :: k.1
        decreases rest
      {
        var key :| key in rest;
        rest, done := rest - {key}, done + {key};
        if key.0 == list {
          var row := store.members[key];
          if row.subscribed { subscribers := subscribers + {key.1}; }
          if row.poster { posters := posters + {key.1}; }
          if row.moderator { moderators := moderators + {key.1}; }
        }
      }
      assert done == t.members.Keys;
      sets := MembershipSets(subscribers, posters, moderators);
    }

    method Hold(list: List, ingress: Ingress, raw: seq<byte>) returns (d: Disposition)
      modifies store`queue, store`lastId
      ensures store.Content() == old(store.Content()).Enqueue(RowFor(cfg, list, ingress, raw))
      ensures d == HoldAs(old(store.Content()))
    {
      var id := store.EnqueueHeld(RowFor(cfg, list, ingress, raw));
      d := NotSent(Held(id));
    }

    /** Edit, sign and seal the copy, and gather its recipients. */
    method Prepare(list: List, raw: seq<byte>, v: AuthVerdict, out: Outcome, io: SignIO) returns (r: Result<Prepared>)
      ensures r == PreparedFor(cfg, store.Content(), list, raw, v, out, io)
    {
      var recipients := store.Subscribers(list.name);
      var editor := new Editor(cfg.view(raw), cfg.emit);
      if out.mungeFrom {
        var env := MungeEnv(list, cfg.author(raw).0, cfg.author(raw).1);
        editor.MungeFrom(env.0, env.1);
      }
      var prefix := SubjectPrefixEnv(list);
      if prefix.Some? {
        editor.SubjectPrefix(prefix.value);
      }
      assert editor.fields == Edited(cfg.emit, list, Munge(cfg, list, raw, out.mungeFrom), cfg.view(raw).fields);
      editor.ListHeaders(ListHeaderEnv(list));
      var augmented := editor.Content();
      assert augmented == Outgoing(cfg, list, raw, out.mungeFrom);
      var layers, message := SignAndSeal(cfg.emit, io, augmented, out.noOwnDkim);
      if layers.Err? {
        return Err(layers.error);
      }
      var original := if ShouldSignDkim2(v, out.noOwnDkim) then Some(raw) else None;
      r := Ok(Prepared(message, layers.value, recipients, LocalPart(list.cfg.postingAddress), list.domain,
                       original, Origin(raw, v, out.mungeFrom)));
    }

    /** Act on the after half's outcome. */
    method Conclude(list: List, ingress: Ingress, raw: seq<byte>, v: AuthVerdict, out: Outcome, io: SignIO)
        returns (r: Result<Disposition>)
      modifies store`queue, store`lastId
      ensures r == Concluded(cfg, old(store.Content()), list, raw, v, out, io)
      ensures store.Content() == Queued(old(store.Content()), RowFor(cfg, list, ingress, raw), r)
    {
      match out.decision {
        case Approve =>
          var p := Prepare(list, raw, v, out, io);
          if p.Err? {
            return Err(p.error);
          }
          r := Ok(Distribute(p.value));
        case Moderate =>
          var held := Hold(list, ingress, raw);
          r := Ok(held);
        case Discard => r := Ok(NotSent(Discarded("discarded by after-policy")));
        case Reject(reason) => r := Ok(NotSent(Rejected(reason)));
      }
    }

    /** The after half of the policy chain and, if it approves, preparation of the copies. */
    method Finalize(list: List, ingress: Ingress, raw: seq<byte>, io: FinalizeIO) returns (r: Result<Disposition>)
      modifies store`queue, store`lastId
      ensures r == Finalized(cfg, old(store.Content()), list, ingress, raw, io)
      ensures store.Content() == Queued(old(store.Content()), RowFor(cfg, list, ingress, raw), r)
    {
      var sets := MembershipSetsFor(list.name);
      if io.verdict.Err? {
        return Err(io.verdict.error);
      }
      var v := io.verdict.value;
      var out := EvaluateAfter(cfg.engine, list.domain, ContextFor(cfg, list, ingress, raw, EnvPairs(v)), sets);
      if out.Err? {
        return Err(out.error);
      }
      r := Conclude(list, ingress, raw, v, out.value, io.sign);
    }

    /** The built-in loop and duplicate checks; the reason if the message is to be dropped. */
    method Screen(list: List, ingress: Ingress, raw: seq<byte>) returns (dropped: Option<string>)
      modifies store`seen
      ensures dropped == Screened(cfg, old(store.Content()), list, raw)
      ensures store.Content() ==
        if dropped.Some? then old(store.Content()) else Recorded(cfg, old(store.Content()), list, raw)
    {
      var ctx := ContextFor(cfg, list, ingress, raw, map[]);
      LoopRun(cfg, list, ingress, raw);
      var looped := Run(LoopScript(ctx), NO_LISTS, NoDuplicates);
      if looped.value.outcome == Dropped {
        return Some(LOOP_REASON);
      }
      DuplicateRun(cfg, list, ingress, raw, store.seen);
      var repeated := Run(DuplicateScript(ctx), NO_LISTS, StoreDuplicates(store, list.name));
      if repeated.value.outcome == Dropped {
        assert store.seen == old(store.seen);
        return Some(DUPLICATE_REASON);
      }
      dropped := None;
    }

    /** Act on the before half's decision. */
    method Act(list: List, ingress: Ingress, raw: seq<byte>, d: Decision, io: FinalizeIO)
        returns (r: Result<Disposition>)
      modifies store`queue, store`lastId
      ensures r == Acted(cfg, old(store.Content()), list, ingress, raw, d, io)
      ensures store.Content() == Queued(old(store.Content()), RowFor(cfg, list, ingress, raw), r)
    {
      match d {
        case Approve =>
          r := Finalize(list, ingress, raw, io);
        case Moderate =>
          var held := Hold(list, ingress, raw);
          r := Ok(held);
        case Discard => r := Ok(NotSent(Discarded("discarded by policy")));
        case Reject(reason) => r := Ok(NotSent(Rejected(reason)));
      }
    }

    method Judge(list: List, ingress: Ingress, raw: seq<byte>, io: PostIO) returns (r: Result<Disposition>)
      modifies store`queue, store`lastId
      ensures r == Judged(cfg, old(store.Content()), list, ingress, raw, io)
      ensures store.Content() == Queued(old(store.Content()), RowFor(cfg, list, ingress, raw), r)
    {
      var sets := MembershipSetsFor(list.name);
      if io.intake.Err? {
        return Err(io.intake.error);
      }
      var ctx := ContextFor(cfg, list, ingress, raw, EnvPairs(io.intake.value));
      var out := EvaluateBefore(cfg.engine, list.cfg.policy, list.domain, ctx, sets);
      if out.Err? {
        return Err(out.error);
      }
      r := Act(list, ingress, raw, out.value.decision, io.finalize);
    }

    method Intake(list: List, ingress: Ingress, raw: seq<byte>, io: PostIO) returns (r: Result<Disposition>)
      modifies store`seen, store`queue, store`lastId
      ensures r == TakenIn(cfg, old(store.Content()), list, ingress, raw, io)
      ensures store.Content() ==
        Queued(Entered(cfg, old(store.Content()), list, raw), RowFor(cfg, list, ingress, raw), r)
    {
      if !cfg.parseable(raw) {
        return Err(Unparseable);
      }
      var dropped := Screen(list, ingress, raw);
      if dropped.Some? {
        return Ok(NotSent(Discarded(dropped.value)));
      }
      r := Judge(list, ingress, raw, io);
    }

    /** Relay one copy per recipient; counts the accepted ones. */
    method SendAll(list: List, p: Prepared, io: DeliverIO) returns (r: Result<nat>)
      modifies this`log
      ensures (log, r) == (old(log) + SentEntries(CopiesFor(cfg, list, p, io, p.recipients).0),
                           CopiesFor(cfg, list, p, io, p.recipients).1)
    {
      var accepted: nat := 0;
      ghost var whole := CopiesFor(cfg, list, p, io, p.recipients);
      ghost var sent: seq<Copy> := [];
      assert p.recipients[0..] == p.recipients;
      assert [] + whole.0 == whole.0;
      var i := 0;
      while i < |p.recipients|
        invariant 0 <= i <= |p.recipients|
        invariant log == old(log) + SentEntries(sent)
        invariant Progress(whole, sent, accepted, CopiesFor(cfg, list, p, io, p.recipients[i..]))
      {
        var recipient := p.recipients[i];
        assert p.recipients[i..][0] == recipient && p.recipients[i..][1..] == p.recipients[i + 1..];
        var link := LinkFor(cfg, p, io, recipient);
        if link.Err? {
          assert sent + [] == sent;
          return Err(link.error);
        }
        ghost var copy := CopyFor(list, p, recipient, link.value);
        SentStep(old(log), sent, copy, CopiesFor(cfg, list, p, io, p.recipients[i + 1..]).0);
        log := log + [Sent(copy)];
        sent := sent + [copy];
        if io.accepts(recipient) {
          accepted := accepted + 1;
        }
        i := i + 1;
      }
      assert sent + [] == sent;
      r := Ok(accepted);
    }

    static ghost predicate Progress(
        whole: (seq<Copy>, Result<nat>), sent: seq<Copy>, accepted: nat, rest: (seq<Copy>, Result<nat>))
    {
      && whole.0 == sent + rest.0
      && whole.1 == match rest.1 case Err(e) => Err(e) case Ok(n) => Ok(accepted + n)
    }

    method Deliver(list: List, p: Prepared, io: DeliverIO) returns (r: Result<nat>)
      modifies this`log
      ensures (log, r) == (old(log) + SentEntries(Delivered(cfg, list, p, io).0), Delivered(cfg, list, p, io).1)
    {
      if p.recipients == [] {
        assert log == log + SentEntries([]);
        return Ok(0);
      }
      if !io.connects {
        assert log == log + SentEntries([]);
        return Err(Error.Delivery);
      }
      r := SendAll(list, p, io);
    }

    method Settle(list: List, raw: seq<byte>, d: Result<Disposition>, io: DeliverIO) returns (r: Result<PostOutcome>)
      modifies this`log
      ensures (Current(), r) == Settled(cfg, old(Current()), list, raw, d, io)
    {
      if d.Err? {
        assert log == log + SentEntries([]) + [];
        return Err(d.error);
      }
      match d.value {
        case Distribute(p) =>
          var count := Deliver(list, p, io);
          if count.Err? {
            assert log == log + [];
            return Err(count.error);
          }
          log := log + [Done(list.name, raw, Distributed(count.value))];
          r := Ok(Distributed(count.value));
        case NotSent(outcome) =>
          assert log + SentEntries([]) == log;
          log := log + [Done(list.name, raw, outcome)];
          r := Ok(outcome);
      }
    }

    method HandleOne(list: List, ingress: Ingress, raw: seq<byte>, io: PostIO) returns (r: Result<PostOutcome>)
      modifies this`log, store
      ensures (Current(), r) == Handled(cfg, old(Current()), list, ingress, raw, io)
    {
      var d := Intake(list, ingress, raw, io);
      if d == Err(Unparseable) {
        d := Ok(UNPARSEABLE);
      }
      r := Settle(list, raw, d, io.deliver);
    }

    /** `carriers moderate approve <id>` */
    method Approve(id: int, finalize: FinalizeIO, deliver: DeliverIO)
        returns (r: Result<PostOutcome>, ghost found: Option<List>)
      modifies this`log, store
      ensures (Current(), r) == ApprovedById(cfg, old(Current()), id, found, finalize, deliver)
      ensures id in old(store.queue) ==> match found
        case Some(list) => list in cfg.lists.Values && list.name == old(store.queue)[id].list
        case None => forall key :: key in cfg.lists ==> cfg.lists[key].name != old(store.queue)[id].list
    {
      found := None;
      var held := store.GetHeld(id);
      if held.None? {
        return Err(NotFound), None;
      }
      var row := held.value;
      var list := ListByName(cfg.lists, row.list);
      found := list;
      if list.None? {
        return Err(NotFound), None;
      }
      var d := Finalize(list.value, IngressOf(cfg, row), row.raw, finalize);
      r := Settle(list.value, row.raw, d, deliver);
      if r.Ok? {
        var _ := store.DeleteHeld(id);
      }
    }

    /** `carriers moderate reject <id>` */
    method Reject(id: int) returns (found: bool)
      modifies store
      ensures Current() == old(Current()).(tables := old(Current()).tables.DeleteHeld(id))
      ensures found <==> id in old(store.queue)
    {
      found := store.DeleteHeld(id);
    }

    method HandleBounce(list: List, address: string, raw: seq<byte>)
      modifies store
      ensures Current() == Bounced(cfg, old(Current()), list, address, raw)
    {
      var kind := Classify(cfg.decode(raw));
      var weight := Weight(cfg, kind);
      if weight.Some? {
        var _ := store.RecordBounce(list.name, address, weight.value, cfg.bounce.threshold);
      }
    }
  }
}
