/** From a delivered copy to the member row that its bounce is charged to. */
module AttributionLaws {
  import opened Wrappers
  import opened Text
  import opened Messages
  import opened Storage
  import opened Lists
  import opened Verps
  import opened Bounces
  import Recipients
  import opened Pipeline
  import opened Lifecycle
  import opened DeliveryLaws
  import Framing
  import Sessions
  import SessionLaws
  import opened Sign

  /** Copies only ever go to canonical addresses, the ones the members table is keyed by. */
  lemma {:induction false} RecipientsCanonical(cfg: Config, steps: seq<Step>)
    ensures forall e :: e in Reached(cfg, steps).log && e.Sent? ==> Canonical(e.copy.recipient) == e.copy.recipient
  {
    if steps != [] {
      var init, step := steps[..|steps| - 1], steps[|steps| - 1];
      var s := Reached(cfg, init);
      RecipientsCanonical(cfg, init);
      forall e | e in Reached(cfg, steps).log && e.Sent?
        ensures Canonical(e.copy.recipient) == e.copy.recipient
      {
        SentBefore(cfg, s, step, e);
        if e !in s.log { NewRecipientCanonical(cfg, init, step, e.copy); }
      }
    }
  }

  lemma NewRecipientCanonical(cfg: Config, init: seq<Step>, step: Step, c: Copy)
    requires c in StepCopies(cfg, Reached(cfg, init), step)
    ensures Canonical(c.recipient) == c.recipient
  {
    var s := Reached(cfg, init);
    StepCopiesSafe(cfg, s, step);
    ReachedWellFormed(cfg, init);
    assert Accountable(cfg, s, step, c);
  }

  /** A row after one more counted bounce. */
  function Charged(cfg: Config, row: MemberRow, w: real): MemberRow {
    row.(score := row.score + w, disabled := row.disabled || row.score + w >= cfg.bounce.threshold)
  }

  /** Some line is a status line of the class, and none before it is one of either class. */
  ghost predicate Reports(lines: seq<string>, digit: char) {
    exists i | 0 <= i < |lines| ::
      && StatusLine(lines[i], digit)
      && forall j :: 0 <= j < i ==> !StatusLine(lines[j], '4') && !StatusLine(lines[j], '5')
  }

  lemma {:induction false} FirstReport(lines: seq<string>)
    ensures match FirstKind(lines)
      case Hard => Reports(lines, '5')
      case Soft => Reports(lines, '4')
      case Unknown => forall l :: l in lines ==> !StatusLine(l, '4') && !StatusLine(l, '5')
  {
    UnknownIff(lines);
    if lines != [] {
      LineKindIff(lines[0]);
      if LineKind(lines[0]) == Unknown {
        FirstReport(lines[1..]);
        if FirstKind(lines) != Unknown {
          var digit := if FirstKind(lines) == Hard then '5' else '4';
          ReportsLater(lines, digit);
        }
      }
    }
  }

  lemma ReportsLater(lines: seq<string>, digit: char)
    requires lines != [] && Reports(lines[1..], digit)
    requires !StatusLine(lines[0], '4') && !StatusLine(lines[0], '5')
    ensures Reports(lines, digit)
  {
    var tail := lines[1..];
    var i :| 0 <= i < |tail| && StatusLine(tail[i], digit)
      && forall j :: 0 <= j < i ==> !StatusLine(tail[j], '4') && !StatusLine(tail[j], '5');
    assert lines[i + 1] == tail[i];
    assert forall j :: 0 <= j < i + 1 ==> j == 0 || lines[j] == tail[j - 1];
  }

  /**
   * What a report is charged, read off its lines: the hard weight if its first status line of class 4 or
   * 5 is one of class 5, the soft weight if it is one of class 4, and nothing if it has none.
   */
  lemma ReportIsWeighed(cfg: Config, raw: seq<byte>)
    ensures var (lines, w) := (Lines(cfg.decode(raw)), Weight(cfg, KindOf(cfg, raw)));
      || (Reports(lines, '5') && w == Some(cfg.bounce.hardWeight))
      || (Reports(lines, '4') && w == Some(cfg.bounce.softWeight))
      || ((forall l :: l in lines ==> !StatusLine(l, '4') && !StatusLine(l, '5')) && w == None)
    ensures var lines := Lines(cfg.decode(raw)); !(Reports(lines, '4') && Reports(lines, '5'))
  {
    var lines := Lines(cfg.decode(raw));
    FirstReport(lines);
    forall l: string ensures !(StatusLine(l, '4') && StatusLine(l, '5')) { LineKindIff(l); }
  }

  /** The state after a failure report against a row: that row charged, if it is there, and nothing else. */
  function AfterReport(cfg: Config, s: State, k: MemberKey, kind: BounceKind): State {
    if k !in s.tables.members || kind == Unknown then s
    else s.(tables := s.tables.(members :=
      s.tables.members[k := Charged(cfg, s.tables.members[k], Weight(cfg, kind).value)]))
  }

  /** A failure report charges the row it names and no other; anything else changes nothing. */
  lemma ChargesOnlyItsRow(cfg: Config, s: State, list: List, address: string, dsn: seq<byte>)
    requires Canonical(address) == address
    ensures Bounced(cfg, s, list, address, dsn) == AfterReport(cfg, s, (list.name, address), KindOf(cfg, dsn))
  {
  }

  /**
   * End to end, for any copy of any run from an attributing list to an attributable recipient: what
   * is sent to the copy's return path is taken for a bounce of that list and that subscriber, and
   * the subscriber's address is the key of the row that the bounce then charges.
   */
  lemma BounceFindsItsRow(cfg: Config, steps: seq<Step>, c: Copy)
    requires Sent(c) in Reached(cfg, steps).log
    requires Recipients.WellKeyed(cfg.lists) && Recipients.HoldsItsKey(cfg.lists, c.list)
    requires Recipients.Attributing(c.list) && Attributable(c.recipient)
    ensures Recipients.ClassifyRecipient(cfg.lists, c.returnPath) == Some(Recipients.BounceFor(c.list, c.recipient))
    ensures Canonical(c.recipient) == c.recipient
  {
    NoUnauthenticatedSigning(cfg, steps);
    RecipientsCanonical(cfg, steps);
    assert SafeCopy(cfg, Sent(c).copy);
    Recipients.AttributesIf(cfg.lists, c.list, c.recipient);
  }

  /**
   * What the bounce does: whatever the state by then, a message handled for the copy's return path
   * charges the subscriber's row if it is a failure report and the row is still there, and
   * changes nothing else.
   */
  lemma BounceChargesItsRow(
      cfg: Config, steps: seq<Step>, c: Copy, s: State, ingress: Ingress, dsn: seq<byte>, io: PostIO)
    requires Sent(c) in Reached(cfg, steps).log
    requires Recipients.WellKeyed(cfg.lists) && Recipients.HoldsItsKey(cfg.lists, c.list)
    requires Recipients.Attributing(c.list) && Attributable(c.recipient)
    ensures var to := Recipients.ClassifyRecipient(cfg.lists, c.returnPath);
      && to.Some?
      && Sessions.ProcessedOne(cfg, s, to.value, ingress, dsn, io)
           == (AfterReport(cfg, s, (c.list.name, c.recipient), KindOf(cfg, dsn)), Sessions.BOUNCE_REPLY)
  {
    BounceFindsItsRow(cfg, steps, c);
    ChargesOnlyItsRow(cfg, s, c.list, c.recipient, dsn);
  }

  lemma ReportCharges(cfg: Config, later: seq<Step>, list: List, address: string, dsn: seq<byte>)
    requires Canonical(address) == address
    ensures Reached(cfg, later + [Bounce(list, address, dsn)])
         == AfterReport(cfg, Reached(cfg, later), (list.name, address), KindOf(cfg, dsn))
  {
    ReachedLast(cfg, later, Bounce(list, address, dsn));
    ChargesOnlyItsRow(cfg, Reached(cfg, later), list, address, dsn);
  }

  /** The lifecycle steps of a session that hands on one failure report. */
  lemma ReportIsOneStep(
      cfg: Config, setup: Sessions.Setup, world: Sessions.World, n: nat, helo: string, sender: string, to: string,
      dsn: seq<byte>, list: List, address: string)
    requires Recipients.ClassifyRecipient(setup.lists, to) == Some(Recipients.BounceFor(list, address))
    ensures SessionLaws.StepsOf(setup, world, n,
        SessionLaws.TransactionsOf(setup, helo, [SessionLaws.Mailing(sender, [to], dsn)]))
      == [Bounce(list, address, dsn)]
  {
    var m := SessionLaws.Mailing(sender, [to], dsn);
    var one := [Recipients.BounceFor(list, address)];
    assert [to][1..] == [];
    assert SessionLaws.Accepted(setup.lists, []) == [];
    assert SessionLaws.Accepted(setup.lists, [to]) == one + [];
    assert one + [] == one;
    var tx := SessionLaws.TransactionOf(setup, helo, m);
    assert SessionLaws.TransactionsOf(setup, helo, [m]) == [tx];
    assert one[..0] == [] && [tx][1..] == [];
    var ingress := Sessions.IngressFor(setup, tx);
    assert SessionLaws.StepsFor([], ingress, dsn, world(n)) == [];
    assert SessionLaws.StepsFor(one, ingress, dsn, world(n)) == [] + [Bounce(list, address, dsn)];
    assert SessionLaws.StepsOf(setup, world, n + 1, []) == [];
  }

  lemma ReportIsAcceptable(setup: Sessions.Setup, sender: string, to: string, dsn: seq<byte>)
    requires Recipients.ClassifyRecipient(setup.lists, to).Some? && Framing.Terminated(dsn)
    ensures SessionLaws.Acceptable(setup, SessionLaws.Mailing(sender, [to], dsn))
  {
    assert SessionLaws.Accepted(setup.lists, [to])
        == SessionLaws.Known(setup.lists, to) + SessionLaws.Accepted(setup.lists, [to][1..]);
  }

  /** A submitted report is one more step of the run. */
  lemma ReportIsHandled(
      cfg: Config, later: seq<Step>, setup: Sessions.Setup, world: Sessions.World, write: SessionLaws.Printer,
      n: nat, out: string, v: Sessions.Vars, sender: string, to: string, dsn: seq<byte>, list: List, address: string)
    requires Recipients.ClassifyRecipient(setup.lists, to) == Some(Recipients.BounceFor(list, address))
    requires Framing.Terminated(dsn)
    requires SessionLaws.Speaks(setup.parse, write, SessionLaws.RequestsOf(SessionLaws.Mailing(sender, [to], dsn)))
    ensures var input := SessionLaws.PrintAll(write, [SessionLaws.Mailing(sender, [to], dsn)]);
      Sessions.Performed(cfg, setup, world, Reached(cfg, later), n, out, Sessions.Behaviour(setup, v, input)).0
        == Reached(cfg, later + [Bounce(list, address, dsn)])
  {
    ReportIsAcceptable(setup, sender, to, dsn);
    SessionLaws.MailingsAreRun(
      cfg, setup, world, write, later, n, out, v, [SessionLaws.Mailing(sender, [to], dsn)]);
    ReportIsOneStep(cfg, setup, world, n, v.helo, sender, to, dsn, list, address);
  }

  /**
   * All the way from the wire: whatever the daemon has done in between, a client that submits a report to
   * the copy's return path leaves the tables with that subscriber's row charged, and nothing else changed.
   */
  lemma SubmittedBounceChargesItsRow(
      cfg: Config, steps: seq<Step>, c: Copy, later: seq<Step>, setup: Sessions.Setup, world: Sessions.World,
      write: SessionLaws.Printer, n: nat, out: string, v: Sessions.Vars, sender: string, dsn: seq<byte>)
    requires Sent(c) in Reached(cfg, steps).log
    requires Recipients.WellKeyed(cfg.lists) && Recipients.HoldsItsKey(cfg.lists, c.list)
    requires Recipients.Attributing(c.list) && Attributable(c.recipient)
    requires setup.lists == cfg.lists && Framing.Terminated(dsn)
    requires var m := SessionLaws.Mailing(sender, [c.returnPath], dsn);
      SessionLaws.Speaks(setup.parse, write, SessionLaws.RequestsOf(m))
    ensures var input := SessionLaws.PrintAll(write, [SessionLaws.Mailing(sender, [c.returnPath], dsn)]);
      Sessions.Performed(cfg, setup, world, Reached(cfg, later), n, out, Sessions.Behaviour(setup, v, input)).0
        == AfterReport(cfg, Reached(cfg, later), (c.list.name, c.recipient), KindOf(cfg, dsn))
  {
    BounceFindsItsRow(cfg, steps, c);
    ReportIsHandled(cfg, later, setup, world, write, n, out, v, sender, c.returnPath, dsn, c.list, c.recipient);
    ReportCharges(cfg, later, c.list, c.recipient, dsn);
  }
}
