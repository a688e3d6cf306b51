/** The bounce ledger over whole runs: what a member's score and disabled flag amount to. */
module Ledger {
  import opened Wrappers
  import opened Storage
  import opened Lists
  import opened Messages
  import opened Bounces
  import opened Pipeline
  import opened Lifecycle

  /** The weight that a step charges to a member, if it is a counted bounce for that member. */
  function Charge(cfg: Config, step: Step, k: MemberKey): Option<real> {
    if step.Bounce? && Key(step.list.name, step.address) == k then Weight(cfg, KindOf(cfg, step.raw)) else None
  }

  /** How one step changes the charges. Adding a present member again changes roles only. */
  function ChargesAfter(cfg: Config, before: Option<seq<real>>, step: Step, k: MemberKey): Option<seq<real>> {
    if step.Add? && Key(step.name, step.address) == k then (if before.None? then Some([]) else before)
    else if step.Remove? && Key(step.name, step.address) == k then None
    else if step.Enable? && Key(step.name, step.address) == k then (if before.None? then None else Some([]))
    else if before.Some? && Charge(cfg, step, k).Some? then Some(before.value + [Charge(cfg, step, k).value])
    else before
  }

  /** The charges against a member since it was last inserted or enabled; `None` for a non-member. */
  function Charges(cfg: Config, steps: seq<Step>, k: MemberKey): Option<seq<real>> {
    if steps == [] then None
    else ChargesAfter(cfg, Charges(cfg, steps[..|steps| - 1], k), steps[|steps| - 1], k)
  }

  function Total(charges: seq<real>): real {
    if charges == [] then 0.0 else Total(charges[..|charges| - 1]) + charges[|charges| - 1]
  }

  /** Some charge brought the running total to the threshold. */
  ghost predicate EverReached(charges: seq<real>, threshold: real) {
    exists n :: 0 < n <= |charges| && Total(charges[..n]) >= threshold
  }

  lemma TotalSnoc(charges: seq<real>, w: real)
    ensures Total(charges + [w]) == Total(charges) + w
  {
  }

  lemma EverReachedSnoc(charges: seq<real>, w: real, threshold: real)
    ensures EverReached(charges + [w], threshold)
       <==> EverReached(charges, threshold) || Total(charges) + w >= threshold
  {
    var more := charges + [w];
    TotalSnoc(charges, w);
    assert more[..|more|] == more;
    assert forall n :: 0 < n <= |charges| ==> more[..n] == charges[..n];
    if Total(charges) + w >= threshold {
      assert Total(more[..|more|]) >= threshold;
    }
    if EverReached(charges, threshold) {
      var n :| 0 < n <= |charges| && Total(charges[..n]) >= threshold;
      assert Total(more[..n]) >= threshold;
    }
    if EverReached(more, threshold) {
      var n :| 0 < n <= |more| && Total(more[..n]) >= threshold;
      if n <= |charges| { assert Total(charges[..n]) >= threshold; }
    }
  }

  /** What the ledger says about a member. */
  ghost predicate Accounted(
      members: map<MemberKey, MemberRow>, k: MemberKey, charges: Option<seq<real>>, threshold: real)
  {
    match charges
    case None => k !in members
    case Some(c) =>
      && k in members
      && members[k].score == Total(c)
      && (members[k].disabled <==> EverReached(c, threshold))
  }

  /** How one step changes the members table. */
  function MembersAfter(cfg: Config, t: Tables, step: Step): map<MemberKey, MemberRow> {
    match step
    case Bounce(list, address, raw) =>
      (match Weight(cfg, KindOf(cfg, raw))
       case Some(w) => t.RecordBounce(list.name, address, w, cfg.bounce.threshold).members
       case None => t.members)
    case Enable(name, address) => t.EnableMember(name, address).members
    case Add(name, address, subscribed, poster, moderator) =>
      t.AddMember(name, address, subscribed, poster, moderator).members
    case Remove(name, address) => t.RemoveMember(name, address).members
    case _ => t.members
  }

  /** Posts and moderator actions leave the members alone. */
  lemma MembersStep(cfg: Config, s: State, step: Step)
    ensures Next(cfg, s, step).tables.members == MembersAfter(cfg, s.tables, step)
  {
    match step {
      case Post(_, _, _, _) => PostTables(cfg, s, step);
      case Approval(_, _, _, _) => if Approvable(s, step) { ApprovalTables(cfg, s, step); }
      case _ =>
    }
  }

  lemma AccountedStep(cfg: Config, t: Tables, step: Step, k: MemberKey, before: Option<seq<real>>)
    requires Accounted(t.members, k, before, cfg.bounce.threshold)
    ensures Accounted(MembersAfter(cfg, t, step), k, ChargesAfter(cfg, before, step, k), cfg.bounce.threshold)
  {
    if before.Some? && Charge(cfg, step, k).Some? {
      var w := Charge(cfg, step, k).value;
      TotalSnoc(before.value, w);
      EverReachedSnoc(before.value, w, cfg.bounce.threshold);
    } else {
      assert !EverReached([], cfg.bounce.threshold);
    }
  }

  /**
   * In every run, without any assumption on weights or threshold: the score is the sum of the charges
   * since the last insertion or enabling, and delivery is disabled exactly when one of those charges
   * brought the sum to the threshold.
   */
  lemma {:induction false} LedgerIsExact(cfg: Config, steps: seq<Step>, k: MemberKey)
    ensures Accounted(Reached(cfg, steps).tables.members, k, Charges(cfg, steps, k), cfg.bounce.threshold)
  {
    if steps != [] {
      var init, step := steps[..|steps| - 1], steps[|steps| - 1];
      LedgerIsExact(cfg, init, k);
      MembersStep(cfg, Reached(cfg, init), step);
      AccountedStep(cfg, Reached(cfg, init).tables, step, k, Charges(cfg, init, k));
    }
  }

  // ---- The documented promise ----

  /** A score at the threshold means that delivery is disabled. */
  ghost predicate ScoreDisables(cfg: Config, steps: seq<Step>, k: MemberKey) {
    var members := Reached(cfg, steps).tables.members;
    k in members && members[k].score >= cfg.bounce.threshold ==> members[k].disabled
  }

  /** A zero threshold breaks it: a fresh member is at the threshold but not disabled. */
  lemma ZeroThresholdDiverges(cfg: Config, name: string, address: string)
    requires cfg.bounce.threshold <= 0.0
    ensures var m := Reached(cfg, [Add(name, address, true, false, false)]).tables.members;
      var k := Key(name, address);
      k in m && m[k].score >= cfg.bounce.threshold && !m[k].disabled
  {
    var steps := [Add(name, address, true, false, false)];
    assert steps[..0] == [];
    assert Reached(cfg, steps) == Next(cfg, Reached(cfg, steps[..0]), steps[0]);
  }

  lemma PositiveThresholdDisables(cfg: Config, steps: seq<Step>, k: MemberKey)
    requires cfg.bounce.threshold > 0.0
    ensures ScoreDisables(cfg, steps, k)
  {
    LedgerIsExact(cfg, steps, k);
    if Charges(cfg, steps, k).Some? {
      var c := Charges(cfg, steps, k).value;
      assert c[..|c|] == c;
    }
  }

  /** It holds in every run exactly when the threshold is positive, whatever the weights. */
  lemma ScoreDisablesIff(cfg: Config)
    ensures (forall steps, k :: ScoreDisables(cfg, steps, k)) <==> cfg.bounce.threshold > 0.0
  {
    if cfg.bounce.threshold > 0.0 {
      forall steps, k ensures ScoreDisables(cfg, steps, k) {
        PositiveThresholdDisables(cfg, steps, k);
      }
    } else {
      ZeroThresholdDiverges(cfg, "l", "a");
      assert !ScoreDisables(cfg, [Add("l", "a", true, false, false)], Key("l", "a"));
    }
  }

  // ---- Flag and score ----

  /** Delivery is disabled exactly when the score is at the threshold. */
  ghost predicate FlagAgrees(cfg: Config, steps: seq<Step>, k: MemberKey) {
    var members := Reached(cfg, steps).tables.members;
    k in members ==> (members[k].disabled <==> members[k].score >= cfg.bounce.threshold)
  }

  /** One kind of report raises the score and the other lowers it. */
  predicate OppositeWeights(b: BounceConfig) {
    || (b.hardWeight > 0.0 && b.softWeight < 0.0)
    || (b.hardWeight < 0.0 && b.softWeight > 0.0)
  }

  lemma {:induction false} TotalsGrow(charges: seq<real>, n: nat)
    requires n <= |charges| && forall w :: w in charges ==> w >= 0.0
    ensures Total(charges[..n]) <= Total(charges)
    decreases |charges|
  {
    if n < |charges| {
      var init := charges[..|charges| - 1];
      assert init[..n] == charges[..n];
      assert forall w :: w in init ==> w in charges;
      TotalsGrow(init, n);
      assert charges[|charges| - 1] in charges;
    } else {
      assert charges[..n] == charges;
    }
  }

  /** Charges of one sign reach the threshold if and only if they end up there. */
  lemma SameSignReached(charges: seq<real>, threshold: real)
    requires threshold > 0.0
    requires (forall w :: w in charges ==> w >= 0.0) || (forall w :: w in charges ==> w <= 0.0)
    ensures EverReached(charges, threshold) <==> Total(charges) >= threshold
  {
    assert charges[..|charges|] == charges;
    forall n | 0 < n <= |charges| && Total(charges[..n]) >= threshold ensures Total(charges) >= threshold {
      if forall w :: w in charges ==> w >= 0.0 {
        TotalsGrow(charges, n);
      } else {
        assert forall w :: w in charges[..n] ==> w in charges;
        NeverPositive(charges[..n]);
      }
    }
  }

  lemma {:induction false} NeverPositive(charges: seq<real>)
    requires forall w :: w in charges ==> w <= 0.0
    ensures Total(charges) <= 0.0
  {
    if charges != [] {
      var init := charges[..|charges| - 1];
      assert forall w :: w in init ==> w in charges;
      NeverPositive(init);
      assert charges[|charges| - 1] in charges;
    }
  }

  lemma {:induction false} ChargesAreWeights(cfg: Config, steps: seq<Step>, k: MemberKey)
    ensures Charges(cfg, steps, k).Some? ==>
      forall w :: w in Charges(cfg, steps, k).value ==> w == cfg.bounce.hardWeight || w == cfg.bounce.softWeight
  {
    if steps != [] {
      ChargesAreWeights(cfg, steps[..|steps| - 1], k);
    }
  }

  /** With a positive threshold and weights that do not pull apart, flag and score agree in every run. */
  lemma DisabledIffScore(cfg: Config, steps: seq<Step>, k: MemberKey)
    requires cfg.bounce.threshold > 0.0 && !OppositeWeights(cfg.bounce)
    ensures FlagAgrees(cfg, steps, k)
  {
    LedgerIsExact(cfg, steps, k);
    ChargesAreWeights(cfg, steps, k);
    if Charges(cfg, steps, k).Some? {
      SameSignReached(Charges(cfg, steps, k).value, cfg.bounce.threshold);
    }
  }

  lemma {:induction false} TotalOfEqual(charges: seq<real>, w: real)
    requires forall x :: x in charges ==> x == w
    ensures Total(charges) == |charges| as real * w
  {
    if charges != [] {
      var init := charges[..|charges| - 1];
      assert forall x :: x in init ==> x in charges;
      TotalOfEqual(init, w);
      assert charges[|charges| - 1] in charges;
    }
  }

  /** The least number of charges of weight `w` that reaches the threshold: ceil(threshold / w). */
  function ChargesNeeded(threshold: real, w: real): int
    requires w > 0.0
  {
    -((-(threshold / w)).Floor)
  }

  lemma CeilBounds(threshold: real, w: real, n: nat)
    requires w > 0.0
    ensures n as real * w >= threshold <==> n >= ChargesNeeded(threshold, w)
  {
    var q := threshold / w;
    assert q * w == threshold;
    if n as real >= q {
      assert n as real * w >= q * w;
    } else {
      assert n as real * w < q * w;
    }
  }

  lemma EqualChargesReach(charges: seq<real>, w: real, threshold: real)
    requires w > 0.0 && forall x :: x in charges ==> x == w
    ensures Total(charges) >= threshold <==> |charges| >= ChargesNeeded(threshold, w)
  {
    TotalOfEqual(charges, w);
    CeilBounds(threshold, w, |charges|);
  }

  function Repeat<T>(x: T, n: nat): (r: seq<T>)
    ensures |r| == n && forall y :: y in r ==> y == x
  {
    seq(n, _ => x)
  }

  lemma {:induction false} TotalConcat(a: seq<real>, b: seq<real>)
    ensures Total(a + b) == Total(a) + Total(b)
  {
    if b == [] {
      assert a + b == a;
    } else {
      assert (a + b)[..|a + b| - 1] == a + b[..|b| - 1];
      TotalConcat(a, b[..|b| - 1]);
    }
  }

  lemma ChargesSnoc(cfg: Config, steps: seq<Step>, step: Step, k: MemberKey)
    ensures Charges(cfg, steps + [step], k) == ChargesAfter(cfg, Charges(cfg, steps, k), step, k)
  {
    assert (steps + [step])[..|steps|] == steps;
  }

  lemma RepeatSnoc<T>(front: seq<T>, x: T, n: nat)
    ensures front + Repeat(x, n + 1) == (front + Repeat(x, n)) + [x]
  {
  }

  lemma OneMoreCharge(cfg: Config, steps: seq<Step>, step: Step, c: seq<real>, w: real, k: MemberKey)
    requires step.Bounce? && Charge(cfg, step, k) == Some(w) && Charges(cfg, steps, k) == Some(c)
    ensures Charges(cfg, steps + [step], k) == Some(c + [w])
  {
    ChargesSnoc(cfg, steps, step, k);
  }

  /** A row's charges after the same report has come in `n` more times. */
  lemma {:induction false} ChargesRepeated(
      cfg: Config, steps: seq<Step>, step: Step, c: seq<real>, w: real, n: nat, k: MemberKey)
    requires step.Bounce? && Charge(cfg, step, k) == Some(w) && Charges(cfg, steps, k) == Some(c)
    ensures Charges(cfg, steps + Repeat(step, n), k) == Some(c + Repeat(w, n))
  {
    if n == 0 {
      assert steps + Repeat(step, 0) == steps && c + Repeat(w, 0) == c;
    } else {
      ChargesRepeated(cfg, steps, step, c, w, n - 1, k);
      RepeatSnoc(steps, step, n - 1);
      RepeatSnoc(c, w, n - 1);
      OneMoreCharge(cfg, steps + Repeat(step, n - 1), step, c + Repeat(w, n - 1), w, k);
    }
  }

  /** A new member of a list gets `n` reports of one kind, then `m` of the other. */
  function Swing(list: List, address: string, up: seq<byte>, n: nat, down: seq<byte>, m: nat): seq<Step> {
    [Add(list.name, address, true, false, false)]
    + Repeat(Bounce(list, address, up), n) + Repeat(Bounce(list, address, down), m)
  }

  lemma SwingCharges(
      cfg: Config, list: List, address: string, up: seq<byte>, u: real, n: nat, down: seq<byte>, d: real, m: nat)
    requires Weight(cfg, KindOf(cfg, up)) == Some(u) && Weight(cfg, KindOf(cfg, down)) == Some(d)
    ensures Charges(cfg, Swing(list, address, up, n, down, m), Key(list.name, address))
         == Some(Repeat(u, n) + Repeat(d, m))
  {
    var k := Key(list.name, address);
    var start := [Add(list.name, address, true, false, false)];
    ChargesSnoc(cfg, [], start[0], k);
    assert [] + start == start;
    ChargesRepeated(cfg, start, Bounce(list, address, up), [], u, n, k);
    assert [] + Repeat(u, n) == Repeat(u, n);
    ChargesRepeated(
      cfg, start + Repeat(Bounce(list, address, up), n), Bounce(list, address, down), Repeat(u, n), d, m, k);
  }

  lemma ReachedOnTheWay(us: seq<real>, ds: seq<real>, threshold: real)
    requires us != [] && Total(us) >= threshold
    ensures EverReached(us + ds, threshold)
  {
    assert (us + ds)[..|us|] == us;
  }

  /** Once the reports have brought the score to the threshold, the flag stays while the score may leave it. */
  lemma SwingDiverges(
      cfg: Config, list: List, address: string, up: seq<byte>, u: real, n: nat, down: seq<byte>, d: real, m: nat)
    requires Weight(cfg, KindOf(cfg, up)) == Some(u) && Weight(cfg, KindOf(cfg, down)) == Some(d)
    requires n > 0 && Total(Repeat(u, n)) >= cfg.bounce.threshold > Total(Repeat(u, n)) + Total(Repeat(d, m))
    ensures var rows := Reached(cfg, Swing(list, address, up, n, down, m)).tables.members;
      var k := Key(list.name, address);
      k in rows && rows[k].disabled && rows[k].score == Total(Repeat(u, n)) + Total(Repeat(d, m))
  {
    SwingCharges(cfg, list, address, up, u, n, down, d, m);
    LedgerIsExact(cfg, Swing(list, address, up, n, down, m), Key(list.name, address));
    TotalConcat(Repeat(u, n), Repeat(d, m));
    ReachedOnTheWay(Repeat(u, n), Repeat(d, m), cfg.bounce.threshold);
  }

  /** Weights that pull apart make some run end disabled below the threshold. */
  lemma OppositeWeightsDiverge(
      cfg: Config, list: List, address: string, up: seq<byte>, u: real, down: seq<byte>, d: real)
    requires Weight(cfg, KindOf(cfg, up)) == Some(u) && Weight(cfg, KindOf(cfg, down)) == Some(d)
    requires u > 0.0 > d
    ensures exists steps, k :: !FlagAgrees(cfg, steps, k)
  {
    var n := EnoughAbove(cfg.bounce.threshold, u);
    var m := EnoughBelow(cfg.bounce.threshold - Total(Repeat(u, n)), d);
    SwingDiverges(cfg, list, address, up, u, n, down, d, m);
    assert !FlagAgrees(cfg, Swing(list, address, up, n, down, m), Key(list.name, address));
  }

  lemma EnoughAbove(t: real, w: real) returns (n: nat)
    requires w > 0.0
    ensures n > 0 && Total(Repeat(w, n)) >= t
  {
    n := if ChargesNeeded(t, w) > 0 then ChargesNeeded(t, w) else 1;
    CeilBounds(t, w, n);
    TotalOfEqual(Repeat(w, n), w);
  }

  lemma EnoughBelow(t: real, w: real) returns (n: nat)
    requires w < 0.0
    ensures Total(Repeat(w, n)) < t
  {
    n := EnoughAbove(1.0 - t, -w);
    TotalOfEqual(Repeat(-w, n), -w);
    TotalOfEqual(Repeat(w, n), w);
    Opposite(n as real, w);
  }

  lemma Opposite(n: real, w: real)
    ensures n * -w == -(n * w)
  {
  }

  /**
   * Flag and score agree in every run exactly when the threshold is positive and the two weights do
   * not have opposite signs; `hard` and `soft` are any reports of the two kinds.
   */
  lemma FlagAgreesIff(cfg: Config, list: List, hard: seq<byte>, soft: seq<byte>)
    requires KindOf(cfg, hard) == Hard && KindOf(cfg, soft) == Soft
    ensures (forall steps, k :: FlagAgrees(cfg, steps, k))
       <==> cfg.bounce.threshold > 0.0 && !OppositeWeights(cfg.bounce)
  {
    if cfg.bounce.threshold <= 0.0 {
      ZeroThresholdDiverges(cfg, "l", "a");
      assert !FlagAgrees(cfg, [Add("l", "a", true, false, false)], Key("l", "a"));
    } else if !OppositeWeights(cfg.bounce) {
      forall steps, k ensures FlagAgrees(cfg, steps, k) {
        DisabledIffScore(cfg, steps, k);
      }
    } else if cfg.bounce.hardWeight > 0.0 {
      OppositeWeightsDiverge(cfg, list, "a", hard, cfg.bounce.hardWeight, soft, cfg.bounce.softWeight);
    } else {
      OppositeWeightsDiverge(cfg, list, "a", soft, cfg.bounce.softWeight, hard, cfg.bounce.hardWeight);
    }
  }

  /** The smallest such run: at threshold 1 with weights 1 and -1, one report of each kind. */
  lemma MixedSignsDiverge(cfg: Config, list: List, address: string, hard: seq<byte>, soft: seq<byte>)
    requires cfg.bounce == BounceConfig(1.0, 1.0, -1.0)
    requires KindOf(cfg, hard) == Hard && KindOf(cfg, soft) == Soft
    ensures var m := Reached(cfg, Swing(list, address, hard, 1, soft, 1)).tables.members;
      var k := Key(list.name, address);
      k in m && m[k].disabled && m[k].score == 0.0
  {
    TotalOfEqual(Repeat(1.0, 1), 1.0);
    TotalOfEqual(Repeat(-1.0, 1), -1.0);
    SwingDiverges(cfg, list, address, hard, 1.0, 1, soft, -1.0, 1);
  }

  /** A member hit by permanent failures only is disabled from the ceil(threshold / hard weight)-th on. */
  lemma HardBouncesDisableAt(cfg: Config, steps: seq<Step>, k: MemberKey)
    requires cfg.bounce.hardWeight > 0.0 && cfg.bounce.threshold > 0.0
    requires Charges(cfg, steps, k).Some?
    requires forall w :: w in Charges(cfg, steps, k).value ==> w == cfg.bounce.hardWeight
    ensures k in Reached(cfg, steps).tables.members
    ensures Reached(cfg, steps).tables.members[k].disabled
       <==> |Charges(cfg, steps, k).value| >= ChargesNeeded(cfg.bounce.threshold, cfg.bounce.hardWeight)
  {
    LedgerIsExact(cfg, steps, k);
    SameSignReached(Charges(cfg, steps, k).value, cfg.bounce.threshold);
    EqualChargesReach(Charges(cfg, steps, k).value, cfg.bounce.hardWeight, cfg.bounce.threshold);
  }
}
