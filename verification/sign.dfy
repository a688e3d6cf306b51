/** The authentication verdict, and the layers of header fields that signing puts on top of a copy. */
module Sign {
  import opened Wrappers
  import opened Seqs
  import opened Text
  import opened Messages
  import opened Lists
  import opened Transform

  datatype Ingress = Ingress(remoteIp: string, helo: string, mailFrom: string)

  /** The enforcement the author domain asks for; no record and `p=none` read the same. */
  datatype Enforcement = NoEnforcement | Quarantine | RejectMail

  datatype AuthVerdict = AuthVerdict(
    dmarcPass: bool, dmarcPolicy: Enforcement,
    dkimResult: string, spfResult: string, dkim1Result: string, dkim2Result: string)

  function EnforcementName(e: Enforcement): string {
    match e case NoEnforcement => "none" case Quarantine => "quarantine" case RejectMail => "reject"
  }

  /** The verdict as environment variables of every policy script. */
  function EnvPairs(v: AuthVerdict): map<string, string> {
    map["vnd.carriers.dmarc_pass" := if v.dmarcPass then "yes" else "no",
        "vnd.carriers.dmarc_policy" := EnforcementName(v.dmarcPolicy),
        "vnd.carriers.dkim_result" := v.dkimResult,
        "vnd.carriers.spf_result" := v.spfResult,
        "vnd.carriers.dkim1_result" := v.dkim1Result,
        "vnd.carriers.dkim2_result" := v.dkim2Result]
  }

  /** What the crypto library answers for one message: header values, or a failure. */
  datatype ArcSet = ArcSet(seal: string, signature: string, results: string)
  datatype SignIO = SignIO(arc: Result<ArcSet>, dkim: Result<string>)

  const ARC_NAMES := ["ARC-Seal", "ARC-Message-Signature", "ARC-Authentication-Results"]
  const DKIM_NAME := "DKIM-Signature"
  const DKIM2_NAME := "DKIM2-Signature"

  function ArcFields(emit: Emitter, arc: ArcSet): seq<Field> {
    [NewField(emit, ARC_NAMES[0], arc.seal),
     NewField(emit, ARC_NAMES[1], arc.signature),
     NewField(emit, ARC_NAMES[2], arc.results)]
  }

  /** A signed copy by layers, from the top: ARC set, list signature (or none), augmented message. */
  datatype Layers = Layers(arc: seq<Field>, signature: seq<Field>, augmented: Message) {
    function Whole(): Message {
      Prepend(arc, Prepend(signature, augmented))
    }
  }

  /** The layers that sealing and signing produce, or the first failure. */
  function Layering(emit: Emitter, io: SignIO, augmented: Message, skipOwnDkim: bool): Result<Layers> {
    match io.arc
    case Err(e) => Err(e)
    case Ok(arc) =>
      if skipOwnDkim then Ok(Layers(ArcFields(emit, arc), [], augmented))
      else match io.dkim
        case Err(e) => Err(e)
        case Ok(sig) => Ok(Layers(ArcFields(emit, arc), [NewField(emit, DKIM_NAME, sig)], augmented))
  }

  /** The bytes of a layered copy are those of its layers, from the top. */
  lemma WholeBytes(l: Layers)
    ensures Render(l.Whole()) == RenderFields(l.arc) + RenderFields(l.signature) + Render(l.augmented)
  {
    PrependKeepsBytes(l.signature, l.augmented);
    PrependKeepsBytes(l.arc, Prepend(l.signature, l.augmented));
    Assoc(RenderFields(l.arc), RenderFields(l.signature), Render(l.augmented));
  }

  /** Append layer after layer to one output buffer. */
  method SignAndSeal(emit: Emitter, io: SignIO, augmented: Message, skipOwnDkim: bool)
      returns (r: Result<Layers>, out: seq<byte>)
    ensures r == Layering(emit, io, augmented, skipOwnDkim)
    ensures r.Ok? ==> out == Render(r.value.Whole())
  {
    out := [];
    if io.arc.Err? {
      return Err(io.arc.error), [];
    }
    var arc := ArcFields(emit, io.arc.value);
    var signature := [];
    out := RenderFields(arc);
    assert out + RenderFields(signature) == out;
    if !skipOwnDkim {
      if io.dkim.Err? {
        return Err(io.dkim.error), [];
      }
      signature := [NewField(emit, DKIM_NAME, io.dkim.value)];
      out := out + RenderFields(signature);
    }
    out := out + Render(augmented);
    r := Ok(Layers(arc, signature, augmented));
    WholeBytes(r.value);
  }

  predicate ShouldSignDkim2(v: AuthVerdict, noOwnDkim: bool) {
    !noOwnDkim && v.dkim2Result != "none"
  }

  /** The chain link that one delivery may carry on top of the shared layers. */
  function LinkFields(emit: Emitter, value: string): seq<Field> {
    [NewField(emit, DKIM2_NAME, value)]
  }

  // ---- What the layers leave alone ----

  /** None of the fields that signing prepends is one that the list's signatures cover. */
  predicate Unsigned(fields: seq<Field>) {
    forall f, n | f in fields && n in SIGNED_HEADERS :: !SameName(f.name, n)
  }

  lemma NotSigned(name: string)
    requires name in ARC_NAMES || name == DKIM_NAME || name == DKIM2_NAME
    ensures forall n | n in SIGNED_HEADERS :: !SameName(name, n)
  {
    forall n | n in SIGNED_HEADERS ensures !SameName(name, n) {
      if |n| == |name| {
        assert name in [DKIM_NAME, DKIM2_NAME, ARC_NAMES[0], ARC_NAMES[1], ARC_NAMES[2]];
        assert ToLower(n)[0] == LowerChar(n[0]) && ToLower(name)[0] == LowerChar(name[0]);
      }
    }
  }

  /** The signing layers never carry a name that the list signs. */
  lemma LayersUnsigned(emit: Emitter, io: SignIO, augmented: Message, skipOwnDkim: bool, link: seq<Field>)
    requires Layering(emit, io, augmented, skipOwnDkim).Ok?
    requires link == [] || exists v :: link == LinkFields(emit, v)
    ensures var l := Layering(emit, io, augmented, skipOwnDkim).value;
      Unsigned(link + l.arc + l.signature)
  {
    var l := Layering(emit, io, augmented, skipOwnDkim).value;
    forall f | f in link + l.arc + l.signature
      ensures forall n | n in SIGNED_HEADERS :: !SameName(f.name, n)
    {
      NotSigned(f.name);
    }
  }

  /** The layers that all copies share. */
  lemma SharedUnsigned(emit: Emitter, io: SignIO, augmented: Message, skipOwnDkim: bool)
    requires Layering(emit, io, augmented, skipOwnDkim).Ok?
    ensures var l := Layering(emit, io, augmented, skipOwnDkim).value; Unsigned(l.arc + l.signature)
  {
    LayersUnsigned(emit, io, augmented, skipOwnDkim, []);
    var l := Layering(emit, io, augmented, skipOwnDkim).value;
    assert [] + l.arc + l.signature == l.arc + l.signature;
  }

  predicate OnlySigned(h: seq<string>) {
    forall n | n in h :: exists s | s in SIGNED_HEADERS :: SameName(n, s)
  }

  lemma {:induction false} CountUnsigned(h: seq<string>, f: Field)
    requires OnlySigned(h) && Unsigned([f])
    ensures CountName(h, f.name) == 0
  {
    if h != [] {
      assert h[0] in h && f in [f];
      assert forall n :: n in h[1..] ==> n in h;
      CountUnsigned(h[1..], f);
    }
  }

  /**
   * Signature independence: whatever `h=` list the list's DKIM signature or the ARC message
   * signature uses, drawn from the signed headers, it selects the same fields in the augmented
   * message and under any layers of unsigned fields prepended later.
   */
  lemma SelectionSurvivesLayers(h: seq<string>, top: seq<Field>, m: Message)
    requires OnlySigned(h) && Unsigned(top)
    ensures Select(h, Prepend(top, m).fields) == Select(h, m.fields)
  {
    forall f | f in top ensures CountName(h, f.name) <= CountField(m.fields, f.name) {
      CountUnsigned(h, f);
    }
    SelectUnderPrepend(h, top, m.fields);
  }
}
