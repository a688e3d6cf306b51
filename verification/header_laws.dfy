/** The header fields that the outgoing edits write: names, values, order, and which the list signs. */
module HeaderLaws {
  import opened Wrappers
  import opened Seqs
  import opened Text
  import opened Messages
  import opened Lists
  import opened Transform
  import opened TransformLaws
  import opened Bounces

  // ---- The List-* block ----

  const LIST_NAMES := [
    "List-Id", "List-Post", "List-Help", "List-Subscribe",
    "List-Unsubscribe", "List-Unsubscribe-Post", "List-Archive", "List-Owner"]

  function Mapped(o: Option<string>, before: string, after: string): Option<string> {
    match o case None => None case Some(v) => Some(before + v + after)
  }

  /** The documented value of each header, in the order of the names; absent where the list has none. */
  function Documented(list: List): seq<Option<string>> {
    var cfg := list.cfg;
    [Some((if cfg.displayName.Some? then cfg.displayName.value else list.name) + " <" + ListId(list) + ">"),
     Some("<mailto:" + cfg.postingAddress + ">"),
     Mapped(cfg.helpUrl, "<", ">"),
     Mapped(cfg.subscribeUrl, "<", ">"),
     Mapped(if cfg.unsubscribeOneclick.Some? then cfg.unsubscribeOneclick else cfg.unsubscribeUrl, "<", ">"),
     if cfg.unsubscribeOneclick.Some? then Some("List-Unsubscribe=One-Click") else None,
     Mapped(cfg.archiveUrl, "<", ">"),
     Mapped(cfg.owner, "<mailto:", ">")]
  }

  /** The fields that are present, in order. */
  function Present(emit: Emitter, names: seq<string>, values: seq<Option<string>>): seq<Field>
    requires |names| == |values|
  {
    if names == [] then []
    else
      (match values[0] case None => [] case Some(v) => [NewField(emit, names[0], v)])
      + Present(emit, names[1..], values[1..])
  }

  lemma PresentCons(emit: Emitter, name: string, names: seq<string>, value: Option<string>, values: seq<Option<string>>)
    requires |names| == |values|
    ensures Present(emit, [name] + names, [value] + values) ==
      (match value case None => [] case Some(v) => [NewField(emit, name, v)]) + Present(emit, names, values)
  {
    assert ([name] + names)[1..] == names && ([value] + values)[1..] == values;
  }

  lemma OptionalIsPresent(emit: Emitter, name: string, value: Option<string>)
    requires value.Some? ==> value.value != ""
    ensures Optional(emit, name, GetOr(value, "")) ==
      match value case None => [] case Some(v) => [NewField(emit, name, v)]
  {
  }

  lemma MappedIsAngled(o: Option<string>)
    ensures Angled(o) == GetOr(Mapped(o, "<", ">"), "")
    ensures Mapped(o, "<", ">").Some? ==> Mapped(o, "<", ">").value != ""
  {
  }

  lemma OneMore(emit: Emitter, list: List, k: nat, piece: seq<Field>, tail: seq<Field>)
    requires k < 8 && Present(emit, LIST_NAMES[k + 1..], Documented(list)[k + 1..]) == tail
    requires piece == match Documented(list)[k] case None => [] case Some(v) => [NewField(emit, LIST_NAMES[k], v)]
    ensures Present(emit, LIST_NAMES[k..], Documented(list)[k..]) == piece + tail
  {
    assert LIST_NAMES[k..] == [LIST_NAMES[k]] + LIST_NAMES[k + 1..];
    assert Documented(list)[k..] == [Documented(list)[k]] + Documented(list)[k + 1..];
    PresentCons(emit, LIST_NAMES[k], LIST_NAMES[k + 1..], Documented(list)[k], Documented(list)[k + 1..]);
  }

  lemma OneMoreOptional(emit: Emitter, list: List, k: nat, value: string, tail: seq<Field>)
    requires k < 8 && Present(emit, LIST_NAMES[k + 1..], Documented(list)[k + 1..]) == tail
    requires value == GetOr(Documented(list)[k], "") && (Documented(list)[k].Some? ==> value != "")
    ensures Present(emit, LIST_NAMES[k..], Documented(list)[k..]) == Optional(emit, LIST_NAMES[k], value) + tail
  {
    OptionalIsPresent(emit, LIST_NAMES[k], Documented(list)[k]);
    OneMore(emit, list, k, Optional(emit, LIST_NAMES[k], value), tail);
  }

  /** A value is the documented one, empty where there is none. */
  predicate Carries(value: string, doc: Option<string>) {
    value == GetOr(doc, "") && (doc.Some? ==> value != "")
  }

  predicate EnvCarries(env: HeaderEnv, doc: seq<Option<string>>)
    requires |doc| == 8
  {
    && Some(env.listId) == doc[0] && Some(env.post) == doc[1]
    && Carries(env.help, doc[2]) && Carries(env.subscribe, doc[3])
    && Carries(env.unsubscribe, doc[4]) && Carries(env.unsubscribePost, doc[5])
    && Carries(env.archive, doc[6]) && Carries(env.owner, doc[7])
  }

  lemma EnvIsDocumented(list: List)
    ensures EnvCarries(ListHeaderEnv(list), Documented(list))
  {
    var cfg := list.cfg;
    MappedIsAngled(cfg.helpUrl);
    MappedIsAngled(cfg.subscribeUrl);
    MappedIsAngled(if cfg.unsubscribeOneclick.Some? then cfg.unsubscribeOneclick else cfg.unsubscribeUrl);
    MappedIsAngled(cfg.archiveUrl);
  }

  lemma BlockEnd(emit: Emitter, list: List, env: HeaderEnv)
    requires EnvCarries(env, Documented(list))
    ensures Present(emit, LIST_NAMES[4..], Documented(list)[4..]) ==
      Optional(emit, "List-Unsubscribe", env.unsubscribe)
      + (Optional(emit, "List-Unsubscribe-Post", env.unsubscribePost)
      + (Optional(emit, "List-Archive", env.archive)
      + Optional(emit, "List-Owner", env.owner)))
  {
    var t7 := Optional(emit, "List-Owner", env.owner);
    OneMoreOptional(emit, list, 7, env.owner, []);
    assert t7 + [] == t7;
    var t6 := Optional(emit, "List-Archive", env.archive) + t7;
    OneMoreOptional(emit, list, 6, env.archive, t7);
    var t5 := Optional(emit, "List-Unsubscribe-Post", env.unsubscribePost) + t6;
    OneMoreOptional(emit, list, 5, env.unsubscribePost, t6);
    OneMoreOptional(emit, list, 4, env.unsubscribe, t5);
  }

  lemma BlockStart(emit: Emitter, list: List, env: HeaderEnv, t4: seq<Field>)
    requires EnvCarries(env, Documented(list)) && Present(emit, LIST_NAMES[4..], Documented(list)[4..]) == t4
    ensures Present(emit, LIST_NAMES[0..], Documented(list)[0..]) ==
      [NewField(emit, "List-Id", env.listId)]
      + ([NewField(emit, "List-Post", env.post)]
      + (Optional(emit, "List-Help", env.help)
      + (Optional(emit, "List-Subscribe", env.subscribe) + t4)))
  {
    var t3 := Optional(emit, "List-Subscribe", env.subscribe) + t4;
    OneMoreOptional(emit, list, 3, env.subscribe, t4);
    var t2 := Optional(emit, "List-Help", env.help) + t3;
    OneMoreOptional(emit, list, 2, env.help, t3);
    var t1 := [NewField(emit, "List-Post", env.post)] + t2;
    OneMore(emit, list, 1, [NewField(emit, "List-Post", env.post)], t2);
    OneMore(emit, list, 0, [NewField(emit, "List-Id", env.listId)], t1);
  }

  /** The List-* block holds exactly the documented headers, in the documented order. */
  lemma ListBlockIsDocumented(emit: Emitter, list: List)
    ensures ListFields(emit, ListHeaderEnv(list)) == Present(emit, LIST_NAMES, Documented(list))
  {
    var env := ListHeaderEnv(list);
    EnvIsDocumented(list);
    BlockEnd(emit, list, env);
    BlockStart(emit, list, env, Present(emit, LIST_NAMES[4..], Documented(list)[4..]));
    assert LIST_NAMES[0..] == LIST_NAMES && Documented(list)[0..] == Documented(list);
  }

  lemma ListNamesDiffer()
    ensures forall i, j :: 0 <= i < j < 8 ==> !SameName(LIST_NAMES[i], LIST_NAMES[j])
  {
    assert ToLower(LIST_NAMES[1])[5] == 'p' && ToLower(LIST_NAMES[2])[5] == 'h';
    assert |LIST_NAMES[0]| == 7 && |LIST_NAMES[1]| == 9 && |LIST_NAMES[2]| == 9 && |LIST_NAMES[3]| == 14;
    assert |LIST_NAMES[4]| == 16 && |LIST_NAMES[5]| == 21 && |LIST_NAMES[6]| == 12 && |LIST_NAMES[7]| == 10;
    forall i, j | 0 <= i < j < 8 ensures !SameName(LIST_NAMES[i], LIST_NAMES[j]) {
      assert |ToLower(LIST_NAMES[i])| == |LIST_NAMES[i]| && |ToLower(LIST_NAMES[j])| == |LIST_NAMES[j]|;
    }
  }

  lemma {:induction false} PresentShows(emit: Emitter, names: seq<string>, values: seq<Option<string>>, k: nat)
    requires |names| == |values| && k < |names|
    requires forall i, j :: 0 <= i < j < |names| ==> !SameName(names[i], names[j])
    ensures FirstValue(Present(emit, names, values), names[k]) == values[k]
    decreases |names|
  {
    var rest := Present(emit, names[1..], values[1..]);
    if k == 0 {
      if values[0].None? { PresentMisses(emit, names[1..], values[1..], names[0]); }
    } else {
      PresentShows(emit, names[1..], values[1..], k - 1);
      if values[0].Some? {
        assert ([NewField(emit, names[0], values[0].value)] + rest)[1..] == rest;
      } else {
        assert [] + rest == rest;
      }
    }
  }

  lemma {:induction false} PresentMisses(emit: Emitter, names: seq<string>, values: seq<Option<string>>, name: string)
    requires |names| == |values| && forall i :: 0 <= i < |names| ==> !SameName(names[i], name)
    ensures FirstValue(Present(emit, names, values), name) == None
    ensures forall f :: f in Present(emit, names, values) ==> !Named(f, name)
  {
    if names != [] {
      PresentMisses(emit, names[1..], values[1..], name);
    }
  }

  /** Looking a header up in the block gives its documented value, or nothing where the list has none. */
  lemma ListHeaderShows(emit: Emitter, list: List, k: nat)
    requires k < 8
    ensures FirstValue(ListFields(emit, ListHeaderEnv(list)), LIST_NAMES[k]) == Documented(list)[k]
  {
    ListBlockIsDocumented(emit, list);
    ListNamesDiffer();
    PresentShows(emit, LIST_NAMES, Documented(list), k);
  }

  lemma {:induction false} PresentNames(emit: Emitter, names: seq<string>, values: seq<Option<string>>, f: Field)
    requires |names| == |values| && f in Present(emit, names, values)
    ensures exists i :: 0 <= i < |names| && values[i].Some? && f.name == names[i]
  {
    if f in Present(emit, names[1..], values[1..]) {
      PresentNames(emit, names[1..], values[1..], f);
      var i :| 0 <= i < |names[1..]| && values[1..][i].Some? && f.name == names[1..][i];
      assert values[i + 1].Some? && f.name == names[i + 1];
    } else {
      assert values[0].Some? && f.name == names[0];
    }
  }

  lemma {:induction false} PresentHas(emit: Emitter, names: seq<string>, values: seq<Option<string>>, k: nat)
    requires |names| == |values| && k < |names| && values[k].Some?
    ensures NewField(emit, names[k], values[k].value) in Present(emit, names, values)
  {
    if k > 0 {
      PresentHas(emit, names[1..], values[1..], k - 1);
    }
  }

  /**
   * The list's signature covers the List-* headers it adds, as documented, exactly for lists without a
   * one-click unsubscribe target: the `List-Unsubscribe-Post` that comes with one is not among the
   * signed headers.
   */
  lemma ListBlockSignedIff(emit: Emitter, list: List)
    ensures (forall f :: f in ListFields(emit, ListHeaderEnv(list)) ==> f.name in SIGNED_HEADERS)
       <==> list.cfg.unsubscribeOneclick.None?
  {
    ListBlockIsDocumented(emit, list);
    OneClickUnsigned();
    if list.cfg.unsubscribeOneclick.Some? {
      PresentHas(emit, LIST_NAMES, Documented(list), 5);
      assert NewField(emit, LIST_NAMES[5], Documented(list)[5].value).name == LIST_NAMES[5];
    }
    forall f | f in Present(emit, LIST_NAMES, Documented(list)) && list.cfg.unsubscribeOneclick.None?
      ensures f.name in SIGNED_HEADERS
    {
      PresentNames(emit, LIST_NAMES, Documented(list), f);
    }
  }

  lemma OneClickUnsigned()
    ensures forall k :: 0 <= k < 8 ==> (LIST_NAMES[k] in SIGNED_HEADERS <==> k != 5)
  {
    assert SIGNED_HEADERS[13] == LIST_NAMES[0] && SIGNED_HEADERS[14] == LIST_NAMES[1];
    assert SIGNED_HEADERS[17] == LIST_NAMES[2] && SIGNED_HEADERS[16] == LIST_NAMES[3];
    assert SIGNED_HEADERS[15] == LIST_NAMES[4] && SIGNED_HEADERS[18] == LIST_NAMES[6];
    assert SIGNED_HEADERS[19] == LIST_NAMES[7];
    assert |LIST_NAMES[5]| == 21;
    assert forall i :: 0 <= i < |SIGNED_HEADERS| ==> |SIGNED_HEADERS[i]| != 21;
  }

  /** Without a configured id, it is the posting address with each `@` replaced by a dot. */
  lemma DefaultListId(list: List)
    requires list.cfg.listId.None?
    ensures var (id, address) := (ListId(list), list.cfg.postingAddress);
      && |id| == |address|
      && forall i :: 0 <= i < |id| ==> id[i] == if address[i] == '@' then '.' else address[i]
  {
    ReplacedAt(list.cfg.postingAddress);
  }

  lemma {:induction false} ReplacedAt(s: string)
    ensures var r := ReplaceAt(s);
      |r| == |s| && forall i :: 0 <= i < |s| ==> r[i] == if s[i] == '@' then '.' else s[i]
  {
    if s != [] {
      ReplacedAt(s[1..]);
    }
  }

  // ---- The optional edits, when they are wanted ----

  lemma FirstValueConcat(a: seq<Field>, b: seq<Field>, name: string)
    requires forall f :: f in a ==> !Named(f, name)
    ensures FirstValue(a + b, name) == FirstValue(b, name) && CountField(a + b, name) == CountField(b, name)
  {
    CountFieldConcat(a, b, name);
    CountFieldPositive(a, name);
    if a == [] {
      assert a + b == b;
    } else {
      assert (a + b)[1..] == a[1..] + b;
      FirstValueConcat(a[1..], b, name);
    }
  }

  lemma OtherLetter(a: string, b: string)
    requires a != "" && b != "" && LowerChar(a[0]) != LowerChar(b[0])
    ensures !SameName(a, b)
  {
    assert ToLower(a)[0] != ToLower(b)[0];
  }

  /** None of the List-* headers is one that the edits replace. */
  lemma BlockMisses(emit: Emitter, list: List, name: string)
    requires name in {"Subject", "From", "Reply-To"}
    ensures forall f :: f in ListFields(emit, ListHeaderEnv(list)) ==> !Named(f, name)
  {
    ListBlockIsDocumented(emit, list);
    assert name != "" && LowerChar(name[0]) != 'l';
    forall i | 0 <= i < 8 ensures !SameName(LIST_NAMES[i], name) {
      assert LIST_NAMES[i] != "" && LIST_NAMES[i][0] == 'L';
      OtherLetter(LIST_NAMES[i], name);
    }
    PresentMisses(emit, LIST_NAMES, Documented(list), name);
  }

  /** A requested munge is in the copy: one From and one Reply-To, with the values that were computed. */
  lemma MungeIsApplied(emit: Emitter, list: List, env: (string, string), m: Message)
    ensures var fields := Augmented(emit, list, Some(env), m).fields;
      Single(fields, "From", env.0) && Single(fields, "Reply-To", env.1)
  {
    var munged := Munged(emit, env.0, env.1, m.fields);
    MungeReplaces(emit, env.0, env.1, m.fields);
    PrefixKeepsOthers(emit, list, munged, "From");
    PrefixKeepsOthers(emit, list, munged, "Reply-To");
    BlockMisses(emit, list, "From");
    BlockMisses(emit, list, "Reply-To");
    FirstValueConcat(ListFields(emit, ListHeaderEnv(list)), Edited(emit, list, Some(env), m.fields), "From");
    FirstValueConcat(ListFields(emit, ListHeaderEnv(list)), Edited(emit, list, Some(env), m.fields), "Reply-To");
  }

  function MaybePrefixed(emit: Emitter, list: List, fields: seq<Field>): seq<Field> {
    match SubjectPrefixEnv(list) case None => fields case Some(tag) => Prefixed(emit, tag, fields)
  }

  lemma PrefixKeepsOthers(emit: Emitter, list: List, fields: seq<Field>, name: string)
    requires !SameName("Subject", name)
    ensures FirstValue(MaybePrefixed(emit, list, fields), name) == FirstValue(fields, name)
    ensures CountField(MaybePrefixed(emit, list, fields), name) == CountField(fields, name)
  {
    WithoutCounts(fields, "Subject", name);
    FirstOfOther(fields, "Subject", name);
    if SubjectPrefixEnv(list).Some? && !AnySubjectTagged(fields, SubjectPrefixEnv(list).value) {
      var done := Prefixed(emit, SubjectPrefixEnv(list).value, fields);
      match FirstValue(fields, "Subject") {
        case Some(text) => assert done[1..] == Without(fields, "Subject");
        case None => assert done[1..] == fields;
      }
    }
  }

  lemma MungeKeepsSubject(emit: Emitter, from: string, replyTo: string, fields: seq<Field>, tag: string)
    ensures var done := Munged(emit, from, replyTo, fields);
      && FirstValue(done, "Subject") == FirstValue(fields, "Subject")
      && (AnySubjectTagged(done, tag) <==> AnySubjectTagged(fields, tag))
  {
    assert ToLower("Subject")[0] == 's' && ToLower("From")[0] == 'f' && ToLower("Reply-To")[0] == 'r';
    FirstOfOther(fields, "From", "Subject");
    var inner := [NewField(emit, "From", from)] + Without(fields, "From");
    assert inner[1..] == Without(fields, "From");
    FirstOfOther(inner, "Reply-To", "Subject");
    var done := Munged(emit, from, replyTo, fields);
    assert done[1..] == Without(inner, "Reply-To");
    forall f | Named(f, "Subject") ensures f in done <==> f in fields {
      assert f in done <==> f == done[0] || f in done[1..];
      assert f in inner <==> f == inner[0] || f in inner[1..];
    }
  }

  /**
   * A configured tag is in the copy: unless some Subject of the original is tagged already, the copy has
   * one Subject, the bracketed tag and the text of the original's first one.
   */
  lemma TagIsApplied(emit: Emitter, list: List, munge: Option<(string, string)>, m: Message)
    requires SubjectPrefixEnv(list).Some? && !AnySubjectTagged(m.fields, SubjectPrefixEnv(list).value)
    ensures Single(Augmented(emit, list, munge, m).fields, "Subject",
      match FirstValue(m.fields, "Subject")
      case Some(text) => "[" + SubjectPrefixEnv(list).value + "] " + text
      case None => "[" + SubjectPrefixEnv(list).value + "]")
  {
    var tag := SubjectPrefixEnv(list).value;
    var munged := match munge case None => m.fields case Some(env) => Munged(emit, env.0, env.1, m.fields);
    if munge.Some? { MungeKeepsSubject(emit, munge.value.0, munge.value.1, m.fields, tag); }
    BlockMisses(emit, list, "Subject");
    SubjectUnderBlock(emit, tag, munged, ListFields(emit, ListHeaderEnv(list)));
  }

  lemma SubjectUnderBlock(emit: Emitter, tag: string, fields: seq<Field>, block: seq<Field>)
    requires !AnySubjectTagged(fields, tag) && forall f :: f in block ==> !Named(f, "Subject")
    ensures Single(block + Prefixed(emit, tag, fields), "Subject",
      match FirstValue(fields, "Subject")
      case Some(text) => "[" + tag + "] " + text
      case None => "[" + tag + "]")
  {
    PrefixEditsIff(emit, tag, fields);
    FirstValueConcat(block, Prefixed(emit, tag, fields), "Subject");
    if FirstValue(fields, "Subject").Some? {
      TagAndText(tag, FirstValue(fields, "Subject").value);
    }
  }

  lemma TagAndText(tag: string, text: string)
    ensures Bracketed(tag) + " " + text == "[" + tag + "] " + text
  {
  }

  /** What the munged values say: the list's own address for From, the author's for Reply-To when there is one. */
  lemma MungeValues(list: List, name: Option<string>, address: Option<string>)
    ensures var (from, replyTo) := MungeEnv(list, name, address);
      var posting := list.cfg.postingAddress;
      && replyTo == (if address.Some? then address.value else posting)
      && (exists who :: from == "\"" + who + " via "
            + (if list.cfg.displayName.Some? then list.cfg.displayName.value else list.name) + "\" <" + posting + ">"
            && (if name.Some? && name.value != "" then who == name.value else who == replyTo))
  {
  }

  /**
   * The tag is the configured text without the white space around it; a list without text, or with
   * nothing but white space, has none.
   */
  lemma TagIsTrimmed(list: List)
    ensures match list.cfg.subjectPrefix
      case None => SubjectPrefixEnv(list).None?
      case Some(p) =>
        match SubjectPrefixEnv(list)
        case None => AllSpace(p)
        case Some(tag) => exists lead: string, tail: string ::
          p == lead + tag + tail && AllSpace(lead) && AllSpace(tail) && tag != "" && Trimmed(tag)
  {
    if list.cfg.subjectPrefix.Some? {
      TrimSplits(list.cfg.subjectPrefix.value);
    }
  }

  lemma TrimSplits(p: string)
    ensures exists lead: string, tail: string :: p == lead + Trim(p) + tail && AllSpace(lead) && AllSpace(tail)
    ensures Trim(p) == "" ==> AllSpace(p)
  {
    var started := TrimStart(p);
    TrimStartSplit(p);
    TrimEndPrefix(started);
    var lead, tail := p[..|p| - |started|], started[|Trim(p)|..];
    SplitAt(p, |lead|);
    SplitAt(started, |Trim(p)|);
    Assoc(lead, Trim(p), tail);
    if Trim(p) == "" { SpaceConcat(lead, started); }
  }

  lemma SplitAt(s: string, k: nat)
    requires k <= |s|
    ensures s == s[..k] + s[k..]
  {
  }

  lemma SpaceConcat(a: string, b: string)
    requires AllSpace(a) && AllSpace(b)
    ensures AllSpace(a + b)
  {
  }
}
