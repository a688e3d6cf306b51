/** Edits made to the outgoing copy: From/Reply-To munging, the Subject tag, the List-* headers. */
module Transform {
  import opened Wrappers
  import opened Seqs
  import opened Text
  import opened Messages
  import opened Lists

  /** How the runtime writes an added field to the wire. */
  type Emitter = (string, string) -> seq<byte>

  function NewField(emit: Emitter, name: string, value: string): Field {
    Field(name, value, emit(name, value))
  }

  // ---- Sieve `:matches` (section 2.7.1 of RFC 5228), under the default ASCII-casemap comparator ----

  function Matches(pat: string, s: string): bool
    decreases |pat| + |s|
  {
    if pat == [] then s == []
    else if pat[0] == '*' then Matches(pat[1..], s) || (s != [] && Matches(pat, s[1..]))
    else if s == [] then false
    else if pat[0] == '?' then Matches(pat[1..], s[1..])
    else if pat[0] == '\\' && |pat| > 1 then LowerChar(pat[1]) == LowerChar(s[0]) && Matches(pat[2..], s[1..])
    else LowerChar(pat[0]) == LowerChar(s[0]) && Matches(pat[1..], s[1..])
  }

  function Bracketed(tag: string): string {
    "[" + tag + "]"
  }

  /** The two patterns the script tests; both mean that the tag is already at the front. */
  predicate Tagged(tag: string, subject: string) {
    Matches(Bracketed(tag) + "*", subject) || Matches("*: " + Bracketed(tag) + "*", subject)
  }

  /** `header :matches` looks at every field of the name. */
  predicate AnySubjectTagged(fields: seq<Field>, tag: string) {
    exists f | f in fields :: Named(f, "Subject") && Tagged(tag, f.value)
  }

  /** The effect of `subject-prefix.sieve`. */
  function Prefixed(emit: Emitter, tag: string, fields: seq<Field>): seq<Field> {
    if AnySubjectTagged(fields, tag) then fields
    else match FirstValue(fields, "Subject")
      case Some(subject) => [NewField(emit, "Subject", Bracketed(tag) + " " + subject)] + Without(fields, "Subject")
      case None => [NewField(emit, "Subject", Bracketed(tag))] + fields
  }

  /** The effect of `munge-from.sieve`. */
  function Munged(emit: Emitter, from: string, replyTo: string, fields: seq<Field>): seq<Field> {
    [NewField(emit, "Reply-To", replyTo)]
    + Without([NewField(emit, "From", from)] + Without(fields, "From"), "Reply-To")
  }

  // ---- Values computed from the list configuration ----

  function GetOr<T>(o: Option<T>, default: T): T {
    match o case Some(v) => v case None => default
  }

  function Angled(o: Option<string>): string {
    match o case Some(v) => "<" + v + ">" case None => ""
  }

  /** The List-* header values, empty where the list has none. */
  datatype HeaderEnv = HeaderEnv(
    listId: string, post: string, help: string, subscribe: string,
    unsubscribe: string, unsubscribePost: string, archive: string, owner: string)

  function ListHeaderEnv(list: List): HeaderEnv {
    var cfg := list.cfg;
    var oneClick := cfg.unsubscribeOneclick.Some?;
    HeaderEnv(
      GetOr(cfg.displayName, list.name) + " <" + ListId(list) + ">",
      "<mailto:" + cfg.postingAddress + ">",
      Angled(cfg.helpUrl),
      Angled(cfg.subscribeUrl),
      if oneClick then Angled(cfg.unsubscribeOneclick) else Angled(cfg.unsubscribeUrl),
      if oneClick then "List-Unsubscribe=One-Click" else "",
      Angled(cfg.archiveUrl),
      match cfg.owner case Some(o) => "<mailto:" + o + ">" case None => "")
  }

  function Optional(emit: Emitter, name: string, value: string): seq<Field> {
    if value == "" then [] else [NewField(emit, name, value)]
  }

  /** The fields that `list-headers.sieve` leaves on top, in their final order. */
  function ListFields(emit: Emitter, env: HeaderEnv): seq<Field> {
    [NewField(emit, "List-Id", env.listId)]
    + ([NewField(emit, "List-Post", env.post)]
    + (Optional(emit, "List-Help", env.help)
    + (Optional(emit, "List-Subscribe", env.subscribe)
    + (Optional(emit, "List-Unsubscribe", env.unsubscribe)
    + (Optional(emit, "List-Unsubscribe-Post", env.unsubscribePost)
    + (Optional(emit, "List-Archive", env.archive)
    + Optional(emit, "List-Owner", env.owner)))))))
  }

  /** `None` for a list without a prefix, or with a blank one: the script is then not run at all. */
  function SubjectPrefixEnv(list: List): (r: Option<string>)
    ensures r.Some? ==> r.value != "" && Trimmed(r.value)
  {
    match list.cfg.subjectPrefix
    case None => None
    case Some(p) =>
      TrimFacts(p);
      if Trim(p) == "" then None else Some(Trim(p))
  }

  /** The From and Reply-To values for munging, from the author's first address if it was parsed. */
  function MungeEnv(list: List, name: Option<string>, address: Option<string>): (string, string) {
    var posting := list.cfg.postingAddress;
    var attribution := if name.Some? && name.value != "" then name.value else GetOr(address, posting);
    ("\"" + attribution + " via " + GetOr(list.cfg.displayName, list.name) + "\" <" + posting + ">",
     GetOr(address, posting))
  }

  /** The edits on the way out, before the List-* headers. */
  function Edited(emit: Emitter, list: List, munge: Option<(string, string)>, fields: seq<Field>): seq<Field> {
    var munged := match munge case None => fields case Some(env) => Munged(emit, env.0, env.1, fields);
    match SubjectPrefixEnv(list) case None => munged case Some(tag) => Prefixed(emit, tag, munged)
  }

  function Augmented(emit: Emitter, list: List, munge: Option<(string, string)>, m: Message): Message {
    Prepend(ListFields(emit, ListHeaderEnv(list)), Message(Edited(emit, list, munge, m.fields), m.body))
  }

  // ---- The scripts, as edits of a message in place ----

  class Editor {
    var fields: seq<Field>
    const body: seq<byte>
    const emit: Emitter

    constructor (m: Message, emit: Emitter)
      ensures fields == m.fields && body == m.body && this.emit == emit
    {
      fields, body, this.emit := m.fields, m.body, emit;
    }

    function Content(): Message
      reads this
    {
      Message(fields, body)
    }

    /** `addheader` inserts at the top of the header block. */
    method AddHeader(name: string, value: string)
      modifies this
      ensures fields == [NewField(emit, name, value)] + old(fields)
    {
      fields := [NewField(emit, name, value)] + fields;
    }

    /** `deleteheader` removes every field of the name. */
    method DeleteHeader(name: string)
      modifies this
      ensures fields == Without(old(fields), name)
    {
      fields := Without(fields, name);
    }

    method MungeFrom(from: string, replyTo: string)
      modifies this
      ensures fields == Munged(emit, from, replyTo, old(fields))
    {
      DeleteHeader("From");
      AddHeader("From", from);
      DeleteHeader("Reply-To");
      AddHeader("Reply-To", replyTo);
    }

    method SubjectPrefix(tag: string)
      modifies this
      ensures fields == Prefixed(emit, tag, old(fields))
    {
      if AnySubjectTagged(fields, tag) {
        return;
      }
      var subject := FirstValue(fields, "Subject");
      match subject {
        case Some(text) =>
          DeleteHeader("Subject");
          AddHeader("Subject", Bracketed(tag) + " " + text);
        case None =>
          AddHeader("Subject", Bracketed(tag));
      }
    }

    /** Add a field unless its value is empty; `below` names what the fields already hold. */
    method AddOptional(name: string, value: string, ghost below: seq<Field>, ghost rest: seq<Field>)
      requires fields == below + rest
      modifies this
      ensures fields == (Optional(emit, name, value) + below) + rest
    {
      if value != "" {
        AddHeader(name, value);
      }
    }

    /** From the last header up to the first, since each is inserted on top. */
    method ListHeaders(env: HeaderEnv)
      modifies this
      ensures fields == ListFields(emit, env) + old(fields)
    {
      ghost var rest := fields;
      ghost var b1 := Optional(emit, "List-Owner", env.owner);
      ghost var b2 := Optional(emit, "List-Archive", env.archive) + b1;
      ghost var b3 := Optional(emit, "List-Unsubscribe-Post", env.unsubscribePost) + b2;
      ghost var b4 := Optional(emit, "List-Unsubscribe", env.unsubscribe) + b3;
      ghost var b5 := Optional(emit, "List-Subscribe", env.subscribe) + b4;
      ghost var b6 := Optional(emit, "List-Help", env.help) + b5;
      if env.owner != "" { AddHeader("List-Owner", env.owner); }
      assert fields == b1 + rest;
      AddOptional("List-Archive", env.archive, b1, rest);
      AddOptional("List-Unsubscribe-Post", env.unsubscribePost, b2, rest);
      AddOptional("List-Unsubscribe", env.unsubscribe, b3, rest);
      AddOptional("List-Subscribe", env.subscribe, b4, rest);
      AddOptional("List-Help", env.help, b5, rest);
      AddHeader("List-Post", env.post);
      Assoc([NewField(emit, "List-Post", env.post)], b6, rest);
      AddHeader("List-Id", env.listId);
      Assoc([NewField(emit, "List-Id", env.listId)], [NewField(emit, "List-Post", env.post)] + b6, rest);
    }
  }
}
