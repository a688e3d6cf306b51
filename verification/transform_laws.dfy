/** What the outgoing edits preserve, and when tagging the Subject twice is the same as once. */
module TransformLaws {
  import opened Wrappers
  import opened Text
  import opened Messages
  import opened Lists
  import opened Transform

  // ---- Wildcard matching ----

  lemma {:induction false} StarMatchesAll(s: string)
    ensures Matches("*", s)
  {
    assert "*"[1..] == "";
    if s != "" {
      StarMatchesAll(s[1..]);
    }
  }

  /** A leading star matches any prefix. */
  lemma {:induction false} StarMeansSomewhere(pat: string, s: string)
    ensures Matches("*" + pat, s) <==> exists i :: 0 <= i <= |s| && Matches(pat, s[i..])
    decreases |s|
  {
    assert ("*" + pat)[1..] == pat;
    assert s[0..] == s;
    if s != "" {
      StarMeansSomewhere(pat, s[1..]);
      if Matches("*" + pat, s[1..]) {
        var i :| 0 <= i <= |s[1..]| && Matches(pat, s[1..][i..]);
        assert s[1..][i..] == s[i + 1..];
      }
      if exists i :: 0 < i <= |s| && Matches(pat, s[i..]) {
        var i :| 0 < i <= |s| && Matches(pat, s[i..]);
        assert s[1..][i - 1..] == s[i..];
      }
    }
  }

  predicate Plain(tag: string) {
    '*' !in tag && '?' !in tag && '\\' !in tag
  }

  predicate StartsWith(s: string, prefix: string) {
    |prefix| <= |s| && SameName(s[..|prefix|], prefix)
  }

  /** Text without wildcards or escapes matches only itself, up to ASCII case. */
  lemma {:induction false} PlainIsLiteral(lit: string, pat: string, s: string)
    requires Plain(lit)
    ensures Matches(lit + pat, s) <==> StartsWith(s, lit) && Matches(pat, s[|lit|..])
  {
    if lit == "" {
      assert lit + pat == pat && s[0..] == s;
    } else if s != "" {
      var l', s' := lit[1..], s[1..];
      assert (lit + pat)[1..] == l' + pat;
      PlainIsLiteral(l', pat, s');
      if |lit| <= |s| {
        assert s'[|l'|..] == s[|lit|..];
        PrefixStep(s, lit);
      }
    }
  }

  lemma PrefixStep(s: string, lit: string)
    requires 0 < |lit| <= |s|
    ensures StartsWith(s, lit) <==> LowerChar(s[0]) == LowerChar(lit[0]) && StartsWith(s[1..], lit[1..])
  {
  }

  /**
   * For a tag without wildcards the test reads as documented: the Subject starts with the bracketed
   * tag, or has it right after some colon-space.
   */
  lemma TaggedMeansAtFront(tag: string, s: string)
    requires Plain(tag)
    ensures Tagged(tag, s) <==>
      StartsWith(s, Bracketed(tag)) || exists i :: 0 <= i <= |s| && StartsWith(s[i..], ": " + Bracketed(tag))
  {
    var b, c := Bracketed(tag), ": " + Bracketed(tag);
    PlainIsLiteral(b, "*", s);
    if StartsWith(s, b) { StarMatchesAll(s[|b|..]); }
    assert "*: " + b + "*" == "*" + (c + "*");
    StarMeansSomewhere(c + "*", s);
    forall i | 0 <= i <= |s| ensures Matches(c + "*", s[i..]) <==> StartsWith(s[i..], c) {
      PlainIsLiteral(c, "*", s[i..]);
      if StartsWith(s[i..], c) { StarMatchesAll(s[i..][|c|..]); }
    }
  }

  /** Wildcards in a tag still match themselves; only the escape character can prevent it. */
  lemma {:induction false} MatchesItself(tag: string, pat: string, s: string)
    requires '\\' !in tag && Matches(pat, s)
    ensures Matches(tag + pat, tag + s)
  {
    if tag == "" {
      assert tag + pat == pat && tag + s == s;
    } else {
      MatchesItself(tag[1..], pat, s);
      assert (tag + pat)[1..] == tag[1..] + pat && (tag + s)[1..] == tag[1..] + s;
      if tag[0] == '*' {
        assert Matches((tag + pat)[1..], (tag + s)[1..]);
        assert Matches(tag + pat, (tag + s)[1..]);
      }
    }
  }

  lemma NoBackslashTagged(tag: string)
    requires '\\' !in tag
    ensures Tagged(tag, Bracketed(tag))
  {
    StarMatchesAll("");
    MatchesItself(Bracketed(tag), "*", "");
    assert Bracketed(tag) + "" == Bracketed(tag);
  }

  /** A pattern that ends in a star keeps matching when text is appended. */
  lemma {:induction false} MatchesMore(p: string, s: string, more: string)
    requires p != "" ==> p[|p| - 1] != '\\'
    requires Matches(p + "*", s)
    ensures Matches(p + "*", s + more)
    decreases |p| + |s|
  {
    var pat := p + "*";
    if p == "" {
      assert pat == "*";
      StarMatchesAll(s + more);
    } else {
      assert pat[1..] == p[1..] + "*";
      if s != "" { assert (s + more)[1..] == s[1..] + more; }
      if p[0] == '*' {
        if Matches(pat[1..], s) { MatchesMore(p[1..], s, more); } else { MatchesMore(p, s[1..], more); }
      } else if p[0] == '\\' {
        assert pat[2..] == p[2..] + "*";
        MatchesMore(p[2..], s[1..], more);
      } else {
        MatchesMore(p[1..], s[1..], more);
      }
    }
  }

  lemma TaggedMore(tag: string, s: string, more: string)
    requires Tagged(tag, s)
    ensures Tagged(tag, s + more)
  {
    if Matches(Bracketed(tag) + "*", s) {
      MatchesMore(Bracketed(tag), s, more);
    } else {
      MatchesMore("*: " + Bracketed(tag), s, more);
    }
  }

  // ---- Tagging twice ----

  lemma TaggedText(tag: string, text: string)
    requires Tagged(tag, Bracketed(tag))
    ensures Tagged(tag, Bracketed(tag) + " " + text)
  {
    TaggedMore(tag, Bracketed(tag), " " + text);
    assert Bracketed(tag) + " " + text == Bracketed(tag) + (" " + text);
  }

  lemma TaggedOnTop(tag: string, f: Field, fields: seq<Field>)
    requires Named(f, "Subject") && Tagged(tag, f.value)
    ensures AnySubjectTagged([f] + fields, tag)
  {
  }

  lemma OnceTaggedStays(emit: Emitter, tag: string, fields: seq<Field>)
    requires Tagged(tag, Bracketed(tag))
    ensures Prefixed(emit, tag, Prefixed(emit, tag, fields)) == Prefixed(emit, tag, fields)
  {
    if !AnySubjectTagged(fields, tag) {
      match FirstValue(fields, "Subject") {
        case Some(text) =>
          TaggedText(tag, text);
          TaggedOnTop(tag, NewField(emit, "Subject", Bracketed(tag) + " " + text), Without(fields, "Subject"));
        case None =>
          TaggedOnTop(tag, NewField(emit, "Subject", Bracketed(tag)), fields);
      }
    }
  }

  /** A second run is a no-op on every message exactly when the bracketed tag passes the script's own test. */
  lemma PrefixIdempotentIff(emit: Emitter, tag: string)
    ensures (forall fields :: Prefixed(emit, tag, Prefixed(emit, tag, fields)) == Prefixed(emit, tag, fields))
       <==> Tagged(tag, Bracketed(tag))
  {
    if Tagged(tag, Bracketed(tag)) {
      forall fields ensures Prefixed(emit, tag, Prefixed(emit, tag, fields)) == Prefixed(emit, tag, fields) {
        OnceTaggedStays(emit, tag, fields);
      }
    } else {
      var bare := NewField(emit, "Subject", Bracketed(tag));
      assert Prefixed(emit, tag, []) == [bare] + [];
      assert !AnySubjectTagged([bare], tag);
      var twice := Prefixed(emit, tag, [bare]);
      assert twice[0].value == Bracketed(tag) + " " + Bracketed(tag);
      assert [bare] + [] == [bare];
      assert Prefixed(emit, tag, Prefixed(emit, tag, [])) != Prefixed(emit, tag, []);
    }
  }

  /** Every tag without a backslash qualifies. */
  lemma PrefixIdempotent(emit: Emitter, tag: string, fields: seq<Field>)
    requires '\\' !in tag
    ensures Prefixed(emit, tag, Prefixed(emit, tag, fields)) == Prefixed(emit, tag, fields)
  {
    NoBackslashTagged(tag);
    OnceTaggedStays(emit, tag, fields);
  }

  /** A tag with an escape in it is stacked on every pass. */
  lemma BackslashTagStacks(emit: Emitter)
    ensures var tag := "a\\b";
      exists fields :: Prefixed(emit, tag, Prefixed(emit, tag, fields)) != Prefixed(emit, tag, fields)
  {
    var tag := "a\\b";
    var s := Bracketed(tag);
    assert s == "[a\\b]";
    assert !Matches("[a\\b]*", s) by {
      assert "[a\\b]*"[1..] == "a\\b]*" && s[1..] == "a\\b]";
      assert "a\\b]*"[1..] == "\\b]*" && "a\\b]"[1..] == "\\b]";
      assert !Matches("\\b]*", "\\b]");
    }
    assert !Matches("*: [a\\b]*", s) by {
      assert "*: [a\\b]*" == "*" + ": [a\\b]*";
      StarMeansSomewhere(": [a\\b]*", s);
      forall i | 0 <= i <= |s| ensures !Matches(": [a\\b]*", s[i..]) {
        assert ':' !in s;
      }
    }
    assert !Tagged(tag, s) by {
      assert Bracketed(tag) + "*" == "[a\\b]*";
      assert "*: " + Bracketed(tag) + "*" == "*: [a\\b]*";
    }
    PrefixIdempotentIff(emit, tag);
  }

  // ---- What the edits leave behind ----

  lemma {:induction false} WithoutCounts(fields: seq<Field>, name: string, other: string)
    ensures CountField(Without(fields, name), other) == if SameName(name, other) then 0 else CountField(fields, other)
  {
    if fields != [] {
      WithoutCounts(fields[1..], name, other);
    }
  }

  /** Exactly one field of the name, holding the value. */
  predicate Single(fields: seq<Field>, name: string, value: string) {
    CountField(fields, name) == 1 && FirstValue(fields, name) == Some(value)
  }

  lemma OnTop(f: Field, fields: seq<Field>, name: string)
    requires Named(f, name) && CountField(fields, name) == 0
    ensures Single([f] + fields, name, f.value)
  {
    assert ([f] + fields)[1..] == fields;
  }

  /**
   * The Subject script edits exactly when no Subject is tagged already, and then leaves one Subject
   * field, the bracketed tag ahead of the text of the first one there was.
   */
  lemma PrefixEditsIff(emit: Emitter, tag: string, fields: seq<Field>)
    ensures var done := Prefixed(emit, tag, fields);
      && (done == fields <==> AnySubjectTagged(fields, tag))
      && (done != fields ==> Single(done, "Subject", match FirstValue(fields, "Subject")
           case Some(text) => Bracketed(tag) + " " + text
           case None => Bracketed(tag)))
  {
    if !AnySubjectTagged(fields, tag) {
      match FirstValue(fields, "Subject") {
        case Some(text) =>
          WithoutCounts(fields, "Subject", "Subject");
          OnTop(NewField(emit, "Subject", Bracketed(tag) + " " + text), Without(fields, "Subject"), "Subject");
        case None =>
          CountFieldPositive(fields, "Subject");
          OnTop(NewField(emit, "Subject", Bracketed(tag)), fields, "Subject");
      }
    }
  }

  lemma {:induction false} FirstOfOther(fields: seq<Field>, gone: string, name: string)
    requires !SameName(gone, name)
    ensures FirstValue(Without(fields, gone), name) == FirstValue(fields, name)
  {
    if fields != [] {
      FirstOfOther(fields[1..], gone, name);
    }
  }

  /** Munging leaves one From and one Reply-To, with the given values, whatever was there. */
  lemma MungeReplaces(emit: Emitter, from: string, replyTo: string, fields: seq<Field>)
    ensures var done := Munged(emit, from, replyTo, fields);
      Single(done, "From", from) && Single(done, "Reply-To", replyTo)
  {
    assert |ToLower("From")| != |ToLower("Reply-To")|;
    var top, rest := NewField(emit, "From", from), Without(fields, "From");
    WithoutCounts(fields, "From", "From");
    OnTop(top, rest, "From");
    var inner := [top] + rest;
    WithoutCounts(inner, "Reply-To", "From");
    WithoutCounts(inner, "Reply-To", "Reply-To");
    FirstOfOther(inner, "Reply-To", "From");
    var reply := NewField(emit, "Reply-To", replyTo);
    OnTop(reply, Without(inner, "Reply-To"), "Reply-To");
    assert ([reply] + Without(inner, "Reply-To"))[1..] == Without(inner, "Reply-To");
  }

  // ---- What stays ----

  /** Everything but the three fields the edits may replace, in order. */
  function Rest(fields: seq<Field>): seq<Field> {
    Without(Without(Without(fields, "Subject"), "From"), "Reply-To")
  }

  lemma RestDrops(name: string, fields: seq<Field>)
    requires name in {"Subject", "From", "Reply-To"}
    ensures Rest(Without(fields, name)) == Rest(fields)
  {
    WithoutTwice(fields, name);
    WithoutCommutes(fields, name, "Subject");
    WithoutCommutes(Without(fields, "Subject"), name, "From");
    WithoutTwice(Without(fields, "Subject"), "From");
    WithoutCommutes(Without(Without(fields, "Subject"), "From"), name, "Reply-To");
    WithoutTwice(Without(Without(fields, "Subject"), "From"), "Reply-To");
  }

  lemma WithoutTwice(fields: seq<Field>, name: string)
    ensures Without(Without(fields, name), name) == Without(fields, name)
  {
    WithoutAbsent(Without(fields, name), name);
  }

  lemma RestDropsNew(name: string, f: Field, fields: seq<Field>)
    requires name in {"Subject", "From", "Reply-To"} && Named(f, name)
    ensures Rest([f] + fields) == Rest(fields)
  {
    RestDrops(name, [f] + fields);
    RestDrops(name, fields);
    assert ([f] + fields)[1..] == fields;
  }

  /** The edits keep every other field, in order; the body is not theirs to touch. */
  lemma EditsKeepTheRest(emit: Emitter, list: List, munge: Option<(string, string)>, fields: seq<Field>)
    ensures Rest(Edited(emit, list, munge, fields)) == Rest(fields)
  {
    var munged := match munge case None => fields case Some(env) => Munged(emit, env.0, env.1, fields);
    if munge.Some? {
      var from, replyTo := NewField(emit, "From", munge.value.0), NewField(emit, "Reply-To", munge.value.1);
      var inner := [from] + Without(fields, "From");
      RestDropsNew("Reply-To", replyTo, Without(inner, "Reply-To"));
      RestDrops("Reply-To", inner);
      RestDropsNew("From", from, Without(fields, "From"));
      RestDrops("From", fields);
    }
    if SubjectPrefixEnv(list).Some? {
      var tag := SubjectPrefixEnv(list).value;
      if !AnySubjectTagged(munged, tag) {
        match FirstValue(munged, "Subject") {
          case Some(text) =>
            RestDropsNew("Subject", NewField(emit, "Subject", Bracketed(tag) + " " + text), Without(munged, "Subject"));
            RestDrops("Subject", munged);
          case None =>
            RestDropsNew("Subject", NewField(emit, "Subject", Bracketed(tag)), munged);
        }
      }
    }
  }

  /** With both DKIM-breaking edits off, the inbound bytes are an exact suffix of the augmented copy. */
  lemma UneditedIsSuffix(emit: Emitter, list: List, m: Message)
    requires SubjectPrefixEnv(list).None?
    ensures Augmented(emit, list, None, m) == Prepend(ListFields(emit, ListHeaderEnv(list)), m)
    ensures IsSuffix(Render(m), Render(Augmented(emit, list, None, m)))
  {
    PrependKeepsBytes(ListFields(emit, ListHeaderEnv(list)), m);
  }
}
