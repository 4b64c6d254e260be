/**
  Placeholder resolution: what the validator accepts, and that the seven replacements
  made one after another amount to one simultaneous substitution.
 */
module Placeholders {
  import opened Common

  datatype Placeholder = MirrorName | RunId | AttemptNo | NodeName | MirrorRoot | TargetDir | PublishedDir

  datatype Segment = Literal(c: char) | Hole(p: Placeholder)

  type Context = Placeholder -> string

  function NameOf(p: Placeholder): string {
    match p
    case MirrorName => "mirror_name"
    case RunId => "run_id"
    case AttemptNo => "attempt"
    case NodeName => "node_name"
    case MirrorRoot => "mirror_root"
    case TargetDir => "target_dir"
    case PublishedDir => "published_dir"
  }

  function Lookup(name: string): Option<Placeholder> {
    if name == "mirror_name" then Some(MirrorName)
    else if name == "run_id" then Some(RunId)
    else if name == "attempt" then Some(AttemptNo)
    else if name == "node_name" then Some(NodeName)
    else if name == "mirror_root" then Some(MirrorRoot)
    else if name == "target_dir" then Some(TargetDir)
    else if name == "published_dir" then Some(PublishedDir)
    else None
  }

  predicate IsBrace(c: char) {
    c == '{' || c == '}'
  }

  predicate BraceFree(s: string) {
    forall i :: 0 <= i < |s| ==> !IsBrace(s[i])
  }

  lemma NamesAreBraceFree(p: Placeholder)
    ensures BraceFree(NameOf(p)) && |NameOf(p)| > 0
  {
  }

  lemma LookupIsExact(name: string, p: Placeholder)
    ensures Lookup(name) == Some(p) <==> name == NameOf(p)
  {
    assert "mirror_name"[7] == 'n' && "mirror_root"[7] == 'r';
    assert |"mirror_name"| == 11 && |"run_id"| == 6 && |"attempt"| == 7 && |"node_name"| == 9;
    assert |"mirror_root"| == 11 && |"target_dir"| == 10 && |"published_dir"| == 13;
  }

  // Parsing

  /** The text in braces or, for a stray or unclosed one, what the error reports. */
  datatype Parsed = Template(segments: seq<Segment>) | Unsupported(text: string)

  /** The first position of a closing brace, or the length. */
  function Closing(s: string): (n: nat)
    ensures n <= |s| && (n < |s| ==> s[n] == '}') && forall i :: 0 <= i < n ==> s[i] != '}'
    decreases |s|
  {
    if s == [] || s[0] == '}' then 0 else 1 + Closing(s[1..])
  }

  function Then(first: Segment, rest: Parsed): Parsed {
    if rest.Template? then Template([first] + rest.segments) else rest
  }

  function Parse(s: string): Parsed
    decreases |s|
  {
    if s == [] then Template([])
    else if s[0] == '}' then Unsupported(s)
    else if s[0] == '{' then
      var after := s[1..];
      var close := Closing(after);
      if close == |after| then Unsupported(after)
      else if Lookup(after[..close]).None? then Unsupported(after[..close])
      else Then(Hole(Lookup(after[..close]).value), Parse(after[close + 1..]))
    else Then(Literal(s[0]), Parse(s[1..]))
  }

  function RenderOne(segment: Segment): string {
    match segment
    case Literal(c) => [c]
    case Hole(p) => "{" + NameOf(p) + "}"
  }

  function Render(segments: seq<Segment>): string
    decreases |segments|
  {
    if segments == [] then [] else RenderOne(segments[0]) + Render(segments[1..])
  }

  predicate LiteralsBraceFree(segments: seq<Segment>) {
    forall i :: 0 <= i < |segments| && segments[i].Literal? ==> !IsBrace(segments[i].c)
  }

  lemma RenderCons(segment: Segment, rest: seq<Segment>)
    ensures Render([segment] + rest) == RenderOne(segment) + Render(rest)
    ensures LiteralsBraceFree(rest) && (segment.Literal? ==> !IsBrace(segment.c)) ==>
      LiteralsBraceFree([segment] + rest)
  {
    assert ([segment] + rest)[1..] == rest;
  }

  /** A parsed template renders back to its text. */
  lemma {:induction false} ParseThenRender(s: string)
    requires Parse(s).Template?
    ensures Render(Parse(s).segments) == s && LiteralsBraceFree(Parse(s).segments)
    decreases |s|
  {
    hide Lookup, NameOf, LiteralsBraceFree, Render;
    if s == [] {
      RenderNothing();
    } else if s[0] == '{' {
      var after := s[1..];
      var close := Closing(after);
      var name, rest := after[..close], after[close + 1..];
      var p := Lookup(name).value;
      ParseThenRender(rest);
      LookupIsExact(name, p);
      RenderCons(Hole(p), Parse(rest).segments);
      assert s == "{" + name + "}" + rest;
    } else {
      ParseThenRender(s[1..]);
      RenderCons(Literal(s[0]), Parse(s[1..]).segments);
      assert s == [s[0]] + s[1..];
    }
  }

  lemma RenderNothing()
    ensures Render([]) == [] && LiteralsBraceFree([])
  {
  }

  lemma {:induction false} ClosingOfName(name: string, rest: string)
    requires forall i :: 0 <= i < |name| ==> name[i] != '}'
    ensures Closing(name + "}" + rest) == |name|
  {
    var s := name + "}" + rest;
    var n := Closing(s);
    assert s[|name|] == '}';
    assert forall i :: 0 <= i < |name| ==> s[i] == name[i];
  }

  lemma ParseHole(p: Placeholder, rest: string)
    ensures Parse("{" + NameOf(p) + "}" + rest) == Then(Hole(p), Parse(rest))
  {
    hide Lookup, NameOf;
    var name := NameOf(p);
    var s := "{" + name + "}" + rest;
    NamesAreBraceFree(p);
    ClosingOfName(name, rest);
    LookupIsExact(name, p);
    var after := s[1..];
    assert after == name + "}" + rest;
    assert after[..|name|] == name && after[|name| + 1..] == rest;
  }

  /** Text made of brace-free literals and known placeholders parses to just those segments. */
  lemma {:induction false} RenderThenParse(segments: seq<Segment>)
    requires LiteralsBraceFree(segments)
    ensures Parse(Render(segments)) == Template(segments)
    decreases |segments|
  {
    hide Lookup, NameOf;
    if segments != [] {
      var rest := segments[1..];
      RenderThenParse(rest);
      assert segments == [segments[0]] + rest;
      match segments[0] {
        case Literal(c) => assert Render(segments)[1..] == Render(rest);
        case Hole(p) => ParseHole(p, Render(rest));
      }
    }
  }

  lemma {:induction false} LiteralPrefix(s: string, n: nat)
    requires n <= |s| && BraceFree(s[..n])
    ensures Parse(s).Template? <==> Parse(s[n..]).Template?
    ensures Parse(s).Unsupported? ==> Parse(s) == Parse(s[n..])
    decreases n
  {
    if n == 0 {
      assert s[0..] == s;
    } else {
      assert s[..n][0] == s[0];
      var shorter := s[1..][..n - 1];
      assert forall i :: 0 <= i < n - 1 ==> shorter[i] == s[..n][i + 1];
      LiteralPrefix(s[1..], n - 1);
      assert s[1..][n - 1..] == s[n..];
    }
  }

  method FindBrace(s: string) returns (n: nat)
    ensures n <= |s| && BraceFree(s[..n]) && (n < |s| ==> IsBrace(s[n]))
  {
    n := 0;
    while n < |s| && !IsBrace(s[n])
      invariant n <= |s| && BraceFree(s[..n])
    {
      n := n + 1;
    }
  }

  method FindClosing(s: string) returns (n: nat)
    ensures n == Closing(s)
  {
    n := 0;
    while n < |s| && s[n] != '}'
      invariant n <= |s| && forall i :: 0 <= i < n ==> s[i] != '}'
    {
      n := n + 1;
    }
  }

  /** `validate_placeholders`: accepts exactly the templates, and reports the first fault of anything else. */
  method ValidatePlaceholders(value: string) returns (error: Option<string>)
    ensures error.None? <==> Parse(value).Template?
    ensures error.Some? ==> Parse(value) == Unsupported(error.value)
  {
    var rest := value;
    while true
      invariant Parse(value).Template? <==> Parse(rest).Template?
      invariant Parse(value).Unsupported? ==> Parse(value) == Parse(rest)
      decreases |rest|
    {
      var open := FindBrace(rest);
      LiteralPrefix(rest, open);
      if open == |rest| {
        return None;
      }
      if rest[open] == '}' {
        return Some(rest[open..]);
      }
      var after := rest[open + 1..];
      assert rest[open..][1..] == after;
      var close := FindClosing(after);
      if close == |after| {
        return Some(after);
      }
      if Lookup(after[..close]).None? {
        return Some(after[..close]);
      }
      rest := after[close + 1..];
    }
  }

  // Resolution

  /** `str::replace`: every occurrence from left to right, not looking at what it inserted. */
  function ReplaceAll(s: string, pattern: string, value: string): string
    requires |pattern| > 0
    decreases |s|
  {
    if s == [] then []
    else if |pattern| <= |s| && s[..|pattern|] == pattern then value + ReplaceAll(s[|pattern|..], pattern, value)
    else [s[0]] + ReplaceAll(s[1..], pattern, value)
  }

  function PatternOf(p: Placeholder): (pattern: string)
    ensures |pattern| > 0
  {
    "{" + NameOf(p) + "}"
  }

  /** The source's chain of replacements, in its order. */
  function Resolve(s: string, context: Context): string {
    var s1 := ReplaceAll(s, PatternOf(MirrorName), context(MirrorName));
    var s2 := ReplaceAll(s1, PatternOf(RunId), context(RunId));
    var s3 := ReplaceAll(s2, PatternOf(AttemptNo), context(AttemptNo));
    var s4 := ReplaceAll(s3, PatternOf(NodeName), context(NodeName));
    var s5 := ReplaceAll(s4, PatternOf(MirrorRoot), context(MirrorRoot));
    var s6 := ReplaceAll(s5, PatternOf(TargetDir), context(TargetDir));
    ReplaceAll(s6, PatternOf(PublishedDir), context(PublishedDir))
  }

  /** One simultaneous substitution. */
  function Substitute(segments: seq<Segment>, context: Context): string
    decreases |segments|
  {
    if segments == [] then []
    else (match segments[0] case Literal(c) => [c] case Hole(p) => context(p)) + Substitute(segments[1..], context)
  }

  function Literals(s: string): (segments: seq<Segment>)
    ensures |segments| == |s| && forall i :: 0 <= i < |s| ==> segments[i] == Literal(s[i])
    decreases |s|
  {
    if s == [] then [] else [Literal(s[0])] + Literals(s[1..])
  }

  /** The segments once every hole of one placeholder is filled. */
  function Fill(segments: seq<Segment>, p: Placeholder, value: string): seq<Segment>
    decreases |segments|
  {
    if segments == [] then []
    else (if segments[0] == Hole(p) then Literals(value) else [segments[0]]) + Fill(segments[1..], p, value)
  }

  lemma LiteralsCons(value: string, segments: seq<Segment>)
    requires value != []
    ensures Literals(value) + segments == [Literal(value[0])] + (Literals(value[1..]) + segments)
  {
  }

  lemma {:induction false} RenderOfLiterals(value: string, segments: seq<Segment>)
    ensures Render(Literals(value) + segments) == value + Render(segments)
    decreases |value|
  {
    hide Render, LiteralsBraceFree;
    if value == [] {
      assert Literals(value) + segments == segments;
    } else {
      hide Literals;
      var rest, tail := Literals(value[1..]) + segments, Render(segments);
      RenderOfLiterals(value[1..], segments);
      RenderCons(Literal(value[0]), rest);
      LiteralsCons(value, segments);
      assert [value[0]] + (value[1..] + tail) == value + tail;
    }
  }

  lemma OtherStartDoesNotMatch(s: string, pattern: string)
    requires |s| > 0 && |pattern| > 0 && s[0] != pattern[0]
    ensures !(|pattern| <= |s| && s[..|pattern|] == pattern)
  {
    if |pattern| <= |s| {
      assert s[..|pattern|][0] == s[0];
    }
  }

  lemma {:induction false} SkipsPlainText(plain: string, rest: string, p: Placeholder, value: string)
    requires forall i :: 0 <= i < |plain| ==> plain[i] != '{'
    ensures ReplaceAll(plain + rest, PatternOf(p), value) == plain + ReplaceAll(rest, PatternOf(p), value)
    decreases |plain|
  {
    hide NameOf;
    var s, pattern := plain + rest, PatternOf(p);
    if plain == [] {
      assert s == rest;
    } else {
      SkipsPlainText(plain[1..], rest, p, value);
      assert s[1..] == plain[1..] + rest;
      OtherStartDoesNotMatch(s, pattern);
    }
  }

  /** Text in braces does not begin with different text in braces. */
  lemma OtherNameDoesNotMatch(name: string, other: string, rest: string)
    requires BraceFree(name) && BraceFree(other) && name != other
    ensures var s, pattern := "{" + other + "}" + rest, "{" + name + "}";
            !(|pattern| <= |s| && s[..|pattern|] == pattern)
  {
    var s, pattern := "{" + other + "}" + rest, "{" + name + "}";
    if |pattern| <= |s| {
      var start := s[..|pattern|];
      if |name| < |other| {
        assert start[|name| + 1] == other[|name|] && pattern[|name| + 1] == '}';
      } else if |other| < |name| {
        assert start[|other| + 1] == '}' && pattern[|other| + 1] == name[|other|];
      } else {
        var i :| 0 <= i < |name| && name[i] != other[i];
        assert start[i + 1] == other[i] && pattern[i + 1] == name[i];
      }
    }
  }

  lemma SkipsOtherHole(p: Placeholder, q: Placeholder, rest: string, value: string)
    requires p != q
    ensures ReplaceAll(PatternOf(q) + rest, PatternOf(p), value) ==
            PatternOf(q) + ReplaceAll(rest, PatternOf(p), value)
  {
    hide NameOf, Lookup;
    var tail := NameOf(q) + "}";
    NamesAreBraceFree(p);
    NamesAreBraceFree(q);
    LookupIsExact(NameOf(q), q);
    LookupIsExact(NameOf(q), p);
    OtherNameDoesNotMatch(NameOf(p), NameOf(q), rest);
    assert PatternOf(q) + rest == "{" + (tail + rest);
    SkipsPlainText(tail, rest, p, value);
    SkipsFirst("{" + (tail + rest), PatternOf(p), value);
    assert PatternOf(q) == "{" + tail;
  }

  lemma SkipsFirst(s: string, pattern: string, value: string)
    requires |s| > 0 && |pattern| > 0 && !(|pattern| <= |s| && s[..|pattern|] == pattern)
    ensures ReplaceAll(s, pattern, value) == [s[0]] + ReplaceAll(s[1..], pattern, value)
  {
  }

  /** Replacing one placeholder in a rendered template fills its holes and touches nothing else. */
  lemma {:induction false} ReplaceFills(segments: seq<Segment>, p: Placeholder, value: string)
    requires LiteralsBraceFree(segments)
    ensures ReplaceAll(Render(segments), PatternOf(p), value) == Render(Fill(segments, p, value))
    decreases |segments|
  {
    hide NameOf;
    if segments != [] {
      var rest := segments[1..];
      ReplaceFills(rest, p, value);
      var filled := Fill(rest, p, value);
      match segments[0] {
        case Literal(c) =>
          SkipsPlainText([c], Render(rest), p, value);
          assert ([segments[0]] + filled)[1..] == filled;
        case Hole(q) =>
          if q == p {
            var s := Render(segments);
            assert s == PatternOf(p) + Render(rest);
            assert s[..|PatternOf(p)|] == PatternOf(p) && s[|PatternOf(p)|..] == Render(rest);
            RenderOfLiterals(value, filled);
          } else {
            assert Render(segments) == PatternOf(q) + Render(rest);
            SkipsOtherHole(p, q, Render(rest), value);
            assert ([segments[0]] + filled)[1..] == filled;
          }
      }
    }
  }

  lemma {:induction false} SubstituteOfLiterals(value: string, segments: seq<Segment>, context: Context)
    ensures Substitute(Literals(value) + segments, context) == value + Substitute(segments, context)
    decreases |value|
  {
    if value == [] {
      assert Literals(value) + segments == segments;
    } else {
      SubstituteOfLiterals(value[1..], segments, context);
      assert (Literals(value) + segments)[1..] == Literals(value[1..]) + segments;
    }
  }

  /** Filling holes ahead of time does not change the substitution, and leaves no hole of that placeholder. */
  lemma {:induction false} FillKeepsMeaning(segments: seq<Segment>, p: Placeholder, context: Context)
    requires LiteralsBraceFree(segments) && BraceFree(context(p))
    ensures var filled := Fill(segments, p, context(p));
            && Substitute(filled, context) == Substitute(segments, context) && LiteralsBraceFree(filled)
            && (forall segment :: segment in filled && segment.Hole? ==> segment in segments && segment != Hole(p))
    decreases |segments|
  {
    if segments != [] {
      FillKeepsMeaning(segments[1..], p, context);
      var filled := Fill(segments[1..], p, context(p));
      if segments[0] == Hole(p) {
        SubstituteOfLiterals(context(p), filled, context);
      } else {
        assert ([segments[0]] + filled)[1..] == filled;
      }
      assert segments == [segments[0]] + segments[1..];
    }
  }

  lemma {:induction false} WithoutHoles(segments: seq<Segment>, context: Context)
    requires LiteralsBraceFree(segments) && forall segment :: segment in segments ==> segment.Literal?
    ensures Render(segments) == Substitute(segments, context) && BraceFree(Render(segments))
    decreases |segments|
  {
    if segments != [] {
      assert segments[0] in segments;
      WithoutHoles(segments[1..], context);
    }
  }

  /** One link of the chain, on the rendered template and on its meaning. */
  lemma Link(segments: seq<Segment>, p: Placeholder, context: Context) returns (filled: seq<Segment>)
    requires LiteralsBraceFree(segments) && BraceFree(context(p))
    ensures LiteralsBraceFree(filled) && Substitute(filled, context) == Substitute(segments, context)
    ensures ReplaceAll(Render(segments), PatternOf(p), context(p)) == Render(filled)
    ensures forall segment :: segment in filled && segment.Hole? ==> segment in segments && segment != Hole(p)
  {
    ReplaceFills(segments, p, context(p));
    FillKeepsMeaning(segments, p, context);
    filled := Fill(segments, p, context(p));
  }

  /**
    For every accepted string and brace-free values the chain of replacements is the
    simultaneous substitution of its segments, and leaves no brace.
   */
  lemma SequentialIsSimultaneous(s: string, context: Context)
    requires Parse(s).Template? && forall p :: BraceFree(context(p))
    ensures Resolve(s, context) == Substitute(Parse(s).segments, context)
    ensures BraceFree(Resolve(s, context))
  {
    hide LiteralsBraceFree, BraceFree, Substitute, Render, ReplaceAll, PatternOf;
    ParseThenRender(s);
    var t0 := Parse(s).segments;
    var t1 := Link(t0, MirrorName, context);
    var t2 := Link(t1, RunId, context);
    var t3 := Link(t2, AttemptNo, context);
    var t4 := Link(t3, NodeName, context);
    var t5 := Link(t4, MirrorRoot, context);
    var t6 := Link(t5, TargetDir, context);
    var t7 := Link(t6, PublishedDir, context);
    forall segment | segment in t7 ensures segment.Literal? {
      if segment.Hole? {
        EveryPlaceholder(segment.p);
      }
    }
    WithoutHoles(t7, context);
  }

  lemma EveryPlaceholder(p: Placeholder)
    ensures p in {MirrorName, RunId, AttemptNo, NodeName, MirrorRoot, TargetDir, PublishedDir}
  {
  }

  /** Each documented name in braces resolves to its own value. */
  lemma NamesResolve(context: Context)
    requires forall p :: BraceFree(context(p))
    ensures Resolve("{mirror_name}", context) == context(MirrorName)
    ensures Resolve("{run_id}", context) == context(RunId) && Resolve("{attempt}", context) == context(AttemptNo)
    ensures Resolve("{node_name}", context) == context(NodeName)
    ensures Resolve("{mirror_root}", context) == context(MirrorRoot)
    ensures Resolve("{target_dir}", context) == context(TargetDir)
    ensures Resolve("{published_dir}", context) == context(PublishedDir)
  {
    hide Resolve;
    assert "{mirror_name}" == PatternOf(MirrorName) && "{run_id}" == PatternOf(RunId);
    assert "{attempt}" == PatternOf(AttemptNo) && "{node_name}" == PatternOf(NodeName);
    assert "{mirror_root}" == PatternOf(MirrorRoot) && "{target_dir}" == PatternOf(TargetDir);
    assert "{published_dir}" == PatternOf(PublishedDir);
    forall p ensures Resolve(PatternOf(p), context) == context(p) {
      NameResolves(p, context);
    }
  }

  lemma NameResolves(p: Placeholder, context: Context)
    requires forall q :: BraceFree(context(q))
    ensures Resolve(PatternOf(p), context) == context(p)
  {
    hide Resolve, PatternOf, BraceFree;
    RenderThenParse([Hole(p)]);
    OneHole(p);
    SequentialIsSimultaneous(PatternOf(p), context);
    assert Substitute([Hole(p)], context) == context(p) + Substitute([], context);
  }

  lemma OneHole(p: Placeholder)
    ensures Render([Hole(p)]) == PatternOf(p)
  {
  }
}
