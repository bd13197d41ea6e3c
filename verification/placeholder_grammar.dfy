/** The placeholders of a pipeline template's arguments (pipeline_template.go):
    which arguments are accepted, and what filling them in does. */
module PlaceholderGrammar {
  import opened Basics

  /** An argument as texts with named holes between them. */
  datatype Parsed = End(text: string) | Hole(text: string, name: string, rest: Parsed)

  function Render(p: Parsed): string {
    match p
    case End(text) => text
    case Hole(text, name, rest) => text + ("${" + (name + ("}" + Render(rest))))
  }

  /** The texts with values in place of the holes; a name without value gives nothing. */
  function Fill(p: Parsed, values: map<string, string>): string {
    match p
    case End(text) => text
    case Hole(text, name, rest) => text + (ValueOf(name, values) + Fill(rest, values))
  }

  function ValueOf(name: string, values: map<string, string>): string {
    if name in values then values[name] else ""
  }

  function Names(p: Parsed): seq<string> {
    match p
    case End(_) => []
    case Hole(_, name, rest) => [name] + Names(rest)
  }

  // ----- what the regular expression finds

  /** Where "${" is first, or the length. */
  function Opening(s: string): (i: nat)
    ensures i == |s| || (i + 2 <= |s| && s[i] == '$' && s[i + 1] == '{')
    ensures forall k :: 0 <= k < i && k + 1 < |s| ==> !(s[k] == '$' && s[k + 1] == '{')
  {
    if |s| < 2 then |s| else if s[0] == '$' && s[1] == '{' then 0 else 1 + Opening(s[1..])
  }

  datatype Match = NoMatch | Match(before: string, name: string, after: string)

  /** The leftmost match of `\$\{[^}]*\}`. */
  function NextMatch(s: string): (m: Match)
    ensures m.Match? ==> s == m.before + ("${" + (m.name + ("}" + m.after))) && '}' !in m.name
  {
    var open := Opening(s);
    if open == |s| then NoMatch
    else
      var tail := s[open + 2..];
      var close := IndexOf(tail, '}');
      if close == |tail| then NoMatch
      else
        Reassembles(s, open, close);
        Match(s[..open], tail[..close], tail[close + 1..])
  }

  lemma Reassembles(s: string, open: nat, close: nat)
    requires open + 2 <= |s| && s[open] == '$' && s[open + 1] == '{'
    requires close < |s| - open - 2 && s[open + 2 + close] == '}'
    ensures var tail := s[open + 2..];
            s == s[..open] + ("${" + (tail[..close] + ("}" + tail[close + 1..])))
  {
    var tail := s[open + 2..];
    assert tail == tail[..close] + ("}" + tail[close + 1..]);
    assert s[open..] == "${" + tail;
    assert s == s[..open] + s[open..];
  }

  /** All non-overlapping matches, from the left, and what lies between. */
  function Scan(s: string): Parsed
    decreases |s|
  {
    var m := NextMatch(s);
    if m.NoMatch? then End(s) else Hole(m.before, m.name, Scan(m.after))
  }

  function Dollars(s: string): nat {
    if s == [] then 0 else IsDollar(s[0]) + Dollars(s[1..])
  }

  function IsDollar(c: char): nat {
    if c == '$' then 1 else 0
  }

  /** The source's test of one argument. */
  ghost predicate Accepted(s: string, known: set<string>) {
    Dollars(s) == |Names(Scan(s))| && forall name :: name in Names(Scan(s)) ==> name in known
  }

  /** What filling in one argument does: every match is replaced by the value of its
      name, in one pass. */
  function Expand(s: string, values: map<string, string>): string {
    Fill(Scan(s), values)
  }

  // ----- the grammar

  /** Texts without `$`, holes with names free of `$` and `}`. */
  ghost predicate Clean(p: Parsed) {
    match p
    case End(text) => '$' !in text
    case Hole(text, name, rest) => '$' !in text && '$' !in name && '}' !in name && Clean(rest)
  }

  ghost predicate WellFormed(p: Parsed, known: set<string>) {
    Clean(p) && forall name :: name in Names(p) ==> name in known
  }

  /** Known names can be written in a placeholder. */
  ghost predicate Plain(known: set<string>) {
    forall name :: name in known ==> '$' !in name && '}' !in name
  }

  lemma {:induction false} RenderScan(s: string)
    ensures Render(Scan(s)) == s
    decreases |s|
  {
    var m := NextMatch(s);
    if m.Match? {
      RenderScan(m.after);
    }
  }

  lemma {:induction false} DollarsConcat(a: string, b: string)
    ensures Dollars(a + b) == Dollars(a) + Dollars(b)
  {
    if a == [] {
      assert a + b == b;
    } else {
      DollarsConcat(a[1..], b);
      assert (a + b)[1..] == a[1..] + b;
    }
  }

  lemma {:induction false} NoDollars(s: string)
    ensures Dollars(s) == 0 <==> '$' !in s
  {
    if s != [] {
      NoDollars(s[1..]);
    }
  }

  /** A rendered argument has a `$` for each hole; with no more than that, texts and
      names have none. */
  lemma {:induction false} DollarsOfRender(p: Parsed)
    ensures Dollars(Render(p)) >= |Names(p)|
    ensures Dollars(Render(p)) == |Names(p)| ==> DollarFree(p)
    ensures DollarFree(p) ==> Dollars(Render(p)) == |Names(p)|
  {
    match p
    case End(text) => NoDollars(text);
    case Hole(text, name, rest) =>
      DollarsOfRender(rest);
      DollarsConcat("}", Render(rest));
      DollarsConcat(name, "}" + Render(rest));
      DollarsConcat("${", name + ("}" + Render(rest)));
      DollarsConcat(text, "${" + (name + ("}" + Render(rest))));
      NoDollars(text);
      NoDollars(name);
      assert Dollars("${") == 1 && Dollars("}") == 0;
  }

  ghost predicate DollarFree(p: Parsed) {
    match p
    case End(text) => '$' !in text
    case Hole(text, name, rest) => '$' !in text && '$' !in name && DollarFree(rest)
  }

  lemma {:induction false} ScanClosesNames(s: string)
    ensures DollarFree(Scan(s)) ==> Clean(Scan(s))
    decreases |s|
  {
    var m := NextMatch(s);
    if m.Match? {
      ScanClosesNames(m.after);
    }
  }

  lemma IndexAfter(name: string, rest: string)
    requires '}' !in name
    ensures IndexOf(name + ("}" + rest), '}') == |name|
  {
    var s := name + ("}" + rest);
    assert s[|name|] == '}';
    assert forall k :: 0 <= k < |name| ==> s[k] == name[k];
  }

  lemma OpeningAfter(text: string, rest: string)
    requires '$' !in text
    ensures Opening(text + ("${" + rest)) == |text|
  {
    var s := text + ("${" + rest);
    assert s[|text|] == '$' && s[|text| + 1] == '{';
    assert forall k :: 0 <= k < |text| ==> s[k] == text[k];
  }

  lemma Halves(a: string, middle: string, b: string)
    ensures (a + (middle + b))[..|a|] == a && (a + (middle + b))[|a| + |middle|..] == b
  {
  }

  lemma NextMatchAfter(text: string, name: string, rest: string)
    requires '$' !in text && '}' !in name
    ensures NextMatch(text + ("${" + (name + ("}" + rest)))) == Match(text, name, rest)
  {
    var inner := name + ("}" + rest);
    var s := text + ("${" + inner);
    OpeningAfter(text, inner);
    IndexAfter(name, rest);
    Halves(text, "${", inner);
    Halves(name, "}", rest);
  }

  /** Scanning recovers the texts and holes an argument was written from. */
  lemma {:induction false} ScanRender(p: Parsed)
    requires Clean(p)
    ensures Scan(Render(p)) == p
  {
    match p
    case End(text) => assert text + [] == text;
    case Hole(text, name, rest) =>
      NextMatchAfter(text, name, Render(rest));
      ScanRender(rest);
  }

  /** Exactly the arguments that consist of `$`-free texts and placeholders with known
      names are accepted. */
  lemma AcceptedExactly(s: string, known: set<string>)
    requires Plain(known)
    ensures Accepted(s, known) <==> exists p :: WellFormed(p, known) && Render(p) == s
  {
    RenderScan(s);
    DollarsOfRender(Scan(s));
    ScanClosesNames(s);
    if Accepted(s, known) {
      assert WellFormed(Scan(s), known);
    }
    forall p | WellFormed(p, known) && Render(p) == s ensures Accepted(s, known) {
      ScanRender(p);
      CleanIsDollarFree(p);
    }
  }

  lemma {:induction false} CleanIsDollarFree(p: Parsed)
    requires Clean(p)
    ensures DollarFree(p)
  {
    if p.Hole? {
      CleanIsDollarFree(p.rest);
    }
  }

  /** There is only one way to read an argument. */
  lemma OneReading(p: Parsed, q: Parsed)
    requires Clean(p) && Clean(q) && Render(p) == Render(q)
    ensures p == q
  {
    ScanRender(p);
    ScanRender(q);
  }

  /** Values are inserted as they are, whatever they contain: the texts and the values
      of the argument's only reading, in order. */
  lemma ValuesAreNotRescanned(p: Parsed, values: map<string, string>)
    requires Clean(p)
    ensures Expand(Render(p), values) == Fill(p, values)
  {
    ScanRender(p);
  }

  // ----- what filling in does, argument by argument

  ghost predicate Readable(s: string) {
    exists p :: Clean(p) && Render(p) == s
  }

  /** A `$`-free text stays, */
  lemma PlainStays(s: string, values: map<string, string>)
    requires '$' !in s
    ensures Readable(s) && Expand(s, values) == s
  {
    assert Clean(End(s)) && Render(End(s)) == s;
    ValuesAreNotRescanned(End(s), values);
  }

  /** a placeholder gives way to its value, */
  lemma PlaceholderGivesWay(name: string, values: map<string, string>)
    requires '$' !in name && '}' !in name
    ensures Readable("${" + name + "}")
    ensures Expand("${" + name + "}", values) == if name in values then values[name] else ""
  {
    var p := Hole("", name, End(""));
    assert Render(p) == "${" + name + "}";
    ValuesAreNotRescanned(p, values);
    assert Fill(p, values) == ValueOf(name, values);
  }

  /** and what is written together is filled in part by part. With the other two this
      says for every accepted argument what becomes of it. */
  lemma PartByPart(a: string, b: string, values: map<string, string>)
    requires Readable(a) && Readable(b)
    ensures Readable(a + b) && Expand(a + b, values) == Expand(a, values) + Expand(b, values)
  {
    var p :| Clean(p) && Render(p) == a;
    var q :| Clean(q) && Render(q) == b;
    AppendJoins(p, q, values);
    ValuesAreNotRescanned(p, values);
    ValuesAreNotRescanned(q, values);
    ValuesAreNotRescanned(Append(p, q), values);
  }

  function Append(p: Parsed, q: Parsed): Parsed {
    match p
    case Hole(text, name, rest) => Hole(text, name, Append(rest, q))
    case End(text) =>
      match q
      case End(more) => End(text + more)
      case Hole(more, name, rest) => Hole(text + more, name, rest)
  }

  lemma {:induction false} AppendJoins(p: Parsed, q: Parsed, values: map<string, string>)
    requires Clean(p) && Clean(q)
    ensures Clean(Append(p, q))
    ensures Render(Append(p, q)) == Render(p) + Render(q)
    ensures Fill(Append(p, q), values) == Fill(p, values) + Fill(q, values)
  {
    match p
    case Hole(text, name, rest) =>
      AppendJoins(rest, q, values);
      Associates("}", Render(rest), Render(q));
      Associates(name, "}" + Render(rest), Render(q));
      Associates("${", name + ("}" + Render(rest)), Render(q));
      Associates(text, "${" + (name + ("}" + Render(rest))), Render(q));
      Associates(ValueOf(name, values), Fill(rest, values), Fill(q, values));
      Associates(text, ValueOf(name, values) + Fill(rest, values), Fill(q, values));
    case End(text) =>
      if q.Hole? {
        Associates(text, q.text, "${" + (q.name + ("}" + Render(q.rest))));
        Associates(text, q.text, ValueOf(q.name, values) + Fill(q.rest, values));
      }
  }

  /** No `$` remains when no value has one. */
  lemma {:induction false} NothingLeftToFill(p: Parsed, values: map<string, string>)
    requires Clean(p)
    requires forall name :: name in values ==> '$' !in values[name]
    ensures '$' !in Fill(p, values)
  {
    if p.Hole? {
      NothingLeftToFill(p.rest, values);
      assert '$' !in ValueOf(p.name, values);
    }
  }

  // ----- the snapshot branch

  predicate Contains(s: string, part: string) {
    exists k :: 0 <= k <= |s| && OccursAt(s, part, k)
  }

  predicate OccursAt(s: string, part: string, k: int) {
    0 <= k && k + |part| <= |s| && s[k..k + |part|] == part
  }

  /** A `$` is where a hole begins. */
  lemma DollarIsHole(p: Parsed, k: nat)
    requires Clean(p) && p.Hole? && k < |Render(p)| && Render(p)[k] == '$'
    ensures k == |p.text| || k >= |p.text| + 3 + |p.name|
  {
    var s, at := Render(p), |p.text|;
    assert forall i :: 0 <= i < at ==> s[i] == p.text[i];
    assert s[at + 1] == '{' && s[at + 2 + |p.name|] == '}';
    assert forall i :: at + 2 <= i < at + 2 + |p.name| ==> s[i] == p.name[i - at - 2];
  }

  /** `$`-free text at the start of an argument lies in its first text. */
  lemma PlainPrefix(p: Parsed, plain: string)
    requires '$' !in plain && plain <= Render(p)
    ensures plain <= p.text
  {
    var s := Render(p);
    assert plain == s[..|plain|];
    if p.Hole? {
      assert s[|p.text|] == '$';
      assert forall i :: 0 <= i < |plain| ==> plain[i] == s[i];
    }
    assert forall i :: 0 <= i < |p.text| ==> s[i] == p.text[i];
  }

  /** Where a placeholder followed by plain text occurs, the value followed by that
      text occurs after filling in. */
  lemma {:induction false} FilledWhereWritten(p: Parsed, name: string, plain: string, k: nat, values: map<string, string>)
    requires Clean(p) && '$' !in plain && '}' !in name
    requires OccursAt(Render(p), "${" + name + "}" + plain, k)
    ensures Contains(Fill(p, values), ValueOf(name, values) + plain)
  {
    var s, part := Render(p), "${" + name + "}" + plain;
    assert part[0] == '$' && s[k] == s[k..k + |part|][0];
    if p.Hole? {
      var end := |p.text| + 3 + |p.name|;
      DollarIsHole(p, k);
      if k >= end {
        assert s[end..] == Render(p.rest);
        assert Render(p.rest)[k - end..k - end + |part|] == s[k..k + |part|];
        FilledWhereWritten(p.rest, name, plain, k - end, values);
        ContainsInRest(p, values, ValueOf(name, values) + plain);
      } else {
        FilledHere(p, name, plain, values);
      }
    }
  }

  lemma FilledWhereContained(p: Parsed, name: string, plain: string, values: map<string, string>)
    requires Clean(p) && '$' !in plain && '}' !in name
    requires Contains(Render(p), "${" + name + "}" + plain)
    ensures Contains(Fill(p, values), ValueOf(name, values) + plain)
  {
    var k :| 0 <= k <= |Render(p)| && OccursAt(Render(p), "${" + name + "}" + plain, k);
    FilledWhereWritten(p, name, plain, k, values);
  }

  lemma ContainsInRest(p: Parsed, values: map<string, string>, wanted: string)
    requires p.Hole? && Contains(Fill(p.rest, values), wanted)
    ensures Contains(Fill(p, values), wanted)
  {
    ContainsLater(ValueOf(p.name, values), Fill(p.rest, values), wanted);
    ContainsLater(p.text, ValueOf(p.name, values) + Fill(p.rest, values), wanted);
  }

  lemma ContainsLater(before: string, s: string, wanted: string)
    requires Contains(s, wanted)
    ensures Contains(before + s, wanted)
  {
    var at :| 0 <= at <= |s| && OccursAt(s, wanted, at);
    assert (before + s)[|before| + at..|before| + at + |wanted|] == s[at..at + |wanted|];
    assert OccursAt(before + s, wanted, |before| + at);
  }

  lemma FilledHere(p: Parsed, name: string, plain: string, values: map<string, string>)
    requires Clean(p) && p.Hole? && '$' !in plain && '}' !in name
    requires OccursAt(Render(p), "${" + name + "}" + plain, |p.text|)
    ensures Contains(Fill(p, values), ValueOf(name, values) + plain)
  {
    HoleRead(p, name, plain);
    PlainPrefix(p.rest, plain);
    FillStarts(p.rest, plain, values);
    StartsContain(ValueOf(name, values), plain, Fill(p.rest, values));
    ContainsLater(p.text, ValueOf(name, values) + Fill(p.rest, values), ValueOf(name, values) + plain);
  }

  lemma StartsContain(value: string, plain: string, filled: string)
    requires plain <= filled
    ensures Contains(value + filled, value + plain)
  {
    assert (value + filled)[0..|value + plain|] == value + plain;
    assert OccursAt(value + filled, value + plain, 0);
  }

  /** A name is read up to the first brace. */
  lemma NameRead(name: string, after: string, other: string, rest: string)
    requires '}' !in name && '}' !in other
    requires name + ("}" + after) == other + ("}" + rest)
    ensures name == other && after == rest
  {
    var s := name + ("}" + after);
    IndexAfter(name, after);
    IndexAfter(other, rest);
    assert s[..|name|] == name && s[..|other|] == other;
    assert s[|name| + 1..] == after && s[|name| + 1..] == rest;
  }

  /** What occurs behind a text begins what follows it. */
  lemma OccursBehind(text: string, inner: string, part: string)
    requires OccursAt(text + inner, part, |text|)
    ensures part <= inner
  {
    assert (text + inner)[|text|..] == inner;
    assert (text + inner)[|text|..|text| + |part|] == inner[..|part|];
  }

  lemma SamePrefix(open: string, inner: string, part: string)
    requires open + part <= open + inner
    ensures part <= inner
  {
    assert (open + part)[|open|..] == part && (open + inner)[|open|..] == inner;
  }

  lemma HoleRead(p: Parsed, name: string, plain: string)
    requires Clean(p) && p.Hole? && '}' !in name
    requires OccursAt(Render(p), "${" + name + "}" + plain, |p.text|)
    ensures name == p.name && plain <= Render(p.rest)
  {
    var inner, part := p.name + ("}" + Render(p.rest)), name + ("}" + plain);
    assert "${" + name + "}" + plain == "${" + part;
    OccursBehind(p.text, "${" + inner, "${" + part);
    SamePrefix("${", inner, part);
    var more := inner[|part|..];
    assert inner == name + ("}" + (plain + more));
    NameRead(p.name, Render(p.rest), name, plain + more);
  }

  lemma FillStarts(p: Parsed, plain: string, values: map<string, string>)
    requires plain <= p.text
    ensures plain <= Fill(p, values)
  {
  }
}
