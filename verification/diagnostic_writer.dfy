/** The standard error of a pipeline's children, cut into lines however it arrives
    (diagnosticWriter of pipeline_source.go). */
module DiagnosticLines {
  import opened Basics

  const DIAGNOSTIC_BYTES := 4096

  /** Lines ended so far and the one begun. */
  datatype Split = Split(done: seq<string>, rest: string)

  function Next(x: Split, c: char): Split {
    if c == '\n' then Split(x.done + [x.rest], "") else Split(x.done, x.rest + [c])
  }

  /** The lines after these further characters. */
  function SplitFrom(x: Split, s: string): Split
    decreases |s|
  {
    if s == [] then x else SplitFrom(Next(x, s[0]), s[1..])
  }

  function AllOf(x: Split): seq<string> {
    x.done + [x.rest]
  }

  /** A text as lines. The last one has no newline after it and may be empty. */
  function Lines(s: string): seq<string> {
    AllOf(SplitFrom(Split([], ""), s))
  }

  function Init<T>(items: seq<T>): seq<T>
    requires |items| > 0
  {
    items[..|items| - 1]
  }

  function Last<T>(items: seq<T>): T
    requires |items| > 0
  {
    items[|items| - 1]
  }

  function Trim(line: string): string {
    if line == [] || line[|line| - 1] != '\r' then line else Trim(line[..|line| - 1])
  }

  /** Trimming takes carriage returns off the end and nothing else, and all of them. */
  lemma {:induction false} TrimIsExact(line: string)
    ensures Trim(line) <= line
    ensures forall k :: |Trim(line)| <= k < |line| ==> line[k] == '\r'
    ensures Trim(line) != "" ==> Trim(line)[|Trim(line)| - 1] != '\r'
  {
    if line != [] && line[|line| - 1] == '\r' {
      var shorter := line[..|line| - 1];
      TrimIsExact(shorter);
      forall k | |Trim(line)| <= k < |line| ensures line[k] == '\r' {
        if k < |line| - 1 {
          assert shorter[k] == line[k];
        }
      }
    }
  }

  /** The lines as they are forwarded: without carriage returns at the end, and none
      that is empty then. */
  function Shown(lines: seq<string>): seq<string> {
    if lines == [] then [] else Shown(Init(lines)) + Show(Last(lines))
  }

  function Show(line: string): seq<string> {
    if Trim(line) == "" then [] else [Trim(line)]
  }

  function Tail(s: string, n: nat): string {
    if |s| <= n then s else s[|s| - n..]
  }

  // ----- the state

  /** `lines` are the lines forwarded so far, before trimming. */
  datatype Writer = Writer(partial: string, recent: string, lines: seq<string>)

  function Fresh(): Writer {
    Writer("", "", [])
  }

  /** A line that never ends is cut. */
  function Cut(w: Writer): Writer {
    if |w.partial| > DIAGNOSTIC_BYTES then w.(partial := "", lines := w.lines + [w.partial]) else w
  }

  function Written(w: Writer, data: string): Writer {
    var x := SplitFrom(Split(w.lines, w.partial), data);
    Cut(Writer(x.rest, Tail(w.recent + data, DIAGNOSTIC_BYTES), x.done))
  }

  function Flushed(w: Writer): Writer {
    w.(partial := "", lines := w.lines + [w.partial])
  }

  class DiagnosticWriter {
    const prefix: string
    var partial: string
    var recent: string
    var output: seq<string>
    ghost var lines: seq<string>

    ghost predicate OutputOk()
      reads this
    {
      output == Prefixed(prefix, Shown(lines))
    }

    ghost predicate Valid()
      reads this
    {
      OutputOk() && '\n' !in partial
    }

    ghost function View(): Writer
      reads this
    {
      Writer(partial, recent, lines)
    }

    constructor (prefix: string)
      ensures Valid() && View() == Fresh() && this.prefix == prefix
    {
      this.prefix := prefix;
      partial, recent, output, lines := "", "", [], [];
    }

    method Emit(line: string)
      requires OutputOk()
      modifies this`output, this`lines
      ensures OutputOk() && lines == old(lines) + [line]
      ensures output == if Trim(line) == "" then old(output) else old(output) + [prefix + Trim(line)]
    {
      var text := Trim(line);
      if text != "" {
        output := output + [prefix + text];
      }
      ShownNext(lines, line);
      PrefixedConcat(prefix, Shown(lines), Show(line));
      lines := lines + [line];
    }

    /** Forwards every line that has ended. */
    method TakeLines()
      requires OutputOk()
      modifies this`partial, this`output, this`lines
      ensures Valid()
      ensures Split(lines, partial) == SplitFrom(Split(old(lines), ""), old(partial))
    {
      var end := IndexOf(partial, '\n');
      while end < |partial|
        invariant OutputOk()
        invariant end == IndexOf(partial, '\n')
        invariant SplitFrom(Split(lines, ""), partial) == SplitFrom(Split(old(lines), ""), old(partial))
        decreases |partial|
      {
        LineOff(lines, partial, end);
        Emit(partial[..end]);
        partial := partial[end + 1..];
        end := IndexOf(partial, '\n');
      }
      NoNewline(Split(lines, ""), partial);
      assert "" + partial == partial;
    }

    method Write(data: string)
      requires Valid()
      modifies this
      ensures Valid() && View() == Written(old(View()), data)
    {
      recent := recent + data;
      if |recent| > DIAGNOSTIC_BYTES {
        recent := recent[|recent| - DIAGNOSTIC_BYTES..];
      }
      PartialFirst(lines, partial, data);
      partial := partial + data;
      TakeLines();
      if |partial| > DIAGNOSTIC_BYTES {
        Emit(partial);
        partial := "";
      }
    }

    method Flush()
      requires Valid()
      modifies this`partial, this`output, this`lines
      ensures Valid() && View() == Flushed(old(View()))
    {
      Emit(partial);
      partial := "";
    }
  }

  function Prefixed(prefix: string, lines: seq<string>): seq<string> {
    seq(|lines|, i requires 0 <= i < |lines| => prefix + lines[i])
  }

  lemma PrefixedConcat(prefix: string, a: seq<string>, b: seq<string>)
    ensures Prefixed(prefix, a + b) == Prefixed(prefix, a) + Prefixed(prefix, b)
  {
  }

  lemma ShownNext(lines: seq<string>, line: string)
    ensures Shown(lines + [line]) == Shown(lines) + Show(line)
  {
    assert Init(lines + [line]) == lines;
  }

  // ----- lines

  lemma {:induction false} SplitConcat(x: Split, a: string, b: string)
    ensures SplitFrom(x, a + b) == SplitFrom(SplitFrom(x, a), b)
    decreases |a|
  {
    if a == [] {
      assert a + b == b;
    } else {
      SplitConcat(Next(x, a[0]), a[1..], b);
      assert (a + b)[1..] == a[1..] + b;
    }
  }

  lemma {:induction false} NoNewline(x: Split, s: string)
    requires '\n' !in s
    ensures SplitFrom(x, s) == Split(x.done, x.rest + s)
    decreases |s|
  {
    if s == [] {
      assert x.rest + s == x.rest;
    } else {
      NoNewline(Next(x, s[0]), s[1..]);
      assert (x.rest + [s[0]]) + s[1..] == x.rest + s;
    }
  }

  lemma PartialFirst(lines: seq<string>, partial: string, data: string)
    requires '\n' !in partial
    ensures SplitFrom(Split(lines, ""), partial + data) == SplitFrom(Split(lines, partial), data)
  {
    SplitConcat(Split(lines, ""), partial, data);
    NoNewline(Split(lines, ""), partial);
    assert "" + partial == partial;
  }

  lemma LineOff(lines: seq<string>, text: string, end: nat)
    requires end == IndexOf(text, '\n') < |text|
    ensures SplitFrom(Split(lines, ""), text) == SplitFrom(Split(lines + [text[..end]], ""), text[end + 1..])
  {
    assert text == text[..end] + text[end..];
    PartialFirst(lines, text[..end], text[end..]);
    assert text[end..][1..] == text[end + 1..];
  }

  // ----- any number of writes

  /** What a new writer is after these writes. */
  function Fed(chunks: seq<string>): Writer {
    if chunks == [] then Fresh() else Written(Fed(Init(chunks)), Last(chunks))
  }

  function Stream(chunks: seq<string>): string {
    if chunks == [] then "" else Stream(Init(chunks)) + Last(chunks)
  }

  /** All lines of a run that ends with a flush. */
  function AllLines(chunks: seq<string>): seq<string> {
    Flushed(Fed(chunks)).lines
  }

  // ----- nothing is lost or duplicated

  function Flat(lines: seq<string>): string {
    if lines == [] then "" else lines[0] + Flat(lines[1..])
  }

  function KeepChar(c: char): string {
    if c == '\n' then "" else [c]
  }

  function WithoutNewlines(s: string): string {
    if s == [] then "" else KeepChar(s[0]) + WithoutNewlines(s[1..])
  }

  lemma {:induction false} FlatConcat(a: seq<string>, b: seq<string>)
    ensures Flat(a + b) == Flat(a) + Flat(b)
  {
    if a == [] {
      assert a + b == b;
    } else {
      FlatConcat(a[1..], b);
      assert (a + b)[1..] == a[1..] + b;
      Associates(a[0], Flat(a[1..]), Flat(b));
    }
  }

  lemma {:induction false} WithoutNewlinesConcat(a: string, b: string)
    ensures WithoutNewlines(a + b) == WithoutNewlines(a) + WithoutNewlines(b)
  {
    if a == [] {
      assert a + b == b;
    } else {
      WithoutNewlinesConcat(a[1..], b);
      assert (a + b)[1..] == a[1..] + b;
      Associates(KeepChar(a[0]), WithoutNewlines(a[1..]), WithoutNewlines(b));
    }
  }

  /** All characters of a split text. */
  function Whole(x: Split): string {
    Flat(x.done) + x.rest
  }

  lemma NextKeeps(x: Split, c: char)
    ensures Whole(Next(x, c)) == Whole(x) + KeepChar(c)
  {
    FlatConcat(x.done, [x.rest]);
    assert Flat([x.rest]) == x.rest;
  }

  lemma {:induction false} SplitKeeps(x: Split, s: string)
    ensures Whole(SplitFrom(x, s)) == Whole(x) + WithoutNewlines(s)
    decreases |s|
  {
    if s != [] {
      NextKeeps(x, s[0]);
      SplitKeeps(Next(x, s[0]), s[1..]);
    }
  }

  /** The forwarded lines together are the stream without its newlines: whatever the
      chunks, no other byte is lost, repeated or reordered before trimming. */
  lemma {:induction false} NothingIsLost(chunks: seq<string>)
    ensures Flat(Fed(chunks).lines) + Fed(chunks).partial == WithoutNewlines(Stream(chunks))
    ensures Flat(AllLines(chunks)) == WithoutNewlines(Stream(chunks))
  {
    var w := Fed(chunks);
    if chunks != [] {
      var before := Fed(Init(chunks));
      NothingIsLost(Init(chunks));
      var x := SplitFrom(Split(before.lines, before.partial), Last(chunks));
      SplitKeeps(Split(before.lines, before.partial), Last(chunks));
      WithoutNewlinesConcat(Stream(Init(chunks)), Last(chunks));
      FlatOne(x.done, x.rest);
    }
    FlatOne(w.lines, w.partial);
  }

  lemma FlatOne(lines: seq<string>, line: string)
    ensures Flat(lines + [line]) == Flat(lines) + line
  {
    FlatConcat(lines, [line]);
    assert Flat([line]) == line;
  }

  // ----- independence of the chunks

  ghost predicate OnlyReturns(line: string) {
    forall k :: 0 <= k < |line| ==> line[k] == '\r'
  }

  /** What is forwarded of the line is at most one character past the limit. */
  ghost predicate FitsLine(line: string) {
    |Trim(line)| <= DIAGNOSTIC_BYTES + 1
  }

  ghost predicate Fits(x: Split) {
    FitsLine(x.rest) && forall line :: line in x.done ==> FitsLine(line)
  }

  ghost predicate FittingLines(s: string) {
    forall line :: line in Lines(s) ==> FitsLine(line)
  }

  lemma TrimNext(line: string, c: char)
    ensures Trim(line + [c]) == if c == '\r' then Trim(line) else line + [c]
  {
    assert (line + [c])[..|line|] == line;
  }

  lemma ReturnsVanish(line: string)
    requires OnlyReturns(line)
    ensures Show(line) == []
  {
    TrimIsExact(line);
  }

  lemma {:induction false} FitsBefore(x: Split, s: string)
    requires Fits(SplitFrom(x, s))
    ensures Fits(x)
    decreases |s|
  {
    if s != [] {
      var y := Next(x, s[0]);
      FitsBefore(y, s[1..]);
      TrimNext(x.rest, s[0]);
      TrimIsExact(x.rest);
      assert s[0] == '\n' ==> x.rest in y.done;
      assert forall line :: line in x.done ==> line in y.done;
    }
  }

  /** `y`, where lines may have been cut, forwards what `x` does: either it is behind
      by the line begun, or that line was cut behind everything it forwards. */
  ghost predicate Agrees(y: Split, x: Split) {
    (y.rest == x.rest && Shown(y.done) == Shown(x.done)) || CutBehind(y, x)
  }

  ghost predicate CutBehind(y: Split, x: Split) {
    OnlyReturns(y.rest) && |x.rest| > DIAGNOSTIC_BYTES && Shown(y.done) == Shown(x.done) + Show(x.rest)
  }

  /** The line ends: both forward what is left of theirs. */
  lemma AgreesAtEnd(y: Split, x: Split)
    requires Agrees(y, x)
    ensures Shown(y.done + [y.rest]) == Shown(x.done + [x.rest])
  {
    ShownNext(y.done, y.rest);
    ShownNext(x.done, x.rest);
    if CutBehind(y, x) {
      ReturnsVanish(y.rest);
    }
  }

  /** It goes on: behind a cut only with a carriage return. */
  lemma AgreesInside(y: Split, x: Split, c: char)
    requires CutBehind(y, x) && FitsLine(x.rest + [c])
    ensures CutBehind(Split(y.done, y.rest + [c]), Split(x.done, x.rest + [c]))
  {
    TrimNext(x.rest, c);
  }

  lemma AgreesNext(y: Split, x: Split, c: char)
    requires Agrees(y, x) && Fits(Next(x, c))
    ensures Agrees(Next(y, c), Next(x, c))
  {
    if c == '\n' {
      AgreesAtEnd(y, x);
    } else if CutBehind(y, x) {
      AgreesInside(y, x, c);
    }
  }

  lemma {:induction false} AgreesFrom(y: Split, x: Split, s: string)
    requires Agrees(y, x) && Fits(SplitFrom(x, s))
    ensures Agrees(SplitFrom(y, s), SplitFrom(x, s))
    decreases |s|
  {
    if s != [] {
      FitsBefore(Next(x, s[0]), s[1..]);
      AgreesNext(y, x, s[0]);
      AgreesFrom(Next(y, s[0]), Next(x, s[0]), s[1..]);
    }
  }

  function State(w: Writer): Split {
    Split(w.lines, w.partial)
  }

  lemma CutAgrees(w: Writer, x: Split)
    requires Agrees(State(w), x)
    ensures Agrees(State(Cut(w)), x)
  {
    ShownNext(w.lines, w.partial);
    if OnlyReturns(w.partial) {
      ReturnsVanish(w.partial);
    }
  }

  lemma {:induction false} WriterAgrees(chunks: seq<string>)
    requires Fits(SplitFrom(Split([], ""), Stream(chunks)))
    ensures Agrees(State(Fed(chunks)), SplitFrom(Split([], ""), Stream(chunks)))
  {
    if chunks != [] {
      var x := SplitFrom(Split([], ""), Stream(Init(chunks)));
      var w := Fed(Init(chunks));
      SplitConcat(Split([], ""), Stream(Init(chunks)), Last(chunks));
      FitsBefore(x, Last(chunks));
      WriterAgrees(Init(chunks));
      AgreesFrom(State(w), x, Last(chunks));
      var y := SplitFrom(State(w), Last(chunks));
      CutAgrees(Writer(y.rest, Tail(w.recent + Last(chunks), DIAGNOSTIC_BYTES), y.done), SplitFrom(x, Last(chunks)));
    }
  }

  /** What a run that ends with a flush forwards. */
  function Forwarded(chunks: seq<string>): seq<string> {
    Shown(AllLines(chunks))
  }

  lemma FittingForwardsLines(chunks: seq<string>)
    requires FittingLines(Stream(chunks))
    ensures Forwarded(chunks) == Shown(Lines(Stream(chunks)))
  {
    var x := SplitFrom(Split([], ""), Stream(chunks));
    assert x.rest in Lines(Stream(chunks)) && forall line :: line in x.done ==> line in Lines(Stream(chunks));
    WriterAgrees(chunks);
    var w := Fed(chunks);
    ShownNext(w.lines, w.partial);
    ShownNext(x.done, x.rest);
    if OnlyReturns(w.partial) {
      ReturnsVanish(w.partial);
    }
  }

  // ----- and where it fails

  lemma {:induction false} DoneFirst(x: Split, d: seq<string>, s: string)
    ensures SplitFrom(Split(d + x.done, x.rest), s) ==
              Split(d + SplitFrom(x, s).done, SplitFrom(x, s).rest)
    decreases |s|
  {
    if s != [] {
      var y := Next(x, s[0]);
      DoneFirst(y, d, s[1..]);
      assert s[0] == '\n' ==> d + y.done == (d + x.done) + [x.rest];
    }
  }

  /** Where a line of a text is: what is before it ends lines, what follows it is
      nothing or begins with a newline. */
  ghost predicate LineAt(done: seq<string>, s: string, all: seq<string>, k: nat, before: string, after: string) {
    && |done| <= k < |all|
    && s == before + (all[k] + after)
    && SplitFrom(Split(done, ""), before) == Split(all[..k], "")
    && '\n' !in all[k]
    && (after == "" || after[0] == '\n')
  }

  lemma Prepended(s: string, n: nat, inner: string, more: string)
    requires n <= |s| && s[n..] == inner + more
    ensures s == (s[..n] + inner) + more
  {
    Associates(s[..n], inner, more);
  }

  /** A line of what follows the first one. */
  lemma LineAtLater(done: seq<string>, line: string, s: string, all: seq<string>, k: nat, inner: string, after: string)
    requires |line| < |s| && s[..|line| + 1] == line + ['\n'] && '\n' !in line && k < |all|
    requires LineAt(done + [line], s[|line| + 1..], all, k, inner, after)
    ensures LineAt(done, s, all, k, s[..|line| + 1] + inner, after)
  {
    Prepended(s, |line| + 1, inner, all[k] + after);
    LineEnds(done, line, inner);
  }

  lemma {:induction false} FindLine(done: seq<string>, s: string, k: nat) returns (before: string, after: string)
    requires var x := SplitFrom(Split(done, ""), s); |done| <= k < |x.done| + 1
    ensures var x := SplitFrom(Split(done, ""), s); LineAt(done, s, x.done + [x.rest], k, before, after)
    decreases |s|
  {
    var x := SplitFrom(Split(done, ""), s);
    var all := x.done + [x.rest];
    var end := IndexOf(s, '\n');
    if end == |s| {
      NoNewline(Split(done, ""), s);
      before, after := "", "";
      assert "" + s == s && all == done + [s] && all[..k] == done && s + after == s;
    } else {
      var line, rest := s[..end], s[end + 1..];
      LineOff(done, s, end);
      DoneFirst(Split([], ""), done + [line], rest);
      assert (done + [line]) + [] == done + [line];
      assert all[|done|] == line;
      if k == |done| {
        before, after := "", s[end..];
        assert all[..k] == done && s == "" + (line + after);
      } else {
        var inner;
        inner, after := FindLine(done + [line], rest, k);
        before := s[..end + 1] + inner;
        assert s[..end + 1] == line + ['\n'];
        LineAtLater(done, line, s, all, k, inner, after);
      }
    }
  }

  lemma LineEnds(done: seq<string>, line: string, inner: string)
    requires '\n' !in line
    ensures SplitFrom(Split(done, ""), (line + ['\n']) + inner) == SplitFrom(Split(done + [line], ""), inner)
  {
    var s := (line + ['\n']) + inner;
    assert s == line + (['\n'] + inner);
    SplitConcat(Split(done, ""), line, ['\n'] + inner);
    NoNewline(Split(done, ""), line);
    assert "" + line == line;
    assert (['\n'] + inner)[1..] == inner;
  }

  /** The lines that follow the end of a line. */
  function Following(after: string): seq<string> {
    if after == "" then [] else Lines(after[1..])
  }

  /** A line goes on as it does in the text, whatever came before it. */
  lemma AfterLine(d: seq<string>, line: string, after: string)
    requires after == "" || after[0] == '\n'
    ensures AllOf(SplitFrom(Split(d, line), after)) == d + [line] + Following(after)
  {
    if after != "" {
      DoneFirst(Split([], ""), d + [line], after[1..]);
      assert (d + [line]) + [] == d + [line];
    }
  }

  lemma {:induction false} ShownConcat(a: seq<string>, b: seq<string>)
    ensures Shown(a + b) == Shown(a) + Shown(b)
  {
    if b == [] {
      assert a + b == a;
    } else {
      ShownConcat(a, Init(b));
      assert Init(a + b) == a + Init(b) && Last(a + b) == Last(b);
      assert Shown(a + b) == Shown(a + Init(b)) + Show(Last(b));
    }
  }

  lemma FedTwice(a: string, b: string)
    ensures Stream([a, b]) == a + b
    ensures Fed([a, b]) == Written(Written(Fresh(), a), b)
  {
    assert Init([a, b]) == [a] && Init([a]) == [];
    assert Fed([a]) == Written(Fed([]), a) && Stream([a]) == Stream([]) + a;
    assert Stream([]) + a == a;
  }

  /** Two writes, the first of which ends with a line that is cut. The second may be cut
      at its end too, which forwards the same. */
  lemma TwoWrites(a: string, b: string)
    requires |SplitFrom(Split([], ""), a).rest| > DIAGNOSTIC_BYTES
    ensures var x := SplitFrom(Split([], ""), a);
            Forwarded([a, b]) == Shown(AllOf(SplitFrom(Split(x.done + [x.rest], ""), b)))
  {
    var x := SplitFrom(Split([], ""), a);
    FedTwice(a, b);
    var y := SplitFrom(Split(x.done + [x.rest], ""), b);
    ShownNext(y.done + [y.rest], "");
  }

  /** Cutting a line that does not fit forwards something else. */
  lemma CutShows(line: string)
    requires !FitsLine(line)
    ensures |line| > DIAGNOSTIC_BYTES + 1
    ensures Show(line[..DIAGNOSTIC_BYTES + 1]) + Show(line[DIAGNOSTIC_BYTES + 1..]) != Show(line)
  {
    TrimIsExact(line);
    var head, rest := line[..DIAGNOSTIC_BYTES + 1], line[DIAGNOSTIC_BYTES + 1..];
    TrimIsExact(rest);
    var last := |Trim(line)| - 1;
    assert rest[last - DIAGNOSTIC_BYTES - 1] == line[last] != '\r';
    assert Show(rest) == [Trim(rest)] && Show(line) == [Trim(line)];
    assert forall k :: last - DIAGNOSTIC_BYTES - 1 < k < |rest| ==> rest[k] == line[k + DIAGNOSTIC_BYTES + 1];
    if Show(head) == [] {
      assert (Show(head) + Show(rest))[0] == Trim(rest);
    } else {
      assert |Show(head) + Show(rest)| == 2;
    }
  }

  lemma Cancels(a: seq<string>, x: seq<string>, y: seq<string>, b: seq<string>)
    ensures a + x + b == a + y + b ==> x == y
  {
    var p, q := a + x + b, a + y + b;
    if p == q {
      assert |x| == |y|;
      assert forall k :: 0 <= k < |x| ==> p[|a| + k] == x[k];
      assert forall k :: 0 <= k < |y| ==> q[|a| + k] == y[k];
    }
  }

  lemma PiecesOf(before: string, done: seq<string>, head: string)
    requires SplitFrom(Split([], ""), before) == Split(done, "") && '\n' !in head
    ensures SplitFrom(Split([], ""), before + head) == Split(done, head)
  {
    SplitConcat(Split([], ""), before, head);
    NoNewline(Split(done, ""), head);
    assert "" + head == head;
  }

  /** The writes that cut line k one character past the limit. */
  lemma CutAt(s: string, k: nat) returns (a: string, b: string, tail: seq<string>)
    requires k < |Lines(s)| && |Lines(s)[k]| > DIAGNOSTIC_BYTES
    ensures s == a + b
    ensures var line := Lines(s)[k];
            && Lines(s) == Lines(s)[..k] + [line] + tail
            && Forwarded([a, b]) ==
                 Shown((Lines(s)[..k] + [line[..DIAGNOSTIC_BYTES + 1]]) + [line[DIAGNOSTIC_BYTES + 1..]] + tail)
  {
    var all := Lines(s);
    var line := all[k];
    var before, after := FindLine([], s, k);
    var head, rest := line[..DIAGNOSTIC_BYTES + 1], line[DIAGNOSTIC_BYTES + 1..];
    a, b, tail := before + head, rest + after, Following(after);
    assert line == head + rest;
    assert before + ((head + rest) + after) == (before + head) + (rest + after);
    PiecesOf(before, all[..k], head);
    TwoWrites(a, b);
    PartialFirst(all[..k] + [head], rest, after);
    AfterLine(all[..k] + [head], rest, after);
    SplitConcat(Split([], ""), before, line + after);
    PartialFirst(all[..k], line, after);
    AfterLine(all[..k], line, after);
  }

  lemma CutForwardsOtherLines(s: string, k: nat) returns (chunks: seq<string>)
    requires k < |Lines(s)| && !FitsLine(Lines(s)[k])
    ensures Stream(chunks) == s && Forwarded(chunks) != Shown(Lines(s))
  {
    var line, front := Lines(s)[k], Lines(s)[..k];
    CutShows(line);
    var head, rest := line[..DIAGNOSTIC_BYTES + 1], line[DIAGNOSTIC_BYTES + 1..];
    var a, b, tail := CutAt(s, k);
    FedTwice(a, b);
    chunks := [a, b];
    ShownAround(front, line, tail);
    ShownCut(front, head, rest, tail);
    Cancels(Shown(front), Show(head) + Show(rest), Show(line), Shown(tail));
  }

  lemma ShownAround(front: seq<string>, line: string, tail: seq<string>)
    ensures Shown(front + [line] + tail) == Shown(front) + Show(line) + Shown(tail)
  {
    ShownConcat(front + [line], tail);
    ShownNext(front, line);
  }

  lemma ShownCut(front: seq<string>, head: string, rest: string, tail: seq<string>)
    ensures Shown((front + [head]) + [rest] + tail) == Shown(front) + (Show(head) + Show(rest)) + Shown(tail)
  {
    ShownAround(front + [head], rest, tail);
    ShownNext(front, head);
    Associates(Shown(front), Show(head), Show(rest));
  }

  ghost predicate ChunksDoNotMatter(s: string) {
    forall chunks :: Stream(chunks) == s ==> Forwarded(chunks) == Shown(Lines(s))
  }

  /** Whatever the chunks, exactly the lines of the stream are forwarded; and this holds
      of a stream if and only if none of its lines, without the carriage returns at its
      end, is more than one character past the limit. */
  lemma IndependentOfChunks(s: string)
    ensures FittingLines(s) <==> ChunksDoNotMatter(s)
  {
    if FittingLines(s) {
      forall chunks | Stream(chunks) == s ensures Forwarded(chunks) == Shown(Lines(s)) {
        FittingForwardsLines(chunks);
      }
    } else {
      var k :| 0 <= k < |Lines(s)| && !FitsLine(Lines(s)[k]);
      var chunks := CutForwardsOtherLines(s, k);
    }
  }

  // ----- the retained tail

  lemma TailOfTail(a: string, b: string, n: nat)
    ensures Tail(Tail(a, n) + b, n) == Tail(a + b, n)
  {
    if |a| > n {
      assert (Tail(a, n) + b)[|b|..] == (a + b)[|a| + |b| - n..];
    }
  }

  /** The retained bytes are the last of the stream. */
  lemma {:induction false} RecentIsTheTail(chunks: seq<string>)
    ensures Fed(chunks).recent == Tail(Stream(chunks), 4096)
  {
    if chunks != [] {
      RecentIsTheTail(Init(chunks));
      TailOfTail(Stream(Init(chunks)), Last(chunks), DIAGNOSTIC_BYTES);
    }
  }
}
