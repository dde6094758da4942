/** Following log files that other processes append to: every pass reads each file from its stored offset and prints the
    lines complete by then, until a pass ends with the stop set. */
module LogFollower {
  import opened Wrappers

  type Byte = bv8

  const NEWLINE: Byte := 10

  type Bytes = seq<Byte>

  type Path = string

  /** `decode` plays the part of decoding with replacement: a newline byte completes whatever precedes it. */
  ghost predicate Decodes(decode: Bytes -> string) {
    && decode([]) == []
    && (forall a, b :: IsComplete(a) ==> decode(a + b) == decode(a) + decode(b))
    && forall a :: a != [] && IsComplete(a) ==> EndsLine(decode(a)) && decode(a) != []
  }

  predicate IsComplete(a: Bytes) {
    a == [] || a[|a| - 1] == NEWLINE
  }

  predicate EndsLine(text: string) {
    text == [] || text[|text| - 1] == '\n'
  }

  // ---------- lines ----------

  /** The characters `splitlines` breaks at. */
  predicate IsBreak(ch: char) {
    var code := ch as int;
    || 0x0A <= code <= 0x0D || 0x1C <= code <= 0x1E || code == 0x85 || code == 0x2028 || code == 0x2029
  }

  /** How long the first line is, its break left out. */
  function FirstLine(text: string): (n: nat)
    ensures n <= |text| && (n < |text| ==> IsBreak(text[n]))
    ensures forall i :: 0 <= i < n ==> !IsBreak(text[i])
  {
    if text == [] || IsBreak(text[0]) then 0 else 1 + FirstLine(text[1..])
  }

  /** A carriage return and the newline after it are one break. */
  function BreakWidth(text: string, n: nat): (width: nat)
    requires n < |text|
    ensures 1 <= width && n + width <= |text|
  {
    if text[n] == '\r' && n + 1 < |text| && text[n + 1] == '\n' then 2 else 1
  }

  function HeadLine(text: string): string {
    text[..FirstLine(text)]
  }

  /** What follows the first line and its break. */
  function TailText(text: string): (r: string)
    ensures text != [] ==> |r| < |text|
  {
    var n := FirstLine(text);
    if n < |text| then text[n + BreakWidth(text, n)..] else []
  }

  function SplitLines(text: string): seq<string>
    decreases |text|
  {
    if text == [] then [] else [HeadLine(text)] + SplitLines(TailText(text))
  }

  function Lines(decode: Bytes -> string, content: Bytes): seq<string> {
    SplitLines(decode(content))
  }

  /** How much of `chunk` is complete lines. */
  function Complete(chunk: Bytes): (n: nat)
    ensures n <= |chunk| && (n > 0 ==> chunk[n - 1] == NEWLINE)
    ensures forall i :: n <= i < |chunk| ==> chunk[i] != NEWLINE
  {
    if chunk == [] then 0
    else if chunk[|chunk| - 1] == NEWLINE then |chunk|
    else Complete(chunk[..|chunk| - 1])
  }

  // ---------- the follower ----------

  /** What opening and reading a file gave; `None` when it is not there. */
  datatype Reading = Reading(path: Path, content: Option<Bytes>)

  /** Stored offsets, and the lines printed so far under each file's label. */
  datatype State = State(offsets: map<Path, nat>, printed: map<Path, seq<string>>)

  function Get<T>(m: map<Path, T>, path: Path, default: T): T {
    if path in m then m[path] else default
  }

  function Offset(s: State, path: Path): nat {
    Get(s.offsets, path, 0)
  }

  function Printed(s: State, path: Path): seq<string> {
    Get(s.printed, path, [])
  }

  /** Reading from an offset; past the end there is nothing. */
  function From(content: Bytes, start: nat): Bytes {
    if start <= |content| then content[start..] else []
  }

  function Visit(decode: Bytes -> string, s: State, r: Reading): State {
    if r.content.None? then s
    else
      var start := Offset(s, r.path);
      var chunk := From(r.content.value, start);
      var n := Complete(chunk);
      if n == 0 then s
      else State(s.offsets[r.path := start + n], s.printed[r.path := Printed(s, r.path) + Lines(decode, chunk[..n])])
  }

  function VisitAll(decode: Bytes -> string, s: State, readings: seq<Reading>): State {
    if readings == [] then s
    else Visit(decode, VisitAll(decode, s, readings[..|readings| - 1]), readings[|readings| - 1])
  }

  class TeeLoop {
    const decode: Bytes -> string
    var offsets: map<Path, nat>
    var printed: map<Path, seq<string>>

    ghost function Snapshot(): State
      reads this
    {
      State(offsets, printed)
    }

    constructor (decode: Bytes -> string)
      ensures this.decode == decode && Snapshot() == State(map[], map[])
    {
      this.decode, offsets, printed := decode, map[], map[];
    }

    method VisitFile(r: Reading)
      modifies this
      ensures Snapshot() == Visit(decode, old(Snapshot()), r)
    {
      hide SplitLines, Complete, From;
      var start := if r.path in offsets then offsets[r.path] else 0;
      if r.content.None? {
        return;
      }
      var chunk := From(r.content.value, start);
      var n := Complete(chunk);
      if n == 0 {
        return;
      }
      offsets := offsets[r.path := start + n];
      var earlier := if r.path in printed then printed[r.path] else [];
      ghost var before := printed;
      var lines := Lines(decode, chunk[..n]);
      printed := printed[r.path := earlier];
      assert earlier == earlier + lines[..0];
      for i := 0 to |lines|
        invariant offsets == old(offsets)[r.path := start + n]
        invariant printed == before[r.path := earlier + lines[..i]]
      {
        printed := printed[r.path := printed[r.path] + [lines[i]]];
        assert earlier + lines[..i] + [lines[i]] == earlier + lines[..i + 1];
      }
      assert lines[..|lines|] == lines;
    }

    /** One pass over the files the directories list, each read at its own moment. */
    method Pass(readings: seq<Reading>)
      modifies this
      ensures Snapshot() == VisitAll(decode, old(Snapshot()), readings)
    {
      for i := 0 to |readings|
        invariant Snapshot() == VisitAll(decode, old(Snapshot()), readings[..i])
      {
        VisitFile(readings[i]);
        assert readings[..i + 1][..i] == readings[..i];
      }
      assert readings[..|readings|] == readings;
    }
  }

  // ---------- splitting complete text ----------

  lemma {:induction false} FirstLineOfLonger(a: string, b: string)
    requires FirstLine(a) < |a|
    ensures FirstLine(a + b) == FirstLine(a)
  {
    if !IsBreak(a[0]) {
      assert (a + b)[1..] == a[1..] + b;
      FirstLineOfLonger(a[1..], b);
    }
  }

  lemma FirstLineEnds(text: string)
    requires text != [] && EndsLine(text)
    ensures FirstLine(text) < |text|
  {
    var last := |text| - 1;
    assert IsBreak(text[last]);
  }

  lemma TailEnds(text: string)
    requires text != [] && EndsLine(text)
    ensures EndsLine(TailText(text))
  {
    FirstLineEnds(text);
  }

  lemma HeadAndTailOfConcat(a: string, b: string)
    requires a != [] && EndsLine(a)
    ensures HeadLine(a + b) == HeadLine(a) && TailText(a + b) == TailText(a) + b
  {
    FirstLineEnds(a);
    FirstLineOfLonger(a, b);
    hide FirstLine, IsBreak;
    var n := FirstLine(a);
    var width := BreakWidth(a, n);
    assert BreakWidth(a + b, n) == width;
    assert (a + b)[..n] == a[..n] && (a + b)[n + width..] == a[n + width..] + b;
  }

  lemma Regroup<T>(a: seq<T>, b: seq<T>, c: seq<T>)
    ensures a + (b + c) == (a + b) + c
  {
  }

  /** Text that ends a line and what follows it are split independently. */
  lemma {:induction false} SplitLinesConcat(a: string, b: string)
    requires EndsLine(a)
    ensures SplitLines(a + b) == SplitLines(a) + SplitLines(b)
    decreases |a|
  {
    hide HeadLine, TailText;
    if a == [] {
      assert a + b == b;
    } else {
      HeadAndTailOfConcat(a, b);
      TailEnds(a);
      SplitLinesConcat(TailText(a), b);
      Regroup([HeadLine(a)], SplitLines(TailText(a)), SplitLines(b));
    }
  }

  /** No line has a break in it. */
  lemma {:induction false} LinesHaveNoBreaks(text: string)
    ensures forall i, j :: 0 <= i < |SplitLines(text)| && 0 <= j < |SplitLines(text)[i]| ==>
                             !IsBreak(SplitLines(text)[i][j])
    decreases |text|
  {
    if text != [] {
      LinesHaveNoBreaks(TailText(text));
    }
  }

  /** The break after the first line; empty when the line ends the text. */
  function Mark(text: string): string {
    var n := FirstLine(text);
    if n < |text| then text[n..n + BreakWidth(text, n)] else []
  }

  /** The breaks after all lines. */
  function Breaks(text: string): seq<string>
    decreases |text|
  {
    if text == [] then [] else [Mark(text)] + Breaks(TailText(text))
  }

  function Join(lines: seq<string>, breaks: seq<string>): string
    requires |lines| == |breaks|
  {
    if lines == [] then [] else lines[0] + breaks[0] + Join(lines[1..], breaks[1..])
  }

  /** One break character, or a carriage return and a newline; only the last line may have none. */
  predicate IsSeparator(mark: string, last: bool) {
    || (|mark| == 1 && IsBreak(mark[0])) || mark == ['\r', '\n'] || (last && mark == [])
  }

  lemma MarkIsSeparator(text: string)
    requires text != []
    ensures IsSeparator(Mark(text), TailText(text) == [])
    ensures Mark(text) == ['\r'] && TailText(text) != [] ==> TailText(text)[0] != '\n'
  {
    hide FirstLine, IsBreak;
    var n := FirstLine(text);
    if n < |text| {
      if BreakWidth(text, n) == 2 {
        assert text[n..n + 2] == ['\r', '\n'];
      } else {
        assert text[n..n + 1] == [text[n]];
      }
    }
  }

  lemma CutTwice(text: string, n: nat, m: nat)
    requires n <= m <= |text|
    ensures text == text[..n] + text[n..m] + text[m..]
  {
  }

  lemma FirstLineAndRest(text: string)
    ensures text == HeadLine(text) + Mark(text) + TailText(text)
  {
    hide FirstLine, IsBreak;
    var n := FirstLine(text);
    if n < |text| {
      CutTwice(text, n, n + BreakWidth(text, n));
    }
  }

  /** Lines and breaks make up the text again; every line but perhaps the last ends in one break, and a carriage return
      and the newline right after it never count as two. */
  lemma {:induction false} SplitLinesLosesNothing(text: string)
    ensures |Breaks(text)| == |SplitLines(text)| && Join(SplitLines(text), Breaks(text)) == text
    ensures forall i :: 0 <= i < |Breaks(text)| ==> IsSeparator(Breaks(text)[i], i == |Breaks(text)| - 1)
    ensures forall i :: 0 <= i < |Breaks(text)| - 1 && Breaks(text)[i] == ['\r'] ==>
                          SplitLines(text)[i + 1] + Breaks(text)[i + 1] != [] &&
                          (SplitLines(text)[i + 1] + Breaks(text)[i + 1])[0] != '\n'
    decreases |text|
  {
    hide HeadLine, TailText, IsSeparator, Mark;
    if text != [] {
      var tail := TailText(text);
      MarkIsSeparator(text);
      FirstLineAndRest(text);
      SplitLinesLosesNothing(tail);
      assert SplitLines(text)[1..] == SplitLines(tail) && Breaks(text)[1..] == Breaks(tail);
      if tail != [] {
        FirstOfText(tail);
      }
    }
  }

  lemma FirstOfText(text: string)
    requires text != []
    ensures |SplitLines(text)| > 0 && |Breaks(text)| > 0
    ensures SplitLines(text)[0] + Breaks(text)[0] != []
    ensures (SplitLines(text)[0] + Breaks(text)[0])[0] == text[0]
  {
    hide FirstLine, IsBreak;
    if FirstLine(text) == 0 {
      assert HeadLine(text) == [];
    }
  }

  /** The characters text is broken at. */
  lemma BreaksAre(ch: char)
    ensures IsBreak(ch) <==> ch as int in {10, 11, 12, 13, 28, 29, 30, 133, 8232, 8233}
  {
  }

  /** Complete lines and what follows them print independently. */
  lemma LinesConcat(decode: Bytes -> string, a: Bytes, b: Bytes)
    requires Decodes(decode) && IsComplete(a)
    ensures Lines(decode, a + b) == Lines(decode, a) + Lines(decode, b)
  {
    hide SplitLines;
    SplitLinesConcat(decode(a), decode(b));
  }

  lemma MoreLines(decode: Bytes -> string, a: Bytes, b: Bytes)
    requires Decodes(decode) && IsComplete(a) && IsComplete(b) && b != []
    ensures |Lines(decode, a + b)| > |Lines(decode, a)|
  {
    LinesConcat(decode, a, b);
    assert decode(b) != [];
  }

  // ---------- the loop and the growing files ----------

  type Files = map<Path, Bytes>

  datatype Phase = Waiting | Passing | Exited

  /** `listed` are the files there when the current pass listed its directories, `seen` those it has visited,
      `atStop` the files as they were when the stop was set. */
  datatype World = World(files: Files, follower: State, phase: Phase, listed: set<Path>, seen: set<Path>,
                         atStop: Option<Files>)

  /** Another process appends to a file or creates it, the loop begins a pass, visits a file or ends a pass, or the
      stop is set. */
  datatype Event = Append(path: Path, data: Bytes) | BeginPass | Look(path: Path) | EndPass | SetStop

  const START := World(map[], State(map[], map[]), Waiting, {}, {}, None)

  function Content(files: Files, path: Path): Bytes {
    Get(files, path, [])
  }

  function ReadingOf(files: Files, path: Path): Reading {
    Reading(path, if path in files then Some(files[path]) else None)
  }

  /** A pass visits every file it has listed, and perhaps younger ones, once each. */
  predicate Enabled(w: World, e: Event) {
    match e
    case Append(_, _) => true
    case BeginPass => w.phase.Waiting?
    case Look(path) => w.phase.Passing? && path !in w.seen
    case EndPass => w.phase.Passing? && w.listed <= w.seen
    case SetStop => true
  }

  function Step(decode: Bytes -> string, w: World, e: Event): World {
    match e
    case Append(path, data) => w.(files := w.files[path := Content(w.files, path) + data])
    case BeginPass => w.(phase := Passing, listed := w.files.Keys, seen := {})
    case Look(path) => w.(follower := Visit(decode, w.follower, ReadingOf(w.files, path)), seen := w.seen + {path})
    case EndPass => w.(phase := if w.atStop.Some? then Exited else Waiting)
    case SetStop => if w.atStop.Some? then w else w.(atStop := Some(w.files))
  }

  function After(decode: Bytes -> string, events: seq<Event>): World {
    if events == [] then START else Step(decode, After(decode, events[..|events| - 1]), events[|events| - 1])
  }

  predicate Possible(decode: Bytes -> string, events: seq<Event>) {
    events == [] ||
    (Possible(decode, events[..|events| - 1])
     && Enabled(After(decode, events[..|events| - 1]), events[|events| - 1]))
  }

  /** The offset is at the start or just after a newline, and what was printed is the lines up to it. */
  predicate Follows(decode: Bytes -> string, content: Bytes, offset: nat, lines: seq<string>) {
    offset <= |content| && IsComplete(content[..offset]) && lines == Lines(decode, content[..offset])
  }

  ghost predicate Inv(decode: Bytes -> string, w: World) {
    forall path: Path ::
      Follows(decode, Content(w.files, path), Offset(w.follower, path), Printed(w.follower, path))
  }

  lemma AppendFollows(decode: Bytes -> string, content: Bytes, data: Bytes, offset: nat, lines: seq<string>)
    requires Follows(decode, content, offset, lines)
    ensures Follows(decode, content + data, offset, lines)
  {
    assert (content + data)[..offset] == content[..offset];
  }

  lemma VisitFollows(decode: Bytes -> string, content: Bytes, offset: nat, lines: seq<string>)
    requires Decodes(decode) && Follows(decode, content, offset, lines)
    ensures (var n := Complete(From(content, offset));
             && Follows(decode, content, offset + n, lines + Lines(decode, From(content, offset)[..n]))
             && offset + n == Complete(content))
  {
    hide Lines, Decodes;
    var chunk := From(content, offset);
    var n := Complete(chunk);
    LinesConcat(decode, content[..offset], chunk[..n]);
    assert content[..offset + n] == content[..offset] + chunk[..n];
    assert n > 0 ==> content[offset + n - 1] == chunk[n - 1];
    assert offset > 0 ==> content[offset - 1] == content[..offset][offset - 1];
    assert forall i :: offset + n <= i < |content| ==> content[i] == chunk[i - offset];
    CompleteUnique(content, offset + n);
  }

  lemma CompleteUnique(content: Bytes, n: nat)
    requires n <= |content| && (n > 0 ==> content[n - 1] == NEWLINE)
    requires forall i :: n <= i < |content| ==> content[i] != NEWLINE
    ensures n == Complete(content)
  {
    var m := Complete(content);
    assert !(m <= n - 1 < |content|);
    assert !(n <= m - 1 < |content|);
  }

  lemma StepInv(decode: Bytes -> string, w: World, e: Event)
    requires Decodes(decode) && Inv(decode, w)
    ensures Inv(decode, Step(decode, w, e))
  {
    hide Lines, Follows, Decodes, Step;
    var after := Step(decode, w, e);
    forall path: Path
      ensures Follows(decode, Content(after.files, path), Offset(after.follower, path), Printed(after.follower, path))
    {
      assert Follows(decode, Content(w.files, path), Offset(w.follower, path), Printed(w.follower, path));
      if e.Look? && e.path == path {
        LookFollows(decode, w, path);
      } else {
        StepFollows(decode, w, e, path);
      }
    }
  }

  lemma LookFollows(decode: Bytes -> string, w: World, path: Path)
    requires Decodes(decode)
    requires Follows(decode, Content(w.files, path), Offset(w.follower, path), Printed(w.follower, path))
    ensures (var after := Step(decode, w, Look(path));
             Follows(decode, Content(after.files, path), Offset(after.follower, path), Printed(after.follower, path)))
  {
    hide Lines, Follows, Decodes;
    VisitFollows(decode, Content(w.files, path), Offset(w.follower, path), Printed(w.follower, path));
    UnreadFollows(decode, w, path);
  }

  lemma StepFollows(decode: Bytes -> string, w: World, e: Event, path: Path)
    requires Follows(decode, Content(w.files, path), Offset(w.follower, path), Printed(w.follower, path))
    requires e.Look? ==> e.path != path
    ensures (var after := Step(decode, w, e);
             Follows(decode, Content(after.files, path), Offset(after.follower, path), Printed(after.follower, path)))
  {
    hide Lines, Follows;
    if e.Append? && e.path == path {
      AppendFollows(decode, Content(w.files, path), e.data, Offset(w.follower, path), Printed(w.follower, path));
    }
  }

  /** A visit that finds no complete line is one that finds zero bytes of them. */
  lemma UnreadFollows(decode: Bytes -> string, w: World, path: Path)
    requires Decodes(decode)
    requires Follows(decode, Content(w.files, path), Offset(w.follower, path), Printed(w.follower, path))
    ensures Offset(Visit(decode, w.follower, ReadingOf(w.files, path)), path)
            == Offset(w.follower, path) + Complete(From(Content(w.files, path), Offset(w.follower, path)))
  {
    hide Lines, Decodes;
    assert path !in w.files ==> From([], Offset(w.follower, path)) == [];
  }

  lemma StartInv(decode: Bytes -> string)
    requires Decodes(decode)
    ensures Inv(decode, START)
  {
  }

  lemma {:induction false} AfterInv(decode: Bytes -> string, events: seq<Event>)
    requires Decodes(decode)
    ensures Inv(decode, After(decode, events))
  {
    hide Inv, Decodes, Step;
    if events != [] {
      AfterInv(decode, events[..|events| - 1]);
      StepInv(decode, After(decode, events[..|events| - 1]), events[|events| - 1]);
    } else {
      StartInv(decode);
    }
  }

  /** However appends, visits and the stop interleave, what has been printed for a file is exactly the lines of its
      bytes up to the stored offset, once and in order, and the offset is zero or just after a newline. */
  lemma PrintedIsPrefix(decode: Bytes -> string, events: seq<Event>, path: Path)
    requires Decodes(decode)
    ensures (var w := After(decode, events);
             var (content, offset) := (Content(w.files, path), Offset(w.follower, path));
             && offset <= |content| && IsComplete(content[..offset])
             && Printed(w.follower, path) == Lines(decode, content[..offset]))
  {
    hide Decodes;
    AfterInv(decode, events);
    var w := After(decode, events);
    assert Follows(decode, Content(w.files, path), Offset(w.follower, path), Printed(w.follower, path));
  }

  /** A visit prints every line complete by then and nothing of the partial line after them. */
  lemma VisitPrintsAllComplete(decode: Bytes -> string, events: seq<Event>, path: Path)
    requires Decodes(decode)
    ensures (var w := After(decode, events + [Look(path)]);
             var content := Content(w.files, path);
             && Offset(w.follower, path) == Complete(content)
             && Printed(w.follower, path) == Lines(decode, content[..Complete(content)]))
  {
    hide Lines, Decodes, Complete, From;
    var before := After(decode, events);
    assert (events + [Look(path)])[..|events|] == events;
    AfterInv(decode, events);
    assert Follows(decode, Content(before.files, path), Offset(before.follower, path), Printed(before.follower, path));
    VisitFollows(decode, Content(before.files, path), Offset(before.follower, path), Printed(before.follower, path));
    UnreadFollows(decode, before, path);
    PrintedIsPrefix(decode, events + [Look(path)], path);
  }

  // ---------- the stop ----------

  /** What has been appended to a file since its last visit, or since it was created. */
  function SinceVisit(events: seq<Event>, path: Path): Bytes {
    if events == [] then []
    else
      var (front, last) := (events[..|events| - 1], events[|events| - 1]);
      if last == Look(path) then []
      else SinceVisit(front, path) + if last.Append? && last.path == path then last.data else []
  }

  predicate StopSet(events: seq<Event>) {
    SetStop in events
  }

  /** What had been appended to a file between its last visit and the stop; nothing when the file was visited after
      it. */
  function Missed(events: seq<Event>, path: Path): Bytes {
    if events == [] then []
    else
      var (front, last) := (events[..|events| - 1], events[|events| - 1]);
      if last == Look(path) then []
      else if last.SetStop? && !StopSet(front) then SinceVisit(front, path)
      else Missed(front, path)
  }

  lemma CompleteReaches(b: Bytes, i: nat)
    requires i < |b| && b[i] == NEWLINE
    ensures i < Complete(b)
  {
  }

  lemma CompleteOfLonger(a: Bytes, b: Bytes)
    ensures Complete(a + b) == if NEWLINE in b then |a| + Complete(b) else Complete(a)
    ensures NEWLINE in b <==> Complete(b) > 0
  {
    hide Complete;
    if NEWLINE in b {
      var i :| 0 <= i < |b| && b[i] == NEWLINE;
      CompleteReaches(b, i);
      CompleteUnique(a + b, |a| + Complete(b));
    } else {
      CompleteUnique(a + b, Complete(a));
    }
  }

  /** A file is what its last visit found complete, a partial line, and what has come since. */
  predicate Pending(content: Bytes, since: Bytes, offset: nat) {
    && |since| <= |content| && content[|content| - |since|..] == since
    && offset == Complete(content[..|content| - |since|])
  }

  lemma AppendPending(content: Bytes, since: Bytes, offset: nat, data: Bytes)
    requires Pending(content, since, offset)
    ensures Pending(content + data, since + data, offset)
  {
    hide Complete;
    var cut := |content| - |since|;
    assert (content + data)[..cut] == content[..cut] && (content + data)[cut..] == content[cut..] + data;
  }

  lemma VisitedPending(content: Bytes)
    ensures Pending(content, [], Complete(content))
  {
    assert content[..|content|] == content;
  }

  /** The lines complete in a file have all been read exactly if no newline has come since. */
  lemma PendingComplete(content: Bytes, since: Bytes, offset: nat)
    requires Pending(content, since, offset)
    ensures offset >= Complete(content) <==> NEWLINE !in since
  {
    hide Complete;
    var cut := |content| - |since|;
    CompleteOfLonger(content[..cut], since);
    assert content == content[..cut] + since;
  }

  lemma NothingPending()
    ensures Pending([], [], 0)
  {
  }

  lemma {:induction false} FilesPending(decode: Bytes -> string, events: seq<Event>, path: Path)
    requires Decodes(decode)
    ensures (var w := After(decode, events);
             Pending(Content(w.files, path), SinceVisit(events, path), Offset(w.follower, path)))
  {
    hide Pending, Visit, Decodes;
    if events == [] {
      NothingPending();
    } else {
      var front, last := events[..|events| - 1], events[|events| - 1];
      var before, w := After(decode, front), After(decode, events);
      FilesPending(decode, front, path);
      if last == Look(path) {
        assert events == front + [Look(path)];
        VisitPrintsAllComplete(decode, front, path);
        VisitedPending(Content(w.files, path));
      } else if last.Append? && last.path == path {
        AppendPending(Content(before.files, path), SinceVisit(front, path), Offset(before.follower, path), last.data);
      } else {
        OtherVisit(decode, before, last, path);
        assert SinceVisit(front, path) + [] == SinceVisit(front, path);
      }
    }
  }

  lemma OtherVisit(decode: Bytes -> string, w: World, e: Event, path: Path)
    requires e != Look(path) && (e.Append? ==> e.path != path)
    ensures Offset(Step(decode, w, e).follower, path) == Offset(w.follower, path)
    ensures Content(Step(decode, w, e).files, path) == Content(w.files, path)
  {
  }

  /** The files as they were when the stop was set, without a stop as they are. */
  function AtStop(w: World): Files {
    if w.atStop.Some? then w.atStop.value else w.files
  }

  /** The bytes the stop found in a file are still there, and all their complete lines have been read exactly if no
      newline was missed. */
  predicate StopKept(w: World, missed: Bytes, path: Path) {
    var (stopped, now) := (Content(AtStop(w), path), Content(w.files, path));
    stopped <= now && (w.atStop.Some? ==> (Offset(w.follower, path) >= Complete(stopped) <==> NEWLINE !in missed))
  }

  lemma GrownComplete(a: Bytes, b: Bytes)
    requires a <= b
    ensures Complete(a) <= Complete(b)
  {
    hide Complete;
    CompleteOfLonger(a, b[|a|..]);
    assert b == a + b[|a|..];
  }

  lemma {:induction false} StopIsSet(decode: Bytes -> string, events: seq<Event>)
    ensures After(decode, events).atStop.Some? <==> StopSet(events)
  {
    hide Visit;
    if events != [] {
      StopIsSet(decode, events[..|events| - 1]);
      assert events == events[..|events| - 1] + [events[|events| - 1]];
    }
  }

  lemma StopJustSet(decode: Bytes -> string, front: seq<Event>, path: Path)
    requires Decodes(decode) && After(decode, front).atStop.None?
    ensures StopKept(Step(decode, After(decode, front), SetStop), SinceVisit(front, path), path)
  {
    hide Complete, Decodes;
    var w := After(decode, front);
    FilesPending(decode, front, path);
    PendingComplete(Content(w.files, path), SinceVisit(front, path), Offset(w.follower, path));
  }

  lemma VisitedSinceStop(w: World, w': World, path: Path)
    requires w'.files == w.files && w'.atStop == w.atStop && Content(AtStop(w), path) <= Content(w.files, path)
    requires Offset(w'.follower, path) == Complete(Content(w.files, path))
    ensures StopKept(w', [], path)
  {
    GrownComplete(Content(AtStop(w), path), Content(w.files, path));
  }

  lemma {:induction false} StopsKept(decode: Bytes -> string, events: seq<Event>, path: Path)
    requires Decodes(decode)
    ensures StopKept(After(decode, events), Missed(events, path), path)
  {
    hide Visit, Complete, Decodes;
    if events != [] {
      var front, last := events[..|events| - 1], events[|events| - 1];
      var before, w := After(decode, front), After(decode, events);
      StopsKept(decode, front, path);
      StopIsSet(decode, front);
      if last == Look(path) {
        assert events == front + [Look(path)];
        VisitPrintsAllComplete(decode, front, path);
        VisitedSinceStop(before, w, path);
      } else if last.SetStop? && !StopSet(front) {
        StopJustSet(decode, front, path);
      } else if !(last.Append? && last.path == path) {
        OtherVisit(decode, before, last, path);
      }
    }
  }

  /** Every line complete when the stop was set has been printed for the file. */
  predicate StopHonoured(decode: Bytes -> string, w: World, path: Path) {
    var content := Content(AtStop(w), path);
    Lines(decode, content[..Complete(content)]) <= Printed(w.follower, path)
  }

  lemma LinesWithin(decode: Bytes -> string, content: Bytes, m: nat, n: nat)
    requires Decodes(decode) && m <= |content| && n <= |content|
    requires IsComplete(content[..m]) && IsComplete(content[..n])
    ensures Lines(decode, content[..m]) <= Lines(decode, content[..n]) <==> m <= n
  {
    hide Lines, Decodes;
    if m <= n {
      assert content[..n] == content[..m] + content[m..n];
      LinesConcat(decode, content[..m], content[m..n]);
    } else {
      assert content[..m] == content[..n] + content[n..m];
      MoreLines(decode, content[..n], content[n..m]);
    }
  }

  /** Once the loop has exited, every line complete when the stop was set has been printed for a file exactly if no
      newline was appended to it between its last visit and the stop. */
  lemma StopHonouredIff(decode: Bytes -> string, events: seq<Event>, path: Path)
    requires Decodes(decode) && Possible(decode, events) && After(decode, events).phase.Exited?
    ensures StopSet(events)
    ensures StopHonoured(decode, After(decode, events), path) <==> NEWLINE !in Missed(events, path)
  {
    hide Lines, Decodes, Complete, Step;
    var w := After(decode, events);
    ExitedAfterStop(decode, events);
    StopIsSet(decode, events);
    StopsKept(decode, events, path);
    PrintedIsPrefix(decode, events, path);
    var stopped, now := Content(AtStop(w), path), Content(w.files, path);
    assert stopped[..Complete(stopped)] == now[..Complete(stopped)];
    LinesWithin(decode, now, Complete(stopped), Offset(w.follower, path));
  }

  lemma {:induction false} ExitedAfterStop(decode: Bytes -> string, events: seq<Event>)
    requires After(decode, events).phase.Exited?
    ensures After(decode, events).atStop.Some?
    decreases |events|
  {
    hide Visit;
    if events != [] && After(decode, events[..|events| - 1]).phase.Exited? {
      ExitedAfterStop(decode, events[..|events| - 1]);
    }
  }

  /** A file visited, a line appended, the stop set, the pass over. */
  function LateLine(path: Path, line: Bytes): seq<Event> {
    [BeginPass, Append(path, []), Look(path), Append(path, line), SetStop, EndPass]
  }

  lemma LateLinePrefixes(path: Path, line: Bytes)
    ensures (var events := LateLine(path, line);
             && events[..5] == [BeginPass, Append(path, []), Look(path), Append(path, line), SetStop]
             && events[..5][..4] == [BeginPass, Append(path, []), Look(path), Append(path, line)]
             && events[..5][..4][..3] == [BeginPass, Append(path, []), Look(path)]
             && events[..5][..4][..3][..2] == [BeginPass, Append(path, [])]
             && events[..5][..4][..3][..2][..1] == [BeginPass] && [BeginPass][..0] == [])
  {
  }

  lemma FirstLook(decode: Bytes -> string, path: Path)
    ensures (var events := [BeginPass, Append(path, []), Look(path)];
             && Possible(decode, events) && After(decode, events).phase.Passing?
             && After(decode, events).listed <= After(decode, events).seen && After(decode, events).atStop.None?)
  {
    hide Visit;
    var e1, e2, e3 := [BeginPass], [BeginPass, Append(path, [])], [BeginPass, Append(path, []), Look(path)];
    assert e3[..2] == e2 && e2[..1] == e1 && e1[..0] == [];
    assert After(decode, []) == START && Possible(decode, []);
    assert After(decode, e1) == Step(decode, START, BeginPass) && Possible(decode, e1);
    assert After(decode, e2) == Step(decode, After(decode, e1), Append(path, [])) && Possible(decode, e2);
    assert After(decode, e3) == Step(decode, After(decode, e2), Look(path));
  }

  lemma LateLineRun(decode: Bytes -> string, path: Path, line: Bytes)
    requires Decodes(decode)
    ensures Possible(decode, LateLine(path, line)) && After(decode, LateLine(path, line)).phase.Exited?
    ensures Missed(LateLine(path, line), path) == line
  {
    hide Visit, Decodes;
    LateLinePrefixes(path, line);
    var events := LateLine(path, line);
    var e3 := events[..5][..4][..3];
    assert SinceVisit(e3, path) == [];
    assert SinceVisit(events[..5][..4], path) == [] + line == line;
    assert !StopSet(events[..5][..4]);
    assert Missed(events[..5], path) == line;
    FirstLook(decode, path);
    assert Possible(decode, events[..5]) && After(decode, events[..5]).atStop.Some?;
  }

  /** A line completed before the stop but after its file's visit in the last pass is never printed. */
  lemma LineBeforeStopIsLost(decode: Bytes -> string, path: Path, line: Bytes)
    requires Decodes(decode) && NEWLINE in line
    ensures Possible(decode, LateLine(path, line)) && After(decode, LateLine(path, line)).phase.Exited?
    ensures !StopHonoured(decode, After(decode, LateLine(path, line)), path)
  {
    hide Decodes, After, StopHonoured, Possible, Missed;
    LateLineRun(decode, path, line);
    StopHonouredIff(decode, LateLine(path, line), path);
  }

  /** The stop was set between two passes. */
  predicate StopWhileWaiting(decode: Bytes -> string, events: seq<Event>) {
    events != [] &&
    var (front, last) := (events[..|events| - 1], events[|events| - 1]);
    if last.SetStop? && !StopSet(front) then After(decode, front).phase.Waiting? else StopWhileWaiting(decode, front)
  }

  predicate Caught(events: seq<Event>, paths: set<Path>) {
    forall path :: path in paths ==> Missed(events, path) == []
  }

  /** After such a stop one whole pass follows, and catches every file the stop found. */
  predicate OnePassMore(w: World, events: seq<Event>) {
    w.atStop.Some? &&
    match w.phase
    case Waiting => true
    case Passing => w.atStop.value.Keys <= w.listed && Caught(events, w.seen)
    case Exited => Caught(events, w.atStop.value.Keys)
  }

  lemma StillCaught(front: seq<Event>, e: Event, paths: set<Path>)
    requires Caught(front, paths) && (e.SetStop? ==> StopSet(front))
    ensures Caught(front + [e], paths)
    ensures e.Look? ==> Caught(front + [e], paths + {e.path})
  {
    assert (front + [e])[..|front|] == front;
  }

  predicate StopFindsLess(w: World) {
    w.atStop.Some? ==> w.atStop.value.Keys <= w.files.Keys
  }

  lemma {:induction false} StopFoundFiles(decode: Bytes -> string, events: seq<Event>)
    ensures StopFindsLess(After(decode, events))
  {
    hide Visit;
    if events != [] {
      StopFoundFiles(decode, events[..|events| - 1]);
    }
  }

  lemma {:induction false} WaitingStopCaught(decode: Bytes -> string, events: seq<Event>)
    requires Possible(decode, events) && StopWhileWaiting(decode, events)
    ensures OnePassMore(After(decode, events), events)
  {
    hide Visit, Caught;
    var front, last := events[..|events| - 1], events[|events| - 1];
    var before, w := After(decode, front), After(decode, events);
    assert events == front + [last];
    StopIsSet(decode, front);
    StopFoundFiles(decode, front);
    if !(last.SetStop? && !StopSet(front)) {
      WaitingStopCaught(decode, front);
      if before.phase.Passing? {
        StillCaught(front, last, before.seen);
        if w.phase.Exited? {
          CaughtSubset(events, before.seen, before.atStop.value.Keys);
        }
      } else if before.phase.Exited? {
        StillCaught(front, last, before.atStop.value.Keys);
      } else {
        CaughtNone(events);
      }
    }
  }

  lemma CaughtSubset(events: seq<Event>, paths: set<Path>, fewer: set<Path>)
    requires Caught(events, paths) && fewer <= paths
    ensures Caught(events, fewer)
  {
  }

  lemma CaughtNone(events: seq<Event>)
    ensures Caught(events, {})
  {
  }

  /** A stop set between two passes is honoured for every file. */
  lemma WaitingStopHonoured(decode: Bytes -> string, events: seq<Event>, path: Path)
    requires Decodes(decode) && Possible(decode, events) && After(decode, events).phase.Exited?
    requires StopWhileWaiting(decode, events)
    ensures StopHonoured(decode, After(decode, events), path)
  {
    hide Decodes, After, Possible, Missed;
    WaitingStopCaught(decode, events);
    StopHonouredIff(decode, events, path);
    if path !in After(decode, events).atStop.value {
      NothingToHonour(decode, After(decode, events), path);
    }
  }

  lemma NothingToHonour(decode: Bytes -> string, w: World, path: Path)
    requires Decodes(decode) && path !in AtStop(w)
    ensures StopHonoured(decode, w, path)
  {
    assert Complete([]) == 0;
  }
}
