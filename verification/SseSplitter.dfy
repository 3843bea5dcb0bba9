/**
 The reader of the job progress stream: decoded text arrives in arbitrary chunks, blocks end in an
 empty line, and what does not end in one is carried over to the next chunk.
 */
module SseSplitter {
  import opened Common

  /** The index of the leftmost "\n\n" in `s`, or its length if there is none. */
  function FirstBreak(s: string): (i: nat)
    ensures i == |s| || i + 2 <= |s|
  {
    if |s| < 2 then |s|
    else if s[0] == '\n' && s[1] == '\n' then 0
    else FirstBreak(s[1..]) + 1
  }

  /** The pieces before leftmost, non-overlapping breaks. */
  function Blocks(s: string): seq<string> {
    var i := FirstBreak(s);
    if i == |s| then [] else [s[..i]] + Blocks(s[i + 2..])
  }

  /** The piece after the last break. */
  function Rest(s: string): string {
    var i := FirstBreak(s);
    if i == |s| then s else Rest(s[i + 2..])
  }

  lemma {:induction false} RestIsOpen(s: string)
    ensures FirstBreak(Rest(s)) == |Rest(s)|
    decreases |s|
  {
    if FirstBreak(s) < |s| { RestIsOpen(s[FirstBreak(s) + 2..]); }
  }

  /** String.split on "\n\n". */
  function Split(s: string): seq<string> {
    Blocks(s) + [Rest(s)]
  }

  /** String.split on "\n". */
  function Lines(s: string): (lines: seq<string>)
    ensures |lines| >= 1
  {
    if s == "" then [""]
    else
      var rest := Lines(s[1..]);
      if s[0] == '\n' then [""] + rest else [[s[0]] + rest[0]] + rest[1..]
  }

  // ---- splitting in full ----

  /** A piece that a following "\n\n" ends, with no earlier one in it or overlapping it. */
  predicate Closed(p: string) {
    FirstBreak(p) == |p| && (p == "" || p[|p| - 1] != '\n')
  }

  function Join(blocks: seq<string>, rest: string): string {
    if blocks == [] then rest else blocks[0] + "\n\n" + Join(blocks[1..], rest)
  }

  lemma {:induction false} BreakAfter(a: string, b: string)
    requires Closed(a)
    ensures FirstBreak(a + "\n\n" + b) == |a|
  {
    var s := a + "\n\n" + b;
    if a != "" {
      BreakAfter(a[1..], b);
      assert s[1..] == a[1..] + "\n\n" + b;
    }
  }

  lemma BlocksAfter(a: string, b: string)
    requires Closed(a)
    ensures Blocks(a + "\n\n" + b) == [a] + Blocks(b) && Rest(a + "\n\n" + b) == Rest(b)
  {
    var s := a + "\n\n" + b;
    BreakAfter(a, b);
    assert s[..|a|] == a && s[|a| + 2..] == b;
  }

  lemma {:induction false} BreakBefore(s: string)
    requires FirstBreak(s) < |s|
    ensures var i := FirstBreak(s);
      Closed(s[..i]) && s == s[..i] + "\n\n" + s[i + 2..]
  {
    var i := FirstBreak(s);
    if i > 0 {
      BreakBefore(s[1..]);
      assert s[..i][1..] == s[1..][..i - 1];
    }
  }

  /** The pieces make up the text, each ended by its own leftmost break. */
  lemma {:induction false} SplitReads(s: string)
    ensures Join(Blocks(s), Rest(s)) == s
    ensures forall k | 0 <= k < |Blocks(s)| :: Closed(Blocks(s)[k])
    decreases |s|
  {
    var i := FirstBreak(s);
    if i < |s| {
      BreakBefore(s);
      SplitReads(s[i + 2..]);
    }
  }

  /** And they are the only such reading of it. */
  lemma {:induction false} SplitIsUnique(blocks: seq<string>, rest: string)
    requires FirstBreak(rest) == |rest|
    requires forall k | 0 <= k < |blocks| :: Closed(blocks[k])
    ensures Blocks(Join(blocks, rest)) == blocks && Rest(Join(blocks, rest)) == rest
  {
    if blocks != [] {
      SplitIsUnique(blocks[1..], rest);
      BlocksAfter(blocks[0], Join(blocks[1..], rest));
    }
  }

  lemma BreakStays(s: string, t: string)
    requires FirstBreak(s) < |s|
    ensures var i := FirstBreak(s);
      Blocks(s + t) == [s[..i]] + Blocks(s[i + 2..] + t) && Rest(s + t) == Rest(s[i + 2..] + t)
  {
    var a, b := s[..FirstBreak(s)], s[FirstBreak(s) + 2..];
    BreakBefore(s);
    assert s + t == a + "\n\n" + (b + t);
    BlocksAfter(a, b + t);
  }

  /** More text leaves the finished blocks alone and continues in the carried rest. */
  lemma {:induction false} CarryOver(s: string, t: string)
    ensures Blocks(s + t) == Blocks(s) + Blocks(Rest(s) + t)
    ensures Rest(s + t) == Rest(Rest(s) + t)
    decreases |s|
  {
    var i := FirstBreak(s);
    if i < |s| {
      BreakStays(s, t);
      CarryOver(s[i + 2..], t);
      Regroup(s[..i], Blocks(s[i + 2..]), Blocks(Rest(s) + t));
    }
  }

  lemma Regroup<T>(x: T, a: seq<T>, b: seq<T>)
    ensures [x] + (a + b) == ([x] + a) + b
  {
  }

  // ---- events ----

  datatype Status = Pending | Running | Complete | Failed | OtherStatus(text: string)

  /** What JSON.parse may return, as far as it matters. */
  datatype Json = JsonNull | JsonValue(status: Status, progress: Option<real>, payload: string)

  type Parser = string -> Option<Json>

  predicate Terminal(e: Json) {
    e.JsonValue? && (e.status.Complete? || e.status.Failed? || e.progress == Some(100.0))
  }

  predicate IsSpace(c: char) {
    c in {' ', '\t', '\r', '\n', '\U{0b}', '\U{0c}', '\U{a0}', '\U{1680}', '\U{2028}', '\U{2029}', '\U{202f}',
          '\U{205f}', '\U{3000}', '\U{feff}'} || '\U{2000}' <= c <= '\U{200a}'
  }

  function TrimStart(s: string): string {
    if s != "" && IsSpace(s[0]) then TrimStart(s[1..]) else s
  }

  /** The first line that starts with "data:", without that prefix and the spaces after it. */
  function DataOf(lines: seq<string>): Option<string> {
    if lines == [] then None
    else if "data:" <= lines[0] then Some(TrimStart(lines[0][5..]))
    else DataOf(lines[1..])
  }

  function EventOf(parse: Parser, block: string): Option<Json> {
    match DataOf(Lines(block))
    case None => None
    case Some(raw) => parse(raw)
  }

  function EventsOf(parse: Parser, blocks: seq<string>): seq<Json> {
    if blocks == [] then []
    else
      match EventOf(parse, blocks[0])
      case None => EventsOf(parse, blocks[1..])
      case Some(e) => [e] + EventsOf(parse, blocks[1..])
  }

  lemma {:induction false} EventsAppend(parse: Parser, a: seq<string>, b: seq<string>)
    ensures EventsOf(parse, a + b) == EventsOf(parse, a) + EventsOf(parse, b)
  {
    if a == [] {
      assert a + b == b;
    } else {
      EventsAppend(parse, a[1..], b);
      assert (a + b)[1..] == a[1..] + b;
      match EventOf(parse, a[0]) {
        case None =>
        case Some(e) => Regroup(e, EventsOf(parse, a[1..]), EventsOf(parse, b));
      }
    }
  }

  /** Some event is terminal. */
  predicate Loud(events: seq<Json>) {
    events != [] && (Terminal(events[0]) || Loud(events[1..]))
  }

  /** The events up to and including the first terminal one. */
  function UpToTerminal(events: seq<Json>): seq<Json> {
    if events == [] then []
    else if Terminal(events[0]) then [events[0]]
    else [events[0]] + UpToTerminal(events[1..])
  }

  lemma {:induction false} LoudAppend(a: seq<Json>, b: seq<Json>)
    ensures Loud(a + b) <==> Loud(a) || Loud(b)
  {
    if a == [] {
      assert a + b == b;
    } else {
      LoudAppend(a[1..], b);
      assert (a + b)[1..] == a[1..] + b;
    }
  }

  /** What comes after a terminal event does not matter, and before one nothing is dropped. */
  lemma {:induction false} UpToAppend(a: seq<Json>, b: seq<Json>)
    ensures UpToTerminal(a + b) == if Loud(a) then UpToTerminal(a) else a + UpToTerminal(b)
  {
    if a == [] {
      assert a + b == b;
    } else {
      UpToAppend(a[1..], b);
      assert (a + b)[1..] == a[1..] + b;
      Regroup(a[0], a[1..], UpToTerminal(b));
      assert a == [a[0]] + a[1..];
    }
  }

  lemma {:induction false} QuietIsWhole(events: seq<Json>)
    requires !Loud(events)
    ensures UpToTerminal(events) == events
  {
    if events != [] { QuietIsWhole(events[1..]); }
  }

  // ---- the subscription ----

  /** How the reads end when no terminal event ends them first. */
  datatype End = EndOfStream | ReadError | Aborted

  datatype Observed = Observed(delivered: seq<Json>, completions: nat, failures: nat)

  /** The events the callback gets of a whole text: all of them, up to the first terminal one. */
  function Heard(parse: Parser, text: string): seq<Json> {
    UpToTerminal(EventsOf(parse, Blocks(text)))
  }

  predicate IsLoud(parse: Parser, text: string) {
    Loud(EventsOf(parse, Blocks(text)))
  }

  /** What the callbacks see of a whole text: a function of the text, not of its chunks. */
  function Observation(parse: Parser, text: string, end: End): (o: Observed)
    ensures o.completions + o.failures <= 1
  {
    var loud := IsLoud(parse, text);
    Observed(Heard(parse, text), if loud || end.EndOfStream? then 1 else 0, if !loud && end.ReadError? then 1 else 0)
  }

  /** A terminal event ends the subscription as complete; without one, the end of the reads decides. */
  lemma EndsAre(parse: Parser, text: string, end: End)
    ensures var o := Observation(parse, text, end);
      && ((exists e :: e in o.delivered && Terminal(e)) ==> o.completions == 1 && o.failures == 0)
      && ((forall e | e in o.delivered :: !Terminal(e)) ==>
            && o.delivered == EventsOf(parse, Blocks(text))
            && (end.EndOfStream? ==> o.completions == 1 && o.failures == 0)
            && (end.ReadError? ==> o.completions == 0 && o.failures == 1)
            && (end.Aborted? ==> o.completions == 0 && o.failures == 0))
  {
    LoudIs(EventsOf(parse, Blocks(text)));
  }

  lemma {:induction false} LoudIs(events: seq<Json>)
    ensures Loud(events) <==> exists e :: e in UpToTerminal(events) && Terminal(e)
    ensures !Loud(events) ==> UpToTerminal(events) == events
  {
    if events != [] {
      LoudIs(events[1..]);
      if Terminal(events[0]) { assert events[0] in UpToTerminal(events); }
      if e :| e in UpToTerminal(events[1..]) && Terminal(e) {
        assert !Terminal(events[0]) ==> e in UpToTerminal(events);
      }
    }
  }

  /** An event is terminal for its status or for a progress of 100, and nothing else ends the subscription. */
  lemma TerminalIs(status: Status, progress: Option<real>, payload: string)
    ensures Terminal(JsonValue(Complete, progress, payload)) && Terminal(JsonValue(Failed, progress, payload))
    ensures Terminal(JsonValue(status, Some(100.0), payload))
    ensures !status.Complete? && !status.Failed? && progress != Some(100.0) ==> !Terminal(JsonValue(status, progress, payload))
    ensures !Terminal(JsonNull)
  {
  }

  /** The data of a block are those of its first line that begins with "data:", whatever lines come before it. */
  lemma {:induction false} DataOfIs(lines: seq<string>, n: nat)
    requires n < |lines| && "data:" <= lines[n] && forall i | 0 <= i < n :: !("data:" <= lines[i])
    ensures DataOf(lines).Some? && exists spaces ::
      lines[n] == "data:" + spaces + DataOf(lines).value && (forall c | c in spaces :: IsSpace(c))
      && (DataOf(lines).value != "" ==> !IsSpace(DataOf(lines).value[0]))
  {
    if n > 0 {
      DataOfIs(lines[1..], n - 1);
    } else {
      var spaces := TrimmedOff(lines[0][5..]);
      assert lines[0] == "data:" + lines[0][5..];
      assert lines[0] == "data:" + spaces + DataOf(lines).value;
    }
  }

  lemma {:induction false} NoData(lines: seq<string>)
    requires forall i | 0 <= i < |lines| :: !("data:" <= lines[i])
    ensures DataOf(lines).None?
  {
    if lines != [] { NoData(lines[1..]); }
  }

  lemma {:induction false} TrimmedOff(s: string) returns (spaces: string)
    ensures s == spaces + TrimStart(s) && (forall c | c in spaces :: IsSpace(c))
    ensures TrimStart(s) != "" ==> !IsSpace(TrimStart(s)[0])
  {
    if s != "" && IsSpace(s[0]) {
      spaces := TrimmedOff(s[1..]);
      assert s == [s[0]] + s[1..];
      spaces := [s[0]] + spaces;
    } else {
      spaces := "";
    }
  }

  function Concat(chunks: seq<string>): string {
    if chunks == [] then "" else chunks[0] + Concat(chunks[1..])
  }

  class Subscription {
    var buffer: string
    var delivered: seq<Json>
    var completions: nat
    var failures: nat

    function Seen(): Observed
      reads this
    {
      Observed(delivered, completions, failures)
    }

    constructor ()
      ensures buffer == "" && Seen() == Observed([], 0, 0)
    {
      buffer, delivered, completions, failures := "", [], 0, 0;
    }

    /** Hands a block's event on; true after a terminal one. */
    method Deliver(parse: Parser, block: string) returns (finished: bool)
      modifies `delivered, `completions
      ensures delivered == match EventOf(parse, block) case None => old(delivered) case Some(e) => old(delivered) + [e]
      ensures finished <==> EventOf(parse, block).Some? && Terminal(EventOf(parse, block).value)
      ensures completions == old(completions) + if finished then 1 else 0
    {
      finished := false;
      var data := DataOf(Lines(block));
      if data.Some? {
        var event := parse(data.value);
        if event.Some? {
          delivered := delivered + [event.value];
          if Terminal(event.value) {
            completions := completions + 1;
            finished := true;
          }
        }
      }
    }

    /** Hands the finished blocks on, stopping at the first terminal event. */
    method DeliverAll(parse: Parser, lines: seq<string>) returns (finished: bool)
      modifies `delivered, `completions
      ensures delivered == old(delivered) + UpToTerminal(EventsOf(parse, lines))
      ensures finished <==> Loud(EventsOf(parse, lines))
      ensures completions == old(completions) + if finished then 1 else 0
    {
      finished := false;
      for j := 0 to |lines|
        invariant delivered + UpToTerminal(EventsOf(parse, lines[j..]))
                  == old(delivered) + UpToTerminal(EventsOf(parse, lines))
        invariant Loud(EventsOf(parse, lines[j..])) <==> Loud(EventsOf(parse, lines))
        invariant completions == old(completions) && !finished
      {
        NextBlock(parse, lines, j, delivered);
        finished := Deliver(parse, lines[j]);
        if finished {
          return;
        }
      }
    }

    /** The carried text never holds a break, and a break arriving in two chunks still ends a block. */
    method Run(parse: Parser, chunks: seq<string>, end: End)
      requires buffer == "" && Seen() == Observed([], 0, 0)
      modifies this
      ensures Seen() == Observation(parse, Concat(chunks), end)
      ensures FirstBreak(buffer) == |buffer|
    {
      ghost var all := Concat(chunks);
      Start(parse, chunks);
      for i := 0 to |chunks|
        invariant FirstBreak(buffer) == |buffer|
        invariant Ahead(parse, delivered, buffer, chunks[i..]) == (Heard(parse, all), IsLoud(parse, all))
        invariant completions == 0 && failures == 0
      {
        ReadChunk(parse, chunks, i, buffer, delivered);
        ghost var text := buffer + chunks[i];
        buffer := buffer + chunks[i];
        var lines := Split(buffer);
        buffer, lines := lines[|lines| - 1], lines[..|lines| - 1];
        assert buffer == Rest(text) && lines == Blocks(text);
        var finished := DeliverAll(parse, lines);
        if finished {
          return;
        }
      }
      AllRead(parse, buffer, delivered);
      assert chunks[|chunks|..] == [];
      match end {
        case EndOfStream => completions := completions + 1;
        case ReadError => failures := failures + 1;
        case Aborted =>
      }
    }
  }

  /** What will have been delivered at the end, and whether a terminal event will have ended it. */
  function Ahead(parse: Parser, delivered: seq<Json>, buffer: string, chunks: seq<string>): (seq<Json>, bool) {
    (delivered + Heard(parse, buffer + Concat(chunks)), IsLoud(parse, buffer + Concat(chunks)))
  }

  lemma Start(parse: Parser, chunks: seq<string>)
    ensures Ahead(parse, [], "", chunks[0..]) == (Heard(parse, Concat(chunks)), IsLoud(parse, Concat(chunks)))
  {
    assert chunks[0..] == chunks && "" + Concat(chunks) == Concat(chunks);
    assert [] + Heard(parse, Concat(chunks)) == Heard(parse, Concat(chunks));
  }

  /** Of a text whose first part has been read, either that part settles the matter or the rest goes on. */
  lemma ReadChunk(parse: Parser, chunks: seq<string>, i: nat, buffer: string, delivered: seq<Json>)
    requires i < |chunks|
    ensures var text := buffer + chunks[i];
      var now := delivered + Heard(parse, text);
      && FirstBreak(Rest(text)) == |Rest(text)|
      && Ahead(parse, delivered, buffer, chunks[i..])
         == if IsLoud(parse, text) then (now, true) else Ahead(parse, now, Rest(text), chunks[i + 1..])
  {
    var text, more := buffer + chunks[i], Concat(chunks[i + 1..]);
    assert chunks[i..][1..] == chunks[i + 1..];
    assert buffer + (chunks[i] + more) == text + more;
    RestIsOpen(text);
    CarryOver(text, more);
    EventsAppend(parse, Blocks(text), Blocks(Rest(text) + more));
    Merge(delivered, EventsOf(parse, Blocks(text)), EventsOf(parse, Blocks(Rest(text) + more)));
  }

  lemma AllRead(parse: Parser, buffer: string, delivered: seq<Json>)
    requires FirstBreak(buffer) == |buffer|
    ensures Ahead(parse, delivered, buffer, []) == (delivered, false)
  {
    assert buffer + "" == buffer && delivered + [] == delivered;
  }

  lemma NextBlock(parse: Parser, lines: seq<string>, j: nat, delivered: seq<Json>)
    requires j < |lines|
    ensures var here, later := EventsOf(parse, lines[j..]), EventsOf(parse, lines[j + 1..]);
      match EventOf(parse, lines[j])
      case None => here == later
      case Some(e) =>
        && (Loud(here) <==> Terminal(e) || Loud(later))
        && delivered + UpToTerminal(here)
           == if Terminal(e) then delivered + [e] else (delivered + [e]) + UpToTerminal(later)
  {
    assert lines[j..][1..] == lines[j + 1..];
    var later := EventsOf(parse, lines[j + 1..]);
    match EventOf(parse, lines[j]) {
      case None =>
      case Some(e) =>
        assert ([e] + later)[1..] == later;
        assert delivered + ([e] + UpToTerminal(later)) == (delivered + [e]) + UpToTerminal(later);
    }
  }

  lemma Merge(delivered: seq<Json>, here: seq<Json>, later: seq<Json>)
    ensures Loud(here + later) <==> Loud(here) || Loud(later)
    ensures delivered + UpToTerminal(here + later)
      == if Loud(here) then delivered + UpToTerminal(here)
         else (delivered + UpToTerminal(here)) + UpToTerminal(later)
  {
    LoudAppend(here, later);
    UpToAppend(here, later);
    if !Loud(here) {
      QuietIsWhole(here);
      var u := UpToTerminal(later);
      assert delivered + (here + u) == (delivered + here) + u;
    }
  }

  // ---- a sender's frames ----

  function Frames(payloads: seq<string>): string {
    if payloads == [] then "" else "data: " + payloads[0] + "\n\n" + Frames(payloads[1..])
  }

  /** One line that does not begin with a space, as JSON.stringify gives for an object. */
  predicate OneLine(s: string) {
    '\n' !in s && (s != "" ==> !IsSpace(s[0]))
  }

  lemma {:induction false} LineOf(s: string)
    requires '\n' !in s
    ensures Lines(s) == [s] && FirstBreak(s) == |s|
  {
    if s != "" {
      LineOf(s[1..]);
      assert [s[0]] + s[1..] == s;
    }
  }

  lemma FrameData(parse: Parser, p: string)
    requires OneLine(p)
    ensures Closed("data: " + p) && EventOf(parse, "data: " + p) == parse(p)
  {
    var line := "data: " + p;
    assert '\n' !in "data: ";
    LineOf(line);
    assert line[..5] == "data:" && line[5..] == [' '] + p && line[5..][1..] == p;
    assert TrimStart(p) == p;
    assert DataOf(Lines(line)) == Some(p);
  }

  function Parsed(parse: Parser, payloads: seq<string>): (events: seq<Json>)
    requires forall p | p in payloads :: parse(p).Some?
    ensures |events| == |payloads|
    ensures forall i | 0 <= i < |payloads| :: events[i] == parse(payloads[i]).value
  {
    if payloads == [] then [] else [parse(payloads[0]).value] + Parsed(parse, payloads[1..])
  }

  /** Frames written one per payload are read back as exactly those payloads, with nothing left over. */
  lemma {:induction false} FramesRoundTrip(parse: Parser, payloads: seq<string>)
    requires forall p | p in payloads :: OneLine(p) && parse(p).Some?
    ensures Rest(Frames(payloads)) == ""
    ensures EventsOf(parse, Blocks(Frames(payloads))) == Parsed(parse, payloads)
  {
    if payloads != [] {
      var line, more := "data: " + payloads[0], Frames(payloads[1..]);
      FramesRoundTrip(parse, payloads[1..]);
      FrameData(parse, payloads[0]);
      BlocksAfter(line, more);
      assert ([line] + Blocks(more))[1..] == Blocks(more);
    }
  }
}
