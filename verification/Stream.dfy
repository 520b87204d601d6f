/** A chat reply cut into chunks, framed as server-sent events, split by the network
    and reassembled in the browser. JSON is a codec: newline-free and invertible. */
module Stream {
  import opened Tables

  datatype Usage = Usage(promptTokens: int, completionTokens: int, totalTokens: int)

  /** One event's payload; error is empty unless the stream failed. */
  datatype Event = Event(delta: string, done: bool, model: string, usage: Option<Usage>, error: string)

  datatype HandlerCall = OnDelta(delta: string) | OnDone(model: string, usage: Option<Usage>) | OnError(message: string)

  type Encoder = Event -> string
  type Decoder = string -> Option<Event>

  /** White space as JavaScript's trim and \s see it. */
  predicate JsSpace(c: char) {
    || c == ' ' || '\t' <= c <= '\r' || c == '\U{A0}' || c == '\U{FEFF}' || c == '\U{1680}'
    || '\U{2000}' <= c <= '\U{200A}' || c == '\U{2028}' || c == '\U{2029}'
    || c == '\U{202F}' || c == '\U{205F}' || c == '\U{3000}'
  }

  /** What the serialised JSON object looks like from outside. */
  predicate Clean(s: string) {
    && s != "" && !JsSpace(s[0]) && !JsSpace(s[|s| - 1])
    && (forall i :: 0 <= i < |s| ==> s[i] != '\n' && s[i] != '\r')
  }

  ghost predicate IsCodec(encode: Encoder, decode: Decoder) {
    forall e :: Clean(encode(e)) && decode(encode(e)) == Some(e)
  }

  function Concat(pieces: seq<string>): string {
    if pieces == [] then "" else pieces[0] + Concat(pieces[1..])
  }

  lemma {:induction false} ConcatAppend(pieces: seq<string>, last: string)
    ensures Concat(pieces + [last]) == Concat(pieces) + last
  {
    if pieces == [] {
      assert [last][1..] == [];
    } else {
      assert (pieces + [last])[1..] == pieces[1..] + [last];
      ConcatAppend(pieces[1..], last);
    }
  }

  // --- the server ---

  function ChunkSize(text: string): nat {
    if |text| < 40 then 4 else 12
  }

  /** The text in consecutive pieces of the given size, the last one maybe shorter. */
  function Pieces(text: string, step: nat): seq<string>
    requires step > 0
  {
    if text == "" then []
    else if |text| <= step then [text]
    else [text[..step]] + Pieces(text[step..], step)
  }

  function DeltaEvent(delta: string, model: string): Event {
    Event(delta, false, model, None, "")
  }

  function DeltaEvents(pieces: seq<string>, model: string): seq<Event> {
    if pieces == [] then [] else [DeltaEvent(pieces[0], model)] + DeltaEvents(pieces[1..], model)
  }

  /** Everything a whole reply emits. */
  function ReplyEvents(text: string, model: string, usage: Usage): seq<Event> {
    DeltaEvents(Pieces(text, ChunkSize(text)), model) + [Event("", true, model, Some(usage), "")]
  }

  function Frame(e: Event, encode: Encoder): string {
    "data: " + encode(e) + "\n\n"
  }

  function Frames(events: seq<Event>, encode: Encoder): string {
    if events == [] then "" else Frame(events[0], encode) + Frames(events[1..], encode)
  }

  lemma {:induction false} FramesAppend(events: seq<Event>, e: Event, encode: Encoder)
    ensures Frames(events + [e], encode) == Frames(events, encode) + Frame(e, encode)
  {
    if events == [] {
      assert [e][1..] == [];
    } else {
      assert (events + [e])[1..] == events[1..] + [e];
      FramesAppend(events[1..], e, encode);
    }
  }

  lemma {:induction false} DeltaEventsAppend(pieces: seq<string>, last: string, model: string)
    ensures DeltaEvents(pieces + [last], model) == DeltaEvents(pieces, model) + [DeltaEvent(last, model)]
  {
    if pieces == [] {
      assert [last][1..] == [];
    } else {
      assert (pieces + [last])[1..] == pieces[1..] + [last];
      DeltaEventsAppend(pieces[1..], last, model);
    }
  }

  /** A response whose connection takes some more frames before it fails. */
  class Response {
    var written: string
    var room: nat

    constructor (room: nat)
      ensures written == "" && this.room == room
    {
      written, this.room := "", room;
    }

    method WriteFrame(e: Event, encode: Encoder) returns (ok: bool)
      modifies this
      ensures ok <==> old(room) > 0
      ensures written == old(written) + (if ok then Frame(e, encode) else "")
      ensures room == if ok then old(room) - 1 else old(room)
    {
      if room == 0 {
        return false;
      }
      written := written + "data: " + encode(e) + "\n\n";
      room := room - 1;
      return true;
    }
  }

  /** As many of the events as the connection takes. */
  function FirstOf(events: seq<Event>, room: nat): seq<Event> {
    if room < |events| then events[..room] else events
  }

  /** Steps through the text, emitting a frame for each slice and a closing one, until a
      write fails. */
  method ChunkEmit(w: Response, text: string, model: string, usage: Usage, encode: Encoder) returns (ok: bool)
    modifies w
    ensures w.written == old(w.written) + Frames(FirstOf(ReplyEvents(text, model, usage), old(w.room)), encode)
    ensures ok <==> |ReplyEvents(text, model, usage)| <= old(w.room)
  {
    var step := 12;
    if |text| < 40 {
      step := 4;
    }
    var i := 0;
    ghost var deltas := DeltaEvents(Pieces(text, step), model);
    ghost var n: nat := 0;
    EmitStart(w.written, deltas, text, step, model, encode);
    while i < |text|
      invariant Emitting(old(w.written), w.written, deltas, n, text, i, step, model, encode)
      invariant w.room == old(w.room) - n
    {
      var end := i + step;
      if end > |text| {
        end := |text|;
      }
      EmitStep(old(w.written), w.written, deltas, n, text, i, end, step, model, encode);
      ok := w.WriteFrame(DeltaEvent(text[i..end], model), encode);
      if !ok {
        CutOff(deltas, n, Event("", true, model, Some(usage), ""));
        return;
      }
      i, n := end, n + 1;
    }
    EmitDone(old(w.written), w.written, deltas, n, text, step, model, encode);
    ghost var last := Event("", true, model, Some(usage), "");
    ok := w.WriteFrame(Event("", true, model, Some(usage), ""), encode);
    FramesAppend(deltas, last, encode);
    CutOff(deltas, n, last);
  }

  /** What a connection that takes only the first n deltas gets of a whole reply. */
  lemma CutOff(deltas: seq<Event>, n: nat, last: Event)
    requires n <= |deltas|
    ensures FirstOf(deltas + [last], n) == deltas[..n]
    ensures |deltas + [last]| == |deltas| + 1
  {
  }

  /** n of the deltas are written, and those of the text from i on are to come. */
  ghost predicate Emitting(base: string, written: string, deltas: seq<Event>, n: nat, text: string, i: nat, step: nat,
                           model: string, encode: Encoder)
    requires step > 0
  {
    && i <= |text| && n <= |deltas| && written == base + Frames(deltas[..n], encode)
    && deltas[n..] == DeltaEvents(Pieces(text[i..], step), model)
  }

  lemma EmitStart(base: string, deltas: seq<Event>, text: string, step: nat, model: string, encode: Encoder)
    requires step > 0 && deltas == DeltaEvents(Pieces(text, step), model)
    ensures Emitting(base, base, deltas, 0, text, 0, step, model, encode)
  {
    assert text[0..] == text && deltas[..0] == [] && deltas[0..] == deltas;
  }

  lemma EmitStep(base: string, written: string, deltas: seq<Event>, n: nat, text: string, i: nat, end: nat, step: nat,
                 model: string, encode: Encoder)
    requires step > 0 && i < end <= |text| && (end == i + step || (end == |text| && end < i + step))
    requires Emitting(base, written, deltas, n, text, i, step, model, encode)
    ensures n < |deltas|
    ensures Emitting(base, written + Frame(DeltaEvent(text[i..end], model), encode), deltas, n + 1, text, end, step,
                     model, encode)
  {
    NextPiece(text, i, end, step);
    var later := DeltaEvents(Pieces(text[end..], step), model);
    assert deltas[n..] == [DeltaEvent(text[i..end], model)] + later;
    assert deltas[n] == deltas[n..][0] && deltas[n + 1..] == deltas[n..][1..];
    PrefixStep(deltas, n);
    FramesAppend(deltas[..n], deltas[n], encode);
  }

  lemma EmitDone(base: string, written: string, deltas: seq<Event>, n: nat, text: string, step: nat, model: string,
                 encode: Encoder)
    requires step > 0 && Emitting(base, written, deltas, n, text, |text|, step, model, encode)
    ensures n == |deltas| && written == base + Frames(deltas, encode)
  {
    assert text[|text|..] == "" && deltas[n..] == [];
    assert deltas[..n] == deltas;
  }

  lemma NextPiece(text: string, i: nat, end: nat, step: nat)
    requires step > 0 && i < end <= |text| && (end == i + step || (end == |text| && end < i + step))
    ensures Pieces(text[i..], step) == [text[i..end]] + Pieces(text[end..], step)
  {
    var rest := text[i..];
    if |rest| <= step {
      assert text[end..] == "" && text[i..end] == rest;
    } else {
      assert rest[..step] == text[i..end] && rest[step..] == text[end..];
    }
  }

  // --- the browser ---

  /** Every "\r\n" becomes "\n". */
  function ReplaceCRLF(s: string): string {
    if |s| < 2 then s
    else if s[0] == '\r' && s[1] == '\n' then "\n" + ReplaceCRLF(s[2..])
    else [s[0]] + ReplaceCRLF(s[1..])
  }

  function ReplaceCR(s: string): string {
    seq(|s|, i requires 0 <= i < |s| => if s[i] == '\r' then '\n' else s[i])
  }

  /** The parts between blank-line separators, taken from the left; the last part
      is what no separator has closed yet. */
  function SplitFrames(s: string): (parts: seq<string>)
    ensures |parts| >= 1
  {
    if |s| < 2 then [s]
    else if s[0] == '\n' && s[1] == '\n' then [""] + SplitFrames(s[2..])
    else
      var rest := SplitFrames(s[1..]);
      [[s[0]] + rest[0]] + rest[1..]
  }

  function Closed(s: string): seq<string> {
    var parts := SplitFrames(s);
    parts[..|parts| - 1]
  }

  function Remainder(s: string): string {
    var parts := SplitFrames(s);
    parts[|parts| - 1]
  }

  function SplitLines(s: string): (lines: seq<string>)
    ensures |lines| >= 1
  {
    if s == "" then [""]
    else if s[0] == '\n' then [""] + SplitLines(s[1..])
    else
      var rest := SplitLines(s[1..]);
      [[s[0]] + rest[0]] + rest[1..]
  }

  function TrimStart(s: string): string {
    if s != "" && JsSpace(s[0]) then TrimStart(s[1..]) else s
  }

  function TrimEnd(s: string): string {
    if s != "" && JsSpace(s[|s| - 1]) then TrimEnd(s[..|s| - 1]) else s
  }

  /** The data lines of a part, trimmed and without their field name. */
  function DataLines(lines: seq<string>): seq<string> {
    if lines == [] then []
    else
      var line := TrimEnd(TrimStart(lines[0]));
      (if |line| >= 5 && line[..5] == "data:" then [TrimStart(line[5..])] else []) + DataLines(lines[1..])
  }

  function JoinLines(lines: seq<string>): string {
    if lines == [] then "" else if |lines| == 1 then lines[0] else lines[0] + "\n" + JoinLines(lines[1..])
  }

  /** What the loop does with one part: the handler calls it makes, and whether it
      throws. Parts without data lines and payloads that do not parse are skipped. */
  datatype Reaction = Reaction(calls: seq<HandlerCall>, thrown: bool)

  function ReactTo(e: Event): Reaction {
    if e.error != "" then Reaction([OnError(e.error)], true)
    else Reaction((if e.delta != "" then [OnDelta(e.delta)] else [])
                  + (if e.done then [OnDone(e.model, e.usage)] else []), false)
  }

  function Handle(part: string, decode: Decoder): Reaction {
    var data := DataLines(SplitLines(part));
    if data == [] then Reaction([], false)
    else
      var e := decode(JoinLines(data));
      if e.None? then Reaction([], false) else ReactTo(e.value)
  }

  /** Reactions in order, up to and including the first that throws. */
  function Chain(rs: seq<Reaction>): Reaction {
    if rs == [] then Reaction([], false)
    else if rs[0].thrown then rs[0]
    else
      var rest := Chain(rs[1..]);
      Reaction(rs[0].calls + rest.calls, rest.thrown)
  }

  function Mapped<T>(items: seq<T>, react: T -> Reaction): seq<Reaction> {
    seq(|items|, i requires 0 <= i < |items| => react(items[i]))
  }

  function Handler(decode: Decoder): string -> Reaction {
    (part: string) => Handle(part, decode)
  }

  function HandleAll(parts: seq<string>, decode: Decoder): Reaction {
    Chain(Mapped(parts, Handler(decode)))
  }

  function Then(first: Reaction, second: Reaction): Reaction {
    if first.thrown then first else Reaction(first.calls + second.calls, second.thrown)
  }

  lemma {:induction false} ChainConcat(a: seq<Reaction>, b: seq<Reaction>)
    ensures Chain(a + b) == Then(Chain(a), Chain(b))
  {
    if a == [] {
      assert a + b == b;
    } else {
      assert (a + b)[1..] == a[1..] + b;
      ChainConcat(a[1..], b);
    }
  }

  lemma ChainMapped<T>(a: seq<T>, b: seq<T>, react: T -> Reaction)
    ensures Chain(Mapped(a + b, react)) == Then(Chain(Mapped(a, react)), Chain(Mapped(b, react)))
  {
    assert Mapped(a + b, react) == Mapped(a, react) + Mapped(b, react);
    ChainConcat(Mapped(a, react), Mapped(b, react));
  }

  lemma ChainOne<T>(item: T, react: T -> Reaction)
    ensures Chain(Mapped([item], react)) == react(item)
  {
    var r := react(item);
    assert Mapped([item], react) == [r] && [r][1..] == [];
    assert Chain([]) == Reaction([], false);
  }

  /** Line ends normalised: "\r\n" and then any other "\r" become "\n". */
  function Norm(s: string): string {
    ReplaceCR(ReplaceCRLF(s))
  }

  /** Every read as the loop takes it in. */
  function Norms(received: seq<string>): seq<string> {
    seq(|received|, k requires 0 <= k < |received| => Norm(received[k]))
  }

  lemma {:induction false} ReplaceCRLFAppend(b: string, p: string)
    requires '\r' !in b
    ensures ReplaceCRLF(b + p) == b + ReplaceCRLF(p)
  {
    if b == "" {
      assert b + p == p;
    } else {
      assert b[0] in b && (b + p)[1..] == b[1..] + p;
      ReplaceCRLFAppend(b[1..], p);
      assert b + p == [b[0]] + (b[1..] + p);
      assert [b[0]] + (b[1..] + ReplaceCRLF(p)) == b + ReplaceCRLF(p);
    }
  }

  /** Normalising again what was normalised before changes nothing: each read is
      normalised on its own. */
  lemma NormAppend(b: string, p: string)
    requires '\r' !in b
    ensures Norm(b + p) == b + Norm(p)
  {
    ReplaceCRLFAppend(b, p);
    var q := ReplaceCRLF(p);
    forall i | 0 <= i < |b| ensures ReplaceCR(b + q)[i] == b[i] {
      assert b[i] in b;
    }
    assert ReplaceCR(b + q) == b + ReplaceCR(q);
  }

  lemma NormHasNoCR(s: string)
    ensures '\r' !in Norm(s)
  {
    var q := ReplaceCRLF(s);
    assert forall i :: 0 <= i < |q| ==> ReplaceCR(q)[i] != '\r';
  }

  /** Puts a character in front of the first part. */
  function ConsFirst(c: char, parts: seq<string>): seq<string>
    requires parts != []
  {
    [[c] + parts[0]] + parts[1..]
  }

  lemma SplitCons(a: string)
    requires |a| >= 2 && !(a[0] == '\n' && a[1] == '\n')
    ensures SplitFrames(a) == ConsFirst(a[0], SplitFrames(a[1..]))
    ensures Closed(a[1..]) != [] ==> Closed(a) == ConsFirst(a[0], Closed(a[1..])) && Remainder(a) == Remainder(a[1..])
    ensures Closed(a[1..]) == [] ==> Closed(a) == []
  {
    assert SplitFrames(a) == ConsFirst(a[0], SplitFrames(a[1..]));
    ConsFirstEnds(a[0], SplitFrames(a[1..]));
  }

  lemma ConsFirstEnds(c: char, parts: seq<string>)
    requires parts != []
    ensures var r := ConsFirst(c, parts);
            && |r| == |parts|
            && (|parts| > 1 ==> r[..|r| - 1] == ConsFirst(c, parts[..|parts| - 1]) && r[|r| - 1] == parts[|parts| - 1])
  {
  }

  lemma {:induction false} UnclosedIsWhole(a: string)
    requires Closed(a) == []
    ensures Remainder(a) == a
  {
    if |a| >= 2 {
      SplitCons(a);
      UnclosedIsWhole(a[1..]);
      assert a == [a[0]] + a[1..];
    }
  }

  lemma ConsFirstConcat(c: char, x: seq<string>, y: seq<string>)
    requires x != []
    ensures ConsFirst(c, x + y) == ConsFirst(c, x) + y
  {
    assert (x + y)[1..] == x[1..] + y;
  }

  /** One plain character in front changes nothing about where the splits fall. */
  lemma IncrementalCons(a: string, b: string)
    requires |a| >= 2 && !(a[0] == '\n' && a[1] == '\n') && Closed(a[1..]) != []
    requires SplitFrames(a[1..] + b) == Closed(a[1..]) + SplitFrames(Remainder(a[1..]) + b)
    ensures SplitFrames(a + b) == Closed(a) + SplitFrames(Remainder(a) + b)
  {
    assert (a + b)[1..] == a[1..] + b;
    SplitCons(a);
    SplitCons(a + b);
    ConsFirstConcat(a[0], Closed(a[1..]), SplitFrames(Remainder(a[1..]) + b));
  }

  /** A separator in front closes one empty part more. */
  lemma IncrementalBlank(a: string, b: string)
    requires |a| >= 2 && a[0] == '\n' && a[1] == '\n'
    requires SplitFrames(a[2..] + b) == Closed(a[2..]) + SplitFrames(Remainder(a[2..]) + b)
    ensures SplitFrames(a + b) == Closed(a) + SplitFrames(Remainder(a) + b)
  {
    assert (a + b)[2..] == a[2..] + b;
    SplitBlank(a);
    SplitBlank(a + b);
    var x, y := Closed(a[2..]), SplitFrames(Remainder(a[2..]) + b);
    assert [""] + (x + y) == ([""] + x) + y;
  }

  lemma SplitBlank(s: string)
    requires |s| >= 2 && s[0] == '\n' && s[1] == '\n'
    ensures SplitFrames(s) == [""] + SplitFrames(s[2..])
    ensures Closed(s) == [""] + Closed(s[2..]) && Remainder(s) == Remainder(s[2..])
  {
  }

  /** However the bytes arrive: splitting what has come so far, keeping the open
      remainder and splitting again with the rest is splitting the whole. */
  lemma {:induction false} SplitIncremental(a: string, b: string)
    ensures SplitFrames(a + b) == Closed(a) + SplitFrames(Remainder(a) + b)
  {
    if Closed(a) == [] {
      UnclosedIsWhole(a);
    } else if a[0] == '\n' && a[1] == '\n' {
      SplitIncremental(a[2..], b);
      IncrementalBlank(a, b);
    } else {
      SplitIncremental(a[1..], b);
      SplitCons(a);
      IncrementalCons(a, b);
    }
  }

  lemma SplitGrows(a: string, b: string)
    ensures Closed(a + b) == Closed(a) + Closed(Remainder(a) + b)
    ensures Remainder(a + b) == Remainder(Remainder(a) + b)
  {
    SplitIncremental(a, b);
  }

  /** The read loop. Received are the decoded pieces in which the body arrives. */
  method ChatStream(received: seq<string>, decode: Decoder) returns (calls: seq<HandlerCall>, thrown: bool)
    ensures Reaction(calls, thrown) == HandleAll(Closed(Concat(Norms(received))), decode)
  {
    calls, thrown := [], false;
    var buffer := "";
    ghost var taken := Norms(received);
    for k := 0 to |received|
      invariant buffer == Remainder(Concat(taken[..k])) && '\r' !in buffer
      invariant Reaction(calls, false) == HandleAll(Closed(Concat(taken[..k])), decode)
    {
      ghost var sofar := Concat(taken[..k]);
      ReadStep(taken, k);
      SplitGrows(sofar, taken[k]);
      var parts;
      buffer, parts := Absorb(buffer, received[k]);
      ChainMapped(Closed(sofar), parts, Handler(decode));
      var more;
      more, thrown := HandleParts(parts, decode);
      calls := calls + more;
      if thrown {
        StoppedEarly(taken, k + 1, decode);
        return;
      }
    }
    assert taken[..|received|] == taken;
  }

  /** Takes one read into the buffer, normalises line ends and splits off what is closed. */
  method Absorb(buffer: string, piece: string) returns (rest: string, parts: seq<string>)
    requires '\r' !in buffer
    ensures rest == Remainder(buffer + Norm(piece)) && parts == Closed(buffer + Norm(piece)) && '\r' !in rest
  {
    rest := buffer + piece;
    NormAppend(buffer, piece);
    NormHasNoCR(rest);
    rest := ReplaceCR(ReplaceCRLF(rest));
    RemainderNoCR(rest);
    parts := SplitFrames(rest);
    rest := parts[|parts| - 1];
    parts := parts[..|parts| - 1];
  }

  /** The inner loop over the closed parts of one read. */
  method HandleParts(parts: seq<string>, decode: Decoder) returns (calls: seq<HandlerCall>, thrown: bool)
    ensures Reaction(calls, thrown) == HandleAll(parts, decode)
  {
    calls, thrown := [], false;
    for i := 0 to |parts|
      invariant Reaction(calls, false) == HandleAll(parts[..i], decode)
    {
      PrefixStep(parts, i);
      ChainMapped(parts[..i], [parts[i]], Handler(decode));
      ChainOne(parts[i], Handler(decode));
      var more;
      more, thrown := HandlePart(parts[i], decode);
      calls := calls + more;
      if thrown {
        assert parts == parts[..i + 1] + parts[i + 1..];
        ChainMapped(parts[..i + 1], parts[i + 1..], Handler(decode));
        return;
      }
    }
    assert parts[..|parts|] == parts;
  }

  /** The calls one part gives rise to, and whether it throws. */
  method HandlePart(part: string, decode: Decoder) returns (calls: seq<HandlerCall>, thrown: bool)
    ensures Reaction(calls, thrown) == Handle(part, decode)
  {
    calls, thrown := [], false;
    var data := DataLines(SplitLines(part));
    if |data| == 0 {
      return;
    }
    var e := decode(JoinLines(data));
    if e.None? {
      return;
    }
    if e.value.error != "" {
      return [OnError(e.value.error)], true;
    }
    if e.value.delta != "" {
      calls := calls + [OnDelta(e.value.delta)];
    }
    if e.value.done {
      calls := calls + [OnDone(e.value.model, e.value.usage)];
    }
  }

  lemma {:induction false} ConcatSplit(a: seq<string>, b: seq<string>)
    ensures Concat(a + b) == Concat(a) + Concat(b)
  {
    if a == [] {
      assert a + b == b;
    } else {
      assert (a + b)[1..] == a[1..] + b;
      ConcatSplit(a[1..], b);
    }
  }

  lemma ReadStep(taken: seq<string>, k: nat)
    requires k < |taken|
    ensures Concat(taken[..k + 1]) == Concat(taken[..k]) + taken[k]
  {
    PrefixStep(taken, k);
    ConcatAppend(taken[..k], taken[k]);
  }

  lemma {:induction false} RemainderNoCR(s: string)
    requires '\r' !in s
    ensures '\r' !in Remainder(s)
  {
    if |s| >= 2 {
      if s[0] == '\n' && s[1] == '\n' {
        RemainderNoCR(s[2..]);
      } else {
        assert s[0] in s;
        RemainderNoCR(s[1..]);
      }
    }
  }

  /** A throw while handling a prefix of the reads is the throw of the whole. */
  lemma StoppedEarly(taken: seq<string>, k: nat, decode: Decoder)
    requires k <= |taken| && HandleAll(Closed(Concat(taken[..k])), decode).thrown
    ensures HandleAll(Closed(Concat(taken)), decode) == HandleAll(Closed(Concat(taken[..k])), decode)
  {
    assert taken == taken[..k] + taken[k..];
    ConcatSplit(taken[..k], taken[k..]);
    StoppedAt(Concat(taken[..k]), Concat(taken[k..]), decode);
  }

  lemma StoppedAt(a: string, b: string, decode: Decoder)
    requires HandleAll(Closed(a), decode).thrown
    ensures HandleAll(Closed(a + b), decode) == HandleAll(Closed(a), decode)
  {
    SplitGrows(a, b);
    ChainMapped(Closed(a), Closed(Remainder(a) + b), Handler(decode));
  }
}
