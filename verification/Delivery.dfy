/** The streaming round trip: whatever the network cuts and however a proxy rewrites
    the line ends, the handlers see the emitted events. */
module StreamDelivery {
  import opened Tables
  import opened Stream

  // --- one frame ---

  /** A payload's line, without its end. */
  function Labelled(payload: string): string {
    "data: " + payload
  }

  function Body(e: Event, encode: Encoder): string {
    Labelled(encode(e))
  }

  lemma {:induction false} SplitBody(body: string, rest: string)
    requires '\n' !in body
    ensures SplitFrames(body + "\n\n" + rest) == [body] + SplitFrames(rest)
  {
    var s := body + "\n\n" + rest;
    if body == "" {
      assert s[2..] == rest;
    } else {
      assert body[0] in body && s[0] == body[0];
      SplitBody(body[1..], rest);
      assert s[1..] == body[1..] + "\n\n" + rest;
      assert body == [body[0]] + body[1..];
    }
  }

  lemma BodyHasNoNewline(e: Event, encode: Encoder)
    requires Clean(encode(e))
    ensures '\n' !in Body(e, encode) && '\r' !in Body(e, encode)
  {
    LabelledHasNoNewline(encode(e));
  }

  lemma LabelledHasNoNewline(p: string)
    requires Clean(p)
    ensures '\n' !in Labelled(p) && '\r' !in Labelled(p)
  {
    assert "data: "[0] == 'd' && "data: "[1] == 'a' && "data: "[2] == 't' && "data: "[3] == 'a'
        && "data: "[4] == ':' && "data: "[5] == ' ';
  }

  lemma {:induction false} OneLine(s: string)
    requires '\n' !in s
    ensures SplitLines(s) == [s]
  {
    if s != "" {
      assert s[0] in s;
      OneLine(s[1..]);
      assert s == [s[0]] + s[1..];
    }
  }

  /** A body's payload is the serialised event, untouched. */
  lemma PayloadOfBody(e: Event, encode: Encoder)
    requires Clean(encode(e))
    ensures DataLines(SplitLines(Body(e, encode))) == [encode(e)]
  {
    PayloadOfLabelled(encode(e));
  }

  lemma PayloadOfLabelled(p: string)
    requires Clean(p)
    ensures DataLines(SplitLines(Labelled(p))) == [p]
  {
    var body := Labelled(p);
    LabelledHasNoNewline(p);
    OneLine(body);
    assert body[0] == 'd' && TrimStart(body) == body;
    assert body[|body| - 1] == p[|p| - 1] && TrimEnd(body) == body;
    assert body[..5] == "data:" && body[5..] == " " + p;
    assert (" " + p)[1..] == p;
    assert TrimStart(" " + p) == TrimStart(p) == p;
    assert DataLines([body][1..]) == [];
  }

  /** A stray line end in front of a body changes nothing. */
  lemma LateBody(e: Event, encode: Encoder, decode: Decoder)
    requires IsCodec(encode, decode)
    ensures Handle(Body(e, encode), decode) == Handle("\n" + Body(e, encode), decode) == ReactTo(e)
  {
    PayloadOfBody(e, encode);
    var body := Body(e, encode);
    BodyHasNoNewline(e, encode);
    OneLine(body);
    assert ("\n" + body)[1..] == body;
    assert SplitLines("\n" + body) == ["", body] && ["", body][1..] == [body];
    assert DataLines(["", body]) == DataLines([body]);
    assert JoinLines([encode(e)]) == encode(e);
  }

  // --- line ends on the way ---

  /** How many line ends a run of carriage returns and line feeds makes, a return
      and the feed right after it being one; cr says a return came just before. */
  function LineEnds(sep: string, cr: bool): nat {
    if sep == "" then 0
    else if sep[0] == '\n' && cr then LineEnds(sep[1..], false)
    else 1 + LineEnds(sep[1..], sep[0] == '\r')
  }

  predicate LineEndChars(sep: string) {
    forall i :: 0 <= i < |sep| ==> sep[i] == '\r' || sep[i] == '\n'
  }

  /** A run that still ends a frame: two line ends or more. */
  predicate EndsFrame(sep: string) {
    LineEndChars(sep) && LineEnds(sep, false) >= 2
  }

  /** The stream as a proxy may pass it on: each frame under line ends of its own. */
  function Relayed(events: seq<Event>, seps: seq<string>, encode: Encoder): string
    requires |events| == |seps|
  {
    if events == [] then ""
    else Body(events[0], encode) + (seps[0] + Relayed(events[1..], seps[1..], encode))
  }

  /** e is what reading raw in some pieces makes of it, each piece normalised on its
      own: a feed after a return may or may not have been dropped. */
  predicate ReadAs(raw: string, e: string, cr: bool)
    decreases |raw|
  {
    if raw == "" then e == ""
    else if raw[0] == '\n' && cr then
      ReadAs(raw[1..], e, false) || (e != "" && e[0] == '\n' && ReadAs(raw[1..], e[1..], false))
    else
      e != "" && e[0] == (if raw[0] == '\r' then '\n' else raw[0]) && ReadAs(raw[1..], e[1..], raw[0] == '\r')
  }

  function EndsInCR(p: string, cr: bool): bool {
    if p == "" then cr else p[|p| - 1] == '\r'
  }

  lemma ReplaceCRFirst(c: char, s: string)
    ensures ReplaceCR([c] + s) == [if c == '\r' then '\n' else c] + ReplaceCR(s)
  {
  }

  lemma NormFirst(p: string)
    requires p != ""
    ensures Norm("") == ""
    ensures |p| >= 2 && p[0] == '\r' && p[1] == '\n' ==> Norm(p) == "\n" + Norm(p[2..])
    ensures !(|p| >= 2 && p[0] == '\r' && p[1] == '\n') ==>
              Norm(p) == [if p[0] == '\r' then '\n' else p[0]] + Norm(p[1..])
  {
    if |p| >= 2 && p[0] == '\r' && p[1] == '\n' {
      ReplaceCRFirst('\n', ReplaceCRLF(p[2..]));
    } else {
      assert ReplaceCRLF(p) == [p[0]] + ReplaceCRLF(p[1..]);
      ReplaceCRFirst(p[0], ReplaceCRLF(p[1..]));
    }
  }

  /** One read, normalised, then the rest. */
  lemma {:induction false} ReadPiece(p: string, rest: string, e: string, cr: bool)
    requires ReadAs(rest, e, EndsInCR(p, cr))
    ensures ReadAs(p + rest, Norm(p) + e, cr)
    decreases |p|
  {
    if p == "" {
      assert p + rest == rest && Norm("") + e == e;
    } else {
      NormFirst(p);
      if |p| >= 2 && p[0] == '\r' && p[1] == '\n' {
        ReadPiece(p[2..], rest, e, false);
        ReadReturnFeed(p[2..] + rest, Norm(p[2..]) + e, cr);
        Front("\r\n", p[2..], rest);
        Front("\n", Norm(p[2..]), e);
        assert p == "\r\n" + p[2..];
      } else {
        ReadPiece(p[1..], rest, e, p[0] == '\r');
        ReadOne(p[0], p[1..] + rest, Norm(p[1..]) + e, cr);
        Front([p[0]], p[1..], rest);
        Front([if p[0] == '\r' then '\n' else p[0]], Norm(p[1..]), e);
        assert p == [p[0]] + p[1..];
      }
    }
  }

  lemma Front(a: string, b: string, c: string)
    ensures (a + b) + c == a + (b + c)
  {
  }

  lemma ReadReturnFeed(rest: string, e: string, cr: bool)
    requires ReadAs(rest, e, false)
    ensures ReadAs("\r\n" + rest, "\n" + e, cr)
  {
    var raw := "\r\n" + rest;
    assert raw[1..][1..] == rest && ("\n" + e)[1..] == e;
  }

  lemma ReadOne(c: char, rest: string, e: string, cr: bool)
    requires ReadAs(rest, e, c == '\r')
    ensures ReadAs([c] + rest, [if c == '\r' then '\n' else c] + e, cr)
  {
    assert ([c] + rest)[1..] == rest;
    assert ([if c == '\r' then '\n' else c] + e)[1..] == e;
  }

  lemma {:induction false} ReceivedReadAs(received: seq<string>, cr: bool)
    ensures ReadAs(Concat(received), Concat(Norms(received)), cr)
  {
    if received != [] {
      var p := received[0];
      ReceivedReadAs(received[1..], EndsInCR(p, cr));
      ReadPiece(p, Concat(received[1..]), Concat(Norms(received[1..])), cr);
      assert Norms(received)[1..] == Norms(received[1..]);
    }
  }

  /** A body comes through as it is. */
  lemma {:induction false} ReadBody(body: string, rest: string, e: string, cr: bool)
    requires body != "" && '\n' !in body && '\r' !in body && ReadAs(body + rest, e, cr)
    ensures |body| <= |e| && e[..|body|] == body && ReadAs(rest, e[|body|..], false)
  {
    assert body[0] in body;
    assert (body + rest)[1..] == body[1..] + rest;
    if |body| == 1 {
      assert body[1..] + rest == rest;
    } else {
      ReadBody(body[1..], rest, e[1..], false);
      assert e[|body|..] == e[1..][|body| - 1..];
      assert e[..|body|] == [e[0]] + e[1..][..|body| - 1];
      assert body == [body[0]] + body[1..];
    }
  }

  function Newlines(n: nat): string {
    seq(n, i => '\n')
  }

  lemma MoreNewlines(k: nat, e: string)
    requires e != "" && e[0] == '\n' && k < |e| && e[1..][..k] == Newlines(k)
    ensures e[..k + 1] == Newlines(k + 1) && e[k + 1..] == e[1..][k..]
  {
    assert e[..k + 1] == [e[0]] + e[1..][..k];
  }

  /** Line ends come through as at least as many newlines as they make. */
  lemma {:induction false} ReadLineEnds(sep: string, rest: string, e: string, cr: bool) returns (k: nat)
    requires LineEndChars(sep) && ReadAs(sep + rest, e, cr)
    ensures LineEnds(sep, cr) <= k <= |e| && e[..k] == Newlines(k) && ReadAs(rest, e[k..], EndsInCR(sep, cr))
  {
    if sep == "" {
      assert sep + rest == rest;
      return 0;
    }
    assert (sep + rest)[1..] == sep[1..] + rest;
    if sep[0] == '\n' && cr && ReadAs(sep[1..] + rest, e, false) {
      k := ReadLineEnds(sep[1..], rest, e, false);
    } else {
      k := ReadLineEnds(sep[1..], rest, e[1..], sep[0] == '\r');
      MoreNewlines(k, e);
      k := k + 1;
    }
  }

  // --- delivery ---

  /** What the handlers should see of a list of events. */
  function Expected(events: seq<Event>): Reaction {
    Chain(Mapped(events, ReactTo))
  }

  lemma ExpectedFirst(events: seq<Event>)
    requires events != []
    ensures Expected(events) == Then(ReactTo(events[0]), Expected(events[1..]))
  {
    assert events == [events[0]] + events[1..];
    ChainMapped([events[0]], events[1..], ReactTo);
    ChainOne(events[0], ReactTo);
  }

  /** Two leading newlines close an empty part, which the loop skips. */
  lemma SkipEmptyPart(s: string, decode: Decoder)
    ensures HandleAll(Closed("\n\n" + s), decode) == HandleAll(Closed(s), decode)
  {
    assert ("\n\n" + s)[2..] == s;
    assert Closed("\n\n" + s) == [""] + Closed(s);
    ChainMapped([""], Closed(s), Handler(decode));
    ChainOne("", Handler(decode));
    assert SplitLines("") == [""] && [""][1..] == [];
  }

  /** A body, with or without a stray newline in front, and two newlines behind. */
  lemma FirstFrame(e: Event, late: bool, rest: string, encode: Encoder, decode: Decoder)
    requires IsCodec(encode, decode)
    ensures var s := (if late then "\n" else "") + (Body(e, encode) + "\n\n" + rest);
            HandleAll(Closed(s), decode) == Then(ReactTo(e), HandleAll(Closed(rest), decode))
  {
    var body := Body(e, encode);
    BodyHasNoNewline(e, encode);
    SplitBody(body, rest);
    LateBody(e, encode, decode);
    var tail := body + "\n\n" + rest;
    var s := (if late then "\n" else "") + tail;
    var part := (if late then "\n" else "") + body;
    assert s[0] == part[0] && (late ==> s[1..] == tail && tail[0] == 'd') && (!late ==> s == tail && part == body);
    assert SplitFrames(s) == [part] + SplitFrames(rest);
    assert Closed(s) == [part] + Closed(rest);
    ChainMapped([part], Closed(rest), Handler(decode));
    ChainOne(part, Handler(decode));
  }

  /** What is read, after any newlines left over, is handled as the events. */
  lemma {:induction false} ReadIsHandled(a: nat, events: seq<Event>, seps: seq<string>, e: string, cr: bool,
                                         encode: Encoder, decode: Decoder)
    requires IsCodec(encode, decode) && |events| == |seps| && forall sep :: sep in seps ==> EndsFrame(sep)
    requires ReadAs(Relayed(events, seps, encode), e, cr)
    ensures HandleAll(Closed(Newlines(a) + e), decode) == Expected(events)
    decreases |events|, a
  {
    if a >= 2 {
      assert Newlines(a) + e == "\n\n" + (Newlines(a - 2) + e);
      SkipEmptyPart(Newlines(a - 2) + e, decode);
      ReadIsHandled(a - 2, events, seps, e, cr, encode, decode);
    } else if events == [] {
      assert Closed(Newlines(a) + e) == [];
    } else {
      var rest, cr', k := ReadFrame(events, seps, e, cr, encode);
      ReadIsHandled(k - 2, events[1..], seps[1..], rest, cr', encode, decode);
      FirstFrame(events[0], a == 1, Newlines(k - 2) + rest, encode, decode);
      assert Newlines(a) + e
             == (if a == 1 then "\n" else "") + (Body(events[0], encode) + "\n\n" + (Newlines(k - 2) + rest));
      ExpectedFirst(events);
    }
  }

  /** The first frame as read: its body and the newlines its line ends left. */
  lemma ReadFrame(events: seq<Event>, seps: seq<string>, e: string, cr: bool, encode: Encoder)
    returns (rest: string, cr': bool, k: nat)
    requires |events| == |seps| && events != [] && EndsFrame(seps[0]) && Clean(encode(events[0]))
    requires ReadAs(Relayed(events, seps, encode), e, cr)
    ensures k >= 2 && e == Body(events[0], encode) + "\n\n" + (Newlines(k - 2) + rest)
    ensures ReadAs(Relayed(events[1..], seps[1..], encode), rest, cr')
  {
    var body, later := Body(events[0], encode), Relayed(events[1..], seps[1..], encode);
    BodyHasNoNewline(events[0], encode);
    ReadBody(body, seps[0] + later, e, cr);
    var after := e[|body|..];
    k := ReadLineEnds(seps[0], later, after, false);
    rest, cr' := after[k..], EndsInCR(seps[0], false);
    assert e == body + after && after == Newlines(k) + rest;
    FirstTwoNewlines(body, k, rest);
  }

  lemma FirstTwoNewlines(body: string, k: nat, rest: string)
    requires k >= 2
    ensures body + (Newlines(k) + rest) == body + "\n\n" + (Newlines(k - 2) + rest)
  {
    assert Newlines(k) == "\n\n" + Newlines(k - 2);
  }

  /** However the stream is cut into reads, and whichever line ends close its frames
      on arrival - any run that makes at least two - the handlers see exactly the
      emitted events in order, up to and including the first error. */
  lemma StreamDelivers(events: seq<Event>, seps: seq<string>, received: seq<string>, encode: Encoder, decode: Decoder)
    requires IsCodec(encode, decode) && |events| == |seps| && forall sep :: sep in seps ==> EndsFrame(sep)
    requires Concat(received) == Relayed(events, seps, encode)
    ensures HandleAll(Closed(Concat(Norms(received))), decode) == Expected(events)
  {
    ReceivedReadAs(received, false);
    ReadIsHandled(0, events, seps, Concat(Norms(received)), false, encode, decode);
    assert Newlines(0) + Concat(Norms(received)) == Concat(Norms(received));
  }

  /** The server's own frames end in two line feeds. */
  function PlainSeps(n: nat): seq<string> {
    seq(n, i => "\n\n")
  }

  lemma {:induction false} FramesArePlain(events: seq<Event>, encode: Encoder)
    ensures Frames(events, encode) == Relayed(events, PlainSeps(|events|), encode)
    ensures forall sep :: sep in PlainSeps(|events|) ==> EndsFrame(sep)
  {
    PlainSepEnds();
    if events != [] {
      FramesArePlain(events[1..], encode);
      assert PlainSeps(|events|)[1..] == PlainSeps(|events[1..]|);
      assert Frames(events, encode) == Frame(events[0], encode) + Frames(events[1..], encode);
    }
  }

  lemma PlainSepEnds()
    ensures EndsFrame("\n\n")
  {
    assert "\n\n"[1..] == "\n" && "\n"[1..] == "";
  }

  function DeltaCalls(pieces: seq<string>): seq<HandlerCall> {
    if pieces == [] then [] else [OnDelta(pieces[0])] + DeltaCalls(pieces[1..])
  }

  /** The pieces are non-empty and concatenate to the text. */
  lemma {:induction false} PiecesConcat(text: string, step: nat)
    requires step > 0
    ensures Concat(Pieces(text, step)) == text
    ensures forall p :: p in Pieces(text, step) ==> 0 < |p| <= step
  {
    if text == "" {
    } else if |text| <= step {
      assert [text][1..] == [];
    } else {
      PiecesConcat(text[step..], step);
      assert text == text[..step] + text[step..];
    }
  }

  /** Every piece but the last is as long as the step. */
  lemma {:induction false} PiecesFull(text: string, step: nat, i: nat)
    requires step > 0 && i + 1 < |Pieces(text, step)|
    ensures |Pieces(text, step)[i]| == step
  {
    if i > 0 {
      PiecesFull(text[step..], step, i - 1);
    }
  }

  /** A reply of less than forty characters goes out by fours, a longer one by twelves. */
  lemma ChunksTell(text: string, i: nat)
    requires i < |Pieces(text, ChunkSize(text))|
    ensures var piece, short := Pieces(text, ChunkSize(text))[i], |text| < 40;
            && 0 < |piece| <= (if short then 4 else 12)
            && (i + 1 < |Pieces(text, ChunkSize(text))| ==> |piece| == (if short then 4 else 12))
  {
    PiecesConcat(text, ChunkSize(text));
    if i + 1 < |Pieces(text, ChunkSize(text))| {
      PiecesFull(text, ChunkSize(text), i);
    }
  }

  /** Every event of a reply names the model; only the last is the end and tells the usage. */
  lemma ReplyEventsTell(text: string, model: string, usage: Usage, i: nat)
    requires i < |ReplyEvents(text, model, usage)|
    ensures var e, last := ReplyEvents(text, model, usage)[i], |ReplyEvents(text, model, usage)| - 1;
            && e.model == model && e.error == "" && (e.done <==> i == last)
            && e.usage == (if i == last then Some(usage) else None) && (i == last ==> e.delta == "")
  {
    DeltasTell(Pieces(text, ChunkSize(text)), model);
  }

  lemma {:induction false} DeltasTell(pieces: seq<string>, model: string)
    ensures |DeltaEvents(pieces, model)| == |pieces|
    ensures forall i :: 0 <= i < |pieces| ==> DeltaEvents(pieces, model)[i] == Event(pieces[i], false, model, None, "")
  {
    if pieces != [] {
      DeltasTell(pieces[1..], model);
    }
  }

  lemma {:induction false} ExpectedDeltas(pieces: seq<string>, model: string)
    requires forall i :: 0 <= i < |pieces| ==> pieces[i] != ""
    ensures Expected(DeltaEvents(pieces, model)) == Reaction(DeltaCalls(pieces), false)
  {
    if pieces != [] {
      ExpectedDeltas(pieces[1..], model);
      ChainMapped([DeltaEvent(pieces[0], model)], DeltaEvents(pieces[1..], model), ReactTo);
      ChainOne(DeltaEvent(pieces[0], model), ReactTo);
    }
  }

  /** A whole reply arrives as non-empty deltas that concatenate to its text,
      followed by done, once. */
  lemma ReplyRoundTrip(text: string, model: string, usage: Usage, seps: seq<string>, received: seq<string>,
                       encode: Encoder, decode: Decoder)
    requires IsCodec(encode, decode) && |seps| == |ReplyEvents(text, model, usage)|
    requires forall sep :: sep in seps ==> EndsFrame(sep)
    requires Concat(received) == Relayed(ReplyEvents(text, model, usage), seps, encode)
    ensures var pieces := Pieces(text, ChunkSize(text));
            && HandleAll(Closed(Concat(Norms(received))), decode)
               == Reaction(DeltaCalls(pieces) + [OnDone(model, Some(usage))], false)
            && Concat(pieces) == text && forall p :: p in pieces ==> p != ""
  {
    StreamDelivers(ReplyEvents(text, model, usage), seps, received, encode, decode);
    ReplyExpected(text, model, usage);
  }

  lemma ReplyExpected(text: string, model: string, usage: Usage)
    ensures var pieces := Pieces(text, ChunkSize(text));
            && Expected(ReplyEvents(text, model, usage))
               == Reaction(DeltaCalls(pieces) + [OnDone(model, Some(usage))], false)
            && Concat(pieces) == text && forall p :: p in pieces ==> p != ""
  {
    PiecesConcat(text, ChunkSize(text));
    var pieces, last := Pieces(text, ChunkSize(text)), Event("", true, model, Some(usage), "");
    ExpectedDeltas(pieces, model);
    ChainMapped(DeltaEvents(pieces, model), [last], ReactTo);
    ChainOne(last, ReactTo);
  }

  /** A stream cut off by an error after some events: those events are delivered,
      then the error, once, and the loop throws. */
  lemma ErrorAfter(events: seq<Event>, message: string)
    requires message != "" && forall e :: e in events ==> e.error == ""
    ensures Expected(events + [Event("", true, "", None, message)])
         == Reaction(Expected(events).calls + [OnError(message)], true)
  {
    var last := Event("", true, "", None, message);
    NoErrorNoThrow(events);
    ChainMapped(events, [last], ReactTo);
    ChainOne(last, ReactTo);
  }

  lemma {:induction false} NoErrorNoThrow(events: seq<Event>)
    requires forall e :: e in events ==> e.error == ""
    ensures !Expected(events).thrown
  {
    if events != [] {
      NoErrorNoThrow(events[1..]);
      assert events == [events[0]] + events[1..];
      ChainMapped([events[0]], events[1..], ReactTo);
      ChainOne(events[0], ReactTo);
    }
  }

  /** From the reply to the handlers, through any cut of the written bytes. */
  method Conversation(text: string, model: string, usage: Usage, cuts: seq<nat>, encode: Encoder, decode: Decoder)
    returns (calls: seq<HandlerCall>, thrown: bool)
    requires IsCodec(encode, decode)
    ensures !thrown
    ensures exists pieces: seq<string> ::
              Concat(pieces) == text && calls == DeltaCalls(pieces) + [OnDone(model, Some(usage))]
  {
    ghost var events := ReplyEvents(text, model, usage);
    var w := new Response(|ReplyEvents(text, model, usage)|);
    var _ := ChunkEmit(w, text, model, usage, encode);
    assert w.written == Frames(events, encode);
    FramesArePlain(events, encode);
    var received := Cut(w.written, cuts);
    ReplyRoundTrip(text, model, usage, PlainSeps(|events|), received, encode, decode);
    calls, thrown := ChatStream(received, decode);
    assert Concat(Pieces(text, ChunkSize(text))) == text;
  }

  /** The network: pieces of the given sizes, as far as the bytes go. */
  function Cut(s: string, sizes: seq<nat>): (received: seq<string>)
    ensures Concat(received) == s
  {
    if sizes == [] || sizes[0] >= |s| then [s]
    else
      var rest := Cut(s[sizes[0]..], sizes[1..]);
      assert ([s[..sizes[0]]] + rest)[1..] == rest;
      [s[..sizes[0]]] + rest
  }
}
