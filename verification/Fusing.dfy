/** Exactly which relayed streams arrive: a frame whose line ends do not close it is
    lost, or fused with the next, when it is read in one piece. */
module StreamFusing {
  import opened Tables
  import opened Stream
  import opened StreamDelivery

  // --- frames that do not end ---

  /** A run of line ends as one read normalises it, with what follows. */
  lemma {:induction false} NormLineEnds(sep: string, rest: string)
    requires LineEndChars(sep) && (rest == "" || rest[0] != '\n')
    ensures Norm(sep + rest) == Newlines(LineEnds(sep, false)) + Norm(rest)
    decreases |sep|
  {
    if sep == "" {
      assert sep + rest == rest && Newlines(0) == "";
    } else if |sep| >= 2 && sep[0] == '\r' && sep[1] == '\n' {
      var more := sep[2..];
      NormLineEnds(more, rest);
      PairFirst(sep, rest);
      OneMoreNewline(LineEnds(more, false), Norm(rest));
    } else {
      var more := sep[1..];
      NormLineEnds(more, rest);
      Prepend(sep, rest);
      NextChar(more, rest);
      NormSingle(sep[0], more + rest);
      CountFirst(sep);
      OneMoreNewline(LineEnds(more, false), Norm(rest));
    }
  }

  /** A return with its feed is one newline. */
  lemma PairFirst(sep: string, rest: string)
    requires |sep| >= 2 && sep[0] == '\r' && sep[1] == '\n'
    ensures Norm(sep + rest) == "\n" + Norm(sep[2..] + rest) && LineEnds(sep, false) == 1 + LineEnds(sep[2..], false)
  {
    var s := sep + rest;
    assert s[0] == sep[0] && s[1] == sep[1] && s[2..] == sep[2..] + rest;
    NormFirst(s);
    PairCounts(sep);
  }

  lemma PairCounts(sep: string)
    requires |sep| >= 2 && sep[0] == '\r' && sep[1] == '\n'
    ensures LineEnds(sep, false) == 1 + LineEnds(sep[2..], false)
  {
    var feed := sep[1..];
    assert feed[0] == '\n' && feed[1..] == sep[2..];
    assert LineEnds(feed, true) == LineEnds(feed[1..], false);
  }

  /** So is a feed, or a return without one. */
  lemma NormSingle(c: char, next: string)
    requires c == '\n' || (c == '\r' && (next == "" || next[0] != '\n'))
    ensures Norm([c] + next) == "\n" + Norm(next)
  {
    NormFirst([c] + next);
    assert ([c] + next)[1..] == next && (next != "" ==> ([c] + next)[1] == next[0]);
  }

  lemma Prepend(sep: string, rest: string)
    requires sep != ""
    ensures sep + rest == [sep[0]] + (sep[1..] + rest)
  {
  }

  lemma NextChar(more: string, rest: string)
    ensures more + rest != "" ==> (more + rest)[0] == if more != "" then more[0] else rest[0]
  {
  }

  lemma CountFirst(sep: string)
    requires sep != "" && (sep[0] == '\r' || sep[0] == '\n')
    requires !(|sep| >= 2 && sep[0] == '\r' && sep[1] == '\n')
    ensures LineEnds(sep, false) == 1 + LineEnds(sep[1..], false)
  {
    ReturnFirst(sep[1..]);
  }

  /** A return just before changes nothing for a run that does not start with a feed. */
  lemma ReturnFirst(sep: string)
    ensures sep == "" || sep[0] != '\n' ==> LineEnds(sep, true) == LineEnds(sep, false)
  {
  }

  lemma OneMoreNewline(k: nat, rest: string)
    ensures "\n" + (Newlines(k) + rest) == Newlines(k + 1) + rest
  {
    assert "\n" + Newlines(k) == Newlines(k + 1);
  }

  /** How many newlines each separator is read as, in one piece. */
  function Counts(seps: seq<string>): seq<nat> {
    seq(|seps|, i requires 0 <= i < |seps| => LineEnds(seps[i], false))
  }

  /** Bodies with some newlines after each. */
  function Spread(events: seq<Event>, ks: seq<nat>, encode: Encoder): string
    requires |events| == |ks|
  {
    if events == [] then "" else Body(events[0], encode) + (Newlines(ks[0]) + Spread(events[1..], ks[1..], encode))
  }

  lemma {:induction false} ReadWhole(events: seq<Event>, seps: seq<string>, encode: Encoder)
    requires |events| == |seps| && forall sep :: sep in seps ==> LineEndChars(sep)
    requires forall e :: e in events ==> Clean(encode(e))
    ensures Norm(Relayed(events, seps, encode)) == Spread(events, Counts(seps), encode)
  {
    if events == [] {
      assert Norm("") == "" by { assert ReplaceCRLF("") == ""; }
    } else {
      var later := Relayed(events[1..], seps[1..], encode);
      ReadWhole(events[1..], seps[1..], encode);
      assert Counts(seps)[1..] == Counts(seps[1..]);
      BodyHasNoNewline(events[0], encode);
      NormAppend(Body(events[0], encode), seps[0] + later);
      if |events| > 1 {
        assert later[0] == Body(events[1], encode)[0] == 'd';
      }
      NormLineEnds(seps[0], later);
    }
  }

  /** Lines of payloads, one newline between them, which no separator tells apart. */
  function Text(ps: seq<string>): string
    requires ps != []
  {
    if |ps| == 1 then Labelled(ps[0]) else Labelled(ps[0]) + ("\n" + Text(ps[1..]))
  }

  /** Unclosed bodies with the newlines between them: none, or one. */
  datatype Bunch = Bunch(xs: seq<Event>, js: seq<nat>)

  predicate Formed(u: Bunch) { |u.xs| == |u.js| + 1 }

  function One(e: Event): Bunch { Bunch([e], []) }

  function And(u: Bunch, k: nat, e: Event): Bunch { Bunch(u.xs + [e], u.js + [k]) }

  /** What the lines of a bunch hold; with no newline in between, bodies run together. */
  function Payloads(u: Bunch, encode: Encoder): (ps: seq<string>)
    requires Formed(u)
    ensures ps != []
    decreases |u.xs|
  {
    var n := |u.js|;
    if n == 0 then [encode(u.xs[0])]
    else
      var ps := Payloads(Bunch(u.xs[..n], u.js[..n - 1]), encode);
      if u.js[n - 1] == 0 then RunOn(ps, encode(u.xs[n])) else ps + [encode(u.xs[n])]
  }

  function RunOn(ps: seq<string>, p: string): seq<string>
    requires ps != []
  {
    ps[..|ps| - 1] + [ps[|ps| - 1] + Labelled(p)]
  }

  function Fused(u: Bunch, encode: Encoder): string
    requires Formed(u)
  {
    Text(Payloads(u, encode))
  }

  /** The payloads of two or more bodies on one line or on lines in a row do not decode,
      as run-on JSON objects do not. */
  ghost predicate Unjoinable(encode: Encoder, decode: Decoder) {
    forall u: Bunch :: Formed(u) && |u.xs| >= 2 ==> decode(JoinLines(Payloads(u, encode))) == None
  }

  predicate AllClean(ps: seq<string>) {
    forall p :: p in ps ==> Clean(p)
  }

  lemma {:induction false} PayloadsClean(u: Bunch, encode: Encoder)
    requires Formed(u) && forall e :: Clean(encode(e))
    ensures AllClean(Payloads(u, encode))
    decreases |u.xs|
  {
    var n := |u.js|;
    if n > 0 {
      var ps := Payloads(Bunch(u.xs[..n], u.js[..n - 1]), encode);
      PayloadsClean(Bunch(u.xs[..n], u.js[..n - 1]), encode);
      RunOnClean(ps[|ps| - 1], encode(u.xs[n]));
    }
  }

  lemma RunOnClean(q: string, p: string)
    requires Clean(q) && Clean(p)
    ensures Clean(q + Labelled(p))
  {
    LabelledHasNoNewline(p);
    var s, t := q + Labelled(p), Labelled(p);
    forall i | 0 <= i < |s| ensures s[i] != '\n' && s[i] != '\r' {
      if i >= |q| {
        assert s[i] == t[i - |q|] && t[i - |q|] in t;
      }
    }
    assert t[|t| - 1] == p[|p| - 1] && s[|s| - 1] == t[|t| - 1];
  }

  lemma PayloadsAnd(u: Bunch, k: nat, e: Event, encode: Encoder)
    requires Formed(u)
    ensures Payloads(And(u, k, e), encode)
         == if k == 0 then RunOn(Payloads(u, encode), encode(e)) else Payloads(u, encode) + [encode(e)]
  {
    var v, n := And(u, k, e), |u.xs|;
    assert v.xs[..n] == u.xs && v.js[..n - 1] == u.js && v.js[n - 1] == k && v.xs[n] == e;
  }

  lemma {:induction false} TextAppend(ps: seq<string>, p: string)
    requires ps != []
    ensures Text(ps + [p]) == Text(ps) + ("\n" + Labelled(p))
  {
    assert (ps + [p])[1..] == ps[1..] + [p];
    if |ps| > 1 {
      TextAppend(ps[1..], p);
    } else {
      assert (ps + [p])[1..] == [p];
    }
  }

  lemma {:induction false} TextRunOn(ps: seq<string>, p: string)
    requires ps != []
    ensures Text(RunOn(ps, p)) == Text(ps) + Labelled(p)
  {
    if |ps| > 1 {
      TextRunOn(ps[1..], p);
      RunOnTail(ps, p);
      assert Labelled(ps[0]) + ("\n" + (Text(ps[1..]) + Labelled(p)))
             == (Labelled(ps[0]) + ("\n" + Text(ps[1..]))) + Labelled(p);
    }
  }

  lemma RunOnTail(ps: seq<string>, p: string)
    requires |ps| > 1
    ensures RunOn(ps, p)[0] == ps[0] && RunOn(ps, p)[1..] == RunOn(ps[1..], p)
  {
  }

  lemma TextShape(ps: seq<string>)
    requires ps != []
    ensures |Text(ps)| >= 2 && Text(ps)[0] == 'd'
  {
    assert Labelled(ps[0])[0] == 'd' && |Labelled(ps[0])| >= 2;
  }

  lemma SplitPastOne(c: char, s: string)
    requires c != '\n' && s != ""
    ensures SplitFrames([c] + s) == [[c] + SplitFrames(s)[0]] + SplitFrames(s)[1..]
  {
    assert ([c] + s)[0] == c && ([c] + s)[1..] == s;
  }

  /** A text without newlines in front goes to the first part. */
  lemma {:induction false} SplitPast(body: string, tail: string)
    requires '\n' !in body && tail != ""
    ensures SplitFrames(body + tail) == [body + SplitFrames(tail)[0]] + SplitFrames(tail)[1..]
  {
    var f, g := SplitFrames(tail)[0], SplitFrames(tail)[1..];
    if body == "" {
      assert body + tail == tail && body + f == f;
      assert [f] + g == SplitFrames(tail);
    } else {
      assert body[0] in body;
      var more := body[1..];
      SplitPast(more, tail);
      SplitPastOne(body[0], more + tail);
      Prepend(body, tail);
      Prepend(body, f);
      assert ([more + f] + g)[1..] == g;
    }
  }

  lemma {:induction false} SplitText(ps: seq<string>, tail: string)
    requires ps != [] && AllClean(ps) && tail != ""
    ensures SplitFrames(Text(ps) + tail) == [Text(ps) + SplitFrames(tail)[0]] + SplitFrames(tail)[1..]
    decreases |ps|
  {
    LabelledHasNoNewline(ps[0]);
    if |ps| == 1 {
      SplitPast(Labelled(ps[0]), tail);
    } else {
      SplitText(ps[1..], tail);
      TextShape(ps[1..]);
      SplitPastLine(Labelled(ps[0]), Text(ps[1..]), tail);
    }
  }

  /** So does a line in front of a text that starts no frame end. */
  lemma SplitPastLine(body: string, more: string, tail: string)
    requires '\n' !in body && more != "" && more[0] != '\n' && tail != ""
    requires SplitFrames(more + tail) == [more + SplitFrames(tail)[0]] + SplitFrames(tail)[1..]
    ensures SplitFrames(body + ("\n" + more) + tail)
         == [body + ("\n" + more) + SplitFrames(tail)[0]] + SplitFrames(tail)[1..]
  {
    var f, g := SplitFrames(tail)[0], SplitFrames(tail)[1..];
    SplitLoneNewline(more + tail);
    SplitPast(body, "\n" + (more + tail));
    LineBetween(body, more, tail);
    LineBetween(body, more, f);
    assert (["\n" + (more + f)] + g)[1..] == g && ([more + f] + g)[1..] == g;
  }

  lemma SplitLoneNewline(s: string)
    requires s != "" && s[0] != '\n'
    ensures SplitFrames("\n" + s) == ["\n" + SplitFrames(s)[0]] + SplitFrames(s)[1..]
  {
    var t := "\n" + s;
    assert t[1..] == s && t[0] == '\n' && t[1] == s[0];
  }

  lemma LineBetween(body: string, more: string, rest: string)
    ensures body + ("\n" + more) + rest == body + ("\n" + (more + rest))
  {
  }

  lemma {:induction false} SplitLinesPast(line: string, rest: string)
    requires '\n' !in line
    ensures SplitLines(line + ("\n" + rest)) == [line] + SplitLines(rest)
  {
    var s := line + ("\n" + rest);
    if line == "" {
      assert s == "\n" + rest && s[1..] == rest;
    } else {
      assert line[0] in line && s[0] == line[0] && s[1..] == line[1..] + ("\n" + rest);
      SplitLinesPast(line[1..], rest);
      assert [line[0]] + line[1..] == line;
    }
  }

  lemma {:induction false} TextPayloads(ps: seq<string>)
    requires ps != [] && AllClean(ps)
    ensures DataLines(SplitLines(Text(ps))) == ps
    decreases |ps|
  {
    var line := Labelled(ps[0]);
    LabelledHasNoNewline(ps[0]);
    OneLine(line);
    PayloadOfLabelled(ps[0]);
    if |ps| > 1 {
      TextPayloads(ps[1..]);
      SplitLinesPast(line, Text(ps[1..]));
      DataLinesFirst(line, SplitLines(Text(ps[1..])));
      assert [ps[0]] + ps[1..] == ps;
    }
  }

  lemma DataLinesFirst(line: string, rest: seq<string>)
    ensures DataLines([line] + rest) == DataLines([line]) + DataLines(rest)
  {
    assert ([line] + rest)[1..] == rest && [line][1..] == [];
    assert DataLines([]) == [];
  }

  /** One body is handled as its event, fused ones are skipped. */
  lemma HandleFused(u: Bunch, late: bool, encode: Encoder, decode: Decoder)
    requires IsCodec(encode, decode) && Formed(u) && (|u.xs| == 1 || Unjoinable(encode, decode))
    ensures Handle(Late(late, Fused(u, encode)), decode) == Closing(u)
  {
    if |u.xs| == 1 {
      LateBody(u.xs[0], encode, decode);
    } else {
      PayloadsClean(u, encode);
      TextPayloads(Payloads(u, encode));
      LateLines(Fused(u, encode));
    }
  }

  lemma LateLines(f: string)
    ensures DataLines(SplitLines("\n" + f)) == DataLines(SplitLines(f))
  {
    assert ("\n" + f)[1..] == f;
    assert SplitLines("\n" + f) == [""] + SplitLines(f);
    assert ([""] + SplitLines(f))[1..] == SplitLines(f);
  }

  lemma SplitLate(t: string)
    requires t != "" && t[0] != '\n'
    ensures SplitFrames("\n" + t) == ["\n" + SplitFrames(t)[0]] + SplitFrames(t)[1..]
  {
    var s := "\n" + t;
    assert s[0] == '\n' && s[1] == t[0] && s[1..] == t;
  }

  function Late(late: bool, s: string): string {
    if late then "\n" + s else s
  }

  lemma SplitPart(ps: seq<string>, late: bool, rest: string)
    requires ps != [] && AllClean(ps)
    ensures SplitFrames(Late(late, Text(ps) + ("\n\n" + rest))) == [Late(late, Text(ps))] + SplitFrames(rest)
  {
    var f, tail := Text(ps), "\n\n" + rest;
    SplitTail(rest);
    SplitText(ps, tail);
    assert f + "" == f;
    TextShape(ps);
    SplitLate(f + tail);
  }

  lemma SplitTail(rest: string)
    ensures SplitFrames("\n\n" + rest) == [""] + SplitFrames(rest)
  {
    assert ("\n\n" + rest)[2..] == rest;
  }

  lemma ClosedPart(s: string, part: string, rest: string)
    requires SplitFrames(s) == [part] + SplitFrames(rest)
    ensures Closed(s) == [part] + Closed(rest)
  {
  }

  /** A closed part of one or more bodies, and what follows. */
  lemma FirstPart(u: Bunch, late: bool, rest: string, encode: Encoder, decode: Decoder)
    requires IsCodec(encode, decode) && Formed(u) && (|u.xs| == 1 || Unjoinable(encode, decode))
    ensures HandleAll(Closed(Late(late, Fused(u, encode) + ("\n\n" + rest))), decode)
         == Then(Closing(u), HandleAll(Closed(rest), decode))
  {
    var part := Late(late, Fused(u, encode));
    PayloadsClean(u, encode);
    SplitPart(Payloads(u, encode), late, rest);
    ClosedPart(Late(late, Fused(u, encode) + ("\n\n" + rest)), part, rest);
    HandleFused(u, late, encode, decode);
    ChainMapped([part], Closed(rest), Handler(decode));
    ChainOne(part, Handler(decode));
  }

  /** What no separator closes is never handled. */
  lemma NothingClosed(ps: seq<string>, late: bool, k: nat, decode: Decoder)
    requires ps != [] && AllClean(ps) && k < 2
    ensures HandleAll(Closed(Late(late, Text(ps) + Newlines(k))), decode) == Reaction([], false)
  {
    var whole := Text(ps) + Newlines(k);
    TextShape(ps);
    Unsplit(ps, k);
    SplitLate(whole);
    assert [whole][1..] == [];
    assert SplitFrames(Late(late, whole)) == [Late(late, whole)];
    assert Closed(Late(late, whole)) == [];
  }

  lemma Unsplit(ps: seq<string>, k: nat)
    requires ps != [] && AllClean(ps) && k < 2
    ensures SplitFrames(Text(ps) + Newlines(k)) == [Text(ps) + Newlines(k)]
  {
    if k == 1 {
      assert Newlines(1) == "\n" && SplitFrames("\n") == ["\n"];
      SplitText(ps, "\n");
    } else {
      assert Newlines(0) == "" && Text(ps) + "" == Text(ps);
      UnsplitText(ps);
    }
  }

  lemma {:induction false} UnsplitText(ps: seq<string>)
    requires ps != [] && AllClean(ps)
    ensures SplitFrames(Text(ps)) == [Text(ps)]
    decreases |ps|
  {
    LabelledHasNoNewline(ps[0]);
    var line := Labelled(ps[0]);
    if |ps| == 1 {
      UnsplitLine(line);
    } else {
      UnsplitText(ps[1..]);
      TextShape(ps[1..]);
      SplitLoneNewline(Text(ps[1..]));
      SplitPast(line, "\n" + Text(ps[1..]));
    }
  }

  lemma {:induction false} UnsplitLine(line: string)
    requires '\n' !in line
    ensures SplitFrames(line) == [line]
  {
    if |line| >= 2 {
      assert line[0] in line;
      UnsplitLine(line[1..]);
      assert [line[0]] + line[1..] == line;
    }
  }

  // --- exactly which streams arrive ---

  /** Every event is heard, and only the last may be an error. */
  predicate Calm(events: seq<Event>) {
    events == [] || (ReactTo(events[0]).calls != [] && (|events| > 1 ==> events[0].error == "") && Calm(events[1..]))
  }

  predicate Loud(xs: seq<Event>) {
    forall e :: e in xs ==> ReactTo(e).calls != []
  }

  predicate Smooth(xs: seq<Event>) {
    forall e :: e in xs ==> e.error == ""
  }

  /** The handler calls the events ask for. */
  function Asked(events: seq<Event>): nat {
    if events == [] then 0 else |ReactTo(events[0]).calls| + Asked(events[1..])
  }

  lemma {:induction false} ExpectedAsked(events: seq<Event>)
    requires Calm(events)
    ensures |Expected(events).calls| == Asked(events)
  {
    if events != [] {
      ExpectedFirst(events);
      ExpectedAsked(events[1..]);
    }
  }

  /** Between frames there are two newlines or more, or any number of them while fused
      payloads do not decode; nothing is asked of the last. */
  ghost predicate InnerEnds(ks: seq<nat>, encode: Encoder, decode: Decoder) {
    Unjoinable(encode, decode) || forall i :: 0 <= i < |ks| - 1 ==> ks[i] >= 2
  }

  /** Some unclosed bodies, the newlines after them and the frames to come. */
  function Unread(u: Bunch, k: nat, events: seq<Event>, ks: seq<nat>, encode: Encoder): string
    requires Formed(u) && |events| == |ks|
  {
    Fused(u, encode) + (Newlines(k) + Spread(events, ks, encode))
  }

  ghost predicate Ready(u: Bunch, k: nat, events: seq<Event>, ks: seq<nat>, encode: Encoder, decode: Decoder) {
    && IsCodec(encode, decode) && Formed(u) && |events| == |ks|
    && Loud(u.xs) && (events != [] ==> Smooth(u.xs)) && Calm(events)
    && InnerEnds(ks, encode, decode)
    && (|u.xs| > 1 || (events != [] && k < 2) ==> Unjoinable(encode, decode))
  }

  predicate Short(ks: seq<nat>) {
    exists i :: 0 <= i < |ks| && ks[i] < 2
  }

  /** Never more calls than asked for, and fewer when something falls short. */
  predicate Bounded(n: nat, asked: nat, short: bool) {
    n <= asked && (short ==> n < asked)
  }

  function Heard(s: string, decode: Decoder): nat {
    |HandleAll(Closed(s), decode).calls|
  }

  lemma SkipTwo(a: nat, s: string, decode: Decoder)
    requires a >= 2
    ensures Heard(Newlines(a) + s, decode) == Heard(Newlines(a - 2) + s, decode)
  {
    assert Newlines(a) + s == "\n\n" + (Newlines(a - 2) + s);
    SkipEmptyPart(Newlines(a - 2) + s, decode);
  }

  lemma LateNewline(a: nat, s: string)
    requires a < 2
    ensures Newlines(a) + s == Late(a == 1, s)
  {
    assert Newlines(0) == "" && Newlines(1) == "\n";
    assert "" + s == s;
  }

  /** Without two newlines the next body is fused on. */
  lemma FuseStep(u: Bunch, k: nat, events: seq<Event>, ks: seq<nat>, encode: Encoder)
    requires Formed(u) && k < 2 && |events| == |ks| && events != []
    ensures Unread(u, k, events, ks, encode)
         == Unread(And(u, k, events[0]), ks[0], events[1..], ks[1..], encode)
  {
    var later := Newlines(ks[0]) + Spread(events[1..], ks[1..], encode);
    FusedAnd(u, k, events[0], encode);
    Regroup(Fused(u, encode), Newlines(k), Body(events[0], encode), later);
  }

  lemma FusedAnd(u: Bunch, k: nat, e: Event, encode: Encoder)
    requires Formed(u) && k < 2
    ensures Fused(And(u, k, e), encode) == Fused(u, encode) + (Newlines(k) + Body(e, encode))
  {
    PayloadsAnd(u, k, e, encode);
    if k == 0 {
      TextRunOn(Payloads(u, encode), encode(e));
      assert Newlines(0) == "" && "" + Body(e, encode) == Body(e, encode);
    } else {
      TextAppend(Payloads(u, encode), encode(e));
      assert Newlines(1) == "\n";
    }
  }

  lemma Regroup(a: string, b: string, c: string, rest: string)
    ensures a + (b + (c + rest)) == (a + (b + c)) + rest
  {
  }

  lemma FuseReady(u: Bunch, k: nat, events: seq<Event>, ks: seq<nat>, encode: Encoder, decode: Decoder)
    requires Ready(u, k, events, ks, encode, decode) && events != [] && k < 2
    ensures Ready(And(u, k, events[0]), ks[0], events[1..], ks[1..], encode, decode)
  {
  }

  lemma NextReady(u: Bunch, k: nat, events: seq<Event>, ks: seq<nat>, encode: Encoder, decode: Decoder)
    requires Ready(u, k, events, ks, encode, decode) && events != []
    ensures Ready(One(events[0]), ks[0], events[1..], ks[1..], encode, decode)
  {
    InnerEndsTail(ks, encode, decode);
  }

  /** The unclosed bodies are closed: their reaction, then what follows. */
  lemma CloseStep(a: nat, u: Bunch, k: nat, rest: string, encode: Encoder, decode: Decoder)
    requires a < 2 <= k && IsCodec(encode, decode) && Formed(u) && (|u.xs| == 1 || Unjoinable(encode, decode))
    ensures HandleAll(Closed(Newlines(a) + (Fused(u, encode) + (Newlines(k) + rest))), decode)
         == Then(Closing(u), HandleAll(Closed(Newlines(k - 2) + rest), decode))
  {
    var t := Newlines(k - 2) + rest;
    TwoNewlines(k, rest);
    LateNewline(a, Fused(u, encode) + ("\n\n" + t));
    FirstPart(u, a == 1, t, encode, decode);
  }

  lemma TwoNewlines(k: nat, rest: string)
    requires k >= 2
    ensures Newlines(k) + rest == "\n\n" + (Newlines(k - 2) + rest)
  {
    assert Newlines(k) == "\n\n" + Newlines(k - 2);
  }

  lemma SpreadIs(events: seq<Event>, ks: seq<nat>, encode: Encoder)
    requires |events| == |ks| && events != []
    ensures Spread(events, ks, encode)
         == Unread(One(events[0]), ks[0], events[1..], ks[1..], encode)
  {
  }

  lemma ShortSplits(ks: seq<nat>)
    requires ks != []
    ensures Short(ks) <==> ks[0] < 2 || Short(ks[1..])
  {
    var rest := ks[1..];
    if Short(rest) {
      var i :| 0 <= i < |rest| && rest[i] < 2;
      assert ks[i + 1] == rest[i];
    }
    if Short(ks) && ks[0] >= 2 {
      var i :| 0 <= i < |ks| && ks[i] < 2;
      assert rest[i - 1] == ks[i];
    }
  }

  /** What is handled of unread bodies and frames. */
  lemma {:induction false} Handled(a: nat, u: Bunch, k: nat, events: seq<Event>, ks: seq<nat>,
                                   encode: Encoder, decode: Decoder)
    requires Ready(u, k, events, ks, encode, decode)
    ensures Bounded(Heard(Newlines(a) + Unread(u, k, events, ks, encode), decode), Asked(u.xs) + Asked(events),
                    |u.xs| > 1 || k < 2 || Short(ks))
    decreases |events|, a, 1
  {
    if a >= 2 {
      SkipTwo(a, Unread(u, k, events, ks, encode), decode);
      Handled(a - 2, u, k, events, ks, encode, decode);
    } else if k >= 2 {
      HandledClosed(a, u, k, events, ks, encode, decode);
    } else {
      HandledOpen(a, u, k, events, ks, encode, decode);
    }
  }

  lemma HandledClosed(a: nat, u: Bunch, k: nat, events: seq<Event>, ks: seq<nat>,
                      encode: Encoder, decode: Decoder)
    requires a < 2 <= k && Ready(u, k, events, ks, encode, decode)
    ensures Bounded(Heard(Newlines(a) + Unread(u, k, events, ks, encode), decode), Asked(u.xs) + Asked(events),
                    |u.xs| > 1 || Short(ks))
    decreases |events|, a, 0
  {
    if events == [] {
      CloseLast(a, u, k, encode, decode);
    } else {
      NextReady(u, k, events, ks, encode, decode);
      Handled(k - 2, One(events[0]), ks[0], events[1..], ks[1..], encode, decode);
      CloseOne(a, u, k, events, ks, encode, decode);
    }
  }

  lemma HandledOpen(a: nat, u: Bunch, k: nat, events: seq<Event>, ks: seq<nat>,
                    encode: Encoder, decode: Decoder)
    requires a < 2 && k < 2 && Ready(u, k, events, ks, encode, decode)
    ensures Bounded(Heard(Newlines(a) + Unread(u, k, events, ks, encode), decode), Asked(u.xs) + Asked(events), true)
    decreases |events|, a, 0
  {
    if events == [] {
      NeverClosed(a, u, k, encode, decode);
    } else {
      FuseReady(u, k, events, ks, encode, decode);
      Handled(a, And(u, k, events[0]), ks[0], events[1..], ks[1..], encode, decode);
      FuseOne(a, u, k, events, ks, encode, decode);
    }
  }

  lemma FuseOne(a: nat, u: Bunch, k: nat, events: seq<Event>, ks: seq<nat>, encode: Encoder, decode: Decoder)
    requires Formed(u) && k < 2 && |events| == |ks| && events != []
    requires Bounded(Heard(Newlines(a) + Unread(And(u, k, events[0]), ks[0], events[1..], ks[1..], encode),
                           decode),
                     Asked(u.xs + [events[0]]) + Asked(events[1..]), true)
    ensures Bounded(Heard(Newlines(a) + Unread(u, k, events, ks, encode), decode), Asked(u.xs) + Asked(events), true)
  {
    FuseStep(u, k, events, ks, encode);
    AskedAppend(u.xs, events[0]);
  }

  lemma NeverClosed(a: nat, u: Bunch, k: nat, encode: Encoder, decode: Decoder)
    requires a < 2 && k < 2 && IsCodec(encode, decode) && Formed(u) && Loud(u.xs)
    ensures Heard(Newlines(a) + Unread(u, k, [], [], encode), decode) == 0 < Asked(u.xs)
  {
    AskedSome(u.xs);
    assert Newlines(k) + "" == Newlines(k);
    LateNewline(a, Fused(u, encode) + Newlines(k));
    PayloadsClean(u, encode);
    NothingClosed(Payloads(u, encode), a == 1, k, decode);
  }

  lemma CloseLast(a: nat, u: Bunch, k: nat, encode: Encoder, decode: Decoder)
    requires a < 2 <= k && IsCodec(encode, decode) && Formed(u) && Loud(u.xs)
    requires |u.xs| > 1 ==> Unjoinable(encode, decode)
    ensures Bounded(Heard(Newlines(a) + Unread(u, k, [], [], encode), decode), Asked(u.xs), |u.xs| > 1)
  {
    AskedSome(u.xs);
    AskedOne(u.xs);
    HeardLast(a, u, k, encode, decode);
  }

  /** The reaction to one or more bodies closed together. */
  function Closing(u: Bunch): Reaction
    requires Formed(u)
  {
    if |u.xs| == 1 then ReactTo(u.xs[0]) else Reaction([], false)
  }

  lemma HeardLast(a: nat, u: Bunch, k: nat, encode: Encoder, decode: Decoder)
    requires a < 2 <= k && IsCodec(encode, decode) && Formed(u) && (|u.xs| == 1 || Unjoinable(encode, decode))
    ensures HandleAll(Closed(Newlines(a) + Unread(u, k, [], [], encode)), decode) == Closing(u)
  {
    var rest := Spread([], [], encode);
    CloseStep(a, u, k, rest, encode, decode);
    OnlyNewlines(k - 2, decode);
    assert Newlines(k - 2) + rest == Newlines(k - 2);
    ThenNothing(Closing(u));
  }

  lemma ThenNothing(first: Reaction)
    ensures Then(first, Reaction([], false)) == first
  {
  }

  lemma CloseOne(a: nat, u: Bunch, k: nat, events: seq<Event>, ks: seq<nat>, encode: Encoder, decode: Decoder)
    requires a < 2 <= k && Ready(u, k, events, ks, encode, decode) && events != []
    requires var n := ks[0];
             Bounded(Heard(Newlines(k - 2) + Unread(One(events[0]), n, events[1..], ks[1..], encode), decode),
                     Asked([events[0]]) + Asked(events[1..]), n < 2 || Short(ks[1..]))
    ensures Bounded(Heard(Newlines(a) + Unread(u, k, events, ks, encode), decode), Asked(u.xs) + Asked(events),
                    |u.xs| > 1 || Short(ks))
  {
    AskedSome(u.xs);
    AskedOne(u.xs);
    AskedOne([events[0]]);
    SpreadIs(events, ks, encode);
    ShortSplits(ks);
    CloseStep(a, u, k, Spread(events, ks, encode), encode, decode);
    assert |u.xs| == 1 ==> !ReactTo(u.xs[0]).thrown by { assert u.xs[0] in u.xs; }
  }

  lemma InnerEndsTail(ks: seq<nat>, encode: Encoder, decode: Decoder)
    requires InnerEnds(ks, encode, decode) && ks != []
    ensures InnerEnds(ks[1..], encode, decode) && (|ks| > 1 && ks[0] < 2 ==> Unjoinable(encode, decode))
  {
    var rest := ks[1..];
    assert forall i :: 0 <= i < |rest| ==> rest[i] == ks[i + 1];
  }

  lemma {:induction false} OnlyNewlines(k: nat, decode: Decoder)
    ensures HandleAll(Closed(Newlines(k)), decode) == Reaction([], false)
  {
    if k >= 2 {
      assert Newlines(k) == "\n\n" + Newlines(k - 2);
      SkipEmptyPart(Newlines(k - 2), decode);
      OnlyNewlines(k - 2, decode);
    } else {
      assert Closed(Newlines(k)) == [];
    }
  }

  lemma AskedOne(xs: seq<Event>)
    requires xs != []
    ensures |xs| == 1 ==> Asked(xs) == |ReactTo(xs[0]).calls|
  {
    if |xs| == 1 {
      assert xs[1..] == [];
    }
  }

  lemma {:induction false} AskedAppend(xs: seq<Event>, e: Event)
    ensures Asked(xs + [e]) == Asked(xs) + |ReactTo(e).calls|
  {
    if xs == [] {
      assert xs + [e] == [e] && [e][1..] == [];
    } else {
      assert (xs + [e])[1..] == xs[1..] + [e];
      AskedAppend(xs[1..], e);
    }
  }

  lemma AskedSome(xs: seq<Event>)
    requires xs != [] && Loud(xs)
    ensures Asked(xs) > 0
  {
    assert xs[0] in xs;
  }

  lemma ShortCounts(seps: seq<string>)
    requires forall sep :: sep in seps ==> LineEndChars(sep)
    ensures Short(Counts(seps)) <==> exists sep :: sep in seps && !EndsFrame(sep)
  {
    if Short(Counts(seps)) {
      var i :| 0 <= i < |seps| && Counts(seps)[i] < 2;
      assert seps[i] in seps && !EndsFrame(seps[i]);
    }
    if exists sep :: sep in seps && !EndsFrame(sep) {
      var i :| 0 <= i < |seps| && !EndsFrame(seps[i]);
      assert Counts(seps)[i] < 2;
    }
  }

  lemma WholeReady(events: seq<Event>, ks: seq<nat>, encode: Encoder, decode: Decoder)
    requires IsCodec(encode, decode) && |events| == |ks| && events != []
    requires Calm(events) && InnerEnds(ks, encode, decode)
    ensures Ready(One(events[0]), ks[0], events[1..], ks[1..], encode, decode)
  {
    InnerEndsTail(ks, encode, decode);
  }

  /** Read in one piece, a stream with a separator that does not end its frame brings
      fewer calls than the events ask for. */
  lemma FewerCalls(events: seq<Event>, seps: seq<string>, encode: Encoder, decode: Decoder)
    requires IsCodec(encode, decode) && |events| == |seps| && forall sep :: sep in seps ==> LineEndChars(sep)
    requires Calm(events) && InnerEnds(Counts(seps), encode, decode) && exists sep :: sep in seps && !EndsFrame(sep)
    ensures HandleAll(Closed(Concat(Norms([Relayed(events, seps, encode)]))), decode) != Expected(events)
  {
    var raw, ks := Relayed(events, seps, encode), Counts(seps);
    ReadWhole(events, seps, encode);
    assert Norms([raw]) == [Norm(raw)] && [Norm(raw)][1..] == [] && Concat([Norm(raw)]) == Norm(raw);
    ShortCounts(seps);
    ExpectedAsked(events);
    WholeReady(events, ks, encode, decode);
    SpreadIs(events, ks, encode);
    assert Newlines(0) + Spread(events, ks, encode) == Spread(events, ks, encode);
    Handled(0, One(events[0]), ks[0], events[1..], ks[1..], encode, decode);
    AskedOne([events[0]]);
    ShortSplits(ks);
  }

  /** Every event of the list arrives, in order and however the stream is cut, exactly
      when every separator makes two line ends. The separators are any runs of line ends,
      empty ones too, while run-on payloads do not decode; for any codec at all the last
      one may be, when those between frames end them. */
  lemma DeliversExactlyWhen(events: seq<Event>, seps: seq<string>, encode: Encoder, decode: Decoder)
    requires IsCodec(encode, decode) && |events| == |seps| && forall sep :: sep in seps ==> LineEndChars(sep)
    requires Calm(events) && InnerEnds(Counts(seps), encode, decode)
    ensures (forall received :: Concat(received) == Relayed(events, seps, encode)
               ==> HandleAll(Closed(Concat(Norms(received))), decode) == Expected(events))
       <==> forall sep :: sep in seps ==> EndsFrame(sep)
  {
    if forall sep :: sep in seps ==> EndsFrame(sep) {
      forall received | Concat(received) == Relayed(events, seps, encode)
        ensures HandleAll(Closed(Concat(Norms(received))), decode) == Expected(events)
      {
        StreamDelivers(events, seps, received, encode, decode);
      }
    } else {
      var raw := Relayed(events, seps, encode);
      FewerCalls(events, seps, encode, decode);
      assert [raw][1..] == [] && Concat([raw]) == raw;
    }
  }

  /** A lone return and then a lone feed behind an event: read apart they close its
      frame, read together they are one line end and it never arrives. */
  lemma ReturnThenFeed(e: Event, encode: Encoder, decode: Decoder)
    requires IsCodec(encode, decode) && ReactTo(e).calls != []
    ensures HandleAll(Closed(Concat(Norms([Body(e, encode) + "\r", "\n"]))), decode) == Expected([e])
    ensures HandleAll(Closed(Concat(Norms([Body(e, encode) + "\r\n"]))), decode) != Expected([e])
  {
    var body := Body(e, encode);
    BodyHasNoNewline(e, encode);
    NormAppend(body, "\r");
    NormFirst("\r");
    NormFirst("\n");
    assert "\r"[1..] == "" && "\n"[1..] == "" && Norm("\r") == "\n" && Norm("\n") == "\n";
    var pieces := [body + "\r", "\n"];
    assert Norms(pieces) == [body + "\n", "\n"];
    assert [body + "\n", "\n"][1..] == ["\n"] && ["\n"][1..] == [];
    assert Concat(Norms(pieces)) == "" + (body + "\n\n" + "");
    FirstFrame(e, false, "", encode, decode);
    assert Closed("") == [];
    ExpectedFirst([e]);
    assert [e][1..] == [] && Expected([]) == Reaction([], false);
    assert "\r\n"[1..] == "\n";
    var seps := ["\r\n"];
    assert LineEnds("\n", true) == LineEnds("", false) == 0 by { assert "\n"[1..] == ""; }
    assert LineEnds("\r\n", false) == 1;
    assert seps[0] in seps && !EndsFrame(seps[0]) && seps[1..] == [];
    FewerCalls([e], seps, encode, decode);
    assert Relayed([e], seps, encode) == body + "\r\n";
  }
}
