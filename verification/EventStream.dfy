/** The event stream on the wire: how the server frames an event, and how the browser client puts frames
    back together from chunks that are cut anywhere. A subset of section 9.2 of the HTML Living Standard. */
module EventStream {
  import opened Options
  import opened Text

  datatype Event = Event(num: nat, kind: string, json: string)

  // What the client's handlers get: the parsed object; `num` is 0 when it has no sequence number.
  datatype Message = Message(num: nat, body: string)

  function Decimal(n: nat): (r: string)
    ensures r != "" && '\n' !in r
  {
    if n < 10 then ["0123456789"[n]] else Decimal(n / 10) + ["0123456789"[n % 10]]
  }

  // The number that a row of digits stands for.
  function Value(s: string): int
    decreases |s|
  {
    if s == "" then 0 else 10 * Value(s[..|s| - 1]) + (s[|s| - 1] as int - '0' as int)
  }

  lemma {:induction false} DecimalExactly(n: nat)
    ensures Value(Decimal(n)) == n && forall i :: 0 <= i < |Decimal(n)| ==> '0' <= Decimal(n)[i] <= '9'
  {
    var digit := "0123456789"[n % 10];
    assert digit as int - '0' as int == n % 10 && '0' <= digit <= '9';
    if n < 10 {
      assert [digit][..0] == "" && Decimal(n) == [digit];
    } else {
      DecimalExactly(n / 10);
      assert Decimal(n)[..|Decimal(n)| - 1] == Decimal(n / 10);
    }
  }

  function Body(e: Event): string {
    "id: " + Decimal(e.num) + "\nevent: " + e.kind + "\ndata: " + e.json
  }

  function Frame(e: Event): string {
    Body(e) + "\n\n"
  }

  function Stream(es: seq<Event>): string
    decreases |es|
  {
    if es == [] then "" else Frame(es[0]) + Stream(es[1..])
  }

  // -- what the client's string methods do ---------------------------------------------------------

  predicate BreakAt(s: string, i: int) {
    0 <= i < |s| - 1 && s[i] == '\n' && s[i + 1] == '\n'
  }

  ghost predicate NoBreak(s: string) {
    forall i :: !BreakAt(s, i)
  }

  // indexOf("\n\n")
  function FirstBreak(s: string): (r: int)
    ensures r == -1 || 0 <= r <= |s| - 2
  {
    if |s| < 2 then -1
    else if s[0] == '\n' && s[1] == '\n' then 0
    else
      var r := FirstBreak(s[1..]);
      if r < 0 then -1 else r + 1
  }

  lemma {:induction false} FirstBreakIs(s: string)
    ensures FirstBreak(s) >= 0 ==> BreakAt(s, FirstBreak(s))
    ensures forall i :: BreakAt(s, i) ==> 0 <= FirstBreak(s) <= i
  {
    if |s| >= 2 && !(s[0] == '\n' && s[1] == '\n') {
      FirstBreakIs(s[1..]);
      forall i | BreakAt(s, i) ensures 0 <= FirstBreak(s) <= i { assert BreakAt(s[1..], i - 1); }
    }
  }

  predicate Space(c: char) {
    var n := c as int;
    9 <= n <= 13 || n in {0x20, 0xA0, 0x1680, 0x2028, 0x2029, 0x202F, 0x205F, 0x3000, 0xFEFF} || 0x2000 <= n <= 0x200A
  }

  // split("\n")
  function Lines(s: string): (r: seq<string>)
    ensures r != []
  {
    if s == "" then [""]
    else if s[0] == '\n' then [""] + Lines(s[1..])
    else
      var rest := Lines(s[1..]);
      [[s[0]] + rest[0]] + rest[1..]
  }

  const DATA := "data:"

  // The payload of the last data line.
  function DataOf(lines: seq<string>): Option<string>
    decreases |lines|
  {
    if lines == [] then None
    else if DATA <= lines[|lines| - 1] then Some(Trim(Space, lines[|lines| - 1][5..]))
    else DataOf(lines[..|lines| - 1])
  }

  predicate LastData(lines: seq<string>, i: int) {
    0 <= i < |lines| && "data:" <= lines[i] && forall k :: i < k < |lines| ==> !("data:" <= lines[k])
  }

  // What is behind "data:" in the last line that has it, without the white space around it.
  ghost predicate IsData(lines: seq<string>, d: string) {
    exists i, j :: LastData(lines, i) && Inside(Space, lines[i][5..], j, d) && Tight(Space, d)
  }

  lemma {:induction false} DataExactly(lines: seq<string>, d: string)
    ensures DataOf(lines) == Some(d) <==> IsData(lines, d)
    ensures DataOf(lines) == None <==> forall i :: 0 <= i < |lines| ==> !("data:" <= lines[i])
    decreases |lines|
  {
    if lines != [] {
      var init, n := lines[..|lines| - 1], |lines| - 1;
      if DATA <= lines[n] {
        TrimExactly(Space, lines[n][5..], d);
        assert forall i :: LastData(lines, i) <==> i == n;
      } else {
        DataExactly(init, d);
        assert forall i :: LastData(lines, i) <==> LastData(init, i);
      }
    }
  }

  function Parsed(frame: string, parse: string -> Option<Message>): Option<Message> {
    match DataOf(Lines(frame))
    case None => None
    case Some(d) => if d == "" then None else parse(d)
  }

  /** A frame is parsed from the data in its last data line; without any, or with blank data, it says nothing. */
  lemma FrameExactly(frame: string, parse: string -> Option<Message>, d: string)
    ensures IsData(Lines(frame), d) ==> Parsed(frame, parse) == if d == "" then None else parse(d)
    ensures (forall i :: 0 <= i < |Lines(frame)| ==> !("data:" <= Lines(frame)[i])) ==> Parsed(frame, parse) == None
  {
    DataExactly(Lines(frame), d);
  }

  // The frames a text holds in full, and what is left over.
  function Split(s: string): (seq<string>, string)
    decreases |s|
  {
    var i := FirstBreak(s);
    if i < 0 then ([], s)
    else
      var (frames, rest) := Split(s[i + 2..]);
      ([s[..i]] + frames, rest)
  }

  datatype Client = Client(last: nat, emitted: seq<Message>)

  function Receive(c: Client, m: Option<Message>): Client {
    match m
    case None => c
    case Some(m) => Client(if m.num != 0 then m.num else c.last, c.emitted + [m])
  }

  function ReceiveAll(c: Client, frames: seq<string>, parse: string -> Option<Message>): Client
    decreases |frames|
  {
    if frames == [] then c
    else Receive(ReceiveAll(c, frames[..|frames| - 1], parse), Parsed(frames[|frames| - 1], parse))
  }

  // Of these messages, the last one with a number has this one; without any the cursor stays.
  ghost predicate Follows(was: nat, ms: seq<Message>, last: nat) {
    (last == was && forall j :: 0 <= j < |ms| ==> ms[j].num == 0) ||
    (last != 0 && exists i :: 0 <= i < |ms| && ms[i].num == last && forall j :: i < j < |ms| ==> ms[j].num == 0)
  }

  /** The cursor is the number of the last numbered message that was emitted. */
  lemma {:induction false} CursorFollows(c: Client, frames: seq<string>, parse: string -> Option<Message>)
    ensures var r := ReceiveAll(c, frames, parse);
            c.emitted <= r.emitted && Follows(c.last, r.emitted[|c.emitted|..], r.last)
    decreases |frames|
  {
    if frames != [] {
      var r, m := ReceiveAll(c, frames[..|frames| - 1], parse), Parsed(frames[|frames| - 1], parse);
      CursorFollows(c, frames[..|frames| - 1], parse);
      var ms := r.emitted[|c.emitted|..];
      if m.Some? {
        assert (r.emitted + [m.value])[|c.emitted|..] == ms + [m.value];
        if m.value.num == 0 { FollowsMore(c.last, ms, m.value, r.last); }
        else { assert (ms + [m.value])[|ms|] == m.value; }
      }
    }
  }

  lemma FollowsMore(was: nat, ms: seq<Message>, m: Message, last: nat)
    requires Follows(was, ms, last) && m.num == 0
    ensures Follows(was, ms + [m], last)
  {
    if !(last == was && forall j :: 0 <= j < |ms| ==> ms[j].num == 0) {
      var i :| 0 <= i < |ms| && ms[i].num == last && forall j :: i < j < |ms| ==> ms[j].num == 0;
      assert (ms + [m])[i].num == last;
    }
  }

  function Concat(chunks: seq<string>): string
    decreases |chunks|
  {
    if chunks == [] then "" else Concat(chunks[..|chunks| - 1]) + chunks[|chunks| - 1]
  }

  lemma BreakFound(s: string, i: int)
    requires BreakAt(s, i) && forall j :: BreakAt(s, j) ==> i <= j
    ensures FirstBreak(s) == i
    ensures Split(s) == ([s[..i]] + Split(s[i + 2..]).0, Split(s[i + 2..]).1)
  {
    FirstBreakIs(s);
  }

  // A break stays the first one when text is added.
  lemma BreakStays(a: string, b: string)
    requires FirstBreak(a) >= 0
    ensures var i := FirstBreak(a);
            Split(a + b) == ([a[..i]] + Split(a[i + 2..] + b).0, Split(a[i + 2..] + b).1)
  {
    var i := FirstBreak(a);
    FirstBreakIs(a);
    assert BreakAt(a + b, i);
    forall j | BreakAt(a + b, j) ensures i <= j {
      if j < i { assert BreakAt(a, j); }
    }
    BreakFound(a + b, i);
    assert (a + b)[..i] == a[..i] && (a + b)[i + 2..] == a[i + 2..] + b;
  }

  lemma Regroup(f: string, fs: seq<string>, gs: seq<string>)
    ensures [f] + (fs + gs) == ([f] + fs) + gs
  {
  }

  lemma SplitFirst(a: string)
    requires FirstBreak(a) >= 0
    ensures var i := FirstBreak(a); Split(a) == ([a[..i]] + Split(a[i + 2..]).0, Split(a[i + 2..]).1)
  {
  }

  /** What was left over is where splitting goes on when more text arrives. */
  lemma {:induction false} SplitResumes(a: string, b: string)
    ensures Split(a + b) == (Split(a).0 + Split(Split(a).1 + b).0, Split(Split(a).1 + b).1)
    decreases |a|
  {
    var i := FirstBreak(a);
    if i < 0 {
      assert Split(a) == ([], a);
      assert [] + Split(a + b).0 == Split(a + b).0;
    } else {
      var s := Split(a[i + 2..]);
      BreakStays(a, b);
      SplitFirst(a);
      SplitResumes(a[i + 2..], b);
      Regroup(a[..i], s.0, Split(s.1 + b).0);
    }
  }

  lemma {:induction false} ReceiveAppend(c: Client, a: seq<string>, b: seq<string>, parse: string -> Option<Message>)
    ensures ReceiveAll(c, a + b, parse) == ReceiveAll(ReceiveAll(c, a, parse), b, parse)
    decreases |b|
  {
    if b == [] {
      assert a + b == a;
    } else {
      assert (a + b)[..|a + b| - 1] == a + b[..|b| - 1];
      ReceiveAppend(c, a, b[..|b| - 1], parse);
    }
  }

  lemma ReceiveFirst(c: Client, f: string, fs: seq<string>, parse: string -> Option<Message>)
    ensures ReceiveAll(c, [f] + fs, parse) == ReceiveAll(Receive(c, Parsed(f, parse)), fs, parse)
  {
    ReceiveAppend(c, [f], fs, parse);
    assert [f][..0] == [];
    assert ReceiveAll(c, [f], parse) == Receive(c, Parsed(f, parse));
  }

  class EventReader {
    var last: nat
    var emitted: seq<Message>

    function State(): Client
      reads this
    {
      Client(last, emitted)
    }

    static method ParseFrame(frame: string, parse: string -> Option<Message>) returns (m: Option<Message>)
      ensures m == Parsed(frame, parse)
    {
      var data: Option<string> := None;
      var lines := Lines(frame);
      for i := 0 to |lines|
        invariant data == DataOf(lines[..i])
      {
        assert lines[..i + 1][..i] == lines[..i];
        if DATA <= lines[i] { data := Some(Trim(Space, lines[i][5..])); }
      }
      assert lines[..|lines|] == lines;
      if data.None? || data.value == "" { return None; }
      m := parse(data.value);
    }

    // The inner loop: receive every whole frame in the buffer, keep the rest.
    method Drain(text: string, parse: string -> Option<Message>) returns (buf: string)
      modifies this
      ensures State() == ReceiveAll(old(State()), Split(text).0, parse) && buf == Split(text).1
    {
      buf := text;
      var idx := FirstBreak(buf);
      while idx >= 0
        invariant idx == FirstBreak(buf)
        invariant Split(buf).1 == Split(text).1
        invariant ReceiveAll(State(), Split(buf).0, parse) == ReceiveAll(old(State()), Split(text).0, parse)
        decreases |buf|
      {
        var frame := buf[..idx];
        FirstBreakIs(buf);
        BreakFound(buf, idx);
        buf := buf[idx + 2..];
        ReceiveFirst(State(), frame, Split(buf).0, parse);
        var m := ParseFrame(frame, parse);
        if m.Some? {
          if m.value.num != 0 { last := m.value.num; }
          emitted := emitted + [m.value];
        }
        idx := FirstBreak(buf);
      }
    }

    /** One connection, until it ends: whatever the chunks, the frames in their concatenation are received
        in order; a frame that is cut off is not, and does not move the cursor. */
    method Connect(chunks: seq<string>, parse: string -> Option<Message>)
      modifies this
      ensures State() == ReceiveAll(old(State()), Split(Concat(chunks)).0, parse)
    {
      var buf := "";
      assert chunks[..0] == [];
      for i := 0 to |chunks|
        invariant buf == Split(Concat(chunks[..i])).1
        invariant State() == ReceiveAll(old(State()), Split(Concat(chunks[..i])).0, parse)
      {
        ghost var text := Concat(chunks[..i]);
        assert chunks[..i + 1][..i] == chunks[..i];
        SplitResumes(text, chunks[i]);
        ReceiveAppend(old(State()), Split(text).0, Split(Split(text).1 + chunks[i]).0, parse);
        buf := Drain(buf + chunks[i], parse);
      }
      assert chunks[..|chunks|] == chunks;
    }
  }

  // ---------------------------------------------------------------------------------------------
  // Frames survive the wire
  // ---------------------------------------------------------------------------------------------

  // What the bus and json.Marshal produce: no raw newline, and an object's text.
  predicate Clean(e: Event) {
    '\n' !in e.kind && '\n' !in e.json && e.json != "" && !Space(e.json[0]) && !Space(e.json[|e.json| - 1])
  }

  // The payload parses back to its event.
  predicate Faithful(e: Event, parse: string -> Option<Message>) {
    e.num > 0 && parse(e.json) == Some(Message(e.num, e.json))
  }

  lemma {:induction false} LinesOfLine(s: string, rest: string)
    requires '\n' !in s
    ensures Lines(s) == [s]
    ensures Lines(s + "\n" + rest) == [s] + Lines(rest)
    decreases |s|
  {
    if s == "" {
      assert s + "\n" + rest == "\n" + rest;
    } else {
      LinesOfLine(s[1..], rest);
      assert (s + "\n" + rest)[1..] == s[1..] + "\n" + rest;
      assert [s[0]] + s[1..] == s;
    }
  }

  lemma BodyLines(e: Event)
    requires Clean(e)
    ensures Lines(Body(e)) == ["id: " + Decimal(e.num), "event: " + e.kind, "data: " + e.json]
  {
    var l1, l2, l3 := "id: " + Decimal(e.num), "event: " + e.kind, "data: " + e.json;
    LinesOfLine(l1, l2 + "\n" + l3);
    LinesOfLine(l2, l3);
    LinesOfLine(l3, "");
    assert Body(e) == l1 + "\n" + (l2 + "\n" + l3);
  }

  /** A frame parses to its own event. */
  lemma FrameParses(e: Event, parse: string -> Option<Message>)
    requires Clean(e) && Faithful(e, parse)
    ensures Parsed(Body(e), parse) == Some(Message(e.num, e.json))
  {
    BodyLines(e);
    var data := "data: " + e.json;
    assert DATA <= data;
    var padded := " " + e.json;
    assert data[5..] == padded;
    assert padded[1..] == e.json;
    assert Space(padded[0]);
    assert TrimStart(Space, padded) == TrimStart(Space, e.json) == e.json;
  }

  /** The first blank line in a frame is its end. */
  lemma FrameEnds(e: Event, rest: string)
    requires Clean(e)
    ensures FirstBreak(Frame(e) + rest) == |Body(e)|
    ensures NoBreak(Frame(e)[..|Frame(e)| - 1])
  {
    var body, s := Body(e), Frame(e) + rest;
    FirstBreakIs(s);
    assert BreakAt(s, |body|);
    forall i | 0 <= i < |body| ensures !BreakAt(s, i) { BodyHasNoBreak(e, i); }
    var cut := Frame(e)[..|Frame(e)| - 1];
    forall i ensures !BreakAt(cut, i) {
      if 0 <= i < |body| { BodyHasNoBreak(e, i); }
    }
  }

  // The body's characters, piece by piece.
  lemma BodyAt(e: Event, i: nat)
    requires i < |Body(e)|
    ensures var (n, k) := (|Decimal(e.num)|, |e.kind|);
            Body(e)[i] == if i < 4 then "id: "[i] else if i < 4 + n then Decimal(e.num)[i - 4]
                          else if i < 12 + n then "\nevent: "[i - 4 - n] else if i < 12 + n + k then e.kind[i - 12 - n]
                          else if i < 19 + n + k then "\ndata: "[i - 12 - n - k] else e.json[i - 19 - n - k]
  {
  }

  lemma BodyHasNoBreak(e: Event, i: nat)
    requires Clean(e) && i < |Body(e)|
    ensures Body(e)[i] == '\n' ==> i + 1 < |Body(e)| && Body(e)[i + 1] != '\n'
  {
    var n, k := |Decimal(e.num)|, |e.kind|;
    BodyAt(e, i);
    if 4 <= i < 4 + n { assert Body(e)[i] == Decimal(e.num)[i - 4]; }
    else if 12 + n <= i < 12 + n + k { assert e.kind[i - 12 - n] in e.kind; }
    else if 19 + n + k <= i { assert e.json[i - 19 - n - k] in e.json; }
    else if i == 4 + n || i == 12 + n + k { BodyAt(e, i + 1); }
  }

  // How many frames of the stream a text that is a prefix of it holds in full.
  function Whole(es: seq<Event>, text: string): (k: nat)
    ensures k <= |es|
    decreases |es|
  {
    if es == [] || |text| < |Frame(es[0])| then 0 else 1 + Whole(es[1..], text[|Frame(es[0])|..])
  }

  function Bodies(es: seq<Event>): (r: seq<string>)
    ensures |r| == |es| && forall i :: 0 <= i < |es| ==> r[i] == Body(es[i])
  {
    seq(|es|, i requires 0 <= i < |es| => Body(es[i]))
  }

  lemma CutFrame(e: Event, text: string)
    requires Clean(e) && text <= Frame(e) && |text| < |Frame(e)|
    ensures Split(text).0 == []
  {
    FrameEnds(e, "");
    var cut := Frame(e)[..|Frame(e)| - 1];
    assert text == cut[..|text|];
    PrefixNoBreak(cut, |text|);
    FirstBreakIs(text);
  }

  lemma PrefixNoBreak(s: string, n: nat)
    requires NoBreak(s) && n <= |s|
    ensures NoBreak(s[..n])
  {
    forall i ensures !BreakAt(s[..n], i) { assert !BreakAt(s, i); }
  }

  lemma WholeFrame(e: Event, rest: string)
    requires Clean(e)
    ensures Split(Frame(e) + rest).0 == [Body(e)] + Split(rest).0
  {
    var text := Frame(e) + rest;
    FrameEnds(e, rest);
    BreakFound(text, |Body(e)|);
    assert text[|Body(e)| + 2..] == rest && text[..|Body(e)|] == Body(e);
  }

  /** Whatever prefix of the stream arrived, it splits into exactly its whole frames. */
  lemma {:induction false} PrefixSplits(es: seq<Event>, text: string)
    requires text <= Stream(es) && forall e :: e in es ==> Clean(e)
    ensures Split(text).0 == Bodies(es[..Whole(es, text)])
    decreases |es|
  {
    if es != [] {
      var f := Frame(es[0]);
      if |text| < |f| {
        assert text == f[..|text|];
        CutFrame(es[0], text);
      } else {
        var rest := text[|f|..];
        assert text == f + rest && rest <= Stream(es[1..]);
        WholeFrame(es[0], rest);
        PrefixSplits(es[1..], rest);
        BodiesFirst(es, Whole(es[1..], rest));
      }
    }
  }

  lemma BodiesFirst(es: seq<Event>, k: nat)
    requires es != [] && k <= |es| - 1
    ensures Bodies(es[..k + 1]) == [Body(es[0])] + Bodies(es[1..][..k])
  {
    assert es[..k + 1] == [es[0]] + es[1..][..k];
  }

  // What fits after the first frame fits with it.
  lemma FirstFits(es: seq<Event>, rest: string, k: nat)
    requires es != [] && k <= |es| - 1 && Stream(es[1..][..k]) <= rest
    requires k < |es| - 1 ==> |rest| < |Stream(es[1..][..k + 1])|
    ensures Stream(es[..k + 1]) <= Frame(es[0]) + rest
    ensures k + 1 < |es| ==> |Frame(es[0]) + rest| < |Stream(es[..k + 2])|
  {
    StreamFirst(es, k);
    if k + 1 < |es| { StreamFirst(es, k + 1); }
  }

  // `Whole` is the number of complete frames: that many frames fit the text, and one more does not.
  lemma {:induction false} WholeFits(es: seq<Event>, text: string)
    requires text <= Stream(es)
    ensures var k := Whole(es, text);
            Stream(es[..k]) <= text && (k < |es| ==> |text| < |Stream(es[..k + 1])|)
    decreases |es|
  {
    if es != [] {
      var f := Frame(es[0]);
      if |text| >= |f| {
        var rest := text[|f|..];
        assert text == f + rest && rest <= Stream(es[1..]);
        WholeFits(es[1..], rest);
        FirstFits(es, rest, Whole(es[1..], rest));
      } else {
        StreamFirst(es, 0);
      }
    }
  }

  lemma StreamFirst(es: seq<Event>, k: nat)
    requires es != [] && k <= |es| - 1
    ensures Stream(es[..k + 1]) == Frame(es[0]) + Stream(es[1..][..k])
  {
    assert es[..k + 1][1..] == es[1..][..k];
  }

  function Messages(es: seq<Event>): (r: seq<Message>)
    ensures |r| == |es| && forall i :: 0 <= i < |es| ==> r[i] == Message(es[i].num, es[i].json)
  {
    seq(|es|, i requires 0 <= i < |es| => Message(es[i].num, es[i].json))
  }

  lemma {:induction false} BodiesDeliver(c: Client, es: seq<Event>, parse: string -> Option<Message>)
    requires forall e :: e in es ==> Clean(e) && Faithful(e, parse)
    ensures ReceiveAll(c, Bodies(es), parse) == Client(if es == [] then c.last else es[|es| - 1].num, c.emitted + Messages(es))
    decreases |es|
  {
    if es != [] {
      var n := |es| - 1;
      assert Bodies(es)[..n] == Bodies(es[..n]);
      BodiesDeliver(c, es[..n], parse);
      FrameParses(es[n], parse);
      assert Messages(es) == Messages(es[..n]) + [Message(es[n].num, es[n].json)];
    } else {
      assert c.emitted + Messages(es) == c.emitted;
    }
  }

  /** For every way of cutting the stream into chunks, and wherever the connection breaks off: the client
      emits exactly the events whose frames arrived whole, in order, and its cursor is the last of them. */
  lemma {:induction false} ChunksDeliver(c: Client, es: seq<Event>, chunks: seq<string>, parse: string -> Option<Message>)
    requires Concat(chunks) <= Stream(es) && forall e :: e in es ==> Clean(e) && Faithful(e, parse)
    ensures var k := Whole(es, Concat(chunks));
            ReceiveAll(c, Split(Concat(chunks)).0, parse) ==
              Client(if k == 0 then c.last else es[k - 1].num, c.emitted + Messages(es[..k]))
  {
    PrefixSplits(es, Concat(chunks));
    var k := Whole(es, Concat(chunks));
    forall e | e in es[..k] ensures e in es {}
    BodiesDeliver(c, es[..k], parse);
  }
}
