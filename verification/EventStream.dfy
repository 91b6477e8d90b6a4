/** The incremental event-stream reader of `streamMessage` (`frontend/src/api/agent.ts`).

    A subset of the event stream format of section 9.2 of the WHATWG HTML Living
    Standard: frames end at an empty line, and the lines of a frame that begin with
    `data: ` are handed on one by one. */
module EventStream {

  const SEP := "\n\n"
  const DATA := "data: "

  predicate SepAt(s: string, k: nat) {
    k + 1 < |s| && s[k] == '\n' && s[k + 1] == '\n'
  }

  /** `s.indexOf("\n\n", from)` */
  function IndexOfSep(s: string, from: nat): (k: int)
    requires from <= |s|
    ensures k == -1 ==> forall j :: from <= j < |s| ==> !SepAt(s, j)
    ensures k != -1 ==> from <= k && SepAt(s, k) && forall j :: from <= j < k ==> !SepAt(s, j)
    decreases |s| - from
  {
    if from == |s| then -1
    else if SepAt(s, from) then from
    else IndexOfSep(s, from + 1)
  }

  datatype Parsed = Parsed(frames: seq<string>, tail: string)

  /** The text cut at empty lines; what follows the last one is not a frame yet. */
  function Split(s: string): Parsed
    decreases |s|
  {
    var k := IndexOfSep(s, 0);
    if k == -1 then Parsed([], s)
    else
      var rest := Split(s[k + 2..]);
      Parsed([s[..k]] + rest.frames, rest.tail)
  }

  /** `frame.split("\n")` */
  function Lines(frame: string): (lines: seq<string>)
    ensures lines != []
  {
    if frame == "" then [""]
    else if frame[0] == '\n' then [""] + Lines(frame[1..])
    else
      var rest := Lines(frame[1..]);
      [[frame[0]] + rest[0]] + rest[1..]
  }

  predicate IsData(line: string) {
    DATA <= line
  }

  function DataOf(lines: seq<string>): seq<string> {
    if lines == [] then []
    else (if IsData(lines[0]) then [lines[0][|DATA|..]] else []) + DataOf(lines[1..])
  }

  /** The payloads of the frames, in order. */
  function Payloads(frames: seq<string>): seq<string> {
    if frames == [] then [] else DataOf(Lines(frames[0])) + Payloads(frames[1..])
  }

  function Concat(chunks: seq<string>): string {
    if chunks == [] then "" else Concat(chunks[..|chunks| - 1]) + chunks[|chunks| - 1]
  }

  // ----- Reading in chunks -----

  /** An empty line already seen stays the first one when more text arrives. */
  lemma IndexOfSepExtends(a: string, b: string)
    requires IndexOfSep(a, 0) != -1
    ensures IndexOfSep(a + b, 0) == IndexOfSep(a, 0)
  {
    var k := IndexOfSep(a, 0);
    assert SepAt(a + b, k);
    assert forall j :: 0 <= j < k ==> SepAt(a + b, j) == SepAt(a, j);
  }

  /** Text that arrives later completes the tail and leaves the finished frames alone. */
  lemma {:induction false} SplitAppend(a: string, b: string)
    ensures var p := Split(a);
            var q := Split(p.tail + b);
            Split(a + b) == Parsed(p.frames + q.frames, q.tail)
    decreases |a|
  {
    hide Split, SepAt;
    var k := IndexOfSep(a, 0);
    SplitUnfold(a);
    if k != -1 {
      IndexOfSepExtends(a, b);
      SplitUnfold(a + b);
      SepFits(a, k);
      assert (a + b)[..k] == a[..k];
      assert (a + b)[k + 2..] == a[k + 2..] + b;
      SplitAppend(a[k + 2..], b);
    } else {
      assert [] + Split(a + b).frames == Split(a + b).frames;
    }
  }

  lemma SplitUnfold(s: string)
    ensures var k := IndexOfSep(s, 0);
            if k == -1 then Split(s) == Parsed([], s)
            else k + 2 <= |s| && Split(s) == Parsed([s[..k]] + Split(s[k + 2..]).frames, Split(s[k + 2..]).tail)
  {
  }

  lemma SepFits(s: string, k: nat)
    requires SepAt(s, k)
    ensures k + 2 <= |s| && s == (s[..k] + SEP) + s[k + 2..]
  {
  }

  lemma {:induction false} PayloadsAppend(f: seq<string>, g: seq<string>)
    ensures Payloads(f + g) == Payloads(f) + Payloads(g)
  {
    if f == [] {
      assert f + g == g;
    } else {
      assert (f + g)[0] == f[0] && (f + g)[1..] == f[1..] + g;
      PayloadsAppend(f[1..], g);
    }
  }

  /** The inner loops: hand on every finished frame of the buffer. */
  method DrainBuffer(buffer: string) returns (events: seq<string>, left: string)
    ensures events == Payloads(Split(buffer).frames) && left == Split(buffer).tail
  {
    events, left := [], buffer;
    while true
      invariant events + Payloads(Split(left).frames) == Payloads(Split(buffer).frames)
      invariant Split(left).tail == Split(buffer).tail
      decreases |left|
    {
      var sep := IndexOfSep(left, 0);
      if sep == -1 {
        break;
      }
      var frame := left[..sep];
      var data := FrameData(frame);
      assert Split(left).frames[0] == frame && Split(left).frames[1..] == Split(left[sep + 2..]).frames;
      events := events + data;
      left := left[sep + 2..];
    }
  }

  /** The loop over the lines of one frame. */
  method FrameData(frame: string) returns (data: seq<string>)
    ensures data == DataOf(Lines(frame))
  {
    var lines := Lines(frame);
    data := [];
    for i := 0 to |lines|
      invariant data + DataOf(lines[i..]) == DataOf(lines)
    {
      assert lines[i..][0] == lines[i] && lines[i..][1..] == lines[i + 1..];
      if IsData(lines[i]) {
        data := data + [lines[i][|DATA|..]];
      }
    }
    assert lines[|lines|..] == [];
  }

  /** The read loop.  Whatever the chunks, the payloads are those of the whole text; an
      unfinished frame at the end is dropped. */
  method ReadStream(chunks: seq<string>) returns (events: seq<string>)
    ensures events == Payloads(Split(Concat(chunks)).frames)
  {
    hide Split, Payloads;
    var buffer := "";
    events := [];
    NothingRead();
    for i := 0 to |chunks|
      invariant events == Payloads(Split(Concat(chunks[..i])).frames)
      invariant buffer == Split(Concat(chunks[..i])).tail
    {
      assert chunks[..i + 1][..i] == chunks[..i];
      var text := Concat(chunks[..i]);
      SplitAppend(text, chunks[i]);
      buffer := buffer + chunks[i];
      PayloadsAppend(Split(text).frames, Split(buffer).frames);
      var more;
      more, buffer := DrainBuffer(buffer);
      events := events + more;
    }
    assert chunks[..|chunks|] == chunks;
  }

  lemma NothingRead()
    ensures Split("") == Parsed([], "") && Payloads([]) == []
  {
  }

  // ----- What splitting means -----

  function Rejoin(frames: seq<string>): string {
    if frames == [] then "" else frames[0] + SEP + Rejoin(frames[1..])
  }

  /** Each frame ends at the first empty line after it starts. */
  ghost predicate Proper(frames: seq<string>) {
    forall k :: 0 <= k < |frames| ==> IndexOfSep(frames[k] + SEP, 0) == |frames[k]|
  }

  /** Nothing is lost: frames, separators and tail make up the text, and neither the
      frames nor the tail hide another separator. */
  lemma {:induction false} SplitIsComplete(s: string)
    ensures var p := Split(s);
            s == Rejoin(p.frames) + p.tail && Proper(p.frames) && IndexOfSep(p.tail, 0) == -1
    decreases |s|
  {
    hide Split, IndexOfSep, SepAt;
    var k := IndexOfSep(s, 0);
    SplitUnfold(s);
    if k != -1 {
      var rest := Split(s[k + 2..]);
      SepFits(s, k);
      SplitIsComplete(s[k + 2..]);
      FrameEnds(s, k);
    }
  }

  lemma FrameEnds(s: string, k: nat)
    requires k + 2 <= |s| && IndexOfSep(s, 0) == k
    ensures IndexOfSep(s[..k] + SEP, 0) == k
  {
    var t := s[..k] + SEP;
    assert SepAt(t, k);
    forall j | 0 <= j < k ensures !SepAt(t, j) {
      assert !SepAt(s, j);
      assert t[j] == s[j] && t[j + 1] == s[j + 1];
    }
  }

  /** Splitting is the only way to cut a text into proper frames and a tail. */
  lemma {:induction false} SplitIsUnique(frames: seq<string>, tail: string)
    requires Proper(frames) && IndexOfSep(tail, 0) == -1
    ensures Split(Rejoin(frames) + tail) == Parsed(frames, tail)
  {
    hide Split, IndexOfSep, Rejoin, SepAt;
    SplitUnfold(Rejoin(frames) + tail);
    RejoinUnfold(frames);
    if frames == [] {
      assert "" + tail == tail;
    } else {
      var f, rest := frames[0], Rejoin(frames[1..]) + tail;
      var s := Rejoin(frames) + tail;
      assert s == (f + SEP) + rest;
      IndexOfSepExtends(f + SEP, rest);
      assert s[..|f|] == f && s[|f| + 2..] == rest;
      SplitIsUnique(frames[1..], tail);
      assert [f] + frames[1..] == frames;
    }
  }

  lemma RejoinUnfold(frames: seq<string>)
    ensures Rejoin(frames) == if frames == [] then "" else frames[0] + SEP + Rejoin(frames[1..])
  {
  }

  // ----- Server to client -----

  ghost predicate OneLine(s: string) {
    forall k :: 0 <= k < |s| ==> s[k] != '\n'
  }

  /** A line of a frame: a payload, or anything else, such as a comment or an event name. */
  datatype Line = Payload(json: string) | Other(text: string)

  function Written(line: Line): string {
    match line
    case Payload(json) => "data: " + json
    case Other(text) => text
  }

  /** A line that is one: without a line break, not empty, and no payload unless it is one. */
  ghost predicate Sendable(line: Line) {
    match line
    case Payload(json) => OneLine(json)
    case Other(text) => OneLine(text) && text != "" && !("data: " <= text)
  }

  ghost predicate AllSendable(lines: seq<Line>) {
    forall k :: 0 <= k < |lines| ==> Sendable(lines[k])
  }

  /** The text of a frame. */
  function Frame(lines: seq<Line>): string {
    if lines == [] then ""
    else if |lines| == 1 then Written(lines[0])
    else Written(lines[0]) + "\n" + Frame(lines[1..])
  }

  function Frames(frames: seq<seq<Line>>): seq<string> {
    if frames == [] then [] else [Frame(frames[0])] + Frames(frames[1..])
  }

  function LinePayloads(lines: seq<Line>): seq<string> {
    if lines == [] then [] else (if lines[0].Payload? then [lines[0].json] else []) + LinePayloads(lines[1..])
  }

  function FramePayloads(frames: seq<seq<Line>>): seq<string> {
    if frames == [] then [] else LinePayloads(frames[0]) + FramePayloads(frames[1..])
  }

  lemma {:induction false} LinesOfOneLine(s: string)
    requires OneLine(s)
    ensures Lines(s) == [s]
  {
    if s != "" {
      LinesOfOneLine(s[1..]);
      assert [s[0]] + s[1..] == s;
    }
  }

  lemma {:induction false} LinesOfMore(s: string, rest: string)
    requires OneLine(s)
    ensures Lines(s + "\n" + rest) == [s] + Lines(rest)
  {
    var t := s + "\n" + rest;
    if s == "" {
      assert t[1..] == rest;
    } else {
      assert t[1..] == s[1..] + "\n" + rest;
      LinesOfMore(s[1..], rest);
      assert [s[0]] + s[1..] == s;
    }
  }

  lemma WrittenIsOneLine(line: Line)
    requires Sendable(line)
    ensures OneLine(Written(line)) && Written(line) != ""
    ensures IsData(Written(line)) <==> line.Payload?
    ensures line.Payload? ==> Written(line)[|DATA|..] == line.json
  {
  }

  /** Splitting a frame into lines gives back the payloads of its data lines, whatever stands between. */
  lemma {:induction false} FrameRoundTrip(lines: seq<Line>)
    requires lines != [] && AllSendable(lines)
    ensures DataOf(Lines(Frame(lines))) == LinePayloads(lines)
  {
    hide Sendable, Written, IsData;
    var first := Written(lines[0]);
    WrittenIsOneLine(lines[0]);
    LinesOfOneLine(first);
    if |lines| == 1 {
      assert [first][1..] == [];
      assert lines[1..] == [];
    } else {
      FrameRoundTrip(lines[1..]);
      LinesOfMore(first, Frame(lines[1..]));
      assert ([first] + Lines(Frame(lines[1..])))[1..] == Lines(Frame(lines[1..]));
    }
  }

  /** No line of a frame is empty, so that no empty line ends the frame early. */
  lemma {:induction false} FrameHoldsNoSep(lines: seq<Line>)
    requires lines != [] && AllSendable(lines)
    ensures var f := Frame(lines);
            f != "" && f[0] != '\n' && f[|f| - 1] != '\n' && forall k :: 0 <= k < |f| ==> !SepAt(f, k)
  {
    hide Sendable, Written;
    var first, f := Written(lines[0]), Frame(lines);
    WrittenIsOneLine(lines[0]);
    if |lines| > 1 {
      var rest := Frame(lines[1..]);
      FrameHoldsNoSep(lines[1..]);
      assert f == first + "\n" + rest;
      forall k | 0 <= k < |f| ensures !SepAt(f, k) {
        if k > |first| {
          assert !SepAt(rest, k - |first| - 1);
        }
      }
    }
  }

  lemma FrameIsProper(lines: seq<Line>)
    requires lines != [] && AllSendable(lines)
    ensures IndexOfSep(Frame(lines) + SEP, 0) == |Frame(lines)|
  {
    hide Frame;
    FrameHoldsNoSep(lines);
    var f := Frame(lines);
    var t := f + SEP;
    assert SepAt(t, |f|);
    forall j | 0 <= j < |f| ensures !SepAt(t, j) {
      assert !SepAt(f, j);
    }
  }

  lemma {:induction false} FramesAreProper(frames: seq<seq<Line>>)
    requires forall k :: 0 <= k < |frames| ==> frames[k] != [] && AllSendable(frames[k])
    ensures Proper(Frames(frames))
    ensures Payloads(Frames(frames)) == FramePayloads(frames)
  {
    hide Frame, AllSendable, IndexOfSep, Lines, LinePayloads;
    if frames != [] {
      FramesAreProper(frames[1..]);
      FrameIsProper(frames[0]);
      FrameRoundTrip(frames[0]);
      assert Frames(frames)[1..] == Frames(frames[1..]);
    }
  }

  /** Text that arrives in pieces is the pieces joined. */
  lemma ConcatJoins(chunks: seq<string>, chunk: string)
    ensures Concat([]) == "" && Concat(chunks + [chunk]) == Concat(chunks) + chunk
  {
    assert (chunks + [chunk])[..|chunks|] == chunks;
  }

  /** Round trip: whatever lines the server's frames hold, however the network cuts them, and whatever
      unfinished frame follows, the client hands on exactly the payloads of their data lines. */
  lemma StreamRoundTrip(frames: seq<seq<Line>>, chunks: seq<string>, unfinished: string)
    requires forall k :: 0 <= k < |frames| ==> frames[k] != [] && AllSendable(frames[k])
    requires IndexOfSep(unfinished, 0) == -1
    requires Concat(chunks) == Rejoin(Frames(frames)) + unfinished
    ensures Payloads(Split(Concat(chunks)).frames) == FramePayloads(frames)
  {
    FramesAreProper(frames);
    SplitIsUnique(Frames(frames), unfinished);
  }
}
