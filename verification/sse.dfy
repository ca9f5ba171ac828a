/**
 * Server-sent event frames as the backend writes them (backend/main.py:195-196)
 * and as an event-stream consumer reads them back.
 *
 * The reader follows the line and field rules of section 9.2.6 of the WHATWG
 * HTML Standard ("Interpreting an event stream"), restricted to the blocks
 * this backend emits: an `event` line, one `data` line and the blank line
 * that dispatches the event.
 */
module ServerSentEvents {
  import opened Wrappers
  import opened Text
  import opened Json

  /** `sse(event, data)`. */
  function Sse(event: string, data: Json): string {
    "event: " + event + "\ndata: " + Dumps(data) + "\n\n"
  }

  /** The stream text of a sequence of `(event, data)` frames, in order. */
  function Stream(frames: seq<(string, Json)>): string {
    if frames == [] then "" else Sse(frames[0].0, frames[0].1) + Stream(frames[1..])
  }

  /** A frame is the event line, the data line holding the JSON text, and a blank line. */
  lemma SseText(event: string, data: Json, text: string)
    requires Dumps(data) == text
    ensures Sse(event, data) == "event: " + event + "\ndata: " + text + "\n\n"
  {
  }

  /** Line terminators of the event-stream format: CR, LF (and CRLF as one). */
  predicate IsLineBreak(c: char) {
    c == '\n' || c == '\r'
  }

  predicate SingleLine(s: string) {
    forall i :: 0 <= i < |s| ==> !IsLineBreak(s[i])
  }

  /** The first line break at or after `i`, or the end of the text. */
  function LineEnd(s: string, i: nat): (k: nat)
    requires i <= |s|
    ensures i <= k <= |s|
    ensures forall j :: i <= j < k ==> !IsLineBreak(s[j])
    ensures k < |s| ==> IsLineBreak(s[k])
    decreases |s| - i
  {
    if i < |s| && !IsLineBreak(s[i]) then LineEnd(s, i + 1) else i
  }

  /** Where the next line starts after the line break at `k`; CRLF is one break. */
  function NextLine(s: string, k: nat): (n: nat)
    requires k < |s| && IsLineBreak(s[k])
    ensures k < n <= |s|
  {
    if s[k] == '\r' && k + 1 < |s| && s[k + 1] == '\n' then k + 2 else k + 1
  }

  /** The terminated line starting at `i` and where the one after it starts;
      an unterminated tail is not a line yet. */
  function ReadLine(s: string, i: nat): (r: Option<(string, nat)>)
    requires i <= |s|
    ensures r.Some? ==> i < r.value.1 <= |s| && SingleLine(r.value.0)
  {
    var k := LineEnd(s, i);
    if k == |s| then None else Some((s[i..k], NextLine(s, k)))
  }

  /** The first colon at or after `i`, or the end of the line. */
  function ColonAt(line: string, i: nat): (k: nat)
    requires i <= |line|
    ensures i <= k <= |line|
    ensures forall j :: i <= j < k ==> line[j] != ':'
    ensures k < |line| ==> line[k] == ':'
    decreases |line| - i
  {
    if i < |line| && line[i] != ':' then ColonAt(line, i + 1) else i
  }

  /** A line as a field: the name before the first colon, and the value after
      it with one leading space removed; a line without a colon is all name. */
  function SplitField(line: string): (string, string) {
    var k := ColonAt(line, 0);
    if k == |line| then (line, "")
    else
      var v := line[k + 1..];
      (line[..k], if |v| > 0 && v[0] == ' ' then v[1..] else v)
  }

  /** A dispatched event: its type and its data buffer. */
  datatype Block = Block(event: string, data: string)

  /** One `event` line, one `data` line and a blank line; the block and where the text after it starts. */
  function ReadBlock(s: string): (r: Option<(Block, nat)>)
    ensures r.Some? ==> 0 < r.value.1 <= |s|
  {
    match ReadLine(s, 0)
    case None => None
    case Some((l1, i1)) =>
      match ReadLine(s, i1)
      case None => None
      case Some((l2, i2)) =>
        match ReadLine(s, i2)
        case None => None
        case Some((l3, i3)) =>
          var f1 := SplitField(l1);
          var f2 := SplitField(l2);
          if f1.0 == "event" && f2.0 == "data" && l3 == "" then Some((Block(f1.1, f2.1), i3)) else None
  }

  /** Every block up to the first text that is not one. */
  function ReadBlocks(s: string): seq<Block>
    decreases |s|
  {
    match ReadBlock(s)
    case None => []
    case Some((b, n)) => [b] + ReadBlocks(s[n..])
  }

  /** A line-break-free run followed by a break ends exactly there. */
  lemma {:induction false} LineEndAt(s: string, i: nat, k: nat)
    requires i <= k < |s|
    requires forall j :: i <= j < k ==> !IsLineBreak(s[j])
    requires IsLineBreak(s[k])
    ensures LineEnd(s, i) == k
    decreases k - i
  {
    if i < k {
      LineEndAt(s, i + 1, k);
    }
  }

  /** `prefix + value` with a colon-free prefix ending in ": " splits back into name and value. */
  lemma SplitFieldOf(name: string, value: string)
    requires forall j :: 0 <= j < |name| ==> name[j] != ':'
    ensures SplitField(name + ": " + value) == (name, value)
  {
    var line := name + ": " + value;
    assert line[|name|] == ':';
    assert ColonAt(line, 0) == |name| by {
      ColonAtFirst(line, 0, |name|);
    }
    assert line[|name| + 1..] == " " + value;
    assert line[..|name|] == name;
  }

  lemma {:induction false} ColonAtFirst(line: string, i: nat, k: nat)
    requires i <= k < |line|
    requires forall j :: i <= j < k ==> line[j] != ':'
    requires line[k] == ':'
    ensures ColonAt(line, i) == k
    decreases k - i
  {
    if i < k {
      ColonAtFirst(line, i + 1, k);
    }
  }

  /** The line from `i` to the line feed at `k`. */
  lemma ReadLineAt(s: string, i: nat, k: nat)
    requires i <= k < |s|
    requires SingleLine(s[i..k])
    requires s[k] == '\n'
    ensures ReadLine(s, i) == Some((s[i..k], k + 1))
  {
    forall j | i <= j < k
      ensures !IsLineBreak(s[j])
    {
      assert s[i..k][j - i] == s[j];
    }
    LineEndAt(s, i, k);
  }

  /** A block is read from an `event` line, a `data` line and an empty line. */
  lemma ReadBlockFromLines(s: string, l1: string, i1: nat, l2: string, i2: nat, i3: nat)
    requires i1 <= |s| && i2 <= |s|
    requires ReadLine(s, 0) == Some((l1, i1))
    requires ReadLine(s, i1) == Some((l2, i2))
    requires ReadLine(s, i2) == Some(("", i3))
    requires SplitField(l1).0 == "event" && SplitField(l2).0 == "data"
    ensures ReadBlock(s) == Some((Block(SplitField(l1).1, SplitField(l2).1), i3))
  {
  }

  /** Two single lines and an empty one, each ended by a line feed. */
  lemma ThreeLines(l1: string, l2: string, rest: string)
    requires SingleLine(l1) && SingleLine(l2)
    ensures var s := l1 + "\n" + l2 + "\n" + "\n" + rest;
            && var i1 := |l1| + 1;
            && var i2 := i1 + |l2| + 1;
            && ReadLine(s, 0) == Some((l1, i1))
            && ReadLine(s, i1) == Some((l2, i2))
            && ReadLine(s, i2) == Some(("", i2 + 1))
  {
    var s := l1 + "\n" + l2 + "\n" + "\n" + rest;
    var i1 := |l1| + 1;
    var i2 := i1 + |l2| + 1;
    assert s[0..|l1|] == l1;
    assert s[i1..i2 - 1] == l2;
    assert s[i2..i2] == "";
    ReadLineAt(s, 0, |l1|);
    ReadLineAt(s, i1, i2 - 1);
    ReadLineAt(s, i2, i2);
  }

  /** The three lines of a frame whose event name and data are single lines. */
  lemma ReadBlockOfLines(event: string, data: string, rest: string)
    requires SingleLine(event) && SingleLine(data)
    ensures var frame := "event: " + event + "\ndata: " + data + "\n\n";
            ReadBlock(frame + rest) == Some((Block(event, data), |frame|))
  {
    var l1 := "event" + ": " + event;
    var l2 := "data" + ": " + data;
    var frame := "event: " + event + "\ndata: " + data + "\n\n";
    var s := l1 + "\n" + l2 + "\n" + "\n" + rest;
    FrameIsLines(event, data, rest);
    ReadFieldLines(event, data, rest);
    calc {
      ReadBlock(frame + rest);
      ReadBlock(s);
      Some((Block(event, data), |frame|));
    }
  }

  /** The frame text is its event line, its data line and an empty line, each ended by a line feed. */
  lemma FrameIsLines(event: string, data: string, rest: string)
    ensures var l1, l2 := "event" + ": " + event, "data" + ": " + data;
            var frame := "event: " + event + "\ndata: " + data + "\n\n";
            && frame + rest == l1 + "\n" + l2 + "\n" + "\n" + rest
            && |frame| == |l1| + |l2| + 3
  {
  }

  lemma ReadFieldLines(event: string, data: string, rest: string)
    requires SingleLine(event) && SingleLine(data)
    ensures var l1, l2 := "event" + ": " + event, "data" + ": " + data;
            ReadBlock(l1 + "\n" + l2 + "\n" + "\n" + rest) == Some((Block(event, data), |l1| + |l2| + 3))
  {
    var l1 := "event" + ": " + event;
    var l2 := "data" + ": " + data;
    var s := l1 + "\n" + l2 + "\n" + "\n" + rest;
    FieldLine("event", event);
    FieldLine("data", data);
    ThreeLines(l1, l2, rest);
    ReadBlockFromLines(s, l1, |l1| + 1, l2, |l1| + |l2| + 2, |l1| + |l2| + 3);
  }

  /** A `name: value` line with a single-line value is a single line, and splits back into its two parts. */
  lemma FieldLine(name: string, value: string)
    requires SingleLine(name) && SingleLine(value)
    requires forall j :: 0 <= j < |name| ==> name[j] != ':'
    ensures SingleLine(name + ": " + value)
    ensures SplitField(name + ": " + value) == (name, value)
  {
    var line := name + ": " + value;
    forall j | 0 <= j < |line|
      ensures !IsLineBreak(line[j])
    {
      if j >= |name| + 2 {
        assert line[j] == value[j - |name| - 2];
      } else if j < |name| {
        assert line[j] == name[j];
      }
    }
    SplitFieldOf(name, value);
  }

  /**
   * A frame reads back as one block carrying the event name and the JSON text
   * exactly, whatever follows it. `json.dumps` never writes a line break, so
   * the data always fits on its single `data:` line.
   */
  lemma ReadBlockOfSse(event: string, data: Json, rest: string)
    requires SingleLine(event)
    requires NumbersPrintable(data)
    ensures ReadBlock(Sse(event, data) + rest) == Some((Block(event, Dumps(data)), |Sse(event, data)|))
  {
    DumpsPrintable(data);
    ReadBlockOfLines(event, Dumps(data), rest);
  }

  /** The blocks a whole stream should read back as: one per frame, in order. */
  function FrameBlocks(frames: seq<(string, Json)>): (bs: seq<Block>)
    ensures |bs| == |frames|
    ensures forall i :: 0 <= i < |frames| ==> bs[i] == Block(frames[i].0, Dumps(frames[i].1))
  {
    seq(|frames|, i requires 0 <= i < |frames| => Block(frames[i].0, Dumps(frames[i].1)))
  }

  lemma FrameBlocksCons(frames: seq<(string, Json)>)
    requires frames != []
    ensures FrameBlocks(frames) == [Block(frames[0].0, Dumps(frames[0].1))] + FrameBlocks(frames[1..])
  {
    var rest := frames[1..];
    var lhs := FrameBlocks(frames);
    var rhs := [Block(frames[0].0, Dumps(frames[0].1))] + FrameBlocks(rest);
    forall i | 0 < i < |frames|
      ensures lhs[i] == rhs[i]
    {
      assert rest[i - 1] == frames[i];
      assert rhs[i] == FrameBlocks(rest)[i - 1];
    }
  }

  /** Once a block is read off the front, reading goes on right after it. */
  lemma ReadBlocksAfter(head: string, tail: string, b: Block)
    requires ReadBlock(head + tail) == Some((b, |head|))
    ensures ReadBlocks(head + tail) == [b] + ReadBlocks(tail)
  {
    assert (head + tail)[|head|..] == tail;
  }

  /** A consumer reading a whole stream recovers every frame, in order. */
  lemma {:induction false} ReadStream(frames: seq<(string, Json)>)
    requires forall i :: 0 <= i < |frames| ==> SingleLine(frames[i].0) && NumbersPrintable(frames[i].1)
    ensures ReadBlocks(Stream(frames)) == FrameBlocks(frames)
  {
    if frames == [] {
      assert ReadLine("", 0).None?;
    } else {
      var rest := frames[1..];
      var head := Sse(frames[0].0, frames[0].1);
      var tail := Stream(rest);
      var b := Block(frames[0].0, Dumps(frames[0].1));
      assert Stream(frames) == head + tail;
      ReadBlockOfSse(frames[0].0, frames[0].1, tail);
      ReadBlocksAfter(head, tail, b);
      assert forall i :: 0 <= i < |rest| ==> rest[i] == frames[i + 1];
      ReadStream(rest);
      FrameBlocksCons(frames);
    }
  }
}
