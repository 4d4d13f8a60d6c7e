/**
 Reassembly of newline-delimited deltas from the engine's byte stream.  The spec reads the
 concatenated bytes; the loop sees them in arbitrary chunks.
 */
module Ndjson {
  import opened Prelude

  type Byte = bv8

  const NEWLINE: Byte := 10

  datatype Delta = Delta(text: string, finish: Option<string>, error: Option<string>)

  /** Outcome of decoding one line: nothing to see, a delta, or undecodable. */
  datatype Parsed = Blank | Good(delta: Delta) | Bad(reason: string)

  datatype Decoded = Text(text: string) | Undecodable(reason: string)

  datatype Json = SomeDelta(delta: Delta) | NoDelta(reason: string)

  /** Decoding of bytes as text, white space, and deltas written as JSON. */
  datatype Reader = Reader(decode: seq<Byte> -> Decoded, white: char -> bool, json: string -> Json)

  /** What the transport yields: bytes, or a read error. */
  datatype Item = Chunk(bytes: seq<Byte>) | Broken(reason: string)

  predicate Terminal(d: Delta) {
    d.finish.Some? || d.error.Some?
  }

  function Failure(reason: string): Delta {
    Delta("", Some("error"), Some(reason))
  }

  const ENDED := "engine stream ended without finish_reason"

  /** Position of the first newline, or the length. */
  function LineEnd(bytes: seq<Byte>): (p: nat)
    ensures p <= |bytes| && (p < |bytes| ==> bytes[p] == NEWLINE)
    ensures forall i :: 0 <= i < p ==> bytes[i] != NEWLINE
  {
    if bytes == [] || bytes[0] == NEWLINE then 0 else 1 + LineEnd(bytes[1..])
  }

  /** The text without white space at its ends. */
  function Trimmed(white: char -> bool, s: string): (r: string)
    ensures r != "" ==> !white(r[0]) && !white(r[|r| - 1])
    ensures |r| <= |s|
    decreases |s|
  {
    if s == "" then ""
    else if white(s[0]) then Trimmed(white, s[1..])
    else if white(s[|s| - 1]) then Trimmed(white, s[..|s| - 1])
    else s
  }

  /** One complete line: text, without white space around it, as JSON. */
  function ReadLine(reader: Reader, line: seq<Byte>): Parsed {
    if line == [] then Blank
    else match reader.decode(line)
      case Undecodable(reason) => Bad(reason)
      case Text(s) =>
        var t := Trimmed(reader.white, s);
        if t == "" then Blank
        else match reader.json(t)
          case NoDelta(reason) => Bad(reason)
          case SomeDelta(d) => Good(d)
  }

  /** Deltas of a byte string that ends, after its last complete line, with failure `last`. */
  function Deltas(reader: Reader, bytes: seq<Byte>, last: string): seq<Delta>
    decreases |bytes|
  {
    var p := LineEnd(bytes);
    if p == |bytes| then [Failure(last)]
    else match ReadLine(reader, bytes[..p])
      case Blank => Deltas(reader, bytes[p + 1..], last)
      case Bad(reason) => [Failure(reason)]
      case Good(d) => if Terminal(d) then [d] else [d] + Deltas(reader, bytes[p + 1..], last)
  }

  /** Bytes that arrive before the first read error. */
  function Joined(items: seq<Item>): seq<Byte> {
    if items == [] || items[0].Broken? then [] else items[0].bytes + Joined(items[1..])
  }

  function LastWords(items: seq<Item>): string {
    if items == [] then ENDED
    else if items[0].Broken? then items[0].reason
    else LastWords(items[1..])
  }

  /** Exactly one terminal delta, and it is the last one. */
  ghost predicate ClosedOnce(ds: seq<Delta>) {
    && ds != [] && Terminal(ds[|ds| - 1])
    && forall i :: 0 <= i < |ds| - 1 ==> !Terminal(ds[i])
  }

  lemma {:induction false} DeltasCloseOnce(reader: Reader, bytes: seq<Byte>, last: string)
    ensures ClosedOnce(Deltas(reader, bytes, last))
    decreases |bytes|
  {
    var p := LineEnd(bytes);
    if p < |bytes| && !ReadLine(reader, bytes[..p]).Bad? {
      DeltasCloseOnce(reader, bytes[p + 1..], last);
    }
  }

  /** More bytes change nothing before them: complete lines are read the same way. */
  lemma LineEndStays(bytes: seq<Byte>, more: seq<Byte>)
    requires LineEnd(bytes) < |bytes|
    ensures LineEnd(bytes + more) == LineEnd(bytes)
  {
    var p, q := LineEnd(bytes), LineEnd(bytes + more);
    assert (bytes + more)[p] == NEWLINE;
    assert q < |bytes| ==> (bytes + more)[q] == bytes[q];
  }

  lemma NextLine(reader: Reader, bytes: seq<Byte>, more: seq<Byte>, last: string)
    requires LineEnd(bytes) < |bytes|
    ensures var p := LineEnd(bytes);
      Deltas(reader, bytes + more, last) == match ReadLine(reader, bytes[..p])
        case Blank => Deltas(reader, bytes[p + 1..] + more, last)
        case Bad(reason) => [Failure(reason)]
        case Good(d) => if Terminal(d) then [d] else [d] + Deltas(reader, bytes[p + 1..] + more, last)
  {
    hide LineEnd;
    LineEndStays(bytes, more);
    var p := LineEnd(bytes);
    assert (bytes + more)[..p] == bytes[..p];
    assert (bytes + more)[p + 1..] == bytes[p + 1..] + more;
  }

  method FindNewline(buf: seq<Byte>) returns (p: nat)
    ensures p == LineEnd(buf)
  {
    p := 0;
    while p < |buf| && buf[p] != NEWLINE
      invariant p <= |buf| && forall i :: 0 <= i < p ==> buf[i] != NEWLINE
    {
      p := p + 1;
    }
    FirstNewline(buf, p);
  }

  lemma FirstNewline(buf: seq<Byte>, p: nat)
    requires p <= |buf| && (p < |buf| ==> buf[p] == NEWLINE)
    requires forall i :: 0 <= i < p ==> buf[i] != NEWLINE
    ensures p == LineEnd(buf)
  {
    var q := LineEnd(buf);
    assert q < |buf| ==> buf[q] == NEWLINE;
  }

  datatype Status = NeedMore | Finished | Gone | Failed(reason: string)

  /** The inner loop: all complete lines of the buffer.  The ghost parameters name the whole stream. */
  method DrainLines(reader: Reader, buf0: seq<Byte>, sent0: seq<Delta>, room: Option<nat>,
                    ghost more: seq<Byte>, ghost last: string, ghost all: seq<Delta>)
    returns (buf: seq<Byte>, sent: seq<Delta>, status: Status)
    requires sent0 + Deltas(reader, buf0 + more, last) == all
    requires room.Some? ==> |sent0| <= room.value
    ensures room.Some? ==> |sent| <= room.value
    ensures match status
      case NeedMore => LineEnd(buf) == |buf| && sent + Deltas(reader, buf + more, last) == all
      case Finished => sent == all
      case Gone => room == Some(|sent|) && |sent| < |all| && sent == all[..|sent|]
      case Failed(reason) => sent + [Failure(reason)] == all
  {
    hide Deltas, LineEnd, ReadLine;
    buf, sent := buf0, sent0;
    var p := FindNewline(buf);
    while p < |buf|
      invariant p == LineEnd(buf)
      invariant sent + Deltas(reader, buf + more, last) == all
      invariant room.Some? ==> |sent| <= room.value
      decreases |buf|
    {
      NextLine(reader, buf, more, last);
      var line := buf[..p];
      buf := buf[p + 1..];
      p := FindNewline(buf);
      match ReadLine(reader, line) {
        case Blank =>
        case Bad(reason) =>
          return buf, sent, Failed(reason);
        case Good(d) =>
          assert all[|sent|] == d;
          if room == Some(|sent|) {
            return buf, sent, Gone;
          }
          sent := sent + [d];
          if Terminal(d) {
            return buf, sent, Finished;
          }
      }
    }
    status := NeedMore;
  }

  /**
   The stream loop.  `room` is how many deltas the receiver takes before it goes away, if it
   does.  What is delivered depends only on the concatenated bytes and on how they end: all of
   it, or its first `room` deltas.  The engine is cancelled only for a receiver that went away.
   */
  method GenerateStream(reader: Reader, items: seq<Item>, room: Option<nat>)
    returns (sent: seq<Delta>, cancelled: bool)
    ensures Delivered(Deltas(reader, Joined(items), LastWords(items)), sent, cancelled, room)
  {
    hide Deltas, LineEnd, Joined, LastWords, Delivered;
    ghost var last := LastWords(items);
    ghost var all := Deltas(reader, Joined(items), last);
    var buf: seq<Byte> := [];
    sent, cancelled := [], false;
    var k := 0;
    assert items[0..] == items && [] + Joined(items) == Joined(items);
    NoBytes();
    while k < |items|
      invariant 0 <= k <= |items| && !cancelled
      invariant LineEnd(buf) == |buf|
      invariant LastWords(items[k..]) == last
      invariant sent + Deltas(reader, buf + Joined(items[k..]), last) == all
      invariant room.Some? ==> |sent| <= room.value
    {
      NextItem(items, k, buf);
      if items[k].Broken? {
        NoLine(reader, buf, last);
        sent := Close(sent, items[k].reason, room, all);
        return;
      }
      ghost var rest := Joined(items[k + 1..]);
      var status;
      buf, sent, status := DrainLines(reader, buf + items[k].bytes, sent, room, rest, last, all);
      k := k + 1;
      match status {
        case NeedMore =>
        case Finished =>
          AllDelivered(all, sent, room);
          return;
        case Gone =>
          FrontDelivered(all, sent, room);
          return sent, true;
        case Failed(reason) =>
          sent := Close(sent, reason, room, all);
          return;
      }
    }
    NoItem(items, k, buf);
    NoLine(reader, buf, last);
    sent := Close(sent, ENDED, room, all);
  }

  /** All deltas, or the first `room` of them; the engine is cancelled for a receiver that left early. */
  ghost predicate Delivered(all: seq<Delta>, sent: seq<Delta>, cancelled: bool, room: Option<nat>) {
    && sent == (if room.Some? && room.value < |all| then all[..room.value] else all)
    && (cancelled ==> room.Some? && room.value < |all|)
    && (room.Some? && room.value + 1 < |all| ==> cancelled)
  }

  lemma AllDelivered(all: seq<Delta>, sent: seq<Delta>, room: Option<nat>)
    requires sent == all && (room.Some? ==> |sent| <= room.value)
    ensures Delivered(all, sent, false, room)
  {
  }

  lemma FrontDelivered(all: seq<Delta>, sent: seq<Delta>, room: Option<nat>)
    requires room == Some(|sent|) && |sent| < |all| && sent == all[..|sent|]
    ensures Delivered(all, sent, true, room)
  {
  }

  /** The bytes and the last words from item `k` on. */
  lemma NextItem(items: seq<Item>, k: nat, buf: seq<Byte>)
    requires k < |items|
    ensures buf + Joined(items[k..])
         == if items[k].Broken? then buf else buf + items[k].bytes + Joined(items[k + 1..])
    ensures LastWords(items[k..]) == if items[k].Broken? then items[k].reason else LastWords(items[k + 1..])
  {
    assert items[k..][1..] == items[k + 1..];
    if !items[k].Broken? {
      assert buf + items[k].bytes + Joined(items[k + 1..]) == buf + (items[k].bytes + Joined(items[k + 1..]));
    }
  }

  lemma NoBytes()
    ensures LineEnd([]) == 0
  {
  }

  lemma NoItem(items: seq<Item>, k: nat, buf: seq<Byte>)
    requires k == |items|
    ensures buf + Joined(items[k..]) == buf && LastWords(items[k..]) == ENDED
  {
  }

  lemma NoLine(reader: Reader, buf: seq<Byte>, last: string)
    requires LineEnd(buf) == |buf|
    ensures Deltas(reader, buf, last) == [Failure(last)]
  {
  }

  /** The closing failure is sent if the receiver still takes it. */
  method Close(sent: seq<Delta>, reason: string, room: Option<nat>, ghost all: seq<Delta>) returns (r: seq<Delta>)
    requires sent + [Failure(reason)] == all && (room.Some? ==> |sent| <= room.value)
    ensures r == if room == Some(|sent|) then sent else sent + [Failure(reason)]
    ensures Delivered(all, r, false, room)
  {
    r := sent;
    if room != Some(|sent|) {
      r := r + [Failure(reason)];
    }
  }

  // ---------------------------------------------------------------- line by line

  /** Nothing but white space. */
  ghost predicate AllWhite(white: char -> bool, s: string) {
    forall i :: 0 <= i < |s| ==> white(s[i])
  }

  /** `t` is the inner part of `s`: only white space around it, none at its ends. */
  ghost predicate Inner(white: char -> bool, s: string, t: string) {
    t != "" && !white(t[0]) && !white(t[|t| - 1]) && exists i :: InnerAt(white, s, t, i)
  }

  ghost predicate InnerAt(white: char -> bool, s: string, t: string, i: int) {
    && 0 <= i <= i + |t| <= |s| && s[i..i + |t|] == t
    && (forall j :: 0 <= j < i ==> white(s[j])) && (forall j :: i + |t| <= j < |s| ==> white(s[j]))
  }

  lemma {:induction false} TrimExactly(white: char -> bool, s: string)
    ensures Trimmed(white, s) == "" <==> AllWhite(white, s)
    ensures Trimmed(white, s) != "" ==> Inner(white, s, Trimmed(white, s))
    decreases |s|
  {
    var t := Trimmed(white, s);
    if s != "" && white(s[0]) {
      TrimExactly(white, s[1..]);
      if t != "" {
        var i :| InnerAt(white, s[1..], t, i);
        TrimFront(white, s, t, i);
      }
    } else if s != "" && white(s[|s| - 1]) {
      TrimExactly(white, s[..|s| - 1]);
      if t != "" {
        var i :| InnerAt(white, s[..|s| - 1], t, i);
        TrimBack(white, s, t, i);
      }
    } else if s != "" {
      assert InnerAt(white, s, s, 0);
    }
  }

  lemma TrimFront(white: char -> bool, s: string, t: string, i: int)
    requires s != "" && white(s[0]) && InnerAt(white, s[1..], t, i)
    ensures InnerAt(white, s, t, i + 1)
  {
    assert s[i + 1..i + 1 + |t|] == s[1..][i..i + |t|];
  }

  lemma TrimBack(white: char -> bool, s: string, t: string, i: int)
    requires s != "" && white(s[|s| - 1]) && InnerAt(white, s[..|s| - 1], t, i)
    ensures InnerAt(white, s, t, i)
  {
    assert s[i..i + |t|] == s[..|s| - 1][i..i + |t|];
  }

  /** A delta and what follows it, which is nothing if it ends the stream. */
  ghost function Heard(j: Json, rest: seq<Delta>): seq<Delta> {
    match j
    case NoDelta(reason) => [Failure(reason)]
    case SomeDelta(d) => if d.finish.Some? || d.error.Some? then [d] else [d] + rest
  }

  /**
   The stream, line by line: an empty or white line is skipped; a line that is no text or no delta
   ends the stream with an error; a delta is passed on, and the last one is the first that carries
   a finish reason or an error; bytes without a newline are an interrupted stream.
   */
  lemma LineIsRead(reader: Reader, line: seq<Byte>, rest: seq<Byte>, last: string)
    requires forall i :: 0 <= i < |line| ==> line[i] != NEWLINE
    ensures Deltas(reader, line, last) == [Failure(last)]
    ensures var all, d := Deltas(reader, line + [NEWLINE] + rest, last), reader.decode(line);
      && (line == [] ==> all == Deltas(reader, rest, last))
      && (line != [] && d.Undecodable? ==> all == [Failure(d.reason)])
      && (line != [] && d.Text? && AllWhite(reader.white, d.text) ==> all == Deltas(reader, rest, last))
      && (line != [] && d.Text? && !AllWhite(reader.white, d.text) ==>
            exists t :: Inner(reader.white, d.text, t) && all == Heard(reader.json(t), Deltas(reader, rest, last)))
  {
    hide Trimmed, LineEnd, Inner;
    var bytes := line + [NEWLINE] + rest;
    EndOfLine(line, rest);
    assert bytes[..|line|] == line && bytes[|line| + 1..] == rest;
    if reader.decode(line).Text? {
      TrimExactly(reader.white, reader.decode(line).text);
    }
  }

  lemma EndOfLine(line: seq<Byte>, rest: seq<Byte>)
    requires forall i :: 0 <= i < |line| ==> line[i] != NEWLINE
    ensures LineEnd(line) == |line| && LineEnd(line + [NEWLINE] + rest) == |line|
  {
    var bytes := line + [NEWLINE] + rest;
    assert bytes[|line|] == NEWLINE;
    assert forall i :: 0 <= i < |line| ==> bytes[i] == line[i];
  }

  /** Any two ways of cutting the same bytes, with the same end, deliver the same deltas. */
  lemma {:induction false} CutAnywhere(chunks: seq<seq<Byte>>, end: seq<Item>)
    requires end == [] || end[0].Broken?
    ensures var items := seq(|chunks|, i requires 0 <= i < |chunks| => Chunk(chunks[i])) + end;
      Joined(items) == Concat(chunks) && LastWords(items) == LastWords(end)
  {
    var items := seq(|chunks|, i requires 0 <= i < |chunks| => Chunk(chunks[i])) + end;
    if chunks == [] {
      assert items == end;
    } else {
      var rest := chunks[1..];
      var items' := seq(|rest|, i requires 0 <= i < |rest| => Chunk(rest[i])) + end;
      CutAnywhere(rest, end);
      assert items[1..] == items';
      assert items[0] == Chunk(chunks[0]);
    }
  }

  function Concat(chunks: seq<seq<Byte>>): seq<Byte> {
    if chunks == [] then [] else chunks[0] + Concat(chunks[1..])
  }

  lemma LastByte(bytes: seq<Byte>)
    requires bytes != [] && bytes[|bytes| - 1] == NEWLINE
    ensures LineEnd(bytes) < |bytes|
  {
  }

  /**
   A finish the engine itself sent is delivered exactly when its line was completed: bytes
   without a newline are never read, whatever they say.
   */
  lemma {:induction false} UnfinishedLineIgnored(reader: Reader, bytes: seq<Byte>, tail: seq<Byte>,
                                                 last: string)
    requires bytes == [] || bytes[|bytes| - 1] == NEWLINE
    requires LineEnd(tail) == |tail|
    ensures Deltas(reader, bytes + tail, last) == Deltas(reader, bytes, last)
    decreases |bytes|
  {
    hide Deltas, LineEnd;
    if bytes == [] {
      assert bytes + tail == tail;
      NoLine(reader, tail, last);
      NoLine(reader, bytes, last);
    } else {
      var p := LineEnd(bytes);
      LastByte(bytes);
      NextLine(reader, bytes, tail, last);
      assert bytes + [] == bytes && bytes[p + 1..] + [] == bytes[p + 1..];
      NextLine(reader, bytes, [], last);
      UnfinishedLineIgnored(reader, bytes[p + 1..], tail, last);
    }
  }
}
