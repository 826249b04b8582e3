/** The text/event-stream decoder: bytes to lines to event payloads. */
module EventStream {
  import opened Prelude

  newtype byte = x: int | 0 <= x < 256

  const LF: byte := 10
  const CR: byte := 13
  const SPACE: byte := 32
  const COLON: byte := 58
  const DATA: seq<byte> := [100, 97, 116, 97] // "data"

  /** No line and no event may be longer than this. */
  const MAX_EVENT_BYTES := 0x200_0000

  // ----- lines -----

  ghost predicate NoTerminator(s: seq<byte>) { forall i | 0 <= i < |s| :: s[i] != LF && s[i] != CR }

  /** How many bytes come before the first line terminator. */
  function LineLength(bs: seq<byte>): (n: nat)
    ensures n <= |bs|
    ensures NoTerminator(bs[..n])
    ensures n < |bs| ==> bs[n] == LF || bs[n] == CR
  {
    if bs == [] || bs[0] == LF || bs[0] == CR then 0 else 1 + LineLength(bs[1..])
  }

  /** What follows the terminator at n: CR LF is one terminator. */
  function AfterLine(bs: seq<byte>, n: nat): (rest: seq<byte>)
    requires n < |bs|
    ensures |rest| < |bs|
  {
    if bs[n] == CR && n + 1 < |bs| && bs[n + 1] == LF then bs[n + 2..] else bs[n + 1..]
  }

  /** Why no further line comes: the body ended, its reader broke, or a line grew too long. */
  datatype LineEnd = Eof | ReaderBroke | LineTooLong

  /** The lines of a body, and why there are no more. A final line without terminator counts as a line
      when the body ends, and is lost when the reader breaks. */
  function Lines(bs: seq<byte>, breaks: bool): (seq<seq<byte>>, LineEnd)
    decreases |bs|
  {
    var n := LineLength(bs);
    if n > MAX_EVENT_BYTES then ([], LineTooLong)
    else if n < |bs| then
      var (ls, end) := Lines(AfterLine(bs, n), breaks);
      ([bs[..n]] + ls, end)
    else if breaks then ([], ReaderBroke)
    else (if bs == [] then [] else [bs], Eof)
  }

  // ----- events -----

  function IndexOf(b: byte, s: seq<byte>): (n: nat)
    ensures n <= |s| && b !in s[..n]
    ensures n < |s| ==> s[n] == b
  {
    if s == [] || s[0] == b then 0
    else
      var n := 1 + IndexOf(b, s[1..]);
      assert s[..n] == [s[0]] + s[1..][..n - 1];
      n
  }

  /** The value of a "data" line, without the one optional space after the colon. */
  function DataField(line: seq<byte>): Option<seq<byte>> {
    var n := IndexOf(COLON, line);
    if line[..n] != DATA then None
    else if n == |line| then Some([])
    else
      var value := line[n + 1..];
      Some(if value != [] && value[0] == SPACE then value[1..] else value)
  }

  function DataFields(block: seq<seq<byte>>): seq<seq<byte>> {
    if block == [] then []
    else
      (match DataField(block[0]) case Some(v) => [v] case None => []) + DataFields(block[1..])
  }

  /** Pieces joined by LF. */
  function Join(pieces: seq<seq<byte>>): seq<byte> {
    if pieces == [] then []
    else if |pieces| == 1 then pieces[0]
    else Join(pieces[..|pieces| - 1]) + [LF] + pieces[|pieces| - 1]
  }

  /** The runs of lines between blank lines; n blank lines give n + 1 blocks. */
  function Blocks(ls: seq<seq<byte>>): (r: seq<seq<seq<byte>>>)
    ensures |r| >= 1
  {
    if ls == [] then [[]]
    else
      var rest := Blocks(ls[1..]);
      if ls[0] == [] then [[]] + rest else [[ls[0]] + rest[0]] + rest[1..]
  }

  /** How a body ended: cleanly, with its last event unterminated (but delivered), or in a failure. */
  datatype Ending = Clean | Trailing | Broken | LineOverflow | EventOverflow

  /** The events of a body: one per block that has data, in order. The last block has no blank line after it. */
  function Events(blocks: seq<seq<seq<byte>>>, end: LineEnd): (seq<seq<byte>>, Ending)
    requires |blocks| >= 1
  {
    var fields := DataFields(blocks[0]);
    if |Join(fields)| > MAX_EVENT_BYTES then ([], EventOverflow)
    else if |blocks| > 1 then
      var (es, e) := Events(blocks[1..], end);
      ((if fields == [] then [] else [Join(fields)]) + es, e)
    else
      match end
      case ReaderBroke => ([], Broken)
      case LineTooLong => ([], LineOverflow)
      case Eof => if fields == [] then ([], Clean) else ([Join(fields)], Trailing)
  }

  /** What a body decodes to. */
  function Decoded(bs: seq<byte>, breaks: bool): (seq<seq<byte>>, Ending) {
    var (ls, end) := Lines(bs, breaks);
    Events(Blocks(ls), end)
  }

  // ----- the program -----

  datatype ByteRead = Byte(b: byte) | NoByte(broke: bool)
  datatype LineRead = Line(text: seq<byte>) | NoLine(why: LineEnd)
  datatype EventRead = Event(data: seq<byte>) | LastEvent(data: seq<byte>) | NoEvent(why: Ending)

  class SseReader {
    var body: seq<byte>   // bytes the underlying reader has yet to give
    const breaks: bool    // whether it fails at its end instead of ending
    var skipLF: bool      // the previous line ended in CR: drop a following LF
    var eof: bool

    constructor (body: seq<byte>, breaks: bool)
      ensures this.breaks == breaks && Valid() && Pending() == body
    {
      this.body := body;
      this.breaks := breaks;
      skipLF, eof := false, false;
    }

    ghost predicate Valid()
      reads this
    {
      eof ==> body == [] && !breaks
    }

    /** The bytes that still count: a LF owed to a CR before it does not. */
    ghost function Pending(): seq<byte>
      reads this
    {
      if skipLF && body != [] && body[0] == LF then body[1..] else body
    }

    method ReadByte() returns (r: ByteRead)
      modifies this`body
      ensures old(body) == [] ==> r == NoByte(breaks) && body == []
      ensures old(body) != [] ==> r == Byte(old(body)[0]) && body == old(body)[1..]
    {
      if body == [] {
        r := NoByte(breaks);
      } else {
        r := Byte(body[0]);
        body := body[1..];
      }
    }

    /** The terminator b of a line was just read. */
    lemma EndOfLine(whole: seq<byte>, buf: seq<byte>, b: byte)
      requires whole == buf + ([b] + body) && (b == LF || b == CR) && skipLF == (b == CR)
      requires NoTerminator(buf) && |buf| <= MAX_EVENT_BYTES
      ensures Lines(whole, breaks) == ([buf] + Lines(Pending(), breaks).0, Lines(Pending(), breaks).1)
      ensures |Pending()| < |whole|
    {
      hide Lines, LineLength, AfterLine, NoTerminator;
      LinesAtTerminator(whole, buf, [b] + body, breaks);
      assert ([b] + body)[1..] == body;
      assert |body| > 0 ==> ([b] + body)[2..] == body[1..];
    }

    /** Reads one line without its terminator. */
    method ReadLine() returns (r: LineRead)
      requires Valid()
      modifies this
      ensures Valid()
      ensures r.Line? ==>
                Lines(old(Pending()), breaks) == ([r.text] + Lines(Pending(), breaks).0, Lines(Pending(), breaks).1)
      ensures r.Line? ==> |Pending()| < |old(Pending())|
      ensures r.NoLine? ==> Lines(old(Pending()), breaks) == ([], r.why)
      ensures r == NoLine(Eof) ==> body == [] && !breaks
    {
      assert NoTerminator([]);
      hide Lines, LineLength, AfterLine, NoTerminator;
      ghost var whole := Pending();
      if eof {
        LinesAtEnd(whole, [], breaks);
        return NoLine(Eof);
      }
      var buf: seq<byte> := [];
      while true
        invariant Valid() && !eof
        invariant |buf| <= MAX_EVENT_BYTES && NoTerminator(buf)
        invariant skipLF ==> buf == [] && whole == Pending()
        invariant !skipLF ==> whole == buf + body
        decreases |body|
      {
        ghost var ahead := body;
        var next := ReadByte();
        if next.NoByte? {
          LinesAtEnd(whole, buf, breaks);
          if next.broke {
            return NoLine(ReaderBroke);
          }
          eof := true;
          if |buf| > 0 {
            LinesAtEnd([], [], breaks);
            assert [buf] + [] == [buf];
            return Line(buf);
          }
          return NoLine(Eof);
        }
        var b := next.b;
        assert ahead == [b] + body && ahead[1..] == body;
        if skipLF {
          skipLF := false;
          if b == LF {
            continue;
          }
        }
        assert whole == buf + ([b] + body);
        if b == LF {
          EndOfLine(whole, buf, b);
          return Line(buf);
        }
        if b == CR {
          skipLF := true;
          EndOfLine(whole, buf, b);
          return Line(buf);
        }
        OneMoreByte(buf, b, body);
        buf := buf + [b];
        if |buf| > MAX_EVENT_BYTES {
          LineTooLongFrom(whole, buf, body, breaks);
          return NoLine(LineTooLong);
        }
      }
    }

    /** A line's field name and its value, without the one optional space before it. */
    static method CutField(line: seq<byte>) returns (field: seq<byte>, value: seq<byte>)
      ensures DataField(line) == if field == DATA then Some(value) else None
    {
      var n := IndexOf(COLON, line);
      field, value := line[..n], if n < |line| then line[n + 1..] else [];
      if |value| > 0 && value[0] == SPACE {
        value := value[1..];
      }
    }

    /** Reads one event's data. */
    method Next() returns (r: EventRead)
      requires Valid()
      modifies this
      ensures Valid()
      ensures r.Event? ==>
                Decoded(old(Pending()), breaks) ==
                ([r.data] + Decoded(Pending(), breaks).0, Decoded(Pending(), breaks).1)
      ensures r.Event? ==> |Pending()| < |old(Pending())|
      ensures r.LastEvent? ==> Decoded(old(Pending()), breaks) == ([r.data], Trailing) && body == [] && !breaks
      ensures r.NoEvent? ==> Decoded(old(Pending()), breaks) == ([], r.why)
    {
      hide Lines, Blocks, Events, DataFields, Join, DataField;
      ghost var goal := Decoded(Pending(), breaks);
      ghost var seen: seq<seq<byte>> := [];
      var data: seq<byte> := [];
      var hasData := false;
      NoFields();
      assert [] + Lines(Pending(), breaks).0 == Lines(Pending(), breaks).0;
      while true
        invariant Valid() && |Pending()| <= |old(Pending())|
        invariant goal == Events(Blocks(seen + Lines(Pending(), breaks).0), Lines(Pending(), breaks).1)
        invariant [] !in seen
        invariant data == Join(DataFields(seen)) && hasData == (DataFields(seen) != [])
        invariant |data| <= MAX_EVENT_BYTES
        decreases |Pending()|
      {
        var got := ReadLine();
        if got.NoLine? {
          EndOfBody(seen, got.why);
          match got.why {
            case ReaderBroke => return NoEvent(Broken);
            case LineTooLong => return NoEvent(LineOverflow);
            case Eof => return if hasData then LastEvent(data) else NoEvent(Clean);
          }
        }
        var line := got.text;
        ghost var ls, end := Lines(Pending(), breaks).0, Lines(Pending(), breaks).1;
        if |line| == 0 {
          BlankLine(seen, ls, end);
          if hasData {
            return Event(data);
          }
          seen := [];
          NoFields();
          assert [] + ls == ls;
          continue;
        }
        assert seen + ([line] + ls) == (seen + [line]) + ls;
        DataFieldsSnoc(seen, line);
        seen := seen + [line];
        if line[0] == COLON {
          CommentLine(line);
          continue;
        }
        var field, value := CutField(line);
        if field != DATA {
          continue;
        }
        if hasData {
          data := data + [LF];
        }
        hasData := true;
        data := data + value;
        if |data| > MAX_EVENT_BYTES {
          Overflow(seen, ls, end);
          return NoEvent(EventOverflow);
        }
      }
    }

    /** Drains the body, as the conversation's read loop does. */
    method ReadAll() returns (events: seq<seq<byte>>, ending: Ending)
      requires Valid()
      modifies this
      ensures (events, ending) == old(Decoded(Pending(), breaks))
    {
      hide Decoded;
      ghost var goal := Decoded(Pending(), breaks);
      events := [];
      assert [] + goal.0 == goal.0;
      while true
        invariant Valid()
        invariant goal == (events + Decoded(Pending(), breaks).0, Decoded(Pending(), breaks).1)
        decreases |Pending()|
      {
        var r := Next();
        match r {
          case Event(data) =>
            ghost var es := Decoded(Pending(), breaks).0;
            assert events + ([data] + es) == (events + [data]) + es;
            events := events + [data];
          case LastEvent(data) =>
            return events + [data], Trailing;
          case NoEvent(why) =>
            assert events + [] == events;
            return events, why;
        }
      }
    }
  }

  lemma {:induction false} LineLengthFrom(whole: seq<byte>, buf: seq<byte>, rest: seq<byte>)
    requires whole == buf + rest
    requires NoTerminator(buf)
    ensures LineLength(whole) == |buf| + LineLength(rest)
  {
    if buf == [] {
      assert whole == rest;
    } else {
      assert whole[1..] == buf[1..] + rest;
      LineLengthFrom(whole[1..], buf[1..], rest);
    }
  }

  lemma OneMoreByte(buf: seq<byte>, b: byte, rest: seq<byte>)
    requires NoTerminator(buf) && b != LF && b != CR
    ensures NoTerminator(buf + [b]) && buf + ([b] + rest) == buf + [b] + rest
  {
  }

  lemma LineSplit(whole: seq<byte>, buf: seq<byte>, rest: seq<byte>)
    requires whole == buf + rest && (rest == [] || rest[0] == LF || rest[0] == CR)
    requires NoTerminator(buf)
    ensures LineLength(whole) == |buf|
    ensures whole[..|buf|] == buf
    ensures rest != [] ==> AfterLine(whole, |buf|) == AfterLine(rest, 0)
  {
    LineLengthFrom(whole, buf, rest);
    if rest != [] {
      AfterLineShift(buf, rest);
    }
  }

  lemma AfterLineShift(buf: seq<byte>, rest: seq<byte>)
    requires rest != []
    ensures AfterLine(buf + rest, |buf|) == AfterLine(rest, 0)
  {
    var whole := buf + rest;
    assert whole[|buf|] == rest[0];
    assert whole[|buf| + 1..] == rest[1..];
    if |rest| > 1 {
      assert whole[|buf| + 1] == rest[1];
      assert whole[|buf| + 2..] == rest[2..];
    }
  }

  lemma LinesAtTerminator(whole: seq<byte>, buf: seq<byte>, rest: seq<byte>, breaks: bool)
    requires whole == buf + rest && rest != [] && (rest[0] == LF || rest[0] == CR)
    requires NoTerminator(buf)
    requires |buf| <= MAX_EVENT_BYTES
    ensures var after := if rest[0] == CR && |rest| > 1 && rest[1] == LF then rest[2..] else rest[1..];
            && Lines(whole, breaks) == ([buf] + Lines(after, breaks).0, Lines(after, breaks).1)
            && |after| < |whole|
  {
    LineSplit(whole, buf, rest);
  }

  lemma LinesAtEnd(whole: seq<byte>, buf: seq<byte>, breaks: bool)
    requires whole == buf && |buf| <= MAX_EVENT_BYTES
    requires NoTerminator(buf)
    ensures Lines(whole, breaks) ==
            if breaks then ([], ReaderBroke) else (if buf == [] then [] else [buf], Eof)
  {
    LineSplit(whole, buf, []);
  }

  lemma LinesTooLong(whole: seq<byte>, breaks: bool)
    requires LineLength(whole) > MAX_EVENT_BYTES
    ensures Lines(whole, breaks) == ([], LineTooLong)
  {
  }

  lemma LineTooLongFrom(whole: seq<byte>, buf: seq<byte>, rest: seq<byte>, breaks: bool)
    requires whole == buf + rest && NoTerminator(buf) && |buf| > MAX_EVENT_BYTES
    ensures Lines(whole, breaks) == ([], LineTooLong)
  {
    LineLengthFrom(whole, buf, rest);
    LinesTooLong(whole, breaks);
  }

  // ----- blocks, line by line -----

  /** A body that gives no further line ends in the middle of the block `seen`. */
  lemma EndOfBody(seen: seq<seq<byte>>, end: LineEnd)
    requires [] !in seen && |Join(DataFields(seen))| <= MAX_EVENT_BYTES
    ensures var fields := DataFields(seen);
            Events(Blocks(seen + []), end) ==
            match end
            case ReaderBroke => ([], Broken)
            case LineTooLong => ([], LineOverflow)
            case Eof => if fields == [] then ([], Clean) else ([Join(fields)], Trailing)
  {
    BlocksOfBlock(seen);
    assert seen + [] == seen;
  }

  lemma Overflow(seen: seq<seq<byte>>, ls: seq<seq<byte>>, end: LineEnd)
    requires [] !in seen && |Join(DataFields(seen))| > MAX_EVENT_BYTES
    ensures Events(Blocks(seen + ls), end) == ([], EventOverflow)
  {
    BlocksOfPrefix(seen, ls);
    DataFieldsConcat(seen, Blocks(ls)[0]);
    JoinGrows(DataFields(seen), DataFields(Blocks(ls)[0]));
  }

  lemma BlankLine(seen: seq<seq<byte>>, ls: seq<seq<byte>>, end: LineEnd)
    requires [] !in seen && |Join(DataFields(seen))| <= MAX_EVENT_BYTES
    ensures Events(Blocks(seen + ([[]] + ls)), end) ==
            var (es, e) := Events(Blocks(ls), end);
            if DataFields(seen) == [] then (es, e) else ([Join(DataFields(seen))] + es, e)
  {
    BlocksAtBlank(seen, ls);
    assert seen + ([[]] + ls) == seen + [[]] + ls;
    assert ([seen] + Blocks(ls))[1..] == Blocks(ls);
    assert forall es: seq<seq<byte>> :: [] + es == es;
  }

  lemma {:induction false} BlocksOfPrefix(seen: seq<seq<byte>>, ls: seq<seq<byte>>)
    requires [] !in seen
    ensures Blocks(seen + ls) == [seen + Blocks(ls)[0]] + Blocks(ls)[1..]
  {
    if seen == [] {
      assert seen + ls == ls;
      assert seen + Blocks(ls)[0] == Blocks(ls)[0];
    } else {
      assert (seen + ls)[1..] == seen[1..] + ls;
      BlocksOfPrefix(seen[1..], ls);
      assert [seen[0]] + (seen[1..] + Blocks(ls)[0]) == seen + Blocks(ls)[0];
    }
  }

  lemma BlocksOfBlock(seen: seq<seq<byte>>)
    requires [] !in seen
    ensures Blocks(seen) == [seen]
  {
    BlocksOfPrefix(seen, []);
    assert seen + [] == seen;
    assert [seen] + [] == [seen];
  }

  lemma BlocksAtBlank(seen: seq<seq<byte>>, ls: seq<seq<byte>>)
    requires [] !in seen
    ensures Blocks(seen + [[]] + ls) == [seen] + Blocks(ls)
  {
    var tail := [[]] + ls;
    assert tail[1..] == ls;
    assert Blocks(tail) == [[]] + Blocks(ls);
    BlocksOfPrefix(seen, tail);
    assert seen + [[]] + ls == seen + tail;
    assert seen + [] == seen;
  }

  lemma {:induction false} DataFieldsConcat(a: seq<seq<byte>>, b: seq<seq<byte>>)
    ensures DataFields(a + b) == DataFields(a) + DataFields(b)
  {
    if a == [] {
      assert a + b == b;
    } else {
      assert (a + b)[1..] == a[1..] + b;
      DataFieldsConcat(a[1..], b);
    }
  }

  lemma DataFieldsSnoc(seen: seq<seq<byte>>, line: seq<byte>)
    ensures DataFields(seen + [line]) ==
            match DataField(line) case None => DataFields(seen) case Some(v) => DataFields(seen) + [v]
    ensures DataField(line).Some? ==>
              var v := DataField(line).value;
              Join(DataFields(seen + [line])) ==
              if DataFields(seen) == [] then v else Join(DataFields(seen)) + [LF] + v
  {
    DataFieldsConcat(seen, [line]);
    assert [line][1..] == [];
    if DataField(line).Some? {
      var all := DataFields(seen) + [DataField(line).value];
      assert all[..|all| - 1] == DataFields(seen);
    }
  }

  lemma NoFields()
    ensures DataFields([]) == [] && Join([]) == []
  {
  }

  lemma CommentLine(line: seq<byte>)
    requires line != [] && line[0] == COLON
    ensures DataField(line).None?
  {
    assert IndexOf(COLON, line) == 0;
  }

  lemma {:induction false} JoinGrows(a: seq<seq<byte>>, b: seq<seq<byte>>)
    ensures |Join(a)| <= |Join(a + b)|
  {
    if b == [] {
      assert a + b == a;
    } else {
      var front := b[..|b| - 1];
      JoinGrows(a, front);
      assert (a + b)[..|a + b| - 1] == a + front;
      if a + front == [] {
        assert a == [];
      }
    }
  }

  // ----- line terminators do not matter -----

  /** The body with every CR LF and every lone CR replaced by LF. */
  function Normalised(bs: seq<byte>): seq<byte>
    decreases |bs|
  {
    if bs == [] then []
    else if bs[0] == CR then [LF] + Normalised(AfterLine(bs, 0))
    else [bs[0]] + Normalised(bs[1..])
  }

  lemma AfterLineCons(x: byte, bs: seq<byte>, n: nat)
    requires n < |bs|
    ensures AfterLine([x] + bs, n + 1) == AfterLine(bs, n)
  {
    var all := [x] + bs;
    assert all[n + 2..] == bs[n + 1..];
    if n + 1 < |bs| {
      assert all[n + 3..] == bs[n + 2..];
    }
  }

  lemma {:induction false} NormalisedLine(bs: seq<byte>, n: nat)
    requires n == LineLength(bs)
    ensures LineLength(Normalised(bs)) == n && Normalised(bs)[..n] == bs[..n]
    ensures n == |bs| <==> n == |Normalised(bs)|
    ensures n < |bs| ==> AfterLine(Normalised(bs), n) == Normalised(AfterLine(bs, n))
    decreases |bs|
  {
    if bs == [] {
    } else if n == 0 {
      assert Normalised(bs) == [LF] + Normalised(AfterLine(bs, 0)) by {
        if bs[0] == LF {
          assert bs[1..] == AfterLine(bs, 0);
        }
      }
      assert ([LF] + Normalised(AfterLine(bs, 0)))[1..] == Normalised(AfterLine(bs, 0));
    } else {
      var x, rest := bs[0], bs[1..];
      NormalisedLine(rest, n - 1);
      NormalisedCons(x, rest, n - 1);
      assert [x] + rest == bs;
    }
  }

  lemma PlainCons(x: byte, s: seq<byte>)
    requires x != LF && x != CR
    ensures LineLength([x] + s) == 1 + LineLength(s)
    ensures Normalised([x] + s) == [x] + Normalised(s)
  {
    assert ([x] + s)[1..] == s;
  }

  lemma NormalisedCons(x: byte, rest: seq<byte>, m: nat)
    requires x != LF && x != CR && m <= |rest|
    requires LineLength(Normalised(rest)) == m && Normalised(rest)[..m] == rest[..m]
    ensures var bs := [x] + rest;
            && Normalised(bs) == [x] + Normalised(rest)
            && LineLength(Normalised(bs)) == m + 1 && Normalised(bs)[..m + 1] == bs[..m + 1]
            && (m < |Normalised(rest)| ==> AfterLine(Normalised(bs), m + 1) == AfterLine(Normalised(rest), m))
            && (m < |rest| ==> AfterLine(bs, m + 1) == AfterLine(rest, m))
  {
    hide Normalised, LineLength, AfterLine;
    var nr := Normalised(rest);
    PlainCons(x, rest);
    PlainCons(x, nr);
    assert ([x] + nr)[..m + 1] == [x] + nr[..m];
    assert ([x] + rest)[..m + 1] == [x] + rest[..m];
    if m < |nr| { AfterLineCons(x, nr, m); }
    if m < |rest| { AfterLineCons(x, rest, m); }
  }

  /** A body decodes the same however its lines are terminated. */
  lemma {:induction false} TerminatorsAreEqual(bs: seq<byte>, breaks: bool)
    ensures Lines(Normalised(bs), breaks) == Lines(bs, breaks)
    ensures Decoded(Normalised(bs), breaks) == Decoded(bs, breaks)
    decreases |bs|
  {
    var n := LineLength(bs);
    NormalisedLine(bs, n);
    if n < |bs| {
      TerminatorsAreEqual(AfterLine(bs, n), breaks);
    } else {
      assert bs[..n] == bs && Normalised(bs)[..n] == Normalised(bs);
    }
  }

  // ----- framing round trip -----

  /** The pieces of a payload between LFs. */
  function SplitLF(p: seq<byte>): (r: seq<seq<byte>>)
    ensures |r| >= 1
  {
    if p == [] then [[]]
    else
      var rest := SplitLF(p[1..]);
      if p[0] == LF then [[]] + rest else [[p[0]] + rest[0]] + rest[1..]
  }

  const DATA_PREFIX: seq<byte> := DATA + [COLON, SPACE]

  function FrameLines(pieces: seq<seq<byte>>): seq<byte> {
    if pieces == [] then [] else DATA_PREFIX + pieces[0] + [LF] + FrameLines(pieces[1..])
  }

  /** One event on the wire: a data line per line of the payload, and a blank line. */
  function Frame(p: seq<byte>): seq<byte> { FrameLines(SplitLF(p)) + [LF] }

  function FrameAll(ps: seq<seq<byte>>): seq<byte> {
    if ps == [] then [] else Frame(ps[0]) + FrameAll(ps[1..])
  }

  /** A payload whose lines fit the size cap with their field names, and without a CR to be taken for a line end. */
  predicate LinesFit(p: seq<byte>) {
    CR !in p && forall piece | piece in SplitLF(p) :: |piece| + |DATA_PREFIX| <= MAX_EVENT_BYTES
  }

  /** A payload that fits the size cap, with every line. */
  predicate Framable(p: seq<byte>) { LinesFit(p) && |p| <= MAX_EVENT_BYTES }

  predicate PlainLine(l: seq<byte>) { CR !in l && LF !in l && |l| <= MAX_EVENT_BYTES }

  lemma {:induction false} SplitPieces(p: seq<byte>)
    requires CR !in p
    ensures forall piece | piece in SplitLF(p) :: CR !in piece && LF !in piece && |piece| <= |p|
  {
    if p != [] {
      SplitPieces(p[1..]);
    }
  }

  lemma {:induction false} JoinCons(a: seq<byte>, rest: seq<seq<byte>>)
    requires rest != []
    ensures Join([a] + rest) == a + [LF] + Join(rest)
  {
    var all := [a] + rest;
    var last := rest[|rest| - 1];
    assert all[..|all| - 1] == [a] + rest[..|rest| - 1];
    if |rest| == 1 {
      assert all == [a, last] && all[..1] == [a];
    } else {
      var front := rest[..|rest| - 1];
      JoinCons(a, front);
      assert (a + [LF] + Join(front)) + [LF] + last == a + [LF] + (Join(front) + [LF] + last);
    }
  }

  lemma JoinHead(c: byte, first: seq<byte>, rest: seq<seq<byte>>)
    ensures Join([[c] + first] + rest) == [c] + Join([first] + rest)
  {
    if rest != [] {
      hide Join;
      JoinCons(first, rest);
      JoinCons([c] + first, rest);
      Assoc([c], first, [LF] + Join(rest));
      Assoc(first, [LF], Join(rest));
      Assoc([c] + first, [LF], Join(rest));
    }
  }

  lemma {:induction false} JoinSplit(p: seq<byte>)
    ensures Join(SplitLF(p)) == p
  {
    if p != [] {
      JoinSplit(p[1..]);
      JoinStep(p[0], SplitLF(p[1..]), p[1..]);
      assert p == [p[0]] + p[1..];
    }
  }

  lemma JoinStep(c: byte, rest: seq<seq<byte>>, q: seq<byte>)
    requires rest != [] && Join(rest) == q
    ensures Join([[]] + rest) == [LF] + q
    ensures Join([[c] + rest[0]] + rest[1..]) == [c] + q
  {
    hide Join;
    JoinCons([], rest);
    assert [] + [LF] + q == [LF] + q;
    JoinHead(c, rest[0], rest[1..]);
    assert [rest[0]] + rest[1..] == rest;
  }

  lemma OneLine(l: seq<byte>, tail: seq<byte>, breaks: bool)
    requires PlainLine(l)
    ensures Lines(l + [LF] + tail, breaks) == ([l] + Lines(tail, breaks).0, Lines(tail, breaks).1)
  {
    assert l + [LF] + tail == l + ([LF] + tail);
    LinesAtTerminator(l + [LF] + tail, l, [LF] + tail, breaks);
    assert ([LF] + tail)[1..] == tail;
  }

  function DataLines(pieces: seq<seq<byte>>): seq<seq<byte>> {
    seq(|pieces|, i requires 0 <= i < |pieces| => DATA_PREFIX + pieces[i])
  }

  lemma {:induction false} FramedLines(pieces: seq<seq<byte>>, tail: seq<byte>, breaks: bool)
    requires forall p | p in pieces :: CR !in p && LF !in p && |p| + |DATA_PREFIX| <= MAX_EVENT_BYTES
    ensures Lines(FrameLines(pieces) + tail, breaks)
         == (DataLines(pieces) + Lines(tail, breaks).0, Lines(tail, breaks).1)
  {
    hide Lines;
    if pieces == [] {
      assert FrameLines(pieces) + tail == tail;
      assert DataLines(pieces) + Lines(tail, breaks).0 == Lines(tail, breaks).0;
    } else {
      var l, more := DATA_PREFIX + pieces[0], FrameLines(pieces[1..]);
      FramedLines(pieces[1..], tail, breaks);
      OneLine(l, more + tail, breaks);
      Assoc(l + [LF], more, tail);
      assert DataLines(pieces) == [l] + DataLines(pieces[1..]);
      Assoc([l], DataLines(pieces[1..]), Lines(tail, breaks).0);
    }
  }

  lemma {:induction false} DataLineFields(pieces: seq<seq<byte>>)
    ensures DataFields(DataLines(pieces)) == pieces
    ensures [] !in DataLines(pieces)
  {
    if pieces != [] {
      var l := DATA_PREFIX + pieces[0];
      assert DataLines(pieces) == [l] + DataLines(pieces[1..]);
      DataLineFields(pieces[1..]);
      PrefixedField(pieces[0]);
      assert [pieces[0]] + pieces[1..] == pieces;
    }
  }

  lemma {:induction false} IndexOfAt(b: byte, s: seq<byte>, n: nat)
    requires n < |s| && s[n] == b && b !in s[..n]
    ensures IndexOf(b, s) == n
  {
    if n > 0 {
      assert s[0] in s[..n];
      assert s[..n] == [s[0]] + s[1..][..n - 1];
      IndexOfAt(b, s[1..], n - 1);
    }
  }

  lemma PrefixedField(piece: seq<byte>)
    ensures DataField(DATA_PREFIX + piece) == Some(piece)
  {
    var l := DATA_PREFIX + piece;
    assert l[..4] == DATA;
    IndexOfAt(COLON, l, 4);
    assert l[5..][1..] == piece;
  }

  /** Framed payloads decode to themselves, and leave what follows them to be decoded as if it stood alone. */
  lemma {:induction false} FrameRoundTrip(ps: seq<seq<byte>>, tail: seq<byte>, breaks: bool)
    requires forall p | p in ps :: Framable(p)
    ensures Decoded(FrameAll(ps) + tail, breaks) == (ps + Decoded(tail, breaks).0, Decoded(tail, breaks).1)
  {
    hide Decoded, Frame;
    if ps == [] {
      assert FrameAll(ps) + tail == tail;
      assert ps + Decoded(tail, breaks).0 == Decoded(tail, breaks).0;
    } else {
      FrameRoundTrip(ps[1..], tail, breaks);
      FrameOne(ps[0], FrameAll(ps[1..]) + tail, breaks);
      Assoc(Frame(ps[0]), FrameAll(ps[1..]), tail);
      Assoc([ps[0]], ps[1..], Decoded(tail, breaks).0);
      assert [ps[0]] + ps[1..] == ps;
    }
  }

  lemma FrameOne(p: seq<byte>, rest: seq<byte>, breaks: bool)
    requires Framable(p)
    ensures Decoded(Frame(p) + rest, breaks) == ([p] + Decoded(rest, breaks).0, Decoded(rest, breaks).1)
  {
    var pieces := SplitLF(p);
    SplitPieces(p);
    JoinSplit(p);
    DataLineFields(pieces);
    FramedLines(pieces, [LF] + rest, breaks);
    OneLine([], rest, breaks);
    assert [] + [LF] + rest == [LF] + rest;
    var (ls, end) := Lines(rest, breaks);
    assert Lines([LF] + rest, breaks) == ([[]] + ls, end);
    Assoc(FrameLines(pieces), [LF], rest);
    BlankLine(DataLines(pieces), ls, end);
  }

  /** A final event without its blank line is still delivered, and flagged, when the body ends there. */
  lemma UnterminatedRoundTrip(ps: seq<seq<byte>>, last: seq<byte>)
    requires (forall p | p in ps :: Framable(p)) && Framable(last)
    ensures Decoded(FrameAll(ps) + FrameLines(SplitLF(last)), false) == (ps + [last], Trailing)
  {
    var pieces := SplitLF(last);
    FrameRoundTrip(ps, FrameLines(pieces), false);
    SplitPieces(last);
    JoinSplit(last);
    DataLineFields(pieces);
    FramedLines(pieces, [], false);
    assert FrameLines(pieces) + [] == FrameLines(pieces);
    EndOfBody(DataLines(pieces), Eof);
  }

  /** A broken reader loses an event that was not ended by its blank line; a body that ends cleanly loses nothing. */
  lemma BrokenLosesLast(ps: seq<seq<byte>>, last: seq<byte>, breaks: bool)
    requires (forall p | p in ps :: Framable(p)) && Framable(last)
    ensures Decoded(FrameAll(ps), breaks) == (ps, if breaks then Broken else Clean)
    ensures Decoded(FrameAll(ps) + FrameLines(SplitLF(last)), true) == (ps, Broken)
  {
    hide Lines, Events, Blocks, Frame, LinesFit;
    var pieces := SplitLF(last);
    NothingLeft(breaks);
    FrameRoundTrip(ps, [], breaks);
    assert FrameAll(ps) + [] == FrameAll(ps) && ps + [] == ps;
    FrameRoundTrip(ps, FrameLines(pieces), true);
    Unended(last, [], true);
    assert FrameLines(pieces) + [] == FrameLines(pieces);
    NothingLeft(true);
    EndOfBody(DataLines(pieces), ReaderBroke);
  }

  /** The lines of an event that is not ended yet. */
  lemma Unended(last: seq<byte>, tail: seq<byte>, breaks: bool)
    requires LinesFit(last)
    ensures var ls := DataLines(SplitLF(last));
            && Lines(FrameLines(SplitLF(last)) + tail, breaks) == (ls + Lines(tail, breaks).0, Lines(tail, breaks).1)
            && [] !in ls && Join(DataFields(ls)) == last
  {
    hide Lines;
    SplitPieces(last);
    JoinSplit(last);
    DataLineFields(SplitLF(last));
    FramedLines(SplitLF(last), tail, breaks);
  }

  /** Nothing is read past an event over the cap. */
  lemma OverlongEvent(ps: seq<seq<byte>>, last: seq<byte>, tail: seq<byte>, breaks: bool)
    requires (forall p | p in ps :: Framable(p)) && LinesFit(last) && |last| > MAX_EVENT_BYTES
    ensures Decoded(FrameAll(ps) + (FrameLines(SplitLF(last)) + tail), breaks) == (ps, EventOverflow)
  {
    hide Lines, Events, Blocks, Framable, LinesFit, DataLines;
    assert ps + [] == ps;
    FrameRoundTrip(ps, FrameLines(SplitLF(last)) + tail, breaks);
    Unended(last, tail, breaks);
    Overflow(DataLines(SplitLF(last)), Lines(tail, breaks).0, Lines(tail, breaks).1);
  }

  /** Nothing is read past a line over the cap, and an event it interrupts is lost. */
  lemma OverlongLine(ps: seq<seq<byte>>, last: seq<byte>, line: seq<byte>, tail: seq<byte>, breaks: bool)
    requires (forall p | p in ps :: Framable(p)) && Framable(last)
    requires CR !in line && LF !in line && |line| > MAX_EVENT_BYTES
    ensures Decoded(FrameAll(ps) + (FrameLines(SplitLF(last)) + (line + tail)), breaks) == (ps, LineOverflow)
  {
    hide Lines, Events, Blocks, LinesFit, DataLines;
    assert ps + [] == ps;
    FrameRoundTrip(ps, FrameLines(SplitLF(last)) + (line + tail), breaks);
    Unended(last, line + tail, breaks);
    LongLine(line, tail, breaks);
    EndOfBody(DataLines(SplitLF(last)), LineTooLong);
  }

  lemma NothingLeft(breaks: bool)
    ensures Lines([], breaks) == ([], if breaks then ReaderBroke else Eof)
    ensures Decoded([], breaks) == ([], if breaks then Broken else Clean)
  {
  }

  lemma LongLine(line: seq<byte>, tail: seq<byte>, breaks: bool)
    requires CR !in line && LF !in line && |line| > MAX_EVENT_BYTES
    ensures Lines(line + tail, breaks) == ([], LineTooLong)
  {
    LineTooLongFrom(line + tail, line, tail, breaks);
  }

  // ----- which lines count -----

  /** A line gives data exactly when its field is "data": with or without the one optional space after the colon, or
      with no colon at all. */
  lemma DataFieldMeaning(line: seq<byte>, v: seq<byte>)
    ensures DataField(line) == Some(v) <==>
              || line == DATA + [COLON, SPACE] + v
              || (line == DATA + [COLON] + v && (v == [] || v[0] != SPACE))
              || (line == DATA && v == [])
  {
    if DataField(line) == Some(v) {
      var n := IndexOf(COLON, line);
      assert line == line[..n] + line[n..];
      if n < |line| {
        FieldIs(line, n, v);
      }
    } else if line == DATA + [COLON, SPACE] + v {
      PrefixedField(v);
    } else if line == DATA + [COLON] + v {
      UnspacedField(v);
    }
  }

  lemma FieldIs(line: seq<byte>, n: nat, v: seq<byte>)
    requires n < |line| && line[n] == COLON && line[..n] == DATA
    requires v == var value := line[n + 1..]; if value != [] && value[0] == SPACE then value[1..] else value
    ensures line == DATA + [COLON, SPACE] + v || (line == DATA + [COLON] + v && (v == [] || v[0] != SPACE))
  {
    var value := line[n + 1..];
    assert line == line[..n] + [line[n]] + value;
    if value != [] && value[0] == SPACE {
      assert value == [SPACE] + v;
      assert DATA + [COLON] + ([SPACE] + v) == DATA + [COLON, SPACE] + v;
    }
  }

  lemma UnspacedField(v: seq<byte>)
    ensures DataField(DATA + [COLON] + v) == Some(if v != [] && v[0] == SPACE then v[1..] else v)
  {
    var l := DATA + [COLON] + v;
    assert l[..4] == DATA;
    IndexOfAt(COLON, l, 4);
    assert l[5..] == v;
  }

  /** Blocks that give the same data. */
  ghost predicate SameData(a: seq<seq<seq<byte>>>, b: seq<seq<seq<byte>>>) {
    |a| == |b| && forall i | 0 <= i < |a| :: DataFields(a[i]) == DataFields(b[i])
  }

  lemma {:induction false} SameEvents(a: seq<seq<seq<byte>>>, b: seq<seq<seq<byte>>>, end: LineEnd)
    requires SameData(a, b) && |a| >= 1
    ensures Events(a, end) == Events(b, end)
  {
    hide DataFields, Join;
    if |a| > 1 {
      SameEvents(a[1..], b[1..], end);
    }
  }

  lemma {:induction false} IgnoredInBlocks(a: seq<seq<byte>>, line: seq<byte>, b: seq<seq<byte>>)
    requires line != [] && DataField(line).None?
    ensures SameData(Blocks(a + [line] + b), Blocks(a + b))
  {
    if a == [] {
      assert a + [line] + b == [line] + b && a + b == b;
      IgnoredFirst(line, b);
    } else {
      IgnoredInBlocks(a[1..], line, b);
      assert a + [line] + b == [a[0]] + (a[1..] + [line] + b);
      assert a + b == [a[0]] + (a[1..] + b);
      hide DataField, DataFields, Blocks;
      SameDataCons(a[0], a[1..] + [line] + b, a[1..] + b);
    }
  }

  lemma IgnoredFirst(line: seq<byte>, b: seq<seq<byte>>)
    requires line != [] && DataField(line).None?
    ensures SameData(Blocks([line] + b), Blocks(b))
  {
    hide DataField;
    assert ([line] + b)[1..] == b;
    var rest := Blocks(b);
    assert ([line] + rest[0])[1..] == rest[0];
    assert [line] + rest[0] == [line] + rest[0];
    assert DataFields([line] + rest[0]) == DataFields(rest[0]);
  }

  lemma BlocksCons(x: seq<byte>, a: seq<seq<byte>>)
    ensures Blocks([x] + a) ==
            if x == [] then [[]] + Blocks(a) else [[x] + Blocks(a)[0]] + Blocks(a)[1..]
  {
    assert ([x] + a)[1..] == a;
  }

  lemma SameFieldsCons(x: seq<byte>, r: seq<seq<byte>>, q: seq<seq<byte>>)
    requires DataFields(r) == DataFields(q)
    ensures DataFields([x] + r) == DataFields([x] + q)
  {
    hide DataField;
    assert ([x] + r)[1..] == r && ([x] + q)[1..] == q;
  }

  lemma SameDataHead(x: seq<byte>, r: seq<seq<seq<byte>>>, q: seq<seq<seq<byte>>>)
    requires |r| >= 1 && SameData(r, q)
    ensures SameData([[]] + r, [[]] + q) && SameData([[x] + r[0]] + r[1..], [[x] + q[0]] + q[1..])
  {
    hide DataFields;
    SameFieldsCons(x, r[0], q[0]);
  }

  lemma SameDataCons(x: seq<byte>, a: seq<seq<byte>>, b: seq<seq<byte>>)
    requires SameData(Blocks(a), Blocks(b))
    ensures SameData(Blocks([x] + a), Blocks([x] + b))
  {
    hide DataFields, Blocks;
    BlocksCons(x, a);
    BlocksCons(x, b);
    SameDataHead(x, Blocks(a), Blocks(b));
    hide SameData;
  }

  lemma NotData(line: seq<byte>)
    requires forall v :: line != DATA + [COLON] + v && line != DATA
    ensures DataField(line).None?
  {
    forall v ensures DataField(line) != Some(v) {
      DataFieldMeaning(line, v);
      assert DATA + [COLON, SPACE] + v == DATA + [COLON] + ([SPACE] + v);
    }
  }

  /** A line whose field is not "data" changes nothing, wherever it stands: comments, event, id and retry. */
  lemma OtherLinesIgnored(a: seq<seq<byte>>, line: seq<byte>, b: seq<seq<byte>>, end: LineEnd)
    requires line != [] && forall v :: line != DATA + [COLON] + v && line != DATA
    ensures Events(Blocks(a + [line] + b), end) == Events(Blocks(a + b), end)
  {
    NotData(line);
    IgnoredInBlocks(a, line, b);
    SameEvents(Blocks(a + [line] + b), Blocks(a + b), end);
  }

  lemma {:induction false} OnePiece(p: seq<byte>)
    requires LF !in p
    ensures SplitLF(p) == [p]
  {
    if p != [] {
      OnePiece(p[1..]);
      assert p == [p[0]] + p[1..];
    }
  }

  lemma FrameOfLine(p: seq<byte>)
    requires LF !in p
    ensures FrameAll([p]) == DATA + [COLON, SPACE] + p + [LF, LF]
  {
    OnePiece(p);
    assert [p][1..] == [];
    assert FrameLines([p]) == DATA_PREFIX + p + [LF];
    assert FrameAll([p]) == Frame(p);
    assert Frame(p) == DATA_PREFIX + p + [LF] + [LF];
  }

  /** On the wire: `data: hi`, a line feed and a blank line are one event, `hi`; and the cap is 32 MiB. */
  lemma OnTheWire()
    ensures Decoded([100, 97, 116, 97, 58, 32, 104, 105, 10, 10], false) == ([[104, 105]], Clean)
    ensures MAX_EVENT_BYTES == 32 * 1024 * 1024
  {
    hide Decoded, FrameAll;
    var hi: seq<byte> := [104, 105];
    FrameOfLine(hi);
    OnePiece(hi);
    assert DATA + [COLON, SPACE] + hi + [LF, LF] == [100, 97, 116, 97, 58, 32, 104, 105, 10, 10];
    BrokenLosesLast([hi], hi, false);
  }
}
