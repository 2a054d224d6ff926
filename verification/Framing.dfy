/** Newline framing of messages (9-local-chat-mesh/src/message.rs) over a byte stream
    that arrives in pieces of any size and ends, or breaks, at some point. The JSON codec
    is a pair of functions; decoding covers the check for valid UTF-8. */
module Framing {
  import opened Basics

  newtype byte = x: int | 0 <= x < 256

  type Bytes = seq<byte>

  const LF: byte := 10
  const CR: byte := 13

  datatype Codec<!T> = Codec(encode: T -> Bytes, decode: Bytes -> Option<T>)

  /** What JSON text gives (section 7 of RFC 8259 escapes control characters): it decodes
      to what was encoded, is not empty, has no newline and does not end in a CR. */
  ghost predicate Frameable<T(!new)>(codec: Codec<T>) {
    forall m: T ::
      && codec.decode(codec.encode(m)) == Some(m)
      && codec.encode(m) != []
      && LF !in codec.encode(m)
      && codec.encode(m)[|codec.encode(m)| - 1] != CR
  }

  // ---------- Lines ----------

  predicate IsEol(b: byte) {
    b == LF || b == CR
  }

  /** Up to and including the first newline, or everything when there is none. */
  function FirstLine(s: Bytes): (r: Bytes)
    ensures r <= s
    ensures s != [] ==> r != []
  {
    if s == [] then []
    else if s[0] == LF then [LF]
    else [s[0]] + FirstLine(s[1..])
  }

  predicate EndsLine(s: Bytes) {
    s != [] && s[|s| - 1] == LF
  }

  /** Text without a newline in front only makes the first line longer. */
  lemma {:induction false} FirstLineAfter(line: Bytes, s: Bytes)
    requires LF !in line
    ensures FirstLine(line + s) == line + FirstLine(s)
  {
    if line == [] {
      assert line + s == s;
    } else {
      FirstLineAfter(line[1..], s);
      assert (line + s)[1..] == line[1..] + s;
    }
  }

  /** A first line that ends with a newline does not depend on what follows; one that
      does not is everything there is. */
  lemma {:induction false} FirstLineWithin(s: Bytes, more: Bytes)
    ensures EndsLine(FirstLine(s)) ==> FirstLine(s + more) == FirstLine(s)
    ensures !EndsLine(FirstLine(s)) ==> FirstLine(s) == s && LF !in s
  {
    if s != [] && s[0] != LF {
      FirstLineWithin(s[1..], more);
      assert (s + more)[1..] == s[1..] + more;
      assert s == [s[0]] + s[1..];
    }
  }

  function TrimEol(s: Bytes): Bytes {
    if s != [] && IsEol(s[|s| - 1]) then TrimEol(s[..|s| - 1]) else s
  }

  lemma {:induction false} FirstLineAt(body: Bytes, rest: Bytes)
    requires LF !in body
    ensures FirstLine(body + [LF] + rest) == body + [LF]
    ensures FirstLine(body) == body
  {
    if body == [] {
      assert [LF] + rest == body + [LF] + rest;
    } else {
      FirstLineAt(body[1..], rest);
      assert (body + [LF] + rest)[1..] == body[1..] + [LF] + rest;
    }
  }

  lemma {:induction false} TrimmedEol(body: Bytes, eol: Bytes)
    requires forall i :: 0 <= i < |eol| ==> IsEol(eol[i])
    requires body != [] ==> !IsEol(body[|body| - 1])
    ensures TrimEol(body + eol) == body
  {
    if eol == [] {
      assert body + eol == body;
    } else {
      assert (body + eol)[..|body + eol| - 1] == body + eol[..|eol| - 1];
      TrimmedEol(body, eol[..|eol| - 1]);
    }
  }

  // ---------- Reading and writing ----------

  datatype ReadError = InvalidData | TransportFailed

  type ReadResult<T> = Result<Option<T>, ReadError>

  /** The next line of a stream, and what is left after it. A stream that breaks in the
      middle of a line takes the beginning of the line with it. */
  function LineFrom(s: Bytes, broken: bool): (Result<Bytes, ReadError>, Bytes) {
    var line := FirstLine(s);
    if broken && !EndsLine(line) then (Err(TransportFailed), []) else (Ok(line), s[|line|..])
  }

  /** The next message of a stream, and what is left of the stream after it. */
  function ReadFrom<T>(codec: Codec<T>, s: Bytes, broken: bool): (r: (ReadResult<T>, Bytes))
    ensures |r.1| <= |s|
    ensures r.0.Ok? && r.0.value.Some? ==> |r.1| < |s|
    decreases |s|
  {
    var (line, rest) := LineFrom(s, broken);
    if line.Err? then (Err(line.error), rest)
    else if line.value == [] then (Ok(None), rest)
    else if TrimEol(line.value) == [] then ReadFrom(codec, rest, broken)
    else
      match codec.decode(TrimEol(line.value))
      case Some(m) => (Ok(Some(m)), rest)
      case None => (Err(InvalidData), rest)
  }

  function Flatten(chunks: seq<Bytes>): Bytes {
    if chunks == [] then [] else chunks[0] + Flatten(chunks[1..])
  }

  /** The buffer ends the line. */
  lemma LineFound(s: Bytes, line: Bytes, buffer: Bytes, later: Bytes, broken: bool)
    requires s == line + (buffer + later) && LF !in line && EndsLine(FirstLine(buffer))
    ensures var piece := FirstLine(buffer);
            LineFrom(s, broken) == (Ok(line + piece), buffer[|piece|..] + later)
  {
    var piece := FirstLine(buffer);
    FirstLineAfter(line, buffer + later);
    FirstLineWithin(buffer, later);
    LastOfSum(line, piece);
    Suffix(s, line, buffer, later, piece);
  }

  lemma LastOfSum(a: Bytes, b: Bytes)
    requires b != []
    ensures a + b != [] && (a + b)[|a + b| - 1] == b[|b| - 1]
  {
  }

  lemma Suffix(s: Bytes, line: Bytes, buffer: Bytes, later: Bytes, piece: Bytes)
    requires s == line + (buffer + later) && piece <= buffer
    ensures |line + piece| <= |s| && s[|line + piece|..] == buffer[|piece|..] + later
  {
    assert s == (line + piece) + (buffer[|piece|..] + later);
  }

  /** Nothing follows a line that has not ended. */
  lemma StreamOver(line: Bytes, broken: bool)
    requires LF !in line
    ensures LineFrom(line, broken) == (if broken then Err(TransportFailed) else Ok(line), [])
  {
    FirstLineAfter(line, []);
    assert line + [] == line;
  }

  /** The buffer is all part of the line, which goes on. */
  lemma LineGoesOn(line: Bytes, buffer: Bytes)
    requires LF !in line && !EndsLine(FirstLine(buffer))
    ensures FirstLine(buffer) == buffer && LF !in line + buffer
  {
    FirstLineWithin(buffer, []);
  }

  /** A buffered reader: what it holds, the pieces still to arrive, and whether the
      stream breaks after them or ends. */
  class Reader {
    var buffer: Bytes
    var incoming: seq<Bytes>
    const broken: bool

    function Rest(): Bytes
      reads this
    {
      buffer + Flatten(incoming)
    }

    constructor (incoming: seq<Bytes>, broken: bool)
      ensures Rest() == Flatten(incoming) && this.broken == broken
    {
      this.buffer, this.incoming, this.broken := [], incoming, broken;
    }

    /** Reads a line while at most `arrivals` more pieces, or the end, arrive. None means
        that the read was dropped while it waited for more: `taken` bytes are gone, which
        are those that had arrived, and none of them ended the line. */
    method PollLine(arrivals: nat) returns (r: Option<Result<Bytes, ReadError>>, taken: nat)
      modifies this
      ensures r.Some? ==> (r.value, Rest()) == LineFrom(old(Rest()), broken)
      ensures r.None? ==>
                && arrivals <= |old(incoming)| && taken <= |old(Rest())|
                && old(Rest())[..taken] == old(buffer) + Flatten(old(incoming)[..arrivals])
                && LF !in old(Rest())[..taken]
                && Rest() == old(Rest())[taken..]
    {
      ghost var s, first, all := Rest(), buffer, incoming;
      var k := 0;
      var line: Bytes := [];
      taken := 0;
      while true
        invariant s == line + (buffer + Flatten(incoming)) && LF !in line
        invariant k <= arrivals && k <= |all| && incoming == all[k..]
        invariant line + buffer == first + Flatten(all[..k])
        decreases |incoming|
      {
        var piece := FirstLine(buffer);
        ghost var before, held, later := line, buffer, Flatten(incoming);
        line := line + piece;
        buffer := buffer[|piece|..];
        taken := |line|;
        if EndsLine(piece) {
          LineFound(s, before, held, later, broken);
          r := Some(Ok(line));
          return;
        }
        LineGoesOn(before, held);
        Regroup(before, held, later);
        assert line == before + held && buffer == [];
        if |incoming| == 0 || k == arrivals {
          Waiting(s, line, later);
          assert Rest() == [] + later;
          if k == arrivals {
            r := None;
          } else {
            StreamOver(line, broken);
            r := Some(if broken then Err(TransportFailed) else Ok(line));
          }
          return;
        }
        OneMorePiece(all, k);
        Regroup(first, Flatten(all[..k]), all[k]);
        buffer, incoming, k := incoming[0], incoming[1..], k + 1;
      }
    }

    /** Where the pieces begin and end makes no difference to the line. */
    method ReadLine() returns (r: Result<Bytes, ReadError>)
      modifies this
      ensures (r, Rest()) == LineFrom(old(Rest()), broken)
    {
      var line, _ := PollLine(|incoming| + 1);
      r := line.value;
    }

    method ReadMessage<T>(codec: Codec<T>) returns (r: ReadResult<T>)
      modifies this
      ensures (r, Rest()) == ReadFrom(codec, old(Rest()), broken)
    {
      while true
        invariant ReadFrom(codec, Rest(), broken) == ReadFrom(codec, old(Rest()), broken)
        decreases |Rest()|
      {
        var line := ReadLine();
        if line.Err? {
          return Err(line.error);
        }
        if |line.value| == 0 {
          return Ok(None);
        }
        var trimmed := TrimEol(line.value);
        if trimmed == [] {
          continue;
        }
        match codec.decode(trimmed) {
          case Some(m) => return Ok(Some(m));
          case None => return Err(InvalidData);
        }
      }
    }

    /** Reads messages until the stream ends or a read fails. */
    method ReadMessages<T>(codec: Codec<T>) returns (ms: seq<T>, e: Option<ReadError>)
      modifies this
      ensures (ms, e) == ReadAll(codec, old(Rest()), broken)
    {
      ms := [];
      PrependedNone(ReadAll(codec, Rest(), broken));
      while true
        invariant Prepended(ms, ReadAll(codec, Rest(), broken)) == ReadAll(codec, old(Rest()), broken)
        decreases |Rest()|
      {
        var r := ReadMessage(codec);
        if r.Err? || r.value.None? {
          e := if r.Err? then Some(r.error) else None;
          assert ms + [] == ms;
          return;
        }
        PrependedOneMore(ms, r.value.value, ReadAll(codec, Rest(), broken));
        ms := ms + [r.value.value];
      }
    }
  }

  lemma OneMorePiece(all: seq<Bytes>, k: nat)
    requires k < |all|
    ensures Flatten(all[..k + 1]) == Flatten(all[..k]) + all[k]
    ensures all[k..][1..] == all[k + 1..]
  {
    FlattenAppend(all[..k], [all[k]]);
    assert all[..k] + [all[k]] == all[..k + 1];
    assert [all[k]][1..] == [] && all[k] + [] == all[k];
  }

  lemma {:induction false} FlattenAppend(a: seq<Bytes>, b: seq<Bytes>)
    ensures Flatten(a + b) == Flatten(a) + Flatten(b)
  {
    if a == [] {
      assert a + b == b;
    } else {
      FlattenAppend(a[1..], b);
      assert (a + b)[1..] == a[1..] + b;
      Regroup(a[0], Flatten(a[1..]), Flatten(b));
    }
  }

  lemma Waiting(s: Bytes, line: Bytes, later: Bytes)
    requires s == line + later
    ensures s[..|line|] == line && s[|line|..] == [] + later
    ensures later == [] ==> s == line
  {
  }

  class Writer {
    var written: Bytes

    constructor ()
      ensures written == []
    {
      written := [];
    }

    /** `room` is how much the transport takes before it fails, None when it does not. */
    method WriteMessage<T>(codec: Codec<T>, message: T, room: Option<nat>, flushes: bool) returns (ok: bool)
      modifies this
      ensures var frame := Frame(codec, message, [LF]);
              && ok == ((room.None? || |frame| <= room.value) && flushes)
              && written == old(written) + if room.None? then frame else frame[..Min(room.value, |frame|)]
    {
      var encoded := codec.encode(message);
      encoded := encoded + [LF];
      if room.Some? && room.value < |encoded| {
        written := written + encoded[..room.value];
        return false;
      }
      written := written + encoded;
      ok := flushes;
    }
  }

  // ---------- Round trip ----------

  function Frame<T>(codec: Codec<T>, m: T, gap: Bytes): Bytes {
    codec.encode(m) + gap
  }

  /** Line ends and blank lines: CRs and LFs that stop at an LF. */
  predicate IsGap(gap: Bytes) {
    gap != [] && gap[|gap| - 1] == LF && forall i :: 0 <= i < |gap| ==> IsEol(gap[i])
  }

  /** Messages, each followed by its line end and any blank lines. */
  function Stream<T>(codec: Codec<T>, ms: seq<T>, gaps: seq<Bytes>): Bytes
    requires |ms| == |gaps|
  {
    if ms == [] then []
    else Frame(codec, ms[0], gaps[0]) + Stream(codec, ms[1..], gaps[1..])
  }

  /** The messages up to the end of the stream or the first failure, and the failure. */
  function ReadAll<T>(codec: Codec<T>, s: Bytes, broken: bool): (seq<T>, Option<ReadError>)
    decreases |s|
  {
    var (r, rest) := ReadFrom(codec, s, broken);
    match r
    case Err(e) => ([], Some(e))
    case Ok(None) => ([], None)
    case Ok(Some(m)) => Prepended([m], ReadAll(codec, rest, broken))
  }

  function Prepended<T>(ms: seq<T>, r: (seq<T>, Option<ReadError>)): (seq<T>, Option<ReadError>) {
    (ms + r.0, r.1)
  }

  lemma PrependedNone<T>(r: (seq<T>, Option<ReadError>))
    ensures Prepended([], r) == r
  {
    assert [] + r.0 == r.0;
  }

  lemma PrependedOneMore<T>(ms: seq<T>, m: T, r: (seq<T>, Option<ReadError>))
    ensures Prepended(ms + [m], r) == Prepended(ms, Prepended([m], r))
  {
    assert (ms + [m]) + r.0 == ms + ([m] + r.0);
  }

  /** How reading ends when nothing is malformed. */
  function Ending(broken: bool): Option<ReadError> {
    if broken then Some(TransportFailed) else None
  }

  lemma {:induction false} SplitAtLF(gap: Bytes) returns (body: Bytes, rest: Bytes)
    requires IsGap(gap)
    ensures gap == body + [LF] + rest && LF !in body
    ensures rest == [] || IsGap(rest)
    ensures forall i :: 0 <= i < |body| ==> IsEol(body[i])
  {
    if gap[0] == LF {
      body, rest := [], gap[1..];
    } else {
      var b, r := SplitAtLF(gap[1..]);
      body, rest := [gap[0]] + b, r;
      assert gap == [gap[0]] + gap[1..];
    }
  }

  /** Blank lines are skipped. */
  lemma {:induction false} GapsAreSkipped<T>(codec: Codec<T>, gap: Bytes, s: Bytes, broken: bool)
    requires gap == [] || IsGap(gap)
    ensures ReadFrom(codec, gap + s, broken) == ReadFrom(codec, s, broken)
    decreases |gap|
  {
    if gap == [] {
      assert gap + s == s;
    } else {
      var body, rest := SplitAtLF(gap);
      assert gap + s == body + [LF] + (rest + s);
      FirstLineAt(body, rest + s);
      assert body + [LF] == [] + (body + [LF]);
      TrimmedEol([], body + [LF]);
      assert (gap + s)[|body + [LF]|..] == rest + s;
      GapsAreSkipped(codec, rest, s, broken);
    }
  }

  /** A line that is not blank is decoded without its line end. */
  lemma LineIsRead<T>(codec: Codec<T>, text: Bytes, gap: Bytes, s: Bytes, broken: bool) returns (blank: Bytes)
    requires IsGap(gap) && text != [] && LF !in text && text[|text| - 1] != CR
    ensures blank == [] || IsGap(blank)
    ensures ReadFrom(codec, text + gap + s, broken) ==
            (match codec.decode(text) case Some(m) => Ok(Some(m)) case None => Err(InvalidData), blank + s)
  {
    var body, rest := SplitAtLF(gap);
    blank := rest;
    assert text + gap + s == (text + body) + [LF] + (rest + s);
    FirstLineAt(text + body, rest + s);
    assert (text + body) + [LF] == text + (body + [LF]);
    assert !IsEol(text[|text| - 1]);
    TrimmedEol(text, body + [LF]);
    assert (text + gap + s)[|text + body + [LF]|..] == rest + s;
  }

  /** What reading gives when the next line holds this text. */
  function AfterLine<T>(codec: Codec<T>, text: Bytes, later: (seq<T>, Option<ReadError>)): (seq<T>, Option<ReadError>) {
    match codec.decode(text)
    case Some(m) => Prepended([m], later)
    case None => ([], Some(InvalidData))
  }

  lemma LineThenRest<T>(codec: Codec<T>, text: Bytes, gap: Bytes, s: Bytes, broken: bool)
    requires IsGap(gap) && text != [] && LF !in text && text[|text| - 1] != CR
    ensures ReadAll(codec, text + gap + s, broken) == AfterLine(codec, text, ReadAll(codec, s, broken))
  {
    var blank := LineIsRead(codec, text, gap, s, broken);
    ReadAllSkips(codec, blank, s, broken);
  }

  lemma ReadAllSkips<T>(codec: Codec<T>, gap: Bytes, s: Bytes, broken: bool)
    requires gap == [] || IsGap(gap)
    ensures ReadAll(codec, gap + s, broken) == ReadAll(codec, s, broken)
  {
    GapsAreSkipped(codec, gap, s, broken);
  }

  /** What was written is read back, message by message, and then the end of the stream or
      its break, with any line ends and blank lines before, between and after the messages. */
  lemma {:induction false} WrittenIsReadBack<T(!new)>(codec: Codec<T>, lead: Bytes, ms: seq<T>, gaps: seq<Bytes>,
                                                      broken: bool)
    requires Frameable(codec) && |ms| == |gaps|
    requires lead == [] || IsGap(lead)
    requires forall i :: 0 <= i < |gaps| ==> IsGap(gaps[i])
    ensures ReadAll(codec, lead + Stream(codec, ms, gaps), broken) == (ms, Ending(broken))
    decreases |ms|
  {
    ReadAllSkips(codec, lead, Stream(codec, ms, gaps), broken);
    if ms != [] {
      var rest := Stream(codec, ms[1..], gaps[1..]);
      WrittenIsReadBack(codec, [], ms[1..], gaps[1..], broken);
      assert [] + rest == rest;
      OneMoreIsRead(codec, ms[0], gaps[0], rest, ms[1..], broken);
      assert [ms[0]] + ms[1..] == ms;
    }
  }

  lemma OneMoreIsRead<T(!new)>(codec: Codec<T>, m: T, gap: Bytes, rest: Bytes, ms: seq<T>, broken: bool)
    requires Frameable(codec) && IsGap(gap) && ReadAll(codec, rest, broken) == (ms, Ending(broken))
    ensures ReadAll(codec, Frame(codec, m, gap) + rest, broken) == ([m] + ms, Ending(broken))
  {
    LineThenRest(codec, codec.encode(m), gap, rest, broken);
  }

  // ---------- The end of the stream ----------

  /** How a stream ends whose last line has no newline. If it ends cleanly the line counts:
      it is decoded without its CRs, or skipped when it holds nothing else. If it breaks the
      line is lost with the transport. */
  lemma UnendedLine<T>(codec: Codec<T>, text: Bytes, crs: Bytes, broken: bool)
    requires LF !in text && (text != [] ==> text[|text| - 1] != CR)
    requires forall i :: 0 <= i < |crs| ==> crs[i] == CR
    ensures ReadFrom(codec, text + crs, broken) ==
            (if broken then Err(TransportFailed)
             else if text == [] then Ok(None)
             else match codec.decode(text) case Some(m) => Ok(Some(m)) case None => Err(InvalidData), [])
  {
    var s := text + crs;
    NoLineFeed(text, crs);
    StreamOver(s, broken);
    TrimmedEol(text, crs);
    if !broken && s != [] && text == [] {
      NothingLeft(codec, broken);
    }
  }

  lemma NoLineFeed(text: Bytes, crs: Bytes)
    requires LF !in text && forall i :: 0 <= i < |crs| ==> crs[i] == CR
    ensures LF !in text + crs
  {
  }

  lemma NothingLeft<T>(codec: Codec<T>, broken: bool)
    ensures ReadFrom(codec, [], broken) == (if broken then Err(TransportFailed) else Ok(None), [])
  {
  }

  lemma LastMessageAlone<T(!new)>(codec: Codec<T>, last: T, crs: Bytes, broken: bool)
    requires Frameable(codec) && forall i :: 0 <= i < |crs| ==> crs[i] == CR
    ensures ReadAll(codec, codec.encode(last) + crs, broken) ==
            WithLast([], last, broken)
  {
    UnendedLine(codec, codec.encode(last), crs, broken);
    NothingLeft(codec, broken);
    NothingMore([last]);
    NothingBefore([last]);
  }

  lemma FrameThenRest<T(!new)>(codec: Codec<T>, m: T, gap: Bytes, rest: Bytes, broken: bool)
    requires Frameable(codec) && IsGap(gap)
    ensures ReadAll(codec, Frame(codec, m, gap) + rest, broken) == Prepended([m], ReadAll(codec, rest, broken))
  {
    LineThenRest(codec, codec.encode(m), gap, rest, broken);
  }

  /** What reading gives when a last message follows that has no newline. */
  function WithLast<T>(ms: seq<T>, last: T, broken: bool): (seq<T>, Option<ReadError>) {
    if broken then (ms, Some(TransportFailed)) else (ms + [last], None)
  }

  lemma WithLastPrepended<T>(ms: seq<T>, last: T, broken: bool)
    requires ms != []
    ensures Prepended([ms[0]], WithLast(ms[1..], last, broken)) == WithLast(ms, last, broken)
  {
    FirstAgain(ms);
    Regroup([ms[0]], ms[1..], [last]);
  }

  /** So a last message needs no newline when its stream ends cleanly, and when it breaks
      only that message is lost. */
  lemma {:induction false} LastMessageNeedsNoNewline<T(!new)>(codec: Codec<T>, ms: seq<T>, gaps: seq<Bytes>, last: T,
                                                              crs: Bytes, broken: bool)
    requires Frameable(codec) && |ms| == |gaps|
    requires forall i :: 0 <= i < |gaps| ==> IsGap(gaps[i])
    requires forall i :: 0 <= i < |crs| ==> crs[i] == CR
    ensures ReadAll(codec, Stream(codec, ms, gaps) + (codec.encode(last) + crs), broken) ==
            WithLast(ms, last, broken)
    decreases |ms|
  {
    var end := codec.encode(last) + crs;
    if ms == [] {
      LastMessageAlone(codec, last, crs, broken);
      NothingBefore(end);
    } else {
      var rest := Stream(codec, ms[1..], gaps[1..]);
      LastMessageNeedsNoNewline(codec, ms[1..], gaps[1..], last, crs, broken);
      FrameThenRest(codec, ms[0], gaps[0], rest + end, broken);
      Regroup(Frame(codec, ms[0], gaps[0]), rest, end);
      WithLastPrepended(ms, last, broken);
    }
  }

  // ---------- From one end to the other ----------

  function LineFeeds(n: nat): (r: seq<Bytes>)
    ensures |r| == n && forall i :: 0 <= i < n ==> r[i] == [LF]
  {
    seq(n, _ => [LF])
  }

  /** Messages written one by one, sent in pieces cut in any way, and read one by one are
      the messages, followed by the end of the stream or its break. */
  method Transfer<T(!new)>(codec: Codec<T>, ms: seq<T>, cut: Bytes -> seq<Bytes>, broken: bool)
    returns (received: seq<T>, e: Option<ReadError>)
    requires Frameable(codec)
    requires forall s :: Flatten(cut(s)) == s
    ensures received == ms && e == Ending(broken)
  {
    var writer := new Writer();
    ghost var gaps := LineFeeds(|ms|);
    for i := 0 to |ms|
      invariant writer.written + Stream(codec, ms[i..], gaps[i..]) == Stream(codec, ms, gaps)
    {
      assert ms[i..][1..] == ms[i + 1..] && gaps[i..][1..] == gaps[i + 1..];
      Regroup(writer.written, Frame(codec, ms[i], [LF]), Stream(codec, ms[i + 1..], gaps[i + 1..]));
      var _ := writer.WriteMessage(codec, ms[i], None, true);
    }
    assert writer.written == Stream(codec, ms, gaps);
    WrittenIsReadBack(codec, [], ms, gaps, broken);
    assert [] + writer.written == writer.written;
    var reader := new Reader(cut(writer.written), broken);
    received, e := reader.ReadMessages(codec);
  }

  // ---------- A cancelled read ----------

  /** A message m follows on a line of its own, then others. A read that is dropped after
      taking p bytes of that line (so no line end is among them) leaves s[p..]. What is
      read from there on: if p is 0, everything; if it cuts the encoding, whatever the rest
      of the encoding decodes to in place of m, or a failure; and if the whole encoding was
      taken, with or without CRs after it, the other messages only. */
  lemma AfterACancelledRead<T(!new)>(codec: Codec<T>, m: T, gap: Bytes, ms: seq<T>, gaps: seq<Bytes>, p: nat,
                                     broken: bool)
    requires Frameable(codec) && IsGap(gap) && |ms| == |gaps|
    requires forall i :: 0 <= i < |gaps| ==> IsGap(gaps[i])
    requires var s := Frame(codec, m, gap) + Stream(codec, ms, gaps);
             p <= |s| && LF !in s[..p]
    ensures var s := Frame(codec, m, gap) + Stream(codec, ms, gaps);
            ReadAll(codec, s[p..], broken) ==
            if p < |codec.encode(m)| then AfterLine(codec, codec.encode(m)[p..], (ms, Ending(broken)))
            else (ms, Ending(broken))
  {
    var e, rest := codec.encode(m), Stream(codec, ms, gaps);
    var s := Frame(codec, m, gap) + rest;
    WrittenIsReadBack(codec, [], ms, gaps, broken);
    assert [] + rest == rest;
    if p < |e| {
      DroppedInEncoding(codec, m, gap, rest, p, broken);
    } else {
      DroppedIntoGap(e, gap, rest, p);
      ReadAllSkips(codec, gap[p - |e|..], rest, broken);
    }
  }

  lemma DroppedInEncoding<T(!new)>(codec: Codec<T>, m: T, gap: Bytes, rest: Bytes, p: nat, broken: bool)
    requires Frameable(codec) && IsGap(gap) && p < |codec.encode(m)|
    ensures ReadAll(codec, (Frame(codec, m, gap) + rest)[p..], broken) ==
            AfterLine(codec, codec.encode(m)[p..], ReadAll(codec, rest, broken))
  {
    var e := codec.encode(m);
    assert (e + gap + rest)[p..] == e[p..] + gap + rest;
    LineThenRest(codec, e[p..], gap, rest, broken);
  }

  lemma DroppedIntoGap(e: Bytes, gap: Bytes, rest: Bytes, p: nat)
    requires IsGap(gap) && |e| <= p <= |e + gap + rest| && LF !in (e + gap + rest)[..p]
    ensures p - |e| < |gap| && IsGap(gap[p - |e|..])
    ensures (e + gap + rest)[p..] == gap[p - |e|..] + rest
  {
    var s := e + gap + rest;
    var end: nat := |e| + |gap| - 1;
    assert s[end] == LF;
    if end < p {
      InPrefix(s, end, p);
      assert false;
    }
  }

  lemma InPrefix(s: Bytes, k: nat, p: nat)
    requires k < p <= |s|
    ensures s[k] in s[..p]
  {
    assert s[..p][k] == s[k];
  }

  /** No proper end of an encoding decodes to the same message, as with JSON objects. */
  ghost predicate SuffixesDiffer<T(!new)>(codec: Codec<T>) {
    forall m: T, p :: 0 < p < |codec.encode(m)| ==> codec.decode(codec.encode(m)[p..]) != Some(m)
  }

  /** So nothing is lost by a dropped read if and only if it had taken nothing. */
  lemma CancelledReadLosesTheMessage<T(!new)>(codec: Codec<T>, m: T, gap: Bytes, ms: seq<T>, gaps: seq<Bytes>, p: nat,
                                              broken: bool)
    requires Frameable(codec) && SuffixesDiffer(codec) && IsGap(gap) && |ms| == |gaps|
    requires forall i :: 0 <= i < |gaps| ==> IsGap(gaps[i])
    requires var s := Frame(codec, m, gap) + Stream(codec, ms, gaps);
             p <= |s| && LF !in s[..p]
    ensures var s := Frame(codec, m, gap) + Stream(codec, ms, gaps);
            ReadAll(codec, s[p..], broken) == ([m] + ms, Ending(broken)) <==> p == 0
  {
    AfterACancelledRead(codec, m, gap, ms, gaps, p, broken);
    var e := codec.encode(m);
    if p < |e| {
      var d := codec.decode(e[p..]);
      assert p == 0 ==> e[p..] == e;
      if p > 0 && d.Some? {
        assert ([d.value] + ms)[0] != ([m] + ms)[0];
      }
    }
  }
}
