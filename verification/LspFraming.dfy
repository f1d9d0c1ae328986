/** The wire framing of the thin Lean language-server client: `_send` writes a message as a
    `Content-Length` header and a body, `_read_loop` recovers bodies from the byte stream (the Base
    Protocol section of the Language Server Protocol specification).

    The stream is the byte sequence the server process wrote before it closed its end. Bodies are byte
    strings: JSON encoding and decoding are outside the model. */
module LspFraming {
  import opened Options
  import opened Utf8

  // ---------------------------------------------------------------- searching

  /** The position of the first occurrence of `pattern`. */
  function Find<T(==)>(s: seq<T>, pattern: seq<T>): (r: Option<nat>)
    ensures r.Some? ==> r.value + |pattern| <= |s| && s[r.value..r.value + |pattern|] == pattern
  {
    if pattern <= s then Some(0)
    else if s == [] then None
    else
      var rest := Find(s[1..], pattern);
      if rest.None? then None else
        assert s[1..][rest.value..rest.value + |pattern|] == s[rest.value + 1..rest.value + 1 + |pattern|];
        Some(rest.value + 1)
  }

  lemma FindIn<T>(s: seq<T>, pattern: seq<T>, more: seq<T>)
    ensures Find(s, pattern).Some? ==> Find(s + more, pattern) == Find(s, pattern)
  {
    if Find(s, pattern).Some? && !(pattern <= s) {
      assert (s + more)[1..] == s[1..] + more;
      if pattern <= s + more {
        FindEarly(s, pattern, more);
      }
      FindIn(s[1..], pattern, more);
    }
  }

  /** An occurrence that fits in the front part is an occurrence there. */
  lemma FindEarly<T>(s: seq<T>, pattern: seq<T>, more: seq<T>)
    requires pattern <= s + more && |pattern| <= |s|
    ensures pattern <= s
  {
    assert (s + more)[..|pattern|] == s[..|pattern|];
  }

  /** One more element can complete an occurrence only at the very end. */
  lemma {:induction false} FindAtEnd<T>(s: seq<T>, x: T, pattern: seq<T>)
    requires pattern != [] && Find(s, pattern).None? && Find(s + [x], pattern).Some?
    ensures Find(s + [x], pattern).value + |pattern| == |s| + 1
    decreases |s|
  {
    if pattern <= s + [x] {
      if |pattern| <= |s| {
        FindEarly(s, pattern, [x]);
        assert false;
      }
    } else {
      assert (s + [x])[1..] == if s == [] then [] else s[1..] + [x];
      if s != [] {
        FindAtEnd(s[1..], x, pattern);
      }
    }
  }

  /** A pattern does not occur before its first element does. */
  lemma {:induction false} FindAfter<T>(front: seq<T>, pattern: seq<T>, rest: seq<T>)
    requires pattern != [] && pattern[0] !in front
    ensures Find(front + pattern + rest, pattern) == Some(|front|)
    decreases |front|
  {
    var s := front + pattern + rest;
    if front == [] {
      assert s[..|pattern|] == pattern;
    } else {
      assert s[0] == front[0] != pattern[0];
      assert s[1..] == front[1..] + pattern + rest;
      FindAfter(front[1..], pattern, rest);
    }
  }

  lemma FindNone<T>(s: seq<T>, pattern: seq<T>)
    requires pattern != [] && pattern[0] !in s
    ensures Find(s, pattern).None?
  {
  }

  // ---------------------------------------------------------------- text

  /** The ASCII part of Python's notion of white space. */
  predicate IsSpace(c: char) {
    '\t' <= c <= '\r' || '\U{1C}' <= c <= ' '
  }

  function StripStart(s: string): string {
    if s != [] && IsSpace(s[0]) then StripStart(s[1..]) else s
  }

  function StripEnd(s: string): string {
    if s != [] && IsSpace(s[|s| - 1]) then StripEnd(s[..|s| - 1]) else s
  }

  function Strip(s: string): string {
    StripEnd(StripStart(s))
  }

  const CRLF := "\r\n"

  function SplitLines(s: string): seq<string>
    decreases |s|
  {
    var at := Find(s, CRLF);
    if at.None? then [s] else [s[..at.value]] + SplitLines(s[at.value + 2..])
  }

  function EncodeAscii(s: string): Bytes
    requires forall i | 0 <= i < |s| :: s[i] < '\U{80}'
  {
    seq(|s|, i requires 0 <= i < |s| => s[i] as int as Byte)
  }

  predicate IsAscii(bytes: Bytes) {
    forall i | 0 <= i < |bytes| :: bytes[i] < 128
  }

  function DecodeAscii(bytes: Bytes): string
    requires IsAscii(bytes)
  {
    seq(|bytes|, i requires 0 <= i < |bytes| => bytes[i] as char)
  }

  // ---------------------------------------------------------------- decimal numbers

  function Digit(d: nat): char
    requires d < 10
  {
    '0' + d as char
  }

  predicate IsDigit(c: char) {
    '0' <= c <= '9'
  }

  function Decimal(n: nat): string {
    if n < 10 then [Digit(n)] else Decimal(n / 10) + [Digit(n % 10)]
  }

  /** Digits, with single underscores allowed between them. */
  function ParseDigits(s: string): Option<nat> {
    if s == [] || !IsDigit(s[|s| - 1]) then None
    else
      var d := (s[|s| - 1] - '0') as nat;
      if |s| == 1 then Some(d) else
        var front := if s[|s| - 2] == '_' then s[..|s| - 2] else s[..|s| - 1];
        var high := ParseDigits(front);
        if high.None? then None else Some(10 * high.value + d)
  }

  /** Python's `int` on ASCII text: outer white space and one sign are allowed. */
  function ParseInt(s: string): Option<int> {
    var t := Strip(s);
    var signed := t != [] && (t[0] == '-' || t[0] == '+');
    var magnitude := ParseDigits(if signed then t[1..] else t);
    if magnitude.None? then None
    else
      var value: int := magnitude.value;
      Some(if signed && t[0] == '-' then -value else value)
  }

  predicate AllDigits(s: string) {
    forall i | 0 <= i < |s| :: IsDigit(s[i])
  }

  lemma {:induction false} DecimalRoundTrip(n: nat)
    ensures Decimal(n) != [] && AllDigits(Decimal(n))
    ensures ParseDigits(Decimal(n)) == Some(n)
  {
    if n >= 10 {
      DecimalRoundTrip(n / 10);
      var s := Decimal(n);
      assert s[..|s| - 1] == Decimal(n / 10);
      assert s[|s| - 2] == Decimal(n / 10)[|s| - 2];
    }
  }

  // ---------------------------------------------------------------- the reader

  const SEPARATOR: Bytes := [13, 10, 13, 10]

  /** The header fields, the last of several with one name winning; a line without `: ` is an error. */
  function Fields(lines: seq<string>): Option<map<string, string>> {
    if lines == [] then Some(map[])
    else
      var front := Fields(lines[..|lines| - 1]);
      var line := lines[|lines| - 1];
      var colon := Find(line, ": ");
      if front.None? || colon.None? then None
      else Some(front.value[line[..colon.value] := line[colon.value + 2..]])
  }

  /** The announced body length, or nothing when reading the header raises an exception. */
  function AnnouncedLength(header: Bytes): Option<int> {
    if !IsAscii(header) then None
    else
      var fields := Fields(SplitLines(Strip(DecodeAscii(header))));
      if fields.None? || "Content-Length" !in fields.value then None
      else ParseInt(fields.value["Content-Length"])
  }

  /** How many bytes `read(length)` takes: a negative length reads to the end. */
  function Taken(length: int, available: nat): (n: nat)
    ensures n <= available
  {
    if length < 0 || length > available then available else length
  }

  datatype Ending = EndOfStream | BadHeader

  datatype Reading = Reading(bodies: seq<Bytes>, ending: Ending)

  /** One round of the reader: a header, then as many bytes as it announces. */
  datatype Round = NoMore | Unreadable | Body(body: Bytes, rest: Bytes)

  function NextRound(stream: Bytes): (r: Round)
    ensures r.Body? ==> |r.rest| < |stream|
  {
    var at := Find(stream, SEPARATOR);
    if at.None? then NoMore else BodyAfter(stream[..at.value + 4], stream[at.value + 4..])
  }

  function BodyAfter(header: Bytes, left: Bytes): (r: Round)
    ensures r.Body? ==> r.body + r.rest == left
    ensures !r.NoMore?
  {
    var length := AnnouncedLength(header);
    if length.None? then Unreadable
    else
      var n := Taken(length.value, |left|);
      Body(left[..n], left[n..])
  }

  function Read(stream: Bytes): Reading
    decreases |stream|
  {
    match NextRound(stream)
    case NoMore => Reading([], EndOfStream)
    case Unreadable => Reading([], BadHeader)
    case Body(body, rest) => Reading([body] + Read(rest).bodies, Read(rest).ending)
  }

  /** A prefix that has just come to hold the pattern ends with the pattern's first occurrence. */
  lemma {:induction false} PrefixEndsAtFirst<T>(s: seq<T>, front: seq<T>, x: T, rest: seq<T>, pattern: seq<T>)
    requires s == (front + [x]) + rest && pattern != []
    requires Find(front, pattern).None? && Find(front + [x], pattern).Some?
    ensures Find(s, pattern).Some? && Find(s, pattern).value + |pattern| == |front| + 1
  {
    FindAtEnd(front, x, pattern);
    FindIn(front + [x], pattern, rest);
  }

  /** The inner loop of the reader: the header grows byte by byte until it holds the pattern. */
  method ReadUntil(stream: Bytes, pattern: Bytes) returns (header: Bytes, complete: bool)
    requires pattern != []
    ensures header <= stream
    ensures complete == Find(stream, pattern).Some?
    ensures complete ==> Find(stream, pattern).value + |pattern| == |header|
  {
    var pos := 0;
    header := [];
    while Find(header, pattern).None?
      invariant 0 <= pos <= |stream|
      invariant header == stream[..pos]
      invariant header != [] ==> Find(header[..|header| - 1], pattern).None?
      decreases |stream| - pos
    {
      if pos == |stream| {
        assert header == stream;
        return header, false;
      }
      header := header + [stream[pos]];
      pos := pos + 1;
      assert header[..pos - 1] == stream[..pos - 1];
    }
    assert header == header[..pos - 1] + [header[pos - 1]] && stream == header + stream[pos..];
    PrefixEndsAtFirst(stream, header[..pos - 1], header[pos - 1], stream[pos..], pattern);
    return header, true;
  }

  lemma AppendOne<T>(front: seq<T>, x: T, rest: seq<T>)
    ensures front + ([x] + rest) == (front + [x]) + rest
  {
  }

  method ReadNext(stream: Bytes) returns (next: Round)
    ensures next == NextRound(stream)
  {
    var header, complete := ReadUntil(stream, SEPARATOR);
    if !complete {
      return NoMore;
    }
    assert stream[..|header|] == header;
    next := BodyAfter(header, stream[|header|..]);
  }

  /** The reader thread's loop: one header, one body, until the stream ends or a header is unreadable. */
  method ReadLoop(stream: Bytes) returns (bodies: seq<Bytes>, ending: Ending)
    ensures Reading(bodies, ending) == Read(stream)
  {
    bodies := [];
    var left := stream;
    while true
      invariant Read(stream) == Reading(bodies + Read(left).bodies, Read(left).ending)
      decreases |left|
    {
      var next := ReadNext(left);
      if next.NoMore? {
        return bodies, EndOfStream;
      }
      if next.Unreadable? {
        return bodies, BadHeader;
      }
      AppendOne(bodies, next.body, Read(next.rest).bodies);
      bodies := bodies + [next.body];
      left := next.rest;
    }
  }

  // ---------------------------------------------------------------- the sender

  function HeaderText(n: nat): string {
    "Content-Length: " + Decimal(n)
  }

  lemma HeaderTextIsPlain(n: nat)
    ensures forall i | 0 <= i < |HeaderText(n)| :: HeaderText(n)[i] < '\U{80}' && HeaderText(n)[i] != '\r'
  {
    DecimalRoundTrip(n);
  }

  /** The bytes `_send` writes for one body. */
  function Frame(body: Bytes): Bytes {
    HeaderTextIsPlain(|body|);
    EncodeAscii(HeaderText(|body|)) + SEPARATOR + body
  }

  function Sent(bodies: seq<Bytes>): Bytes {
    if bodies == [] then [] else Frame(bodies[0]) + Sent(bodies[1..])
  }

  lemma StripEndOf(text: string, spaces: string)
    requires forall i | 0 <= i < |spaces| :: IsSpace(spaces[i])
    ensures StripEnd(text + spaces) == StripEnd(text)
    decreases |spaces|
  {
    if spaces == [] {
      assert text + spaces == text;
    } else {
      var front := spaces[..|spaces| - 1];
      assert (text + spaces)[..|text + spaces| - 1] == text + front;
      StripEndOf(text, front);
    }
  }

  lemma StripSeparator(text: string)
    requires text != [] && !IsSpace(text[0]) && !IsSpace(text[|text| - 1])
    ensures Strip(text + "\r\n\r\n") == text
  {
    assert StripStart(text + "\r\n\r\n") == text + "\r\n\r\n";
    StripEndOf(text, "\r\n\r\n");
  }

  lemma ParseIntOfDecimal(n: nat)
    ensures ParseInt(Decimal(n)) == Some(n)
  {
    DecimalRoundTrip(n);
    var s := Decimal(n);
    assert IsDigit(s[0]) && IsDigit(s[|s| - 1]);
    assert Strip(s) == s;
  }

  lemma {:induction false} FieldsOfHeader(n: nat)
    ensures Fields(SplitLines(HeaderText(n))) == Some(map["Content-Length" := Decimal(n)])
  {
    var text := HeaderText(n);
    HeaderTextIsPlain(n);
    FindNone(text, CRLF);
    assert SplitLines(text) == [text];
    assert text == "Content-Length" + ": " + Decimal(n);
    FindAfter("Content-Length", ": ", Decimal(n));
    assert text[..14] == "Content-Length" && text[16..] == Decimal(n);
    var lines: seq<string> := [text];
    assert |lines[..0]| == 0;
  }

  /** The header a sender writes announces exactly the body's length. */
  lemma {:induction false} HeaderRoundTrip(n: nat)
    requires forall i | 0 <= i < |HeaderText(n)| :: HeaderText(n)[i] < '\U{80}'
    ensures AnnouncedLength(EncodeAscii(HeaderText(n)) + SEPARATOR) == Some(n)
  {
    var text := HeaderText(n);
    var header := EncodeAscii(text) + SEPARATOR;
    DecimalRoundTrip(n);
    assert DecodeAscii(header) == text + "\r\n\r\n";
    assert text[0] == 'C' && text[|text| - 1] == Decimal(n)[|Decimal(n)| - 1];
    StripSeparator(text);
    FieldsOfHeader(n);
    ParseIntOfDecimal(n);
  }

  /** Reading one frame gives back its body and leaves what follows it. */
  lemma ReadFrame(body: Bytes, rest: Bytes)
    ensures Read(Frame(body) + rest) == Reading([body] + Read(rest).bodies, Read(rest).ending)
  {
    HeaderTextIsPlain(|body|);
    var head := EncodeAscii(HeaderText(|body|));
    var stream := Frame(body) + rest;
    assert stream == head + SEPARATOR + (body + rest);
    FindAfter(head, SEPARATOR, body + rest);
    assert stream[..|head| + 4] == head + SEPARATOR;
    assert stream[|head| + 4..] == body + rest;
    HeaderRoundTrip(|body|);
    assert (body + rest)[..|body|] == body && (body + rest)[|body|..] == rest;
  }

  lemma ReadNothing()
    ensures Read([]) == Reading([], EndOfStream)
  {
    assert Find<Byte>([], SEPARATOR).None?;
  }

  /** For any list of bodies, the reader run on the concatenation of the frames the sender wrote
      recovers exactly those bodies in order and then sees the end of the stream. */
  lemma {:induction false} FramingRoundTrip(bodies: seq<Bytes>)
    ensures Read(Sent(bodies)) == Reading(bodies, EndOfStream)
    decreases |bodies|
  {
    if bodies == [] {
      ReadNothing();
    } else {
      var rest := Sent(bodies[1..]);
      assert Sent(bodies) == Frame(bodies[0]) + rest;
      ReadFrame(bodies[0], rest);
      FramingRoundTrip(bodies[1..]);
      assert [bodies[0]] + bodies[1..] == bodies;
    }
  }
}
