/**
 The chunked transfer coding (section 7.1 of RFC 9112) as the server writes it through its send
 buffer and as the client reads it back. Bytes are characters.
 */
module HttpChunked {
  import opened Basics

  const CR := '\r'
  const CRLF := "\r\n"
  const WORD: nat := 0x1_0000_0000_0000_0000

  // ---------------------------------------------------------------------------------------
  // The send buffer
  // ---------------------------------------------------------------------------------------

  /** `wire` is what the transport took; it takes `budget` more sends and then fails for good. */
  datatype Writer = Writer(cap: nat, buf: string, wire: string, error: bool, budget: nat)

  datatype Outcome = Outcome(w: Writer, ok: bool)

  /** Everything appended so far, in order. */
  function Stream(w: Writer): string { w.wire + w.buf }

  function SendRaw(w: Writer, data: string): Outcome {
    if w.budget == 0 then Outcome(w.(error := true), false)
    else Outcome(w.(wire := w.wire + data, budget := w.budget - 1), true)
  }

  function Flush(w: Writer): Outcome {
    if w.error then Outcome(w, false)
    else if w.buf == "" then Outcome(w, true)
    else
      var r := SendRaw(w, w.buf);
      Outcome(r.w.(buf := ""), r.ok)
  }

  function Append(w: Writer, data: string): Outcome {
    if w.error then Outcome(w, false)
    else if |data| > w.cap then
      var r := Flush(w);
      if !r.ok then r else SendRaw(r.w, data)
    else if |w.buf| + |data| > w.cap then
      var r := Flush(w);
      if !r.ok then r else Outcome(r.w.(buf := r.w.buf + data), true)
    else Outcome(w.(buf := w.buf + data), true)
  }

  function AppendAll(w: Writer, parts: seq<string>): Outcome
    decreases |parts|
  {
    if parts == [] then Outcome(w, true)
    else
      var r := Append(w, parts[0]);
      if !r.ok then r else AppendAll(r.w, parts[1..])
  }

  function Concat(parts: seq<string>): string {
    if parts == [] then "" else parts[0] + Concat(parts[1..])
  }

  /** Whatever the buffer size, a successful append adds exactly its bytes at the end of the stream. */
  lemma AppendKeepsOrder(w: Writer, data: string)
    requires |w.buf| <= w.cap
    ensures var r := Append(w, data); r.ok ==> Stream(r.w) == Stream(w) + data && |r.w.buf| <= w.cap && r.w.cap == w.cap && !r.w.error
  {
  }

  lemma {:induction false} AppendAllKeepsOrder(w: Writer, parts: seq<string>)
    requires |w.buf| <= w.cap
    ensures var r := AppendAll(w, parts);
            r.ok ==> Stream(r.w) == Stream(w) + Concat(parts) && |r.w.buf| <= w.cap && r.w.cap == w.cap && (parts == [] || !r.w.error)
    decreases |parts|
  {
    if parts != [] {
      AppendKeepsOrder(w, parts[0]);
      var r := Append(w, parts[0]);
      if r.ok {
        AppendAllKeepsOrder(r.w, parts[1..]);
        assert Stream(w) + (parts[0] + Concat(parts[1..])) == Stream(w) + parts[0] + Concat(parts[1..]);
      }
    }
  }

  lemma FlushKeepsOrder(w: Writer)
    ensures var r := Flush(w); r.ok ==> r.w.wire == Stream(w) && r.w.buf == "" && r.w.cap == w.cap
  {
  }

  // ---------------------------------------------------------------------------------------
  // Numbers in hexadecimal
  // ---------------------------------------------------------------------------------------

  function HexDigit(d: nat): (c: char)
    requires d < 16
    ensures c != CR && c != ';'
  {
    "0123456789abcdef"[d]
  }

  function HexDigits(n: nat): (s: string)
    ensures CR !in s && ';' !in s
  {
    if n == 0 then "" else HexDigits(n / 16) + [HexDigit(n % 16)]
  }

  function Hex(n: nat): string { if n == 0 then "0" else HexDigits(n) }

  /** The client's value of one character: digits of either case, anything else counts as zero. */
  function DigitValue(c: char): nat {
    if '0' <= c <= '9' then c as nat - '0' as nat
    else if 'a' <= c <= 'f' then c as nat - 'a' as nat + 10
    else if 'A' <= c <= 'F' then c as nat - 'A' as nat + 10
    else 0
  }

  /** One turn of the client's loop over a 64-bit word. */
  function ShiftIn(acc: nat, c: char): nat { (acc * 16 + DigitValue(c)) % WORD }

  /** The client's loop: it stops at a chunk extension. */
  function HexValue(s: string, acc: nat): nat {
    if s == "" || s[0] == ';' then acc else HexValue(s[1..], ShiftIn(acc, s[0]))
  }

  lemma {:induction false} HexValueAppend(s: string, c: char, acc: nat)
    requires ';' !in s && c != ';'
    ensures HexValue(s + [c], acc) == ShiftIn(HexValue(s, acc), c)
  {
    if s == "" {
      assert (s + [c])[1..] == "";
    } else {
      assert (s + [c])[1..] == s[1..] + [c];
      HexValueAppend(s[1..], c, ShiftIn(acc, s[0]));
    }
  }

  lemma DigitRoundTrip(d: nat)
    requires d < 16
    ensures DigitValue(HexDigit(d)) == d
  {
  }

  lemma {:induction false} HexDigitsRoundTrip(n: nat)
    requires n < WORD
    ensures HexValue(HexDigits(n), 0) == n
  {
    hide ShiftIn; hide HexDigit;
    if n > 0 {
      HexDigitsRoundTrip(n / 16);
      HexValueAppend(HexDigits(n / 16), HexDigit(n % 16), 0);
      ShiftBack(n);
    }
  }

  /** Shifting the last digit back in restores the number, within a word. */
  lemma ShiftBack(n: nat)
    requires n < WORD
    ensures ShiftIn(n / 16, HexDigit(n % 16)) == n
  {
    hide HexDigit; hide DigitValue;
    DigitRoundTrip(n % 16);
    SixteenTimes(n);
  }

  lemma SixteenTimes(n: nat)
    requires n < WORD
    ensures (n / 16 * 16 + n % 16) % WORD == n
  {
    assert n / 16 * 16 + n % 16 == n;
  }

  /** The client's loop inverts the server's printer on every size. */
  lemma HexRoundTrip(n: nat)
    requires n < WORD
    ensures HexValue(Hex(n), 0) == n && CR !in Hex(n) && Hex(n) != ""
  {
    HexDigitsRoundTrip(n);
    if n == 0 {
      assert "0"[1..] == "";
      assert HexValue("0", 0) == HexValue("", ShiftIn(0, '0'));
    }
  }

  // ---------------------------------------------------------------------------------------
  // The server's chunked response
  // ---------------------------------------------------------------------------------------

  function Reason(status: int): Option<string> {
    match status
    case 200 => Some("OK")
    case 201 => Some("Created")
    case 204 => Some("No Content")
    case 301 => Some("Moved Permanently")
    case 302 => Some("Found")
    case 304 => Some("Not Modified")
    case 400 => Some("Bad Request")
    case 401 => Some("Unauthorized")
    case 403 => Some("Forbidden")
    case 404 => Some("Not Found")
    case 405 => Some("Method Not Allowed")
    case 408 => Some("Request Timeout")
    case 413 => Some("Payload Too Large")
    case 500 => Some("Internal Server Error")
    case 502 => Some("Bad Gateway")
    case 503 => Some("Service Unavailable")
    case _ => None
  }

  predicate Known(status: int) { Reason(status).Some? }

  function Decimal(d: nat): char
    requires d < 10
  {
    "0123456789"[d]
  }

  lemma KnownHasThreeDigits(status: int)
    requires Known(status)
    ensures 100 <= status < 1000
  {
  }

  lemma ReasonHasNoCr(status: int)
    requires Known(status)
    ensures CR !in Reason(status).value
  {
    if status < 400 { SuccessHasNoCr(status); } else { ErrorHasNoCr(status); }
    hide Reason;
  }

  lemma SuccessHasNoCr(status: int)
    requires Known(status) && status < 400
    ensures CR !in Reason(status).value
  {
  }

  lemma ErrorHasNoCr(status: int)
    requires Known(status) && status >= 400
    ensures CR !in Reason(status).value
  {
  }

  /** The line without its end; an unknown status is written as 0. */
  function StatusText(status: int): string {
    if !Known(status) then "HTTP/1.1 0 Unknown"
    else
      KnownHasThreeDigits(status);
      "HTTP/1.1 " + [Decimal(status / 100), Decimal(status / 10 % 10), Decimal(status % 10)] + " " + Reason(status).value
  }

  function HeaderParts(status: int, contentType: string, keepAlive: bool): seq<string> {
    [StatusText(status) + CRLF, "Content-Type: ", contentType, CRLF, "Transfer-Encoding: chunked\r\n",
     if keepAlive then "Connection: keep-alive\r\n\r\n" else "Connection: close\r\n\r\n"]
  }

  function ChunkParts(data: string): seq<string> { [Hex(|data|), CRLF, data, CRLF] }

  const TERMINATOR := "0\r\n\r\n"

  datatype Responder = Responder(w: Writer, pending: bool, status: int, contentType: string, keepAlive: bool)

  datatype Sent = Sent(r: Responder, ok: bool)

  /** Appends the parts, with the headers before the first of them, and flushes. */
  function Emit(r: Responder, parts: seq<string>): Sent {
    var all := (if r.pending then HeaderParts(r.status, r.contentType, r.keepAlive) else []) + parts;
    var a := AppendAll(r.w, all);
    var f := if a.ok then Flush(a.w) else a;
    Sent(r.(w := f.w, pending := false), f.ok)
  }

  function SendChunk(r: Responder, data: string): Sent {
    if data == "" then Sent(r, false) else Emit(r, ChunkParts(data))
  }

  function EndChunked(r: Responder, last: string): Sent {
    if last == "" then Emit(r, [TERMINATOR]) else Emit(r, ChunkParts(last) + [TERMINATOR])
  }

  function SendChunks(r: Responder, chunks: seq<string>): Sent
    decreases |chunks|
  {
    if chunks == [] then Sent(r, true)
    else
      var s := SendChunk(r, chunks[0]);
      if !s.ok then s else SendChunks(s.r, chunks[1..])
  }

  /** The response as text. */
  function Head(status: int, contentType: string, keepAlive: bool): string {
    Concat(HeaderParts(status, contentType, keepAlive))
  }

  function ChunkText(data: string): string { Hex(|data|) + CRLF + data + CRLF }

  function ChunksText(chunks: seq<string>): string {
    if chunks == [] then "" else ChunkText(chunks[0]) + ChunksText(chunks[1..])
  }

  function Response(status: int, contentType: string, keepAlive: bool, chunks: seq<string>): string {
    Head(status, contentType, keepAlive) + ChunksText(chunks) + TERMINATOR
  }

  lemma {:induction false} ConcatSplit(a: seq<string>, b: seq<string>)
    ensures Concat(a + b) == Concat(a) + Concat(b)
  {
    if a == [] {
      assert a + b == b;
    } else {
      assert (a + b)[1..] == a[1..] + b;
      ConcatSplit(a[1..], b);
    }
  }

  /** A responder whose stream so far is all on the wire. */
  ghost predicate Flushed(r: Responder) { r.w.buf == "" }

  function Pending(r: Responder): string {
    if r.pending then Head(r.status, r.contentType, r.keepAlive) else ""
  }

  lemma EmitAppends(r: Responder, parts: seq<string>)
    requires Flushed(r)
    ensures var s := Emit(r, parts);
            s.ok ==>
              && Flushed(s.r) && s.r.w.wire == r.w.wire + Pending(r) + Concat(parts)
              && s.r == r.(w := s.r.w, pending := false)
  {
    hide Append; hide HeaderParts;
    var head := if r.pending then HeaderParts(r.status, r.contentType, r.keepAlive) else [];
    ConcatSplit(head, parts);
    AppendAllKeepsOrder(r.w, head + parts);
    var a := AppendAll(r.w, head + parts);
    FlushKeepsOrder(a.w);
    assert r.w.wire + "" == r.w.wire;
    assert Concat(head) == Pending(r);
    assert r.w.wire + (Pending(r) + Concat(parts)) == r.w.wire + Pending(r) + Concat(parts);
  }

  lemma ChunkPartsText(data: string)
    ensures Concat(ChunkParts(data)) == ChunkText(data)
  {
    hide Hex;
    ConcatOne(CRLF);
    ConcatSplit([data], [CRLF]);
    ConcatOne(data);
    ConcatSplit([CRLF], [data, CRLF]);
    ConcatOne(Hex(|data|));
    ConcatSplit([Hex(|data|)], [CRLF, data, CRLF]);
    assert [data] + [CRLF] == [data, CRLF] && [CRLF] + [data, CRLF] == [CRLF, data, CRLF];
    assert [Hex(|data|)] + [CRLF, data, CRLF] == ChunkParts(data);
    assert Hex(|data|) + (CRLF + (data + CRLF)) == ChunkText(data);
  }

  lemma ConcatOne(part: string)
    ensures Concat([part]) == part
  {
    assert [part][1..] == [];
    assert part + "" == part;
  }

  lemma {:induction false} SendChunksAppends(r: Responder, chunks: seq<string>)
    requires Flushed(r) && forall i :: 0 <= i < |chunks| ==> chunks[i] != ""
    ensures var s := SendChunks(r, chunks);
            s.ok ==>
              && Flushed(s.r) && s.r == r.(w := s.r.w, pending := s.r.pending)
              && s.r.w.wire + Pending(s.r) == r.w.wire + Pending(r) + ChunksText(chunks)
    decreases |chunks|
  {
    hide Emit; hide ChunkText; hide Head;
    if chunks == [] {
      assert r.w.wire + Pending(r) + "" == r.w.wire + Pending(r);
    } else {
      EmitAppends(r, ChunkParts(chunks[0]));
      ChunkPartsText(chunks[0]);
      var s := SendChunk(r, chunks[0]);
      if s.ok {
        SendChunksAppends(s.r, chunks[1..]);
        assert s.r.w.wire + "" == s.r.w.wire;
        assert (r.w.wire + Pending(r) + ChunkText(chunks[0])) + ChunksText(chunks[1..])
            == r.w.wire + Pending(r) + (ChunkText(chunks[0]) + ChunksText(chunks[1..]));
      }
    }
  }

  lemma {:induction false} ChunksTextSplit(a: seq<string>, b: seq<string>)
    ensures ChunksText(a + b) == ChunksText(a) + ChunksText(b)
  {
    hide ChunkText;
    if a == [] {
      assert a + b == b;
    } else {
      assert (a + b)[1..] == a[1..] + b;
      ChunksTextSplit(a[1..], b);
    }
  }

  /** What an ending appends: the last chunk, if any, and the terminator. */
  lemma EndAppends(r: Responder, last: string)
    requires Flushed(r)
    ensures var e := EndChunked(r, last);
            e.ok ==> e.r.w.wire == r.w.wire + Pending(r) + EndText(last)
  {
    hide Emit; hide Head; hide ChunkText;
    ConcatOne(TERMINATOR);
    if last == "" {
      EmitAppends(r, [TERMINATOR]);
    } else {
      EmitAppends(r, ChunkParts(last) + [TERMINATOR]);
      ChunkPartsText(last);
      ConcatSplit(ChunkParts(last), [TERMINATOR]);
    }
  }

  function Begin(cap: nat, budget: nat, status: int, contentType: string, keepAlive: bool): Responder {
    Responder(Writer(cap, "", "", false, budget), true, status, contentType, keepAlive)
  }

  /** The non-empty last chunk of an ending counts as one more chunk. */
  function WithLast(chunks: seq<string>, last: string): seq<string> {
    if last == "" then chunks else chunks + [last]
  }

  /** Whatever the send buffer's size, a response sent without error is on the wire byte for byte. */
  lemma WireIsResponse(cap: nat, budget: nat, status: int, contentType: string, keepAlive: bool, chunks: seq<string>, last: string)
    requires forall i :: 0 <= i < |chunks| ==> chunks[i] != ""
    ensures var s := SendChunks(Begin(cap, budget, status, contentType, keepAlive), chunks);
            var e := EndChunked(s.r, last);
            s.ok && e.ok ==> e.r.w.wire == Response(status, contentType, keepAlive, WithLast(chunks, last))
  {
    hide Emit; hide Head; hide ChunkText; hide ChunksText; hide EndChunked; hide SendChunks; hide WithLast;
    var r := Begin(cap, budget, status, contentType, keepAlive);
    SendChunksAppends(r, chunks);
    var s := SendChunks(r, chunks);
    if s.ok {
      EndAppends(s.r, last);
      LastText(chunks, last);
      Glue(Head(status, contentType, keepAlive), ChunksText(chunks), EndText(last), ChunksText(WithLast(chunks, last)), TERMINATOR);
    }
  }

  lemma Glue(head: string, body: string, end: string, whole: string, terminator: string)
    requires body + end == whole + terminator
    ensures "" + head + body + end == head + whole + terminator
  {
    assert "" + head + body + end == head + (body + end);
  }

  function EndText(last: string): string { if last == "" then TERMINATOR else ChunkText(last) + TERMINATOR }

  lemma LastText(chunks: seq<string>, last: string)
    ensures ChunksText(chunks) + EndText(last) == ChunksText(WithLast(chunks, last)) + TERMINATOR
  {
    hide ChunkText;
    if last != "" {
      ChunksTextSplit(chunks, [last]);
      assert [last][1..] == [];
      assert ChunksText([last]) == ChunkText(last) + "";
      assert ChunkText(last) + "" == ChunkText(last);
      assert ChunksText(chunks) + (ChunkText(last) + TERMINATOR) == ChunksText(chunks) + ChunkText(last) + TERMINATOR;
    }
  }

  // ---------------------------------------------------------------------------------------
  // The client's reader
  // ---------------------------------------------------------------------------------------

  /** Failed: the bytes are malformed, or there are too few of them and no more come. */
  datatype Phase = ResponseLine | Headers | Body | Done | Failed

  /** `rest` is the part of the receive buffer not yet parsed. */
  datatype Client = Client(rest: string, phase: Phase, status: nat, contentLength: nat, chunked: bool,
                           serverClose: bool, bodyRemaining: nat, chunkedDone: bool)

  datatype Read = Read(c: Client, data: Option<string>)

  function Start(input: string): Client { Client(input, ResponseLine, 0, 0, false, false, 0, false) }

  /** The index of the first c, or the length. */
  function First(s: string, c: char): (i: nat)
    ensures i <= |s| && c !in s[..i] && (i < |s| ==> s[i] == c)
  {
    if s == "" || s[0] == c then 0 else 1 + First(s[1..], c)
  }

  predicate LineAt(s: string, cr: nat) { cr + 1 < |s| && s[cr] == CR && s[cr + 1] == '\n' }

  predicate IsDecimal(c: char) { '0' <= c <= '9' }

  function DecimalValue(c: char): nat
    requires IsDecimal(c)
  {
    c as nat - '0' as nat
  }

  /** Skips the protocol word and reads exactly three digits. */
  function ParseStatus(line: string): Option<nat> {
    var sp := First(line, ' ');
    if sp + 4 > |line| then None
    else
      var a, b, c := line[sp + 1], line[sp + 2], line[sp + 3];
      if IsDecimal(a) && IsDecimal(b) && IsDecimal(c)
      then Some((DecimalValue(a) * 10 + DecimalValue(b)) * 10 + DecimalValue(c))
      else None
  }

  function GetResponseLine(c: Client): Client {
    var cr := First(c.rest, CR);
    if !LineAt(c.rest, cr) then c.(phase := Failed)
    else
      match ParseStatus(c.rest[..cr])
      case None => c.(phase := Failed)
      case Some(status) => c.(status := status, rest := c.rest[cr + 2..], phase := Headers)
  }

  function Lower(c: char): char {
    if 'A' <= c <= 'Z' then (c as int + 32) as char else c
  }

  predicate SameName(a: string, b: string) {
    |a| == |b| && forall i :: 0 <= i < |a| ==> Lower(a[i]) == Lower(b[i])
  }

  predicate StartsWith(s: string, prefix: string) {
    |s| >= |prefix| && SameName(s[..|prefix|], prefix)
  }

  function SkipSpaces(s: string): (r: string)
    ensures |r| <= |s|
  {
    if s != "" && s[0] == ' ' then SkipSpaces(s[1..]) else s
  }

  /** The digits of a content length; other characters are ignored. */
  function LengthValue(s: string, acc: nat): nat {
    if s == "" then acc
    else LengthValue(s[1..], if IsDecimal(s[0]) then acc * 10 + DecimalValue(s[0]) else acc)
  }

  function NoteHeader(c: Client, name: string, value: string): Client {
    if SameName(name, "content-length") then c.(contentLength := LengthValue(value, 0))
    else if SameName(name, "transfer-encoding") then c.(chunked := c.chunked || StartsWith(value, "chunked"))
    else if SameName(name, "connection") then c.(serverClose := c.serverClose || StartsWith(value, "close"))
    else c
  }

  /** One header line, or the blank line that ends them. */
  function NextHeader(c: Client): (d: Client)
    ensures d.phase == Headers ==> |d.rest| < |c.rest|
    ensures |d.rest| <= |c.rest|
  {
    var s := c.rest;
    if |s| < 2 then c.(phase := Failed)
    else if s[0] == CR && s[1] == '\n' then c.(rest := s[2..], phase := Body)
    else
      var colon := First(s, ':');
      if colon == |s| then c.(phase := if CR in s then Done else Failed)
      else if CR in s[..colon] then c.(phase := Done)
      else HeaderValue(c, colon)
  }

  /** The value after the colon, without leading spaces and up to the end of the line. */
  function HeaderValue(c: Client, colon: nat): (d: Client)
    requires colon < |c.rest|
    ensures |d.rest| <= |c.rest| && (d.phase == Failed || |d.rest| < |c.rest|)
  {
    var v := SkipSpaces(c.rest[colon + 1..]);
    var cr := First(v, CR);
    if cr == |v| then c.(phase := Failed)
    else NoteHeader(c, c.rest[..colon], v[..cr]).(rest := AfterLine(v, cr), phase := Headers)
  }

  /** Past the end of the line, or at a CR that does not end one. */
  function AfterLine(v: string, cr: nat): (r: string)
    requires cr < |v|
    ensures |r| <= |v|
  {
    if LineAt(v, cr) then v[cr + 2..] else v[cr..]
  }

  function SkipHeaders(c: Client): (d: Client)
    ensures |d.rest| <= |c.rest|
    decreases |c.rest|, if c.phase == Headers then 1 else 0
  {
    if c.phase != Headers then c
    else
      var d := NextHeader(c);
      if d.phase == Headers then SkipHeaders(d) else d
  }

  function ToBody(c: Client): (d: Client)
    ensures |d.rest| <= |c.rest|
  {
    SkipHeaders(if c.phase == ResponseLine then GetResponseLine(c) else c)
  }

  function ReadChunked(c: Client): (r: Read)
    ensures |r.c.rest| <= |c.rest| && (r.data.Some? ==> |r.c.rest| < |c.rest|)
    decreases |c.rest|
  {
    if c.chunkedDone then Read(c, None)
    else if c.bodyRemaining > 0 then
      if c.rest == "" then Read(c, None)
      else
        var n := if |c.rest| < c.bodyRemaining then |c.rest| else c.bodyRemaining;
        var left := c.bodyRemaining - n;
        var rest := c.rest[n..];
        if left > 0 then Read(c.(rest := rest, bodyRemaining := left), Some(c.rest[..n]))
        else if |rest| < 2 then Read(c.(rest := rest, bodyRemaining := 0, chunkedDone := true, phase := Done), Some(c.rest[..n]))
        else Read(c.(rest := rest[2..], bodyRemaining := 0), Some(c.rest[..n]))
    else
      var cr := First(c.rest, CR);
      if !LineAt(c.rest, cr) then Read(c, None)
      else
        var size := HexValue(c.rest[..cr], 0);
        var d := c.(rest := c.rest[cr + 2..]);
        if size == 0 then Read(d.(chunkedDone := true, phase := Done), None)
        else ReadChunked(d.(bodyRemaining := size))
  }

  function ReadSized(c: Client): (r: Read)
    ensures |r.c.rest| <= |c.rest| && (r.data.Some? ==> |r.c.rest| < |c.rest|)
  {
    var remaining := if c.bodyRemaining == 0 then c.contentLength else c.bodyRemaining;
    if c.contentLength == 0 || c.rest == "" then Read(c.(phase := Done), None)
    else
      var n := if |c.rest| < remaining then |c.rest| else remaining;
      var d := c.(rest := c.rest[n..], bodyRemaining := remaining - n);
      Read(if d.bodyRemaining == 0 then d.(phase := Done) else d, Some(c.rest[..n]))
  }

  function ReadBody(c: Client): (r: Read)
    ensures |r.c.rest| <= |c.rest| && (r.data.Some? ==> |r.c.rest| < |c.rest|)
  {
    var d := ToBody(c);
    if d.phase != Body then Read(d, None)
    else if d.chunked then ReadChunked(d)
    else ReadSized(d)
  }

  /** The results of successive calls of ReadBody, up to the first that returns nothing. */
  function ReadAll(c: Client): seq<string>
    decreases |c.rest|
  {
    var r := ReadBody(c);
    if r.data.None? then [] else [r.data.value] + ReadAll(r.c)
  }

  // ---------------------------------------------------------------------------------------
  // Reading back what was written
  // ---------------------------------------------------------------------------------------

  lemma {:induction false} FirstAt(a: string, c: char, tail: string)
    requires c !in a
    ensures First(a + [c] + tail, c) == |a|
  {
    if a != "" {
      assert (a + [c] + tail)[1..] == a[1..] + [c] + tail;
      FirstAt(a[1..], c, tail);
    }
  }

  /** A line ends at its first CR LF. */
  lemma LineSplit(line: string, tail: string)
    requires CR !in line
    ensures var s := line + CRLF + tail;
            First(s, CR) == |line| && LineAt(s, |line|) && s[..|line|] == line && s[|line| + 2..] == tail
  {
    assert line + CRLF + tail == line + [CR] + (['\n'] + tail);
    FirstAt(line, CR, ['\n'] + tail);
  }

  lemma ProtocolWord(tail: string)
    ensures First("HTTP/1.1 " + tail, ' ') == 8
  {
    var word := "HTTP/1.1";
    assert word + [' '] + tail == "HTTP/1.1 " + tail;
    assert forall i :: 0 <= i < |word| ==> word[i] != ' ';
    FirstAt(word, ' ', tail);
  }

  lemma DecimalRoundTrip(d: nat)
    requires d < 10
    ensures IsDecimal(Decimal(d)) && DecimalValue(Decimal(d)) == d
  {
  }

  lemma ThreeDigits(a: nat, b: nat, c: nat, tail: string)
    requires a < 10 && b < 10 && c < 10
    ensures ParseStatus("HTTP/1.1 " + [Decimal(a), Decimal(b), Decimal(c)] + tail) == Some((a * 10 + b) * 10 + c)
  {
    hide Decimal; hide First;
    var digits := [Decimal(a), Decimal(b), Decimal(c)];
    var line := "HTTP/1.1 " + digits + tail;
    assert line == "HTTP/1.1 " + (digits + tail);
    ProtocolWord(digits + tail);
    DecimalRoundTrip(a);
    DecimalRoundTrip(b);
    DecimalRoundTrip(c);
    assert line[9] == digits[0] && line[10] == digits[1] && line[11] == digits[2];
  }

  lemma NoCrIn(a: string, b: string)
    requires CR !in a && CR !in b
    ensures CR !in a + b
  {
  }

  lemma DigitIsNotCr(d: nat)
    requires d < 10
    ensures Decimal(d) != CR
  {
  }

  lemma StatusTextHasNoCr(status: int)
    ensures CR !in StatusText(status)
  {
    hide Reason; hide Decimal;
    if Known(status) {
      KnownHasThreeDigits(status);
      ReasonHasNoCr(status);
      DigitIsNotCr(status / 100);
      DigitIsNotCr(status / 10 % 10);
      DigitIsNotCr(status % 10);
      var digits := [Decimal(status / 100), Decimal(status / 10 % 10), Decimal(status % 10)];
      NoCrIn("HTTP/1.1 ", digits);
      NoCrIn("HTTP/1.1 " + digits, " ");
      NoCrIn("HTTP/1.1 " + digits + " ", Reason(status).value);
    }
  }

  lemma KnownStatusRead(status: int)
    requires Known(status)
    ensures ParseStatus(StatusText(status)) == Some(status)
  {
    hide Reason; hide Decimal; hide ParseStatus;
    KnownHasThreeDigits(status);
    var digits := [Decimal(status / 100), Decimal(status / 10 % 10), Decimal(status % 10)];
    var tail := " " + Reason(status).value;
    assert StatusText(status) == "HTTP/1.1 " + digits + tail;
    ThreeDigits(status / 100, status / 10 % 10, status % 10, tail);
    DigitsMakeNumber(status);
  }

  lemma DigitsMakeNumber(n: nat)
    requires n < 1000
    ensures (n / 100 * 10 + n / 10 % 10) * 10 + n % 10 == n
  {
  }

  lemma UnknownStatusRejected()
    ensures ParseStatus("HTTP/1.1 0 Unknown") == None
  {
    hide First;
    assert "HTTP/1.1 0 Unknown" == "HTTP/1.1 " + "0 Unknown";
    ProtocolWord("0 Unknown");
    assert "HTTP/1.1 0 Unknown"[10] == ' ';
  }

  lemma StatusRoundTrip(status: int)
    ensures ParseStatus(StatusText(status)) == if Known(status) then Some(status) else None
  {
    hide Reason; hide ParseStatus;
    if Known(status) { KnownStatusRead(status); } else { UnknownStatusRejected(); }
  }

  lemma ResponseLineRead(c: Client, status: int, tail: string)
    requires c.rest == StatusText(status) + CRLF + tail && c.phase == ResponseLine
    ensures var d := GetResponseLine(c);
            if Known(status) then d == c.(rest := tail, status := status, phase := Headers) else d.phase == Failed
  {
    hide StatusText; hide ParseStatus;
    StatusRoundTrip(status);
    StatusTextHasNoCr(status);
    LineSplit(StatusText(status), tail);
  }

  /** Skipping spaces stops at a CR. */
  lemma {:induction false} SpacesEnd(s: string, tail: string)
    requires CR !in s
    ensures SkipSpaces(s + [CR] + tail) == SkipSpaces(s) + [CR] + tail && CR !in SkipSpaces(s)
  {
    if s != "" && s[0] == ' ' {
      assert (s + [CR] + tail)[1..] == s[1..] + [CR] + tail;
      SpacesEnd(s[1..], tail);
    }
  }

  /** A name, a colon and a value up to a CR are read as a header. */
  lemma HeaderParsed(c: Client, name: string, after: string, v: string, tail: string)
    requires c.rest == name + [':'] + after && ':' !in name && CR !in name && after != ""
    requires CR !in v && SkipSpaces(after) == v + [CR] + tail
    ensures NextHeader(c) == NoteHeader(c, name, v).(rest := AfterLine(v + [CR] + tail, |v|), phase := Headers)
  {
    hide SkipSpaces; hide NoteHeader; hide AfterLine;
    FirstAt(name, ':', after);
    assert c.rest[..|name|] == name && c.rest[|name| + 1..] == after;
    assert name != "" ==> c.rest[0] == name[0] && name[0] in name;
    FirstAt(v, CR, tail);
    assert (v + [CR] + tail)[..|v|] == v;
  }

  lemma AfterWholeLine(v: string, tail: string)
    ensures AfterLine(v + [CR] + (['\n'] + tail), |v|) == tail
  {
    var s := v + [CR] + (['\n'] + tail);
    assert s[|v| + 2..] == tail;
  }

  lemma AfterLoneCr(v: string, tail: string)
    requires tail == "" || tail[0] != '\n'
    ensures AfterLine(v + [CR] + tail, |v|) == [CR] + tail
  {
    var s := v + [CR] + tail;
    assert s[|v|..] == [CR] + tail;
  }

  /** What a line with a colon says. */
  function Named(line: string): string { line[..First(line, ':')] }

  function Valued(line: string): string
    requires ':' in line
  {
    SkipSpaces(line[First(line, ':') + 1..])
  }

  /** Any line with a colon is read as a header, and parsing goes on behind it. */
  lemma LineRead(c: Client, line: string, tail: string)
    requires c.rest == line + [CR] + tail && ':' in line && CR !in line
    ensures NextHeader(c)
         == NoteHeader(c, Named(line), Valued(line)).(rest := AfterLine(Valued(line) + [CR] + tail, |Valued(line)|), phase := Headers)
  {
    hide SkipSpaces; hide NoteHeader; hide NextHeader; hide AfterLine;
    var colon := First(line, ':');
    var value := line[colon + 1..];
    assert line == line[..colon] + [':'] + value;
    SpacesEnd(value, tail);
    assert c.rest == line[..colon] + [':'] + (value + [CR] + tail);
    HeaderParsed(c, line[..colon], value + [CR] + tail, SkipSpaces(value), tail);
  }

  lemma WholeLineRead(c: Client, line: string, tail: string)
    requires c.rest == line + CRLF + tail && ':' in line && CR !in line
    ensures NextHeader(c) == NoteHeader(c, Named(line), Valued(line)).(rest := tail, phase := Headers)
  {
    hide NoteHeader; hide NextHeader; hide AfterLine; hide Named; hide Valued;
    assert c.rest == line + [CR] + (['\n'] + tail);
    LineRead(c, line, ['\n'] + tail);
    AfterWholeLine(Valued(line), tail);
  }

  /** A header line is read as its name and value. */
  lemma HeaderRead(c: Client, name: string, value: string, tail: string)
    requires c.rest == Line(name, value, tail) && ':' !in name && CR !in name && CR !in value
    ensures NextHeader(c) == NoteHeader(c, name, SkipSpaces(value)).(rest := tail, phase := Headers)
  {
    hide NoteHeader; hide NextHeader;
    var line := name + ": " + value;
    assert line == name + [':'] + ([' '] + value);
    FirstAt(name, ':', [' '] + value);
    assert line[|name|] == ':' && line[..|name|] == name && line[|name| + 1..] == [' '] + value && ([' '] + value)[1..] == value;
    WholeLineRead(c, line, tail);
  }

  function Line(name: string, value: string, tail: string): string { name + ": " + value + CRLF + tail }

  function ConnValue(keepAlive: bool): string { if keepAlive then "keep-alive" else "close" }

  /** The parts one after the other, and then the tail. */
  function Join(parts: seq<string>, tail: string): string {
    if parts == [] then tail else parts[0] + Join(parts[1..], tail)
  }

  lemma {:induction false} ConcatIsJoin(parts: seq<string>, tail: string)
    ensures Concat(parts) + tail == Join(parts, tail)
  {
    if parts != [] {
      ConcatIsJoin(parts[1..], tail);
      assert (parts[0] + Concat(parts[1..])) + tail == parts[0] + (Concat(parts[1..]) + tail);
    }
  }

  lemma JoinStep(part: string, rest: seq<string>, tail: string)
    ensures Join([part] + rest, tail) == part + Join(rest, tail)
  {
    assert ([part] + rest)[1..] == rest;
  }

  lemma JoinSix(a: string, b: string, c: string, d: string, e: string, f: string, tail: string)
    ensures Join([a, b, c, d, e, f], tail) == a + (b + (c + (d + (e + (f + tail)))))
  {
    JoinStep(f, [], tail);
    assert [f] + [] == [f];
    JoinStep(e, [f], tail);
    JoinStep(d, [e, f], tail);
    JoinStep(c, [d, e, f], tail);
    JoinStep(b, [c, d, e, f], tail);
    JoinStep(a, [b, c, d, e, f], tail);
    assert [e] + [f] == [e, f] && [d] + [e, f] == [d, e, f] && [c] + [d, e, f] == [c, d, e, f];
    assert [b] + [c, d, e, f] == [b, c, d, e, f] && [a] + [b, c, d, e, f] == [a, b, c, d, e, f];
  }

  lemma ContentTypeText(contentType: string, tail: string)
    ensures "Content-Type: " + (contentType + (CRLF + tail)) == Line("Content-Type", contentType, tail)
  {
    assert "Content-Type: " == "Content-Type" + ": ";
  }

  /** The header block as lines. */
  lemma HeadText(status: int, contentType: string, keepAlive: bool, tail: string)
    ensures Head(status, contentType, keepAlive) + tail
         == StatusText(status) + CRLF
            + Line("Content-Type", contentType,
                   Line("Transfer-Encoding", "chunked", Line("Connection", ConnValue(keepAlive), CRLF + tail)))
  {
    hide StatusText; hide Concat; hide Join; hide Line;
    var conn := if keepAlive then "Connection: keep-alive\r\n\r\n" else "Connection: close\r\n\r\n";
    var te := "Transfer-Encoding: chunked\r\n";
    ConcatIsJoin(HeaderParts(status, contentType, keepAlive), tail);
    JoinSix(StatusText(status) + CRLF, "Content-Type: ", contentType, CRLF, te, conn, tail);
    ConnText(keepAlive, tail);
    TeText(conn + tail);
    ContentTypeText(contentType, te + (conn + tail));
  }

  lemma ConnText(keepAlive: bool, tail: string)
    ensures (if keepAlive then "Connection: keep-alive\r\n\r\n" else "Connection: close\r\n\r\n") + tail
         == Line("Connection", ConnValue(keepAlive), CRLF + tail)
  {
    assert "Connection: keep-alive\r\n\r\n" == "Connection" + ": " + "keep-alive" + CRLF + CRLF;
    assert "Connection: close\r\n\r\n" == "Connection" + ": " + "close" + CRLF + CRLF;
  }

  lemma TeText(tail: string)
    ensures "Transfer-Encoding: chunked\r\n" + tail == Line("Transfer-Encoding", "chunked", tail)
  {
    assert "Transfer-Encoding: chunked\r\n" == "Transfer-Encoding" + ": " + "chunked" + CRLF;
  }

  lemma NoteContentType(c: Client, v: string)
    ensures NoteHeader(c, "Content-Type", v) == c
  {
  }

  lemma NoteTransferEncoding(c: Client)
    ensures NoteHeader(c, "Transfer-Encoding", "chunked") == c.(chunked := true)
  {
    assert SameName("Transfer-Encoding", "transfer-encoding");
    assert "chunked"[..7] == "chunked";
  }

  lemma NoteConnection(c: Client, keepAlive: bool)
    ensures NoteHeader(c, "Connection", ConnValue(keepAlive)) == c.(serverClose := c.serverClose || !keepAlive)
  {
    assert SameName("Connection", "connection");
    assert "close"[..5] == "close";
    assert "keep-alive"[..5][0] == 'k';
  }

  lemma EndOfHeaders(c: Client, tail: string)
    requires c.rest == CRLF + tail && c.phase == Headers
    ensures SkipHeaders(c) == c.(rest := tail, phase := Body)
  {
    assert c.rest[2..] == tail;
  }

  lemma SkipOne(c: Client)
    requires c.phase == Headers && NextHeader(c).phase == Headers
    ensures SkipHeaders(c) == SkipHeaders(NextHeader(c))
  {
  }

  /** The server's own header lines after the content type. */
  function OwnLines(keepAlive: bool, tail: string): string {
    Line("Transfer-Encoding", "chunked", Line("Connection", ConnValue(keepAlive), CRLF + tail))
  }

  lemma OwnLinesRead(c: Client, keepAlive: bool, tail: string)
    requires c.phase == Headers && c.rest == OwnLines(keepAlive, tail)
    ensures SkipHeaders(c) == c.(rest := tail, phase := Body, chunked := true, serverClose := c.serverClose || !keepAlive)
  {
    hide NextHeader; hide SkipHeaders; hide NoteHeader;
    var rest2 := Line("Connection", ConnValue(keepAlive), CRLF + tail);
    HeaderRead(c, "Transfer-Encoding", "chunked", rest2);
    NoteTransferEncoding(c);
    SkipOne(c);
    var c2 := c.(rest := rest2, chunked := true);
    HeaderRead(c2, "Connection", ConnValue(keepAlive), CRLF + tail);
    NoteConnection(c2, keepAlive);
    SkipOne(c2);
    EndOfHeaders(c2.(rest := CRLF + tail, serverClose := c.serverClose || !keepAlive), tail);
  }

  // ---------------------------------------------------------------------------------------
  // Content types with line ends in them
  // ---------------------------------------------------------------------------------------

  /** Text that, followed by a line end, is one or more lines with a colon and no stray CR. */
  predicate HeaderLines(s: string)
    decreases |s|
  {
    var cr := First(s, CR);
    ':' in s[..cr] && (cr < |s| ==> LineAt(s, cr) && HeaderLines(s[cr + 2..]))
  }

  /** The server writes the content type as it is given; the client reads the header block back only if this holds. */
  predicate CleanType(contentType: string) { HeaderLines("Content-Type: " + contentType) }

  lemma OneLineIsClean(contentType: string)
    requires CR !in contentType
    ensures CleanType(contentType)
  {
    var s := "Content-Type: " + contentType;
    NoCrIn("Content-Type: ", contentType);
    FirstMeans(s, CR);
    assert s[12] == ':' && s[..|s|] == s;
  }

  /** The same client but for what header lines may set. */
  ghost predicate SameButNotes(c: Client, d: Client) {
    d == c.(rest := d.rest, contentLength := d.contentLength, chunked := d.chunked, serverClose := d.serverClose)
  }

  lemma NoteIsLocal(c: Client, name: string, v: string, rest: string)
    ensures SameButNotes(c, NoteHeader(c, name, v)) && NoteHeader(c.(rest := rest), name, v) == NoteHeader(c, name, v).(rest := rest)
  {
    hide SameName; hide StartsWith; hide LengthValue;
  }

  lemma {:induction false} LinesRead(c: Client, s: string, tail: string) returns (d: Client)
    requires c.phase == Headers && HeaderLines(s) && c.rest == s + CRLF + tail
    ensures d.rest == tail && SameButNotes(c, d) && SkipHeaders(c) == SkipHeaders(d)
    decreases |s|
  {
    hide NextHeader; hide SkipHeaders; hide NoteHeader; hide AfterLine;
    var cr := First(s, CR);
    var line := s[..cr];
    var after := if cr == |s| then tail else s[cr + 2..] + CRLF + tail;
    SplitFirstLine(s, cr, tail);
    WholeLineRead(c, line, after);
    NoteIsLocal(c, Named(line), Valued(line), c.rest);
    SkipOne(c);
    d := NextHeader(c);
    if cr < |s| {
      d := LinesRead(d, s[cr + 2..], tail);
    }
  }

  lemma SplitFirstLine(s: string, cr: nat, tail: string)
    requires cr <= |s| && (cr < |s| ==> LineAt(s, cr))
    ensures s + CRLF + tail == s[..cr] + CRLF + if cr == |s| then tail else s[cr + 2..] + CRLF + tail
  {
    if cr == |s| {
      assert s[..cr] == s;
    } else {
      assert s == s[..cr] + CRLF + s[cr + 2..];
    }
  }

  /** A client at the start of a chunk. */
  predicate AtChunk(c: Client) { c.phase == Body && c.chunked && c.bodyRemaining == 0 && !c.chunkedDone }

  /**
   From a whole header block the client reaches the body: chunked, with the status, and knowing that the
   server closes if it does. With an unknown status it gets no further than the status line.
   */
  lemma HeadRead(status: int, contentType: string, keepAlive: bool, tail: string)
    ensures var d := ToBody(Start(Head(status, contentType, keepAlive) + tail));
            && (!Known(status) ==> d.phase == Failed)
            && (Known(status) && CleanType(contentType) ==>
                  AtChunk(d) && d.rest == tail && d.status == status && (!keepAlive ==> d.serverClose))
            && (Known(status) && CR !in contentType ==> d.serverClose == !keepAlive)
  {
    hide SkipHeaders; hide Head; hide ToBody; hide Reason; hide OwnLines; hide HeaderLines;
    AfterStatus(status, contentType, keepAlive, tail);
    if Known(status) {
      KnownHasThreeDigits(status);
      var c1 := Headed(status, contentType, OwnLines(keepAlive, tail));
      if CleanType(contentType) {
        var d := LinesRead(c1, "Content-Type: " + contentType, OwnLines(keepAlive, tail));
        OwnLinesRead(d, keepAlive, tail);
      }
      if CR !in contentType { PlainTypeRead(c1, contentType, keepAlive, tail); }
    }
  }

  /** The client behind the status line. */
  function Headed(status: nat, contentType: string, rest: string): Client {
    Start("Content-Type: " + contentType + CRLF + rest).(phase := Headers, status := status)
  }

  lemma AfterStatus(status: int, contentType: string, keepAlive: bool, tail: string)
    ensures var c := Start(Head(status, contentType, keepAlive) + tail);
            && (Known(status) ==> status >= 0 && ToBody(c) == SkipHeaders(Headed(status, contentType, OwnLines(keepAlive, tail))))
            && (!Known(status) ==> ToBody(c).phase == Failed)
  {
    hide GetResponseLine; hide SkipHeaders; hide Head; hide StatusText; hide Line; hide Reason; hide OwnLines;
    HeadText(status, contentType, keepAlive, tail);
    TypeLine(contentType, keepAlive, tail);
    var rest := "Content-Type: " + contentType + CRLF + OwnLines(keepAlive, tail);
    var c := Start(StatusText(status) + CRLF + rest);
    ResponseLineRead(c, status, rest);
    if Known(status) {
      KnownHasThreeDigits(status);
    } else {
      SkipNothing(GetResponseLine(c));
    }
  }

  lemma TypeLine(contentType: string, keepAlive: bool, tail: string)
    ensures Line("Content-Type", contentType, OwnLines(keepAlive, tail))
         == "Content-Type: " + contentType + CRLF + OwnLines(keepAlive, tail)
    ensures Line("Content-Type", contentType,
                 Line("Transfer-Encoding", "chunked", Line("Connection", ConnValue(keepAlive), CRLF + tail)))
         == Line("Content-Type", contentType, OwnLines(keepAlive, tail))
  {
    hide OwnLines;
    TypeLineText(contentType, OwnLines(keepAlive, tail));
    OwnLinesIs(keepAlive, tail);
  }

  lemma OwnLinesIs(keepAlive: bool, tail: string)
    ensures OwnLines(keepAlive, tail) == Line("Transfer-Encoding", "chunked", Line("Connection", ConnValue(keepAlive), CRLF + tail))
  {
  }

  lemma TypeLineText(contentType: string, rest: string)
    ensures Line("Content-Type", contentType, rest) == "Content-Type: " + contentType + CRLF + rest
  {
    assert "Content-Type" + ": " == "Content-Type: ";
  }

  lemma PlainTypeRead(c: Client, contentType: string, keepAlive: bool, tail: string)
    requires c.phase == Headers && !c.serverClose && CR !in contentType
    requires c.rest == "Content-Type: " + contentType + CRLF + OwnLines(keepAlive, tail)
    ensures SkipHeaders(c).serverClose == !keepAlive
  {
    hide NextHeader; hide SkipHeaders; hide NoteHeader; hide OwnLines;
    TypeLineText(contentType, OwnLines(keepAlive, tail));
    HeaderRead(c, "Content-Type", contentType, OwnLines(keepAlive, tail));
    NoteContentType(c, SkipSpaces(contentType));
    SkipOne(c);
    OwnLinesRead(c.(rest := OwnLines(keepAlive, tail)), keepAlive, tail);
  }

  lemma SkipNothing(c: Client)
    requires c.phase != Headers
    ensures SkipHeaders(c) == c
  {
  }

  /** One chunk is delivered whole by one call. */
  lemma ChunkRead(b: Client, data: string, tail: string)
    requires AtChunk(b) && data != "" && |data| < WORD
    ensures ReadChunked(b.(rest := ChunkText(data) + tail)) == Read(b.(rest := tail), Some(data))
  {
    hide Hex; hide HexValue;
    var size := Hex(|data|);
    HexRoundTrip(|data|);
    var rest := data + CRLF + tail;
    assert ChunkText(data) + tail == size + CRLF + rest;
    LineSplit(size, rest);
    var d := b.(rest := rest, bodyRemaining := |data|);
    assert ReadChunked(b.(rest := size + CRLF + rest)) == ReadChunked(d);
    assert rest[..|data|] == data && rest[|data|..] == CRLF + tail && (CRLF + tail)[2..] == tail;
  }

  lemma TerminatorRead(b: Client)
    requires AtChunk(b)
    ensures ReadChunked(b.(rest := TERMINATOR)).data == None
  {
    assert TERMINATOR == "0" + CRLF + CRLF;
    LineSplit("0", CRLF);
    HexRoundTrip(0);
  }

  lemma ReadAtChunk(b: Client)
    requires AtChunk(b)
    ensures ReadBody(b) == ReadChunked(b)
  {
  }

  ghost predicate Sendable(chunks: seq<string>) {
    forall i :: 0 <= i < |chunks| ==> chunks[i] != "" && |chunks[i]| < WORD
  }

  lemma {:induction false} ChunksRead(b: Client, chunks: seq<string>)
    requires AtChunk(b) && Sendable(chunks)
    ensures ReadAll(b.(rest := ChunksText(chunks) + TERMINATOR)) == chunks
    decreases |chunks|
  {
    hide ReadChunked; hide ReadBody; hide ChunkText;
    var c := b.(rest := ChunksText(chunks) + TERMINATOR);
    ReadAtChunk(c);
    if chunks == [] {
      assert "" + TERMINATOR == TERMINATOR;
      TerminatorRead(b);
    } else {
      var tail := ChunksText(chunks[1..]) + TERMINATOR;
      assert ChunksText(chunks) + TERMINATOR == ChunkText(chunks[0]) + tail;
      ChunkRead(b, chunks[0], tail);
      ChunksRead(b, chunks[1..]);
    }
  }

  lemma SameAtBody(c: Client)
    requires ToBody(c).phase == Body
    ensures ReadBody(c) == ReadBody(ToBody(c)) && ReadAll(c) == ReadAll(ToBody(c))
  {
    var d := ToBody(c);
    assert ToBody(d) == d;
  }

  lemma ResponseSplit(status: int, contentType: string, keepAlive: bool, chunks: seq<string>)
    ensures Response(status, contentType, keepAlive, chunks)
         == Head(status, contentType, keepAlive) + (ChunksText(chunks) + TERMINATOR)
  {
    hide Head; hide ChunksText;
  }

  /** The client reads back exactly the chunks, one per call, from a response with a known status and a clean type. */
  lemma RoundTrip(status: int, contentType: string, keepAlive: bool, chunks: seq<string>)
    requires Known(status) && CleanType(contentType) && Sendable(chunks)
    ensures ReadAll(Start(Response(status, contentType, keepAlive, chunks))) == chunks
  {
    hide Head; hide ToBody; hide ReadAll; hide Reason; hide Response; hide CleanType; hide Sendable;
    var tail := ChunksText(chunks) + TERMINATOR;
    ResponseSplit(status, contentType, keepAlive, chunks);
    HeadRead(status, contentType, keepAlive, tail);
    var c := Start(Head(status, contentType, keepAlive) + tail);
    SameAtBody(c);
    ChunksRead(ToBody(c), chunks);
    assert ToBody(c).(rest := tail) == ToBody(c);
  }

  /** From a response with an unknown status it reads nothing. */
  lemma UnknownReadsNothing(status: int, contentType: string, keepAlive: bool, chunks: seq<string>)
    requires !Known(status)
    ensures ReadAll(Start(Response(status, contentType, keepAlive, chunks))) == []
  {
    hide Head; hide ToBody; hide Reason; hide Response;
    ResponseSplit(status, contentType, keepAlive, chunks);
    HeadRead(status, contentType, keepAlive, ChunksText(chunks) + TERMINATOR);
  }

  // ---------------------------------------------------------------------------------------
  // What an unclean content type does
  // ---------------------------------------------------------------------------------------

  /** Text before the first colon that holds a CR makes the client give up. */
  lemma BadLine(c: Client, cr: nat)
    requires |c.rest| >= 2 && cr < |c.rest| && c.rest[cr] == CR && ':' !in c.rest[..cr]
    requires !(c.rest[0] == CR && c.rest[1] == '\n')
    ensures NextHeader(c).phase == Done
  {
    var colon := First(c.rest, ':');
    if colon < |c.rest| {
      assert c.rest[..cr] == c.rest[..colon][..cr] || colon <= cr;
      assert CR in c.rest[..colon];
    }
  }

  lemma SkipToDone(c: Client)
    requires c.phase == Headers && NextHeader(c).phase == Done
    ensures SkipHeaders(c).phase == Done
  {
  }

  /** A CR without a line feed makes the client give up, at once or at the next line. */
  lemma StrayCr(c: Client, line: string, tail: string)
    requires c.phase == Headers && c.rest == line + [CR] + tail && CR !in line && tail != "" && tail[0] != '\n'
    ensures SkipHeaders(c).phase == Done
  {
    hide NextHeader; hide SkipHeaders; hide NoteHeader; hide AfterLine;
    assert c.rest[|line|] == CR && c.rest[..|line|] == line;
    if ':' in line {
      LineRead(c, line, tail);
      AfterLoneCr(Valued(line), tail);
      SkipOne(c);
      var d := NextHeader(c);
      assert d.rest[0] == CR && d.rest[1] == tail[0] && d.rest[..0] == "";
      BadLine(d, 0);
      SkipToDone(d);
    } else {
      assert line == "" ==> c.rest[1] == tail[0];
      BadLine(c, |line|);
      SkipToDone(c);
    }
  }

  /** So does a line without a colon. */
  lemma NoColon(c: Client, line: string, tail: string)
    requires c.phase == Headers && c.rest == line + CRLF + tail && line != "" && CR !in line && ':' !in line
    ensures SkipHeaders(c).phase == Done
  {
    hide NextHeader; hide SkipHeaders;
    assert c.rest[|line|] == CR && c.rest[..|line|] == line && c.rest[0] == line[0];
    BadLine(c, |line|);
    SkipToDone(c);
  }

  /** Enough fixed text that the first value read from it starts with a fixed character. */
  predicate Opening(u: string) { First(u, CR) + 2 < |u| }

  /** The two clients failed, or both stand at the same fixed text with their own tails behind it. */
  ghost predicate SameFate(d1: Client, d2: Client, t1: string, t2: string) {
    || (d1.phase == Done && d2.phase == Done)
    || exists b: Client, u: string :: EarlyBody(b, u) && d1 == b.(rest := u + t1) && d2 == b.(rest := u + t2)
  }

  ghost predicate EarlyBody(b: Client, u: string) {
    b.phase == Body && b.bodyRemaining == 0 && Opening(u)
  }

  /** The header block ends early: the body starts inside the content type or at the server's own lines. */
  lemma BlankLine(c: Client, s: string, keepAlive: bool, t1: string, t2: string)
    requires c.phase == Headers && c.bodyRemaining == 0
    ensures SameFate(SkipHeaders(c.(rest := CRLF + (s + OwnLines(keepAlive, t1)))),
                     SkipHeaders(c.(rest := CRLF + (s + OwnLines(keepAlive, t2)))), t1, t2)
  {
    hide SkipHeaders; hide OwnLines;
    EndOfHeaders(c.(rest := CRLF + (s + OwnLines(keepAlive, t1))), s + OwnLines(keepAlive, t1));
    EndOfHeaders(c.(rest := CRLF + (s + OwnLines(keepAlive, t2))), s + OwnLines(keepAlive, t2));
    OwnLinesSplit(keepAlive, t1);
    OwnLinesSplit(keepAlive, t2);
    var u := s + OwnLines(keepAlive, "");
    OpensWithOwnLines(s, keepAlive);
    assert s + (OwnLines(keepAlive, "") + t1) == u + t1 && s + (OwnLines(keepAlive, "") + t2) == u + t2;
    assert EarlyBody(c.(phase := Body), u);
  }

  lemma OwnLinesSplit(keepAlive: bool, tail: string)
    ensures OwnLines(keepAlive, tail) == OwnLines(keepAlive, "") + tail
  {
    var conn := "Connection" + ": " + ConnValue(keepAlive) + CRLF;
    assert Line("Connection", ConnValue(keepAlive), CRLF + tail) == conn + CRLF + tail;
    assert Line("Connection", ConnValue(keepAlive), CRLF + "") == conn + CRLF;
    var te := "Transfer-Encoding" + ": " + "chunked" + CRLF;
    assert OwnLines(keepAlive, tail) == te + (conn + CRLF + tail);
    assert OwnLines(keepAlive, "") == te + (conn + CRLF);
    assert te + (conn + CRLF + tail) == te + (conn + CRLF) + tail;
  }

  lemma OpensWithOwnLines(s: string, keepAlive: bool)
    ensures Opening(s + OwnLines(keepAlive, ""))
  {
    hide First;
    var line := "Transfer-Encoding" + ": " + "chunked";
    var after := Line("Connection", ConnValue(keepAlive), CRLF + "");
    assert OwnLines(keepAlive, "") == line + CRLF + after;
    var u := s + OwnLines(keepAlive, "");
    assert u[|s| + |line|] == CR;
    assert |after| > 1;
    FirstAtMost(u, CR, |s| + |line|);
  }

  lemma {:induction false} FirstAtMost(s: string, c: char, i: nat)
    requires i < |s| && s[i] == c
    ensures First(s, c) <= i
  {
    if i > 0 && s[0] != c { FirstAtMost(s[1..], c, i - 1); }
  }

  /** Text that is not header lines ends the same way whatever follows the server's own lines. */
  lemma {:induction false} UncleanFate(c: Client, s: string, keepAlive: bool, t1: string, t2: string)
    requires c.phase == Headers && c.bodyRemaining == 0 && !HeaderLines(s)
    ensures SameFate(SkipHeaders(c.(rest := s + CRLF + OwnLines(keepAlive, t1))),
                     SkipHeaders(c.(rest := s + CRLF + OwnLines(keepAlive, t2))), t1, t2)
    decreases |s|
  {
    hide SkipHeaders; hide OwnLines; hide NextHeader; hide NoteHeader; hide SameFate; hide AfterLine;
    var cr := First(s, CR);
    var c1, c2 := c.(rest := s + CRLF + OwnLines(keepAlive, t1)), c.(rest := s + CRLF + OwnLines(keepAlive, t2));
    var line := s[..cr];
    if cr < |s| && !LineAt(s, cr) {
      StraySplit(s, cr, OwnLines(keepAlive, t1));
      StraySplit(s, cr, OwnLines(keepAlive, t2));
      StrayCr(c1, line, s[cr + 1..] + CRLF + OwnLines(keepAlive, t1));
      StrayCr(c2, line, s[cr + 1..] + CRLF + OwnLines(keepAlive, t2));
      BothDone(SkipHeaders(c1), SkipHeaders(c2), t1, t2);
    } else {
      var more := if cr == |s| then "" else s[cr + 2..] + CRLF;
      LineThen(s, cr, OwnLines(keepAlive, t1));
      LineThen(s, cr, OwnLines(keepAlive, t2));
      if line == "" {
        BlankLine(c, more, keepAlive, t1, t2);
      } else if ':' !in line {
        NoColon(c1, line, more + OwnLines(keepAlive, t1));
        NoColon(c2, line, more + OwnLines(keepAlive, t2));
        BothDone(SkipHeaders(c1), SkipHeaders(c2), t1, t2);
      } else {
        GoodLineThen(c, s, cr, keepAlive, t1, t2);
      }
    }
  }

  lemma BothDone(d1: Client, d2: Client, t1: string, t2: string)
    requires d1.phase == Done && d2.phase == Done
    ensures SameFate(d1, d2, t1, t2)
  {
  }

  lemma StraySplit(s: string, cr: nat, own: string)
    requires cr < |s| && s[cr] == CR && !LineAt(s, cr)
    ensures s + CRLF + own == s[..cr] + [CR] + (s[cr + 1..] + CRLF + own)
    ensures (s[cr + 1..] + CRLF + own) != "" && (s[cr + 1..] + CRLF + own)[0] != '\n'
  {
    assert s == s[..cr] + [CR] + s[cr + 1..];
  }

  lemma LineThen(s: string, cr: nat, own: string)
    requires cr <= |s| && (cr < |s| ==> LineAt(s, cr))
    ensures var more := if cr == |s| then "" else s[cr + 2..] + CRLF;
            s + CRLF + own == s[..cr] + CRLF + (more + own) && (s[..cr] == "" ==> s + CRLF + own == CRLF + (more + own))
  {
    if cr == |s| {
      assert s[..cr] == s && "" + own == own;
    } else {
      assert s == s[..cr] + CRLF + s[cr + 2..];
    }
  }

  /** A line with a colon is noted and skipped. */
  lemma LineSkipped(c: Client, s: string, cr: nat, own: string)
    requires c.phase == Headers && LineAt(s, cr) && CR !in s[..cr] && ':' in s[..cr]
    ensures SkipHeaders(c.(rest := s + CRLF + own))
         == SkipHeaders(NoteHeader(c, Named(s[..cr]), Valued(s[..cr])).(rest := s[cr + 2..] + CRLF + own))
  {
    hide SkipHeaders; hide NextHeader; hide NoteHeader; hide Named; hide Valued;
    var d := c.(rest := s + CRLF + own);
    SplitFirstLine(s, cr, own);
    WholeLineRead(d, s[..cr], s[cr + 2..] + CRLF + own);
    NoteIsLocal(c, Named(s[..cr]), Valued(s[..cr]), d.rest);
    SkipOne(d);
  }

  /** A good first line is read; the rest decides. */
  lemma {:induction false} GoodLineThen(c: Client, s: string, cr: nat, keepAlive: bool, t1: string, t2: string)
    requires c.phase == Headers && c.bodyRemaining == 0 && !HeaderLines(s)
    requires cr == First(s, CR) && (cr < |s| ==> LineAt(s, cr)) && ':' in s[..cr]
    ensures SameFate(SkipHeaders(c.(rest := s + CRLF + OwnLines(keepAlive, t1))),
                     SkipHeaders(c.(rest := s + CRLF + OwnLines(keepAlive, t2))), t1, t2)
    decreases |s|, 0
  {
    hide SkipHeaders; hide OwnLines; hide NoteHeader; hide SameFate; hide Named; hide Valued;
    LineSkipped(c, s, cr, OwnLines(keepAlive, t1));
    LineSkipped(c, s, cr, OwnLines(keepAlive, t2));
    NoteIsLocal(c, Named(s[..cr]), Valued(s[..cr]), c.rest);
    UncleanFate(NoteHeader(c, Named(s[..cr]), Valued(s[..cr])), s[cr + 2..], keepAlive, t1, t2);
  }

  /** The first character that can be read from the fixed text. */
  function FirstByte(b: Client, u: string): char
    requires Opening(u)
  {
    if b.chunked then u[First(u, CR) + 2] else u[0]
  }

  lemma ReadsFixedByte(b: Client, u: string, t: string)
    requires EarlyBody(b, u)
    ensures var r := ReadBody(b.(rest := u + t)).data; r.Some? ==> r.value != "" && r.value[0] == FirstByte(b, u)
  {
    hide ReadChunked; hide SkipHeaders;
    var c := b.(rest := u + t);
    SkipNothing(c);
    if b.chunked { ReadsFixedChunk(b, u, t); }
  }

  lemma FirstExtends(u: string, t: string)
    requires Opening(u)
    ensures var cr := First(u, CR);
            First(u + t, CR) == cr && (u + t)[cr + 2..] != "" && (u + t)[cr + 2..][0] == u[cr + 2]
  {
    hide First;
    var cr := First(u, CR);
    assert u + t == u[..cr] + [CR] + (u[cr + 1..] + t);
    FirstAt(u[..cr], CR, u[cr + 1..] + t);
  }

  lemma ReadsFixedChunk(b: Client, u: string, t: string)
    requires EarlyBody(b, u)
    ensures var r := ReadChunked(b.(rest := u + t)).data; r.Some? ==> r.value != "" && r.value[0] == u[First(u, CR) + 2]
  {
    hide HexValue; hide First;
    var cr := First(u, CR);
    FirstExtends(u, t);
    var c := b.(rest := u + t);
    var rest := c.rest[cr + 2..];
    if !b.chunkedDone && LineAt(c.rest, cr) {
      var size := HexValue(c.rest[..cr], 0);
      if size > 0 {
        assert ReadChunked(c) == ReadChunked(c.(rest := rest, bodyRemaining := size));
      }
    }
  }

  /** Two one-byte bodies: an unclean type loses one of them. */
  lemma UncleanLoses(status: int, contentType: string, keepAlive: bool)
    requires !CleanType(contentType)
    ensures !ReadsBack(status, contentType, keepAlive, ["a"]) || !ReadsBack(status, contentType, keepAlive, ["b"])
  {
    hide Head; hide ToBody; hide ReadBody; hide Reason; hide CleanType; hide SameFate; hide FirstByte; hide Opening;
    if Known(status) {
      var t1, t2 := ChunksText(["a"]) + TERMINATOR, ChunksText(["b"]) + TERMINATOR;
      ResponseSplit(status, contentType, keepAlive, ["a"]);
      ResponseSplit(status, contentType, keepAlive, ["b"]);
      hide Response; hide ChunksText;
      var c1, c2 := Start(Head(status, contentType, keepAlive) + t1), Start(Head(status, contentType, keepAlive) + t2);
      BothFates(status, contentType, keepAlive, t1, t2);
      SameFirst(c1, c2, t1, t2);
    } else {
      UnknownReadsNothing(status, contentType, keepAlive, ["a"]);
    }
  }

  lemma BothFates(status: int, contentType: string, keepAlive: bool, t1: string, t2: string)
    requires Known(status) && !CleanType(contentType)
    ensures SameFate(ToBody(Start(Head(status, contentType, keepAlive) + t1)),
                     ToBody(Start(Head(status, contentType, keepAlive) + t2)), t1, t2)
  {
    hide SkipHeaders; hide Head; hide ToBody; hide Reason; hide OwnLines; hide HeaderLines; hide SameFate;
    KnownHasThreeDigits(status);
    AfterStatus(status, contentType, keepAlive, t1);
    AfterStatus(status, contentType, keepAlive, t2);
    UncleanFate(Start("").(phase := Headers, status := status), "Content-Type: " + contentType, keepAlive, t1, t2);
  }

  /** Nothing read, or the same first character from both. */
  lemma SameFirst(c1: Client, c2: Client, t1: string, t2: string)
    requires SameFate(ToBody(c1), ToBody(c2), t1, t2)
    ensures ReadAll(c1) != ["a"] || ReadAll(c2) != ["b"]
  {
    hide ToBody; hide ReadBody; hide ReadAll; hide FirstByte; hide Opening;
    var d1, d2 := ToBody(c1), ToBody(c2);
    if d1.phase == Done {
      NothingRead(c1);
    } else {
      var b: Client, u: string :| EarlyBody(b, u) && d1 == b.(rest := u + t1) && d2 == b.(rest := u + t2);
      ReadsFixedByte(b, u, t1);
      ReadsFixedByte(b, u, t2);
      SameAtBody(c1);
      SameAtBody(c2);
      FirstRead(c1, "a");
      FirstRead(c2, "b");
      assert "a"[0] != "b"[0];
    }
  }

  lemma FirstRead(c: Client, data: string)
    ensures ReadAll(c) == [data] ==> ReadBody(c).data == Some(data)
  {
    hide ReadBody;
    var r := ReadBody(c);
    assert r.data.Some? ==> ([r.data.value] + ReadAll(r.c))[0] == r.data.value;
  }

  lemma NothingRead(c: Client)
    requires ToBody(c).phase != Body
    ensures ReadAll(c) == []
  {
    hide ToBody;
  }

  ghost predicate ReadsBack(status: int, contentType: string, keepAlive: bool, chunks: seq<string>) {
    ReadAll(Start(Response(status, contentType, keepAlive, chunks))) == chunks
  }

  /** Every body survives the trip exactly when the server has a line for the status and the content type is clean. */
  lemma RoundTripExactly(status: int, contentType: string, keepAlive: bool)
    ensures (forall chunks :: Sendable(chunks) ==> ReadsBack(status, contentType, keepAlive, chunks))
            <==> Known(status) && CleanType(contentType)
  {
    hide ReadAll; hide Response; hide Reason; hide CleanType;
    if Known(status) && CleanType(contentType) {
      forall chunks | Sendable(chunks) ensures ReadsBack(status, contentType, keepAlive, chunks) {
        RoundTrip(status, contentType, keepAlive, chunks);
      }
    } else {
      assert Sendable(["a"]) && Sendable(["b"]);
      if Known(status) {
        UncleanLoses(status, contentType, keepAlive);
      } else {
        UnknownReadsNothing(status, contentType, keepAlive, ["a"]);
      }
    }
  }

  /** A non-empty body of a response with a clean type survives exactly when its status is known. */
  lemma RoundTripIffKnown(status: int, contentType: string, keepAlive: bool, chunks: seq<string>)
    requires CleanType(contentType) && chunks != [] && Sendable(chunks)
    ensures ReadsBack(status, contentType, keepAlive, chunks) <==> Known(status)
  {
    hide ReadAll; hide Response; hide Reason; hide CleanType;
    if Known(status) {
      RoundTrip(status, contentType, keepAlive, chunks);
    } else {
      UnknownReadsNothing(status, contentType, keepAlive, chunks);
    }
  }

  /** A content type that ends its own line: the blank line ends the headers and no body is read at all. */
  lemma TypeWithLineEndReadsNothing(status: int, contentType: string, keepAlive: bool, chunks: seq<string>)
    requires CR !in contentType
    ensures ReadAll(Start(Response(status, contentType + CRLF, keepAlive, chunks))) == []
  {
    hide Head; hide ToBody; hide Reason; hide Response; hide ReadAll; hide StatusText; hide OwnLines;
    var tail := ChunksText(chunks) + TERMINATOR;
    if Known(status) {
      KnownHasThreeDigits(status);
      ResponseSplit(status, contentType + CRLF, keepAlive, chunks);
      AfterStatus(status, contentType + CRLF, keepAlive, tail);
      var c := Start("").(phase := Headers, status := status);
      BlankAfterType(c, contentType, OwnLines(keepAlive, tail));
      NoBodyRead(Start(Head(status, contentType + CRLF, keepAlive) + tail));
    } else {
      UnknownReadsNothing(status, contentType + CRLF, keepAlive, chunks);
    }
  }

  lemma BlankAfterType(c: Client, contentType: string, own: string)
    requires c.phase == Headers && CR !in contentType
    ensures SkipHeaders(c.(rest := "Content-Type: " + (contentType + CRLF) + CRLF + own)) == c.(rest := own, phase := Body)
  {
    hide NextHeader; hide SkipHeaders; hide NoteHeader;
    var d := c.(rest := "Content-Type: " + (contentType + CRLF) + CRLF + own);
    assert d.rest == Line("Content-Type", contentType, CRLF + own) by {
      assert "Content-Type: " == "Content-Type" + ": ";
    }
    HeaderRead(d, "Content-Type", contentType, CRLF + own);
    NoteContentType(d, SkipSpaces(contentType));
    SkipOne(d);
    EndOfHeaders(c.(rest := CRLF + own), own);
  }

  /** Neither chunked nor of a known length: nothing to read. */
  lemma NoBodyRead(c: Client)
    requires var d := ToBody(c); d.phase == Body && !d.chunked && d.contentLength == 0
    ensures ReadAll(c) == []
  {
    hide ToBody;
  }

  /** From server calls to client calls, whatever the size of the send buffer. */
  lemma EndToEnd(cap: nat, budget: nat, status: int, contentType: string, keepAlive: bool, chunks: seq<string>, last: string)
    requires Known(status) && CleanType(contentType) && Sendable(chunks) && |last| < WORD
    ensures var s := SendChunks(Begin(cap, budget, status, contentType, keepAlive), chunks);
            var e := EndChunked(s.r, last);
            s.ok && e.ok ==> ReadAll(Start(e.r.w.wire)) == WithLast(chunks, last)
  {
    hide ReadAll; hide Response; hide Reason; hide SendChunks; hide EndChunked; hide CleanType;
    WireIsResponse(cap, budget, status, contentType, keepAlive, chunks, last);
    RoundTrip(status, contentType, keepAlive, WithLast(chunks, last));
  }

  /** A status the server has no line for: the client sees no body. */
  lemma TeapotIsLost()
    ensures ReadAll(Start(Response(418, "text/plain", true, ["short"]))) == []
  {
    UnknownReadsNothing(418, "text/plain", true, ["short"]);
  }

  // ---------------------------------------------------------------------------------------
  // The server's connection in memory
  // ---------------------------------------------------------------------------------------

  function Pow16(k: nat): nat { if k == 0 then 1 else 16 * Pow16(k - 1) }

  lemma SixteenDigits()
    ensures Pow16(16) == WORD
  {
    assert Pow16(4) == 0x1_0000;
    assert Pow16(8) == 0x1_0000_0000 by {
      assert Pow16(5) == 16 * Pow16(4) && Pow16(6) == 16 * Pow16(5) && Pow16(7) == 16 * Pow16(6) && Pow16(8) == 16 * Pow16(7);
    }
    assert Pow16(12) == 0x1_0000_0000_0000 by {
      assert Pow16(9) == 16 * Pow16(8) && Pow16(10) == 16 * Pow16(9) && Pow16(11) == 16 * Pow16(10) && Pow16(12) == 16 * Pow16(11);
    }
    assert Pow16(13) == 16 * Pow16(12) && Pow16(14) == 16 * Pow16(13) && Pow16(15) == 16 * Pow16(14) && Pow16(16) == 16 * Pow16(15);
  }

  lemma LastDigit(v: nat, pos: nat)
    requires v < Pow16(pos)
    ensures v == 0 ==> HexDigits(v) == ""
    ensures v > 0 ==> pos > 0 && v / 16 < Pow16(pos - 1) && HexDigits(v) == HexDigits(v / 16) + [HexDigit(v % 16)]
  {
  }

  class Connection {
    const sendBuf: array<char>
    var sendLen: nat
    var sendError: bool
    ghost var wire: string
    var budget: nat
    var headersPending: bool
    var status: int
    var contentType: string
    var keepAlive: bool

    ghost predicate Valid()
      reads this
    {
      sendLen <= sendBuf.Length
    }

    ghost function View(): Writer
      requires Valid()
      reads this, sendBuf
    {
      Writer(sendBuf.Length, sendBuf[..sendLen], wire, sendError, budget)
    }

    constructor (sendBuf: array<char>, budget: nat)
      ensures Valid() && this.sendBuf == sendBuf && View() == Writer(sendBuf.Length, "", "", false, budget)
    {
      this.sendBuf := sendBuf;
      sendLen, sendError, wire := 0, false, "";
      headersPending, status, contentType, keepAlive := false, 0, "", true;
      this.budget := budget;
    }

    method SendAll(data: string) returns (ok: bool)
      requires Valid() && !sendError
      modifies `wire, `budget, `sendError
      ensures View() == SendRaw(old(View()), data).w && ok == SendRaw(old(View()), data).ok
    {
      if budget == 0 {
        sendError := true;
        return false;
      }
      budget := budget - 1;
      wire := wire + data;
      return true;
    }

    method FlushBuffer() returns (ok: bool)
      requires Valid()
      modifies `wire, `budget, `sendError, `sendLen
      ensures Valid() && View() == Flush(old(View())).w && ok == Flush(old(View())).ok
    {
      if sendError {
        return false;
      }
      if sendLen == 0 {
        return true;
      }
      ok := SendAll(sendBuf[..sendLen]);
      sendLen := 0;
    }

    method AppendBytes(data: string) returns (ok: bool)
      requires Valid()
      modifies `wire, `budget, `sendError, `sendLen, sendBuf
      ensures Valid() && View() == Append(old(View()), data).w && ok == Append(old(View()), data).ok
    {
      if sendError {
        return false;
      }
      if |data| > sendBuf.Length {
        ok := FlushBuffer();
        if !ok { return; }
        ok := SendAll(data);
        return;
      }
      if sendLen + |data| > sendBuf.Length {
        ok := FlushBuffer();
        if !ok { return; }
      }
      ghost var before := sendBuf[..sendLen];
      forall i | 0 <= i < |data| { sendBuf[sendLen + i] := data[i]; }
      sendLen := sendLen + |data|;
      assert sendBuf[..sendLen] == before + data;
      return true;
    }

    /** The digits are written backwards into a scratch array of sixteen. */
    method AppendHex(val: nat) returns (ok: bool)
      requires Valid() && val < WORD
      modifies `wire, `budget, `sendError, `sendLen, sendBuf
      ensures Valid() && View() == Append(old(View()), Hex(val)).w && ok == Append(old(View()), Hex(val)).ok
    {
      var digits := HexText(val);
      ok := AppendBytes(digits);
    }

    method HexText(val: nat) returns (digits: string)
      requires val < WORD
      ensures digits == Hex(val)
    {
      hide HexDigits; hide HexDigit; hide Pow16;
      var tmp := new char[16];
      var pos: nat := 16;
      if val == 0 {
        pos := pos - 1;
        tmp[pos] := '0';
        assert tmp[pos..] == "0";
      } else {
        SixteenDigits();
        var v: nat := val;
        assert tmp[16..] == "" && HexDigits(v) + "" == HexDigits(v);
        while v > 0
          invariant pos <= 16 && v < Pow16(pos)
          invariant HexDigits(v) + tmp[pos..] == HexDigits(val)
          decreases v
        {
          LastDigit(v, pos);
          pos := pos - 1;
          ghost var rest := tmp[pos + 1..];
          tmp[pos] := HexDigit(v % 16);
          assert tmp[pos..] == [HexDigit(v % 16)] + rest;
          v := v / 16;
        }
        LastDigit(0, pos);
      }
      digits := tmp[pos..];
    }

    method AppendParts(parts: seq<string>) returns (ok: bool)
      requires Valid()
      modifies `wire, `budget, `sendError, `sendLen, sendBuf
      ensures Valid() && View() == AppendAll(old(View()), parts).w && ok == AppendAll(old(View()), parts).ok
    {
      hide Append;
      ghost var start := View();
      var i := 0;
      while i < |parts|
        invariant i <= |parts| && Valid() && AppendAll(View(), parts[i..]) == AppendAll(start, parts)
      {
        assert parts[i..][1..] == parts[i + 1..];
        ok := AppendBytes(parts[i]);
        if !ok { return; }
        i := i + 1;
      }
      return true;
    }
  
    ghost function Reply(): Responder
      requires Valid()
      reads this, sendBuf
    {
      Responder(View(), headersPending, status, contentType, keepAlive)
    }

    method BeginChunked(status: int, contentType: string)
      requires Valid()
      modifies `headersPending, `status, `contentType
      ensures Reply() == Responder(old(View()), true, status, contentType, keepAlive)
    {
      headersPending := true;
      this.status := status;
      this.contentType := contentType;
    }

    /** Headers first if they are still due, then the parts, then a flush. */
    method WriteOut(parts: seq<string>) returns (ok: bool)
      requires Valid()
      modifies this, sendBuf
      ensures Valid() && Reply() == Emit(old(Reply()), parts).r && ok == Emit(old(Reply()), parts).ok
    {
      hide AppendAll; hide Flush; hide HeaderParts;
      var all := parts;
      if headersPending {
        headersPending := false;
        all := HeaderParts(status, contentType, keepAlive) + parts;
      }
      assert [] + parts == parts;
      ok := AppendParts(all);
      if ok {
        ok := FlushBuffer();
      }
    }

    method WriteChunk(data: string) returns (ok: bool)
      requires Valid() && |data| < WORD
      modifies this, sendBuf
      ensures Valid() && Reply() == SendChunk(old(Reply()), data).r && ok == SendChunk(old(Reply()), data).ok
    {
      hide Emit;
      if |data| == 0 {
        return false;
      }
      var size := HexText(|data|);
      ok := WriteOut([size, CRLF, data, CRLF]);
    }

    method Finish(last: string) returns (ok: bool)
      requires Valid() && |last| < WORD
      modifies this, sendBuf
      ensures Valid() && Reply() == EndChunked(old(Reply()), last).r && ok == EndChunked(old(Reply()), last).ok
    {
      hide Emit;
      if |last| == 0 {
        ok := WriteOut([TERMINATOR]);
        return;
      }
      var size := HexText(|last|);
      assert [size, CRLF, last, CRLF, TERMINATOR] == ChunkParts(last) + [TERMINATOR];
      ok := WriteOut([size, CRLF, last, CRLF, TERMINATOR]);
    }
  }

  // ---------------------------------------------------------------------------------------
  // The client's connection in memory
  // ---------------------------------------------------------------------------------------

  function NextSize(c: Client): Client {
    var cr := First(c.rest, CR);
    if !LineAt(c.rest, cr) then c
    else
      var size := HexValue(c.rest[..cr], 0);
      var d := c.(rest := c.rest[cr + 2..], bodyRemaining := size);
      if size == 0 then d.(chunkedDone := true, phase := Done) else d
  }

  lemma SizeThenChunk(c: Client)
    requires c.bodyRemaining == 0 && !c.chunkedDone
    ensures var d := NextSize(c);
            ReadChunked(c) == (if d.bodyRemaining == 0 then Read(d, None) else ReadChunked(d)) && (d.bodyRemaining > 0 ==> !d.chunkedDone)
  {
    hide First; hide HexValue;
  }

  lemma ReadChunkedDone(c: Client)
    requires c.chunkedDone
    ensures ReadChunked(c) == Read(c, None)
  {
  }

  lemma HeaderValueAt(c: Client, colon: nat, v: string, cr: nat)
    requires colon < |c.rest| && v == SkipSpaces(c.rest[colon + 1..]) && cr == First(v, CR)
    ensures HeaderValue(c, colon) ==
            if cr == |v| then c.(phase := Failed)
            else NoteHeader(c, c.rest[..colon], v[..cr]).(rest := AfterLine(v, cr), phase := Headers)
  {
  }

  /** A slice cut in two. */
  lemma Slice(s: string, lo: nat, i: nat)
    requires lo <= i <= |s|
    ensures s[lo..][..i - lo] == s[lo..i] && s[lo..][i - lo..] == s[i..]
  {
  }

  class ClientConnection {
    const buf: string
    var parsePos: nat
    var phase: Phase
    var status: nat
    var contentLength: nat
    var chunkedBody: bool
    var serverClose: bool
    var bodyRemaining: nat
    var chunkedDone: bool

    ghost predicate Valid()
      reads this
    {
      parsePos <= |buf|
    }

    ghost function Rest(): string
      requires Valid()
      reads this
    {
      buf[parsePos..]
    }

    ghost function View(): Client
      requires Valid()
      reads this
    {
      Client(Rest(), phase, status, contentLength, chunkedBody, serverClose, bodyRemaining, chunkedDone)
    }

    /** A client whose receive buffer holds the whole response. */
    constructor (buf: string)
      ensures Valid() && this.buf == buf && View() == Start(buf)
    {
      this.buf, parsePos := buf, 0;
      phase, status, contentLength, chunkedBody, serverClose, bodyRemaining, chunkedDone := ResponseLine, 0, 0, false, false, 0, false;
    }

    method FindIn(from: nat, end: nat, c: char) returns (i: nat)
      requires from <= end <= |buf|
      ensures from <= i <= end && i - from == First(buf[from..end], c) && (i < end ==> buf[i] == c)
    {
      i := from;
      while i < end && buf[i] != c
        invariant from <= i <= end && i - from + First(buf[i..end], c) == First(buf[from..end], c)
      {
        assert buf[i..end][1..] == buf[i + 1..end];
        i := i + 1;
      }
    }

    method Find(from: nat, c: char) returns (i: nat)
      requires from <= |buf|
      ensures from <= i <= |buf| && i - from == First(buf[from..], c) && (i < |buf| ==> buf[i] == c)
    {
      assert buf[from..|buf|] == buf[from..];
      i := FindIn(from, |buf|, c);
    }

    method ParseSize(end: nat) returns (size: nat)
      requires Valid() && parsePos <= end <= |buf|
      ensures size == HexValue(buf[parsePos..end], 0)
    {
      hide ShiftIn;
      size := 0;
      var j := parsePos;
      while j < end && buf[j] != ';'
        invariant parsePos <= j <= end && HexValue(buf[j..end], size) == HexValue(buf[parsePos..end], 0)
      {
        assert buf[j..end][1..] == buf[j + 1..end];
        size := ShiftIn(size, buf[j]);
        j := j + 1;
      }
    }

    method Deliver() returns (data: Option<string>)
      requires Valid() && bodyRemaining > 0 && !chunkedDone
      modifies this
      ensures Valid() && View() == ReadChunked(old(View())).c && data == ReadChunked(old(View())).data
    {
      hide First; hide HexValue;
      if parsePos == |buf| {
        return None;
      }
      var available := |buf| - parsePos;
      var n := if available < bodyRemaining then available else bodyRemaining;
      data := Some(buf[parsePos..parsePos + n]);
      Slice(buf, parsePos, parsePos + n);
      bodyRemaining := bodyRemaining - n;
      parsePos := parsePos + n;
      if bodyRemaining == 0 {
        if |buf| - parsePos < 2 {
          chunkedDone := true;
          phase := Done;
          return;
        }
        Slice(buf, parsePos, parsePos + 2);
        parsePos := parsePos + 2;
      }
    }

    /** The line with the size of the next chunk; a zero size ends the body. */
    method ReadSizeLine()
      requires Valid() && bodyRemaining == 0 && !chunkedDone
      modifies `parsePos, `bodyRemaining, `chunkedDone, `phase
      ensures Valid() && View() == NextSize(old(View()))
    {
      hide First; hide HexValue;
      var cr := Find(parsePos, CR);
      if cr + 1 < |buf| && buf[cr] == CR && buf[cr + 1] == '\n' {
        ghost var rest := Rest();
        var size := ParseSize(cr);
        assert rest[..cr - parsePos] == buf[parsePos..cr] && rest[cr - parsePos + 2..] == buf[cr + 2..];
        parsePos := cr + 2;
        if size == 0 {
          chunkedDone := true;
          phase := Done;
        }
        bodyRemaining := size;
      }
    }

    method ReadChunkedBody() returns (data: Option<string>)
      requires Valid()
      modifies this
      ensures Valid() && View() == ReadChunked(old(View())).c && data == ReadChunked(old(View())).data
    {
      hide ReadChunked; hide NextSize;
      if chunkedDone {
        ReadChunkedDone(View());
        return None;
      }
      if bodyRemaining == 0 {
        SizeThenChunk(View());
        ReadSizeLine();
        if bodyRemaining == 0 {
          return None;
        }
      }
      data := Deliver();
    }
  
    method ReadResponseLine()
      requires Valid()
      modifies `parsePos, `status, `phase
      ensures Valid() && View() == GetResponseLine(old(View()))
    {
      hide First; hide ParseStatus;
      var cr := Find(parsePos, CR);
      if cr + 1 < |buf| && buf[cr] == CR && buf[cr + 1] == '\n' {
        ghost var rest := Rest();
        assert rest[..cr - parsePos] == buf[parsePos..cr] && rest[cr - parsePos + 2..] == buf[cr + 2..];
        var code := ReadStatus(cr);
        if code.None? {
          phase := Failed;
          return;
        }
        status := code.value;
        parsePos := cr + 2;
        phase := Headers;
      } else {
        phase := Failed;
      }
    }

    method ReadStatus(end: nat) returns (code: Option<nat>)
      requires Valid() && parsePos <= end <= |buf|
      ensures code == ParseStatus(buf[parsePos..end])
    {
      hide First;
      ghost var line := buf[parsePos..end];
      var sp := FindIn(parsePos, end, ' ');
      if sp + 4 > end {
        return None;
      }
      var value := 0;
      for d := 0 to 3
        invariant d >= 1 ==> IsDecimal(buf[sp + 1])
        invariant d >= 2 ==> IsDecimal(buf[sp + 2])
        invariant d >= 3 ==> IsDecimal(buf[sp + 3])
        invariant d == 0 ==> value == 0
        invariant d == 1 ==> value == DecimalValue(buf[sp + 1])
        invariant d == 2 ==> value == DecimalValue(buf[sp + 1]) * 10 + DecimalValue(buf[sp + 2])
        invariant d == 3 ==> value == (DecimalValue(buf[sp + 1]) * 10 + DecimalValue(buf[sp + 2])) * 10 + DecimalValue(buf[sp + 3])
      {
        var c := buf[sp + 1 + d];
        if !IsDecimal(c) {
          assert line[sp - parsePos + 1 + d] == c;
          return None;
        }
        value := value * 10 + DecimalValue(c);
      }
      assert line[sp - parsePos + 1] == buf[sp + 1] && line[sp - parsePos + 2] == buf[sp + 2] && line[sp - parsePos + 3] == buf[sp + 3];
      return Some(value);
    }

    method PastSpaces(from: nat) returns (i: nat)
      requires from <= |buf|
      ensures from <= i <= |buf| && buf[i..] == SkipSpaces(buf[from..])
    {
      i := from;
      while i < |buf| && buf[i] == ' '
        invariant from <= i <= |buf| && SkipSpaces(buf[i..]) == SkipSpaces(buf[from..])
      {
        assert buf[i..][1..] == buf[i + 1..];
        i := i + 1;
      }
    }

    method ReadHeader()
      requires Valid() && phase == Headers
      modifies this
      ensures Valid() && View() == NextHeader(old(View()))
    {
      hide First; hide HeaderValue;
      ghost var s := Rest();
      if |buf| - parsePos < 2 {
        phase := Failed;
      } else if buf[parsePos] == CR && buf[parsePos + 1] == '\n' {
        assert s[2..] == buf[parsePos + 2..];
        parsePos := parsePos + 2;
        phase := Body;
      } else {
        ReadNameAndValue();
      }
    }

    method ReadNameAndValue()
      requires Valid() && phase == Headers && |buf| - parsePos >= 2 && !(buf[parsePos] == CR && buf[parsePos + 1] == '\n')
      modifies this
      ensures Valid() && View() == NextHeader(old(View()))
    {
      hide First; hide HeaderValue;
      var colon := Find(parsePos, ':');
      var early := FindIn(parsePos, colon, CR);
      FirstMeans(buf[parsePos..colon], CR);
      Slice(buf, parsePos, colon);
      if early < colon {
        phase := Done;
      } else if colon == |buf| {
        phase := Failed;
      } else {
        ReadValue(colon);
      }
    }

    method ReadValue(colon: nat)
      requires Valid() && parsePos <= colon < |buf|
      modifies `parsePos, `contentLength, `chunkedBody, `serverClose, `phase
      ensures Valid() && View() == HeaderValue(old(View()), colon - old(parsePos))
    {
      hide First; hide SkipSpaces; hide NoteHeader; hide AfterLine; hide HeaderValue;
      Slice(buf, parsePos, colon);
      Slice(buf, parsePos, colon + 1);
      var start, cr := LocateValue(colon);
      HeaderValueAt(View(), colon - parsePos, buf[start..], cr - start);
      if cr == |buf| {
        phase := Failed;
        return;
      }
      Slice(buf, start, cr);
      TakeValue(colon, start, cr);
    }

    method LocateValue(colon: nat) returns (start: nat, cr: nat)
      requires colon < |buf|
      ensures colon < start <= cr <= |buf| && (cr < |buf| ==> buf[cr] == CR)
      ensures buf[start..] == SkipSpaces(buf[colon + 1..]) && cr - start == First(buf[start..], CR)
    {
      start := PastSpaces(colon + 1);
      cr := Find(start, CR);
    }

    method TakeValue(colon: nat, start: nat, cr: nat)
      requires parsePos <= colon < start <= cr < |buf| && buf[cr] == CR
      modifies `parsePos, `contentLength, `chunkedBody, `serverClose, `phase
      ensures Valid()
      ensures View() == NoteHeader(old(View()), buf[old(parsePos)..colon], buf[start..cr]).(rest := Rest(), phase := Headers)
      ensures var v := buf[start..]; Rest() == AfterLine(v, cr - start)
    {
      hide AfterLine; hide NoteHeader;
      Note(buf[parsePos..colon], buf[start..cr]);
      phase := Headers;
      EndLine(start, cr);
    }

    method EndLine(start: nat, cr: nat)
      requires parsePos <= start <= cr < |buf| && buf[cr] == CR
      modifies `parsePos
      ensures Valid() && var v := buf[start..]; Rest() == AfterLine(v, cr - start)
    {
      parsePos := cr;
      if cr + 1 < |buf| && buf[cr + 1] == '\n' {
        Slice(buf, start, cr + 2);
        parsePos := cr + 2;
      } else {
        Slice(buf, start, cr);
      }
    }

    method Note(name: string, value: string)
      requires Valid()
      modifies `contentLength, `chunkedBody, `serverClose
      ensures View() == NoteHeader(old(View()), name, value)
    {
      if SameName(name, "content-length") {
        contentLength := LengthValue(value, 0);
      } else if SameName(name, "transfer-encoding") {
        chunkedBody := chunkedBody || StartsWith(value, "chunked");
      } else if SameName(name, "connection") {
        serverClose := serverClose || StartsWith(value, "close");
      }
    }

    method SkipToBody()
      requires Valid()
      modifies this
      ensures Valid() && View() == ToBody(old(View()))
    {
      hide GetResponseLine; hide NextHeader;
      if phase == ResponseLine {
        ReadResponseLine();
      }
      ghost var start := View();
      while phase == Headers
        invariant Valid() && SkipHeaders(View()) == SkipHeaders(start)
        decreases |buf| - parsePos, phase == Headers
      {
        ReadHeader();
      }
    }

    method ReadSizedBody() returns (data: Option<string>)
      requires Valid()
      modifies this
      ensures Valid() && View() == ReadSized(old(View())).c && data == ReadSized(old(View())).data
    {
      if contentLength == 0 || parsePos == |buf| {
        phase := Done;
        return None;
      }
      if bodyRemaining == 0 {
        bodyRemaining := contentLength;
      }
      ghost var rest := Rest();
      var available := |buf| - parsePos;
      var n := if available < bodyRemaining then available else bodyRemaining;
      data := Some(buf[parsePos..parsePos + n]);
      assert rest[..n] == buf[parsePos..parsePos + n] && rest[n..] == buf[parsePos + n..];
      bodyRemaining := bodyRemaining - n;
      parsePos := parsePos + n;
      if bodyRemaining == 0 {
        phase := Done;
      }
    }

    method ReadNext() returns (data: Option<string>)
      requires Valid()
      modifies this
      ensures Valid() && View() == ReadBody(old(View())).c && data == ReadBody(old(View())).data
    {
      hide ToBody; hide ReadChunked; hide ReadSized;
      SkipToBody();
      if phase != Body {
        return None;
      }
      if chunkedBody {
        data := ReadChunkedBody();
      } else {
        data := ReadSizedBody();
      }
    }
  }

  lemma {:induction false} FirstMeans(s: string, c: char)
    ensures First(s, c) < |s| <==> c in s
  {
    if s != "" && s[0] != c { FirstMeans(s[1..], c); }
  }
}
