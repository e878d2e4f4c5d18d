/** Length-prefixed strings over a socket: the reading and writing loops of src/platform/ipc_socket.c. */
module Framing {
  import opened Common

  type Byte = b: int | 0 <= b < 256

  const MAX_URL := 2048
  const MAX_PATH := 1024
  const MAX_OPTIONS := 8192
  const MAX_FRAME := 16384
  const DRAIN := 256

  // ----- words -----

  /** A 32-bit word as it lies in memory, low byte first. */
  function Word(n: nat): (w: seq<Byte>)
    requires n < 0x1_0000_0000
    ensures |w| == 4
  {
    [Low(n), Low(n / 256), Low(n / 65536), Low(n / 16777216)]
  }

  function Low(n: nat): Byte {
    var low := n % 256;
    low
  }

  function Number(w: seq<Byte>): (n: nat)
    requires |w| == 4
    ensures n < 0x1_0000_0000
  {
    (w[0] as int) + 256 * (w[1] as int) + 65536 * (w[2] as int) + 16777216 * (w[3] as int)
  }

  lemma NumberOfWord(n: nat)
    requires n < 0x1_0000_0000
    ensures Number(Word(n)) == n
  {
    var a, b, d := n / 256, n / 65536, n / 16777216;
    assert b == a / 256 && d == b / 256 && d < 256;
    assert n == 256 * a + n % 256 && a == 256 * b + a % 256 && b == 256 * d + b % 256;
    LowIs(n);
    LowIs(a);
    LowIs(b);
    LowIs(d);
  }

  lemma LowIs(n: nat)
    ensures Low(n) as int == n % 256
  {
  }

  // ----- the specification of a string read -----

  /** What reading a string for a buffer of `max` bytes makes of the bytes to come. */
  datatype Parsed =
    | Fits(text: seq<Byte>, rest: seq<Byte>)      // stored with a NUL behind it
    | TooLong(head: seq<Byte>, rest: seq<Byte>)   // refused, but read to its end
    | Broken                                      // the bytes end inside it

  function Parse(data: seq<Byte>, max: nat): Parsed
    requires max >= 1
  {
    if |data| < 4 then Broken
    else
      var len := Number(data[..4]);
      if |data| < 4 + len then Broken
      else if len < max then Fits(data[4..4 + len], data[4 + len..])
      else TooLong(data[4..4 + (max - 1)], data[4 + len..])
  }

  /** What `write_string` puts on the wire. */
  function Wire(s: seq<Byte>): (w: seq<Byte>)
    requires |s| < 0x1_0000_0000
    ensures |w| == 4 + |s|
  {
    Word(|s|) + s
  }

  /** Reading undoes writing when the string fits, and either way takes exactly its bytes. */
  lemma ParseWire(s: seq<Byte>, rest: seq<Byte>, max: nat)
    requires |s| < 0x1_0000_0000 && max >= 1
    ensures Parse(Wire(s) + rest, max)
         == if |s| < max then Fits(s, rest) else TooLong(s[..max - 1], rest)
  {
    var data := Wire(s) + rest;
    NumberOfWord(|s|);
    assert data[..4] == Word(|s|);
    assert data[4..4 + |s|] == s && data[4 + |s|..] == rest;
    if |s| >= max { assert data[4..4 + (max - 1)] == s[..max - 1]; }
  }

  // ----- the socket -----

  /** What the next read meets: bytes that have arrived, a signal, or a failed connection. When
      nothing is left, or nothing arrives, the peer has closed. */
  datatype Event = Arrived(bytes: seq<Byte>) | Interrupted | Failed

  /** The bytes still to be had from a connection. */
  function Data(events: seq<Event>): seq<Byte> {
    if events == [] || events[0].Failed? || events[0] == Arrived([]) then []
    else if events[0].Interrupted? then Data(events[1..])
    else events[0].bytes + Data(events[1..])
  }

  function Waiting(events: seq<Event>): nat {
    if events == [] then 0
    else Waiting(events[1..]) + 1 + if events[0].Arrived? then |events[0].bytes| else 0
  }

  /** A buffer with the bytes written at an offset. */
  function Put(buf: seq<Byte>, at: nat, bytes: seq<Byte>): (r: seq<Byte>)
    requires at + |bytes| <= |buf|
    ensures |r| == |buf|
  {
    buf[..at] + bytes + buf[at + |bytes|..]
  }

  lemma PutPut(buf: seq<Byte>, at: nat, a: seq<Byte>, b: seq<Byte>)
    requires at + |a| + |b| <= |buf|
    ensures Put(Put(buf, at, a), at + |a|, b) == Put(buf, at, a + b)
  {
    assert Put(buf, at, a)[..at + |a|] == buf[..at] + a;
    assert Put(buf, at, a)[at + |a| + |b|..] == buf[at + |a| + |b|..];
  }

  /** The next `n` bytes continue the first `got`. */
  lemma PutMore(buf: seq<Byte>, at: nat, data: seq<Byte>, got: nat, n: nat)
    requires got + n <= |data| && at + got + n <= |buf|
    ensures Put(Put(buf, at, data[..got]), at + got, data[got..][..n]) == Put(buf, at, data[..got + n])
    ensures data[got..][n..] == data[got + n..]
  {
    PutPut(buf, at, data[..got], data[got..][..n]);
    assert data[..got + n] == data[..got] + data[got..][..n];
  }

  lemma PutIs(was: seq<Byte>, at: nat, bytes: seq<Byte>, now: seq<Byte>)
    requires at + |bytes| <= |was| == |now|
    requires forall j :: 0 <= j < |was| ==> now[j] == if at <= j < at + |bytes| then bytes[j - at] else was[j]
    ensures now == Put(was, at, bytes)
  {
  }

  /** `memcpy` into a buffer. */
  method CopyIn(buf: array<Byte>, at: nat, bytes: seq<Byte>)
    requires at + |bytes| <= buf.Length
    modifies buf
    ensures buf[..] == Put(old(buf[..]), at, bytes)
  {
    ghost var was := buf[..];
    var i := 0;
    while i < |bytes|
      invariant 0 <= i <= |bytes|
      invariant forall j :: 0 <= j < buf.Length ==> buf[j] == if at <= j < at + i then bytes[j - at] else was[j]
    {
      buf[at + i] := bytes[i];
      i := i + 1;
    }
    PutIs(was, at, bytes, buf[..]);
  }

  class Socket {
    var events: seq<Event>
    var sent: seq<Byte>

    constructor (e: seq<Event>)
      ensures events == e && sent == []
    {
      events, sent := e, [];
    }

    /** The system call: at most what has arrived and at most what was asked for; 0 when the peer has
        closed, -1 for a signal or a failure. */
    method Read(buf: array<Byte>, at: nat, len: nat) returns (n: int, again: bool)
      requires at + len <= buf.Length && len > 0
      modifies this`events, buf
      ensures -1 <= n <= len
      ensures n > 0 ==>
        && n <= |old(Data(events))|
        && buf[..] == Put(old(buf[..]), at, old(Data(events))[..n])
        && Data(events) == old(Data(events))[n..]
      ensures n <= 0 ==> buf[..] == old(buf[..])
      ensures n == -1 && again ==> Data(events) == old(Data(events))
      ensures n > 0 || (n == -1 && again) ==> Waiting(events) < old(Waiting(events))
      ensures n == 0 || (n == -1 && !again) ==> Data(events) == [] == old(Data(events))
    {
      again := false;
      if events == [] {
        return 0, false;
      }
      match events[0]
      case Failed => n := -1;
      case Interrupted =>
        n, again := -1, true;
        events := events[1..];
      case Arrived(bytes) =>
        n := if |bytes| < len then |bytes| else len;
        CopyIn(buf, at, bytes[..n]);
        if 0 < n {
          Consume(n);
        }
    }

    /** The first `n` bytes of what has arrived are gone. */
    method Consume(n: nat)
      requires events != [] && events[0].Arrived? && 0 < n <= |events[0].bytes|
      modifies this`events
      ensures Data(events) == old(Data(events))[n..] && Waiting(events) < old(Waiting(events))
    {
      var bytes := events[0].bytes;
      if n < |bytes| {
        events := [Arrived(bytes[n..])] + events[1..];
        assert bytes == bytes[..n] + bytes[n..];
      } else {
        events := events[1..];
      }
    }

    /** A read that continues what `got` bytes began. */
    method ReadOn(buf: array<Byte>, at: nat, got: nat, len: nat, ghost was: seq<Byte>, ghost data: seq<Byte>)
        returns (n: int, again: bool)
      requires at + got + len <= buf.Length == |was| && len > 0 && got <= |data|
      requires Data(events) == data[got..] && buf[..] == Put(was, at, data[..got])
      modifies this`events, buf
      ensures n <= len && got + n <= |data|
      ensures n > 0 ==> Data(events) == data[got + n..] && buf[..] == Put(was, at, data[..got + n])
      ensures n == -1 && again ==> Data(events) == data[got..] && buf[..] == Put(was, at, data[..got])
      ensures n > 0 || (n == -1 && again) ==> Waiting(events) < old(Waiting(events))
      ensures n <= 0 && !(n == -1 && again) ==> Data(events) == [] && got == |data|
    {
      n, again := Read(buf, at + got, len);
      if n > 0 { PutMore(was, at, data, got, n); }
    }

    /** `ipc_read_exact`. */
    method ReadExact(buf: array<Byte>, at: nat, len: nat) returns (rc: int)
      requires at + len <= buf.Length
      modifies this`events, buf
      ensures rc == if |old(Data(events))| >= len then 0 else -1
      ensures rc == 0 ==>
        && buf[..] == Put(old(buf[..]), at, old(Data(events))[..len])
        && Data(events) == old(Data(events))[len..]
      ensures rc == -1 ==> Data(events) == []
    {
      var got := 0;
      ghost var data := Data(events);
      ghost var was := buf[..];
      assert buf[..] == Put(was, at, data[..0]);
      while got < len
        invariant 0 <= got <= len && got <= |data|
        invariant Data(events) == data[got..]
        invariant buf[..] == Put(was, at, data[..got])
        decreases Waiting(events), len - got
      {
        var n, again := ReadOn(buf, at, got, len - got, was, data);
        if n == -1 && again {
          continue;
        }
        if n <= 0 {
          return -1;
        }
        got := got + n;
      }
      rc := 0;
    }

    /** `read_string`, into a buffer of `out.Length` bytes. */
    method ReadString(out: array<Byte>) returns (rc: int)
      requires out.Length >= 1
      modifies this`events, out
      ensures match Parse(old(Data(events)), out.Length)
        case Fits(text, rest) =>
          rc == 0 && Data(events) == rest && |text| < out.Length && out[..|text|] == text && out[|text|] == 0
        case TooLong(head, rest) =>
          rc == -1 && Data(events) == rest && out[..] == head + [0]
        case Broken => rc == -1 && Data(events) == []
    {
      var word := new Byte[4];
      rc := ReadExact(word, 0, 4);
      if rc != 0 {
        out[0] := 0;
        return -1;
      }
      assert word[..] == old(Data(events))[..4];
      ghost var data := old(Data(events));
      var len := Number(word[..]);
      assert |data| >= 4 + len ==> data[4..][..len] == data[4..4 + len] && data[4..][len..] == data[4 + len..];
      assert |data| >= 4 + len && len >= out.Length ==> data[4..][..out.Length - 1] == data[4..4 + (out.Length - 1)];
      rc := ReadBody(out, len);
    }

    /** `read_string` once the length is known. */
    method ReadBody(out: array<Byte>, len: nat) returns (rc: int)
      requires out.Length >= 1
      modifies this`events, out
      ensures var data := old(Data(events));
        if |data| < len then rc == -1 && Data(events) == []
        else if len < out.Length then
          Data(events) == data[len..] && rc == 0 && out[..len] == data[..len] && out[len] == 0
        else Data(events) == data[len..] && rc == -1 && out[..] == data[..out.Length - 1] + [0]
    {
      var take := if len >= out.Length then out.Length - 1 else len;
      ghost var data := Data(events);
      if take > 0 {
        rc := ReadExact(out, 0, take);
        if rc != 0 {
          out[0] := 0;
          return -1;
        }
      }
      assert out[..take] == data[..take];
      out[take] := 0;
      assert out[..take] == data[..take];
      rc := 0;
      if len >= out.Length { assert out[..] == out[..take] + [0]; }
      if len >= out.Length {
        rc := Drain(len - take);
        rc := -1;
      }
    }

    /** The rest of an oversized string, read in pieces and dropped. */
    method Drain(excess: nat) returns (rc: int)
      modifies this`events
      ensures rc == if |old(Data(events))| >= excess then 0 else -1
      ensures Data(events) == if rc == 0 then old(Data(events))[excess..] else []
    {
      var dummy := new Byte[DRAIN];
      var left := excess;
      ghost var data := Data(events);
      while left > 0
        invariant 0 <= left <= excess && excess - left <= |data|
        invariant Data(events) == data[excess - left..]
      {
        var chunk := if left < DRAIN then left else DRAIN;
        rc := ReadExact(dummy, 0, chunk);
        if rc != 0 {
          return -1;
        }
        left := left - chunk;
      }
      rc := 0;
    }
  }

  // ----- an add-download message -----

  datatype MessageType =
    | AddDownload | Pause | Resume | Cancel | List | StatusEvent | ProgressEvent | Subscribe | ListAll
    | GetDetails | ReloadConfig | BrowserOffer | BrowserGetOffer | BrowserConfirm | BrowserDismiss
    | BrowserSubscribe | BrowserProgressEvent | Unknown

  datatype Header = Header(length: nat, kind: MessageType)

  /** `valid_message_header`. */
  predicate ValidHeader(h: Header) {
    h.length <= MAX_FRAME &&
    match h.kind
    case AddDownload | BrowserOffer => true
    case Pause | Resume | Cancel | GetDetails | BrowserGetOffer | BrowserDismiss | BrowserSubscribe => h.length == 4
    case BrowserConfirm => 8 <= h.length <= 8 + MAX_PATH - 1
    case List | ListAll | Subscribe | ReloadConfig => h.length == 0
    case _ => false
  }

  datatype Add = Add(url: seq<Byte>, dest: seq<Byte>, options: seq<Byte>)

  /** The header `ipc_send_add_download` writes, and the bytes that follow it. */
  function AddHeader(a: Add): Header {
    Header(4 + |a.url| + 4 + |a.dest| + 4 + |a.options|, AddDownload)
  }

  function AddBytes(a: Add): (bytes: seq<Byte>)
    requires AddHeader(a).length < 0x1_0000_0000
    ensures |bytes| == AddHeader(a).length
  {
    Wire(a.url) + Wire(a.dest) + Wire(a.options)
  }

  predicate FieldsFit(a: Add) { |a.url| < MAX_URL && |a.dest| < MAX_PATH && |a.options| < MAX_OPTIONS }

  /** A message whose fields fit their buffers passes the header check. */
  lemma FittingAddIsValid(a: Add)
    requires FieldsFit(a)
    ensures ValidHeader(AddHeader(a))
  {
  }

  /** What the client sends after the header of a confirm: the offer's id and the destination. */
  function ConfirmBytes(id: nat, dest: seq<Byte>): seq<Byte>
    requires id < 0x1_0000_0000 && |dest| < 0x1_0000_0000
  {
    Word(id) + Wire(dest)
  }

  /** A header is accepted exactly when a message of its kind with what the handler can take has its length: nothing,
      one id, an id and a destination that fits, or up to a whole frame. Events are never accepted. */
  lemma HeaderFitsHandler(length: nat, id: nat)
    requires id < 0x1_0000_0000
    ensures forall kind :: kind in {List, ListAll, Subscribe, ReloadConfig} ==>
      (ValidHeader(Header(length, kind)) <==> length == 0)
    ensures forall kind :: kind in {Pause, Resume, Cancel, GetDetails, BrowserGetOffer, BrowserDismiss, BrowserSubscribe} ==>
      (ValidHeader(Header(length, kind)) <==> length == |Word(id)|)
    ensures ValidHeader(Header(length, BrowserConfirm))
      <==> exists dest: seq<Byte> :: |dest| < 1024 && length == |ConfirmBytes(id, dest)|
    ensures forall kind :: kind in {AddDownload, BrowserOffer} ==> (ValidHeader(Header(length, kind)) <==> length <= 16384)
    ensures forall kind :: kind in {StatusEvent, ProgressEvent, BrowserProgressEvent, Unknown} ==>
      !ValidHeader(Header(length, kind))
  {
    if ValidHeader(Header(length, BrowserConfirm)) {
      var dest: seq<Byte> := seq(length - 8, _ => 0);
      assert |ConfirmBytes(id, dest)| == 8 + |dest|;
    }
  }

  /** The handler's reads: the three fields when all of them fit; it returns at the first that does
      not. The bytes left on the connection are the second result. */
  function HandleAdd(data: seq<Byte>): (Option<Add>, seq<Byte>) {
    match Parse(data, MAX_URL)
    case Broken => (None, [])
    case TooLong(_, rest) => (None, rest)
    case Fits(url, afterUrl) =>
      match Parse(afterUrl, MAX_PATH)
      case Broken => (None, [])
      case TooLong(_, rest) => (None, rest)
      case Fits(dest, afterDest) =>
        match Parse(afterDest, MAX_OPTIONS)
        case Broken => (None, [])
        case TooLong(_, rest) => (None, rest)
        case Fits(options, rest) => (Some(Add(url, dest, options)), rest)
  }

  /** The handler reads back the fields that were sent if they all fit, and takes exactly the header's
      length if the first two do; when one of those is refused, it leaves the fields after it on the
      connection. */
  lemma AddRoundTrip(a: Add, rest: seq<Byte>)
    requires AddHeader(a).length < 0x1_0000_0000
    ensures HandleAdd(AddBytes(a) + rest).0
         == if |a.url| < 2048 && |a.dest| < 1024 && |a.options| < 8192 then Some(a) else None
    ensures HandleAdd(AddBytes(a) + rest).1 == rest <==> |a.url| < 2048 && |a.dest| < 1024
  {
    var tail := Wire(a.options) + rest;
    assert AddBytes(a) + rest == Wire(a.url) + (Wire(a.dest) + tail);
    ParseWire(a.url, Wire(a.dest) + tail, MAX_URL);
    ParseWire(a.dest, tail, MAX_PATH);
    ParseWire(a.options, rest, MAX_OPTIONS);
  }

  /** The reads of the handler, whatever the fragmentation. */
  method ReceiveAdd(socket: Socket, url: array<Byte>, dest: array<Byte>, options: array<Byte>)
      returns (ok: bool, ghost got: Add)
    requires url.Length == MAX_URL && dest.Length == MAX_PATH && options.Length == MAX_OPTIONS
    requires url != dest && dest != options && url != options
    modifies socket`events, url, dest, options
    ensures ok == HandleAdd(old(Data(socket.events))).0.Some?
    ensures Data(socket.events) == HandleAdd(old(Data(socket.events))).1
    ensures ok ==>
      && HandleAdd(old(Data(socket.events))).0 == Some(got)
      && FieldsFit(got)
      && url[..|got.url|] == got.url && url[|got.url|] == 0
      && dest[..|got.dest|] == got.dest && dest[|got.dest|] == 0
      && options[..|got.options|] == got.options && options[|got.options|] == 0
  {
    ghost var data := Data(socket.events);
    got := Add([], [], []);
    var rc := socket.ReadString(url);
    if rc != 0 {
      return false, got;
    }
    ghost var first := Parse(data, MAX_URL);
    rc := socket.ReadString(dest);
    if rc != 0 {
      return false, got;
    }
    ghost var second := Parse(first.rest, MAX_PATH);
    rc := socket.ReadString(options);
    if rc != 0 {
      return false, got;
    }
    ghost var third := Parse(second.rest, MAX_OPTIONS);
    got := Add(first.text, second.text, third.text);
    ok := true;
  }
}
