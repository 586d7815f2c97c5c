/** The frames of the data tunnel, as the runtime sees them after decoding, and
    the counting functions the flow-control argument is written in. */
module Frames {

  /** A byte of a payload; nothing in the tunnel looks inside one. */
  type Octet = int

  type Bytes = seq<Octet>

  datatype Kind = Binary | Text

  datatype Frame =
    | Open(route: string, kind: string, path: Bytes)
    | Data(dataKind: Kind, payload: Bytes)
    | Eof
    | Window(credits: nat)
    | Close(code: nat, text: Bytes)
    | Error(message: string)
  {
    /** Frames that end up in a receive queue without having cost a credit. */
    predicate Control() { Eof? || Close? || Error? }

    /** Frames that end up in a receive queue. */
    predicate Queued() { Data? || Control() }
  }

  /** A place for at most one frame. */
  datatype Slot = Empty | Full(frame: Frame)

  // What may be sent.

  predicate TokenChar(c: char) {
    'a' <= c <= 'z' || 'A' <= c <= 'Z' || '0' <= c <= '9' || c == '_' || c == '-'
  }

  predicate ValidToken(s: string) {
    s != "" && forall i :: 0 <= i < |s| ==> TokenChar(s[i])
  }

  const LOWER := "abcdefghijklmnopqrstuvwxyz"
  const UPPER := "ABCDEFGHIJKLMNOPQRSTUVWXYZ"
  const OTHER := "0123456789_-"

  /** A token is made of letters, digits, underscores and hyphens, in any order. */
  lemma TokensExactly(s: string)
    ensures ValidToken(s) <==> s != "" && forall c <- s :: c in LOWER || c in UPPER || c in OTHER
  {
    forall i | 0 <= i < |s|
      ensures TokenChar(s[i]) <==> s[i] in LOWER || s[i] in UPPER || s[i] in OTHER
    {
      InLower(s[i]);
      InUpper(s[i]);
      assert s[i] in s;
    }
  }

  lemma InLower(c: char)
    ensures 'a' <= c <= 'z' <==> c in LOWER
  {
    if 'a' <= c <= 'z' {
      assert LOWER[c as int - 97] == c;
    }
  }

  lemma InUpper(c: char)
    ensures 'A' <= c <= 'Z' <==> c in UPPER
  {
    if 'A' <= c <= 'Z' {
      assert UPPER[c as int - 65] == c;
    }
  }

  predicate HexDigit(c: char) { '0' <= c <= '9' || 'a' <= c <= 'f' }

  /** A session ID drawn at random, in hexadecimal, is a token. */
  lemma HexIsToken(s: string)
    requires s != "" && forall c <- s :: HexDigit(c)
    ensures ValidToken(s)
  {
    forall i | 0 <= i < |s|
      ensures TokenChar(s[i])
    {
      assert s[i] in s;
    }
  }

  /** A token has none of the characters that separate or match parts of a subject, or
      parts of a path, and no line break. */
  lemma TokensAreSafe(s: string, c: char)
    requires ValidToken(s) && c in ".*>/ :\r\n"
    ensures c !in s
  {
  }

  predicate ValidKind(kind: string) {
    kind in {"tcp", "websocket", "grpc", "http-stream"}
  }

  predicate ValidError(e: string) {
    e != "" && '\r' !in e && '\n' !in e
  }

  /** Frames that can be sent. */
  predicate Sendable(f: Frame) {
    match f
    case Open(route, kind, _) => ValidToken(route) && ValidKind(kind)
    case Window(credits) => credits > 0
    case Close(code, _) => code == 0 || 1000 <= code <= 4999
    case Error(message) => ValidError(message)
    case _ => true
  }

  predicate NoOpen(q: seq<Frame>) {
    forall i :: 0 <= i < |q| ==> !q[i].Open?
  }

  // One frame, or a slot that may hold one.

  function DataOf(f: Slot): nat { if f.Full? && f.frame.Data? then 1 else 0 }

  function ControlOf(f: Slot): nat { if f.Full? && f.frame.Control() then 1 else 0 }

  function CreditOf(f: Slot): nat { if f.Full? && f.frame.Window? then f.frame.credits else 0 }

  function QueuedOf(f: Slot): seq<Frame> { if f.Full? && f.frame.Queued() then [f.frame] else [] }

  /** A queue after a write of at most one frame. */
  function Push(q: seq<Frame>, f: Slot): seq<Frame> { if f.Full? then q + [f.frame] else q }

  // Whole queues.

  /** The number of data frames in a queue. */
  function DataCount(q: seq<Frame>): nat {
    if q == [] then 0 else DataOf(Full(q[0])) + DataCount(q[1..])
  }

  /** The number of control frames in a queue. */
  function ControlCount(q: seq<Frame>): nat {
    if q == [] then 0 else ControlOf(Full(q[0])) + ControlCount(q[1..])
  }

  /** The credit carried by the window frames of a queue. */
  function CreditSum(q: seq<Frame>): nat {
    if q == [] then 0 else CreditOf(Full(q[0])) + CreditSum(q[1..])
  }

  /** What a queue of tunnel frames puts into the receive queue at its end. */
  function QueuedOnly(q: seq<Frame>): seq<Frame> {
    if q == [] then [] else QueuedOf(Full(q[0])) + QueuedOnly(q[1..])
  }

  /** The payload bytes of the data frames of a queue. */
  function Payload(q: seq<Frame>): Bytes {
    if q == [] then [] else (if q[0].Data? then q[0].payload else []) + Payload(q[1..])
  }

  /** The data frames of a queue. */
  function DataOnly(q: seq<Frame>): seq<Frame> {
    if q == [] then [] else (if q[0].Data? then [q[0]] else []) + DataOnly(q[1..])
  }

  lemma {:induction false} PushCounts(q: seq<Frame>, f: Slot)
    ensures DataCount(Push(q, f)) == DataCount(q) + DataOf(f)
    ensures ControlCount(Push(q, f)) == ControlCount(q) + ControlOf(f)
    ensures CreditSum(Push(q, f)) == CreditSum(q) + CreditOf(f)
  {
    if q != [] && f.Full? {
      PushCounts(q[1..], f);
      assert (q + [f.frame])[1..] == q[1..] + [f.frame];
    }
  }

  lemma {:induction false} PushQueued(q: seq<Frame>, f: Slot)
    ensures QueuedOnly(Push(q, f)) == QueuedOnly(q) + QueuedOf(f)
  {
    if q != [] && f.Full? {
      PushQueued(q[1..], f);
      assert (q + [f.frame])[1..] == q[1..] + [f.frame];
    }
  }

  lemma {:induction false} AppendPayload(x: seq<Frame>, y: seq<Frame>)
    ensures Payload(x + y) == Payload(x) + Payload(y)
  {
    if x == [] {
      assert x + y == y;
    } else {
      assert (x + y)[0] == x[0] && (x + y)[1..] == x[1..] + y;
      AppendPayload(x[1..], y);
    }
  }

  lemma {:induction false} AppendData(x: seq<Frame>, y: seq<Frame>)
    ensures DataOnly(x + y) == DataOnly(x) + DataOnly(y)
  {
    if x == [] {
      assert x + y == y;
    } else {
      AppendData(x[1..], y);
      assert (x + y)[1..] == x[1..] + y;
    }
  }

  lemma {:induction false} NoDataNoPayload(q: seq<Frame>)
    requires forall i :: 0 <= i < |q| ==> !q[i].Data?
    ensures Payload(q) == [] && DataOnly(q) == []
  {
    if q != [] {
      NoDataNoPayload(q[1..]);
    }
  }

  /** A queue that holds only queued frames is as long as its two counts. */
  lemma {:induction false} CountsFill(q: seq<Frame>)
    requires forall i :: 0 <= i < |q| ==> q[i].Queued()
    ensures |q| == DataCount(q) + ControlCount(q)
  {
    if q != [] {
      CountsFill(q[1..]);
    }
  }
}
