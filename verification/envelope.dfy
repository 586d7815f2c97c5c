/** The frame as it is encoded: one record for all types, with the validity that
    encoding and decoding check. internal/protocol/tunnel/envelope.go */
module Envelope {
  import opened Frames
  import opened Channel
  import opened ChannelInvariants

  const VERSION: int := 1

  datatype Record = Record(version: int, frameType: string, sessionId: string, route: string, kind: string,
                           dataKind: string, payload: Bytes, window: int, closeCode: int, error: string)

  /** Frame.Validate. */
  predicate Validate(r: Record) {
    && r.version == VERSION
    && ValidToken(r.sessionId)
    && (if r.frameType == "open" then ValidToken(r.route) && ValidKind(r.kind)
        else if r.frameType == "data" then r.dataKind in {"", "binary", "text"}
        else if r.frameType == "eof" then true
        else if r.frameType == "window" then r.window > 0
        else if r.frameType == "close" then r.closeCode == 0 || 1000 <= r.closeCode <= 4999
        else if r.frameType == "error" then ValidError(r.error)
        else false)
  }

  /** The record a write site fills in for a frame. */
  function Encode(id: string, f: Frame): Record {
    var blank := Record(VERSION, "", id, "", "", "", [], 0, 0, "");
    match f
    case Open(route, kind, path) => blank.(frameType := "open", route := route, kind := kind, payload := path)
    case Data(dataKind, payload) =>
      blank.(frameType := "data", dataKind := if dataKind.Text? then "text" else "binary", payload := payload)
    case Eof => blank.(frameType := "eof")
    case Window(credits) => blank.(frameType := "window", window := credits)
    case Close(code, text) => blank.(frameType := "close", closeCode := code, payload := text)
    case Error(message) => blank.(frameType := "error", error := message)
  }

  /** What the runtime makes of a record; a data kind that is not "text" is binary. */
  function Decode(r: Record): Frame
    requires Validate(r)
  {
    if r.frameType == "open" then Open(r.route, r.kind, r.payload)
    else if r.frameType == "data" then Data(if r.dataKind == "text" then Text else Binary, r.payload)
    else if r.frameType == "eof" then Eof
    else if r.frameType == "window" then Frame.Window(r.window)
    else if r.frameType == "close" then Close(r.closeCode, r.payload)
    else Error(r.error)
  }

  // What is marshalled: a map from field names to values, without the empty fields.

  datatype Key =
    | VersionKey | TypeKey | SessionKey | RouteKey | KindKey
    | DataKindKey | PayloadKey | WindowKey | CloseCodeKey | ErrorKey

  datatype Value = Number(n: int) | Chars(s: string) | Octets(b: Bytes)

  type Fields = map<Key, Value>

  predicate EmptyValue(v: Value) {
    match v
    case Number(n) => n == 0
    case Chars(s) => s == ""
    case Octets(b) => b == []
  }

  function FieldOf(r: Record, key: Key): Value {
    match key
    case VersionKey => Number(r.version)
    case TypeKey => Chars(r.frameType)
    case SessionKey => Chars(r.sessionId)
    case RouteKey => Chars(r.route)
    case KindKey => Chars(r.kind)
    case DataKindKey => Chars(r.dataKind)
    case PayloadKey => Octets(r.payload)
    case WindowKey => Number(r.window)
    case CloseCodeKey => Number(r.closeCode)
    case ErrorKey => Chars(r.error)
  }

  predicate Required(key: Key) { key.VersionKey? || key.TypeKey? || key.SessionKey? }

  function Marshal(r: Record): Fields {
    map key: Key | Required(key) || !EmptyValue(FieldOf(r, key)) :: FieldOf(r, key)
  }

  predicate IsNumber(m: Fields, key: Key) { key in m ==> m[key].Number? }

  predicate IsChars(m: Fields, key: Key) { key in m ==> m[key].Chars? }

  function NumberAt(m: Fields, key: Key): int
    requires IsNumber(m, key)
  {
    if key in m then m[key].n else 0
  }

  function CharsAt(m: Fields, key: Key): string
    requires IsChars(m, key)
  {
    if key in m then m[key].s else ""
  }

  /** Every field that is there has its type. */
  predicate WellTyped(m: Fields) {
    && IsNumber(m, VersionKey) && IsNumber(m, WindowKey) && IsNumber(m, CloseCodeKey)
    && IsChars(m, TypeKey) && IsChars(m, SessionKey) && IsChars(m, RouteKey) && IsChars(m, KindKey)
    && IsChars(m, DataKindKey) && IsChars(m, ErrorKey)
    && (PayloadKey in m ==> m[PayloadKey].Octets?)
  }

  function Unmarshal(m: Fields): Record
    requires WellTyped(m)
  {
    Record(NumberAt(m, VersionKey), CharsAt(m, TypeKey), CharsAt(m, SessionKey), CharsAt(m, RouteKey), CharsAt(m, KindKey),
           CharsAt(m, DataKindKey), if PayloadKey in m then m[PayloadKey].b else [],
           NumberAt(m, WindowKey), NumberAt(m, CloseCodeKey), CharsAt(m, ErrorKey))
  }

  datatype Encoded = NotSent | Sent(fields: Fields)

  datatype Decoded = Ignored | Received(id: string, frame: Frame)

  function EncodeFrame(id: string, f: Frame): Encoded {
    if Validate(Encode(id, f)) then Sent(Marshal(Encode(id, f))) else NotSent
  }

  function DecodeFrame(m: Fields): Decoded {
    if !WellTyped(m) || !Validate(Unmarshal(m)) then Ignored
    else Received(Unmarshal(m).sessionId, Decode(Unmarshal(m)))
  }

  /** Leaving the empty fields out loses nothing; version, type and session are always
      there. */
  lemma MarshalRoundTrip(r: Record)
    ensures {VersionKey, TypeKey, SessionKey} <= Marshal(r).Keys
    ensures WellTyped(Marshal(r)) && Unmarshal(Marshal(r)) == r
  {
  }

  /** A frame is sent if and only if it is sendable and its session has a valid ID,
      and then the other end receives that frame for that session. */
  lemma RoundTrip(id: string, f: Frame)
    ensures EncodeFrame(id, f).Sent? <==> ValidToken(id) && Sendable(f)
    ensures EncodeFrame(id, f).Sent? ==> DecodeFrame(EncodeFrame(id, f).fields) == Received(id, f)
  {
    RecordRoundTrip(id, f);
    if Validate(Encode(id, f)) {
      MarshalRoundTrip(Encode(id, f));
    }
  }

  lemma RecordRoundTrip(id: string, f: Frame)
    ensures Validate(Encode(id, f)) <==> ValidToken(id) && Sendable(f)
    ensures Validate(Encode(id, f)) ==> Decode(Encode(id, f)) == f && Encode(id, f).sessionId == id
  {
  }

  /** Every valid record means one frame, and encoding that frame says the same. */
  lemma DecodedIsSendable(r: Record)
    requires Validate(r)
    ensures Sendable(Decode(r))
    ensures Validate(Encode(r.sessionId, Decode(r))) && Decode(Encode(r.sessionId, Decode(r))) == Decode(r)
  {
  }

  /** What is received was sent in this version, for a session with a valid ID, with a
      type that is known; and data without a kind are binary. */
  lemma ReceivedIsWellFormed(m: Fields)
    requires DecodeFrame(m).Received?
    ensures VersionKey in m && m[VersionKey] == Number(1)
    ensures SessionKey in m && m[SessionKey] == Chars(DecodeFrame(m).id) && ValidToken(DecodeFrame(m).id)
    ensures TypeKey in m && m[TypeKey].s in {"open", "data", "eof", "window", "close", "error"}
    ensures DecodeFrame(m).frame.Data? <==> m[TypeKey].s == "data"
    ensures DecodeFrame(m).frame.Data? ==>
      if DataKindKey in m then m[DataKindKey].s in {"", "binary", "text"} else DecodeFrame(m).frame.dataKind.Binary?
  {
  }

  /** Every kind of session can be opened, and no other; the codes of a close are those
      of a WebSocket; the text of an error is one line. */
  lemma WhatIsSent(id: string, route: string, path: Bytes, text: Bytes)
    requires ValidToken(id) && ValidToken(route)
    ensures forall kind: string :: EncodeFrame(id, Open(route, kind, path)).Sent? <==>
      kind == "tcp" || kind == "websocket" || kind == "grpc" || kind == "http-stream"
    ensures forall code: nat :: EncodeFrame(id, Close(code, text)).Sent? <==> code == 0 || 1000 <= code < 5000
    ensures forall message: string :: EncodeFrame(id, Error(message)).Sent? <==>
      message != "" && forall c <- message :: c != '\r' && c != '\n'
  {
  }

  /** What the users of a session hand to it: any data, and control frames with a
      close code and an error text that are valid. */
  predicate FairAct(act: Act) {
    match act
    case AnnounceOpen(open) => Sendable(open)
    case SendControl(control) => Sendable(control)
    case _ => true
  }

  predicate AllValidate(id: string, q: seq<Frame>) {
    forall i :: 0 <= i < |q| ==> Validate(Encode(id, q[i]))
  }

  predicate FairRun(run: seq<Step>) {
    forall i :: 0 <= i < |run| ==> FairAct(run[i].act)
  }

  predicate AllSendable(q: seq<Frame>) {
    forall i :: 0 <= i < |q| ==> Sendable(q[i])
  }

  predicate WiresSendable(s: Channel) {
    AllSendable(s.ab) && AllSendable(s.ba)
  }

  lemma ActKeepsSendable(s: Channel, act: Act)
    requires Shaped(s) && Shaped(Flip(s)) && WiresSendable(s) && Enabled(s, act) && FairAct(act)
    ensures WiresSendable(Apply(s, act))
  {
    assert forall f: Frame :: f.Data? ==> Sendable(f);
    LinkTexts();
  }

  lemma FixedTexts()
    ensures ValidError("flow control violation") && ValidError("session refused")
    ensures ValidError("backend dial failed") && ValidError("backend websocket dial failed")
    ensures ValidError("backend body read failed") && ValidError("response stream was not claimed")
  {
    LinkTexts();
    DialTexts();
    StreamTexts();
  }

  lemma LinkTexts()
    ensures ValidError("flow control violation") && ValidError("session refused")
  {
  }

  lemma DialTexts()
    ensures ValidError("backend dial failed") && ValidError("backend websocket dial failed")
  {
  }

  lemma StreamTexts()
    ensures ValidError("backend body read failed") && ValidError("response stream was not claimed")
  {
  }

  lemma {:induction false} RunKeepsSendable(s: Channel, run: seq<Step>)
    requires Inv(s) && WiresSendable(s) && CanRun(s, run) && FairRun(run)
    ensures WiresSendable(Run(s, run))
    decreases |run|
  {
    if run != [] {
      var t := if run[0].side.Left? then s else Flip(s);
      ActKeepsSendable(t, run[0].act);
      StepKeeps(s, run[0]);
      RunKeepsSendable(Do(s, run[0]), run[1..]);
    }
  }

  /** No write fails because of its content: every frame a session ever puts on the
      wire, its own window and error frames included, passes validation. */
  lemma EveryFrameValidates(s: Channel, run: seq<Step>, id: string)
    requires Init(s) && CanRun(s, run) && FairRun(run) && ValidToken(id)
    ensures AllValidate(id, Run(s, run).ab) && AllValidate(id, Run(s, run).ba)
  {
    InitInv(s);
    RunKeepsSendable(s, run);
    var t := Run(s, run);
    forall f: Frame
      ensures Sendable(f) ==> Validate(Encode(id, f))
    {
      RecordRoundTrip(id, f);
    }
  }
}
