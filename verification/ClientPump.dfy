/**
 The extension side of one connection: the reader decodes commands, answers pings through an
 unbuffered channel to the writer and hands everything else to the controller; the writer encodes
 pongs and the controller's messages. Each goroutine step, and each step of the controller on the
 two shared channels, is one action.
 */
module ClientPump {
  import opened Messages

  datatype ReaderPc =
    | ReadIdle
    | PingInHand
    | CmdInHand(cmd: Cmd)
    | Leaving      // deferred: about to close the keepalive channel
    | HalfClosed   // deferred: about to close the command channel
    | ReaderGone

  /** What the writer puts on the wire. */
  datatype Out = Pong | Carried(msg: Msg)

  datatype WriterPc = WriteIdle | Encoding(out: Out) | WriterGone

  datatype Reader = Reader(pc: ReaderPc, decoded: seq<Cmd>, handed: seq<Cmd>, keepOpen: bool, cmdOpen: bool)

  datatype Writer = Writer(pc: WriterPc, written: seq<Out>)

  datatype State = State(
    reader: Reader,
    writer: Writer,
    cmdCh: Option<Cmd>,
    msgCh: Option<Msg>,
    msgOpen: bool,
    cancelled: bool,
    panicked: bool)

  const INIT := State(Reader(ReadIdle, [], [], true, true), Writer(WriteIdle, []), None, None, true, false, false)

  datatype Action =
    // reader
    | DecodeCmd(cmd: Cmd) | DecodeFails | OfferPing | HandCmd | ReaderCancelled | CloseKeepalive | CloseCmdCh
    // writer
    | TakeMsg | EncodeOut | EncodeFails | WriterStops
    // controller and environment
    | TakeCmd | PutMsg(msg: Msg) | CloseMsgCh | CancelPump

  predicate Enabled(s: State, a: Action) {
    && !s.panicked
    && match a
       case DecodeCmd(_) => s.reader.pc.ReadIdle?
       case DecodeFails => s.reader.pc.ReadIdle?
       case OfferPing => s.reader.pc.PingInHand? && (s.writer.pc.WriteIdle? || !s.reader.keepOpen)
       case HandCmd => s.reader.pc.CmdInHand? && (s.cmdCh.None? || !s.reader.cmdOpen)
       case ReaderCancelled => (s.reader.pc.PingInHand? || s.reader.pc.CmdInHand?) && s.cancelled
       case CloseKeepalive => s.reader.pc.Leaving?
       case CloseCmdCh => s.reader.pc.HalfClosed?
       case TakeMsg => s.writer.pc.WriteIdle? && s.msgCh.Some?
       case EncodeOut => s.writer.pc.Encoding?
       case EncodeFails => s.writer.pc.Encoding?
       case WriterStops =>
         s.writer.pc.WriteIdle? && (s.cancelled || !s.reader.keepOpen || (!s.msgOpen && s.msgCh.None?))
       case TakeCmd => s.cmdCh.Some?
       case PutMsg(_) => s.msgCh.None? && s.msgOpen
       case CloseMsgCh => s.msgOpen
       case CancelPump => true
  }

  function ReaderAfter(r: Reader, a: Action): Reader
    requires a.HandCmd? ==> r.pc.CmdInHand?
  {
    match a
    case DecodeCmd(cmd) =>
      r.(pc := if cmd.kind.CmdPing? then PingInHand else CmdInHand(cmd), decoded := r.decoded + [cmd])
    case DecodeFails => r.(pc := Leaving)
    case OfferPing => r.(pc := ReadIdle)
    case HandCmd => r.(pc := ReadIdle, handed := r.handed + [r.pc.cmd])
    case ReaderCancelled => r.(pc := Leaving)
    case CloseKeepalive => r.(pc := HalfClosed, keepOpen := false)
    case CloseCmdCh => r.(pc := ReaderGone, cmdOpen := false)
    case _ => r
  }

  function WriterAfter(wr: Writer, msgCh: Option<Msg>, a: Action): Writer
    requires a.TakeMsg? ==> msgCh.Some?
    requires a.EncodeOut? ==> wr.pc.Encoding?
  {
    match a
    case OfferPing => wr.(pc := Encoding(Pong))
    case TakeMsg => wr.(pc := Encoding(Carried(msgCh.value)))
    case EncodeOut => Writer(WriteIdle, wr.written + [wr.pc.out])
    case EncodeFails => wr.(pc := WriterGone)
    case WriterStops => wr.(pc := WriterGone)
    case _ => wr
  }

  /** Closing a closed channel and sending on one panic in Go. */
  predicate Panics(s: State, a: Action) {
    match a
    case OfferPing => !s.reader.keepOpen
    case HandCmd => !s.reader.cmdOpen
    case CloseKeepalive => !s.reader.keepOpen
    case CloseCmdCh => !s.reader.cmdOpen
    case _ => false
  }

  function Do(s: State, a: Action): State
    requires Enabled(s, a)
  {
    if Panics(s, a) then s.(panicked := true) else
    State(ReaderAfter(s.reader, a),
          WriterAfter(s.writer, s.msgCh, a),
          if a.HandCmd? then Some(s.reader.pc.cmd) else if a.TakeCmd? then None else s.cmdCh,
          if a.PutMsg? then Some(a.msg) else if a.TakeMsg? then None else s.msgCh,
          s.msgOpen && !a.CloseMsgCh?,
          s.cancelled || a.CancelPump?,
          false)
  }

  /** A run is the sequence of its actions. */
  ghost predicate ValidRun(run: seq<Action>)
    decreases |run|, 0
  {
    run == [] || (var past := run[..|run| - 1]; ValidRun(past) && Enabled(Exec(past), run[|run| - 1]))
  }

  ghost function Exec(run: seq<Action>): State
    requires ValidRun(run)
    decreases |run|, 1
  {
    if run == [] then INIT else Do(Exec(run[..|run| - 1]), run[|run| - 1])
  }

  // ---------------------------------------------------------------------------------------
  // Invariant
  // ---------------------------------------------------------------------------------------

  function Pings(cs: seq<Cmd>): nat {
    if cs == [] then 0 else Pings(cs[..|cs| - 1]) + if cs[|cs| - 1].kind.CmdPing? then 1 else 0
  }

  function Pongs(os: seq<Out>): nat {
    if os == [] then 0 else Pongs(os[..|os| - 1]) + if os[|os| - 1].Pong? then 1 else 0
  }

  ghost predicate ReaderOk(r: Reader) {
    && (r.keepOpen <==> !r.pc.HalfClosed? && !r.pc.ReaderGone?)
    && (r.cmdOpen <==> !r.pc.ReaderGone?)
    && (if r.pc.CmdInHand? then NonPing(r.decoded) == r.handed + [r.pc.cmd]
        else if r.pc.ReadIdle? || r.pc.PingInHand? then NonPing(r.decoded) == r.handed
        else r.handed <= NonPing(r.decoded) && |NonPing(r.decoded)| <= |r.handed| + 1)
  }

  ghost predicate PongOk(r: Reader, wr: Writer) {
    Pongs(wr.written) + (if wr.pc == Encoding(Pong) then 1 else 0) + (if r.pc.PingInHand? then 1 else 0)
      <= Pings(r.decoded)
  }

  ghost predicate Inv(s: State) {
    !s.panicked && ReaderOk(s.reader) && PongOk(s.reader, s.writer)
  }

  lemma {:induction false} ReaderStep(s: State, a: Action)
    requires Inv(s) && Enabled(s, a)
    ensures !Panics(s, a) && ReaderOk(ReaderAfter(s.reader, a))
  {
    if a.DecodeCmd? {
      NonPingAppend(s.reader.decoded, a.cmd);
    }
  }

  lemma {:induction false} PongStep(s: State, a: Action)
    requires Inv(s) && Enabled(s, a)
    ensures PongOk(ReaderAfter(s.reader, a), WriterAfter(s.writer, s.msgCh, a))
  {
    if a.DecodeCmd? {
      assert (s.reader.decoded + [a.cmd])[..|s.reader.decoded|] == s.reader.decoded;
    } else if a.EncodeOut? {
      assert (s.writer.written + [s.writer.pc.out])[..|s.writer.written|] == s.writer.written;
    } else if a.OfferPing? {
      assert s.writer.pc.WriteIdle?;
    }
  }

  lemma {:induction false} RunKeepsInv(run: seq<Action>)
    requires ValidRun(run)
    ensures Inv(Exec(run))
    decreases |run|
  {
    if run != [] {
      RunKeepsInv(run[..|run| - 1]);
      ReaderStep(Exec(run[..|run| - 1]), run[|run| - 1]);
      PongStep(Exec(run[..|run| - 1]), run[|run| - 1]);
    }
  }

  /**
   Client pump safety in every run: the commands handed to the controller are, in order, a prefix of
   the decoded non-ping commands, short of at most the one in hand; pongs never outnumber pings; and the
   two channels the reader owns are each closed at most once, after the last send on them, and are closed
   once it is gone.
   */
  lemma {:induction false} PumpSafety(run: seq<Action>)
    requires ValidRun(run)
    ensures var s := Exec(run);
      && !s.panicked
      && s.reader.handed <= NonPing(s.reader.decoded)
      && |NonPing(s.reader.decoded)| <= |s.reader.handed| + 1
      && (s.reader.pc.ReadIdle? ==> s.reader.handed == NonPing(s.reader.decoded))
      && Pongs(s.writer.written) <= Pings(s.reader.decoded)
      && (s.reader.pc.ReaderGone? <==> !s.reader.cmdOpen)
      && (s.reader.pc.ReaderGone? ==> !s.reader.keepOpen)
  {
    RunKeepsInv(run);
  }

  // ---------------------------------------------------------------------------------------
  // Messages of the controller
  // ---------------------------------------------------------------------------------------

  /** The messages the controller has put into the message channel, in order. */
  function Put(run: seq<Action>): seq<Msg> {
    if run == [] then []
    else
      var a := run[|run| - 1];
      Put(run[..|run| - 1]) + if a.PutMsg? then [a.msg] else []
  }

  function Delivered(os: seq<Out>): seq<Msg> {
    if os == [] then []
    else
      var o := os[|os| - 1];
      Delivered(os[..|os| - 1]) + if o.Carried? then [o.msg] else []
  }

  function InWriter(pc: WriterPc): seq<Msg> {
    if pc.Encoding? && pc.out.Carried? then [pc.out.msg] else []
  }

  /** Written, being written and waiting messages are all that was put; a writer that is gone has lost at most one. */
  ghost predicate MessagesOk(s: State, put: seq<Msg>) {
    if s.writer.pc.WriterGone? then
      exists lost :: |lost| <= 1 && put == Delivered(s.writer.written) + lost + AsSeq(s.msgCh)
    else put == Delivered(s.writer.written) + InWriter(s.writer.pc) + AsSeq(s.msgCh)
  }

  lemma {:induction false} CarriedAppend(os: seq<Out>, o: Out)
    ensures Delivered(os + [o]) == Delivered(os) + if o.Carried? then [o.msg] else []
  {
    assert (os + [o])[..|os|] == os;
  }

  lemma {:induction false} MessagesStep(s: State, a: Action, put: seq<Msg>)
    requires MessagesOk(s, put) && Enabled(s, a) && !Panics(s, a)
    ensures MessagesOk(Do(s, a), put + if a.PutMsg? then [a.msg] else [])
  {
    var s' := Do(s, a);
    var put' := put + if a.PutMsg? then [a.msg] else [];
    if s.writer.pc.WriterGone? {
      var lost :| |lost| <= 1 && put == Delivered(s.writer.written) + lost + AsSeq(s.msgCh);
      assert put' == Delivered(s'.writer.written) + lost + AsSeq(s'.msgCh);
    } else if s'.writer.pc.WriterGone? {
      assert put' == Delivered(s'.writer.written) + InWriter(s.writer.pc) + AsSeq(s'.msgCh);
    } else if a.EncodeOut? {
      CarriedAppend(s.writer.written, s.writer.pc.out);
    }
  }

  /**
   In every run the messages written are, in order, a prefix of the messages the controller put into the message
   channel; what is missing is in the writer's hands, in the channel, or was in the hands of a writer that failed.
   */
  lemma {:induction false} MessagesInOrder(run: seq<Action>)
    requires ValidRun(run)
    ensures MessagesOk(Exec(run), Put(run)) && Delivered(Exec(run).writer.written) <= Put(run)
    decreases |run|
  {
    if run != [] {
      var past := run[..|run| - 1];
      MessagesInOrder(past);
      RunKeepsInv(past);
      ReaderStep(Exec(past), run[|run| - 1]);
      MessagesStep(Exec(past), run[|run| - 1], Put(past));
    }
  }

  // ---------------------------------------------------------------------------------------
  // How the goroutines end
  // ---------------------------------------------------------------------------------------

  predicate ReaderLeaves(r: Reader) {
    r.pc.Leaving? || r.pc.HalfClosed? || r.pc.ReaderGone?
  }

  /**
   The reader leaves its loop exactly when decoding fails or it finds the session cancelled with something in
   hand; the writer exactly when encoding fails or it is told to stop by cancellation or by a closed channel; a
   channel is closed exactly when its owner has closed it.
   */
  lemma {:induction false} EndsForAReason(run: seq<Action>)
    requires ValidRun(run)
    ensures var s := Exec(run);
      && (ReaderLeaves(s.reader) <==> DecodeFails in run || ReaderCancelled in run)
      && (s.writer.pc.WriterGone? <==> EncodeFails in run || WriterStops in run)
      && (!s.reader.keepOpen <==> CloseKeepalive in run) && (!s.reader.cmdOpen <==> CloseCmdCh in run)
      && (!s.msgOpen <==> CloseMsgCh in run) && (s.cancelled <==> CancelPump in run)
      && (ReaderCancelled in run ==> s.cancelled)
      && (WriterStops in run ==> s.cancelled || !s.reader.keepOpen || !s.msgOpen)
    decreases |run|
  {
    if run != [] {
      var past, a := run[..|run| - 1], run[|run| - 1];
      EndsForAReason(past);
      RunKeepsInv(past);
      ReaderStep(Exec(past), a);
      assert run == past + [a];
    }
  }
}
