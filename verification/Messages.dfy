/** Commands, messages and keys shared by the hub and the extension side. */
module Messages {

  datatype Option<+T> = None | Some(value: T)

  /** The contents of a one-slot buffered channel, oldest first. */
  function AsSeq<T>(o: Option<T>): seq<T> {
    if o.Some? then [o.value] else []
  }

  /** A reply is matched to its command by (id, seqNo); the reply carries seqNo in its ack field. */
  datatype Key = Key(id: nat, seqNo: nat)

  datatype CmdKind = CmdPing | CmdOther(code: nat)

  datatype Cmd = Cmd(kind: CmdKind, id: nat, seqNo: nat, payload: seq<nat>)

  datatype MsgKind = MsgPong | MsgOther(code: nat)

  datatype Msg = Msg(kind: MsgKind, id: nat, ack: nat, payload: seq<nat>)

  /** Keepalive traffic leaves every field but the kind at its zero value. */
  const PING := Cmd(CmdPing, 0, 0, [])
  const PONG := Msg(MsgPong, 0, 0, [])

  function CmdKey(c: Cmd): Key {
    Key(c.id, c.seqNo)
  }

  function MsgKey(m: Msg): Key {
    Key(m.id, m.ack)
  }

  /** The same command as far as replies can tell. */
  predicate SameIds(c: Cmd, d: Cmd) {
    c.id == d.id && c.seqNo == d.seqNo
  }

  /** The message is addressed to the sender of the command. */
  predicate Addressed(m: Msg, c: Cmd) {
    m.id == c.id && m.ack == c.seqNo
  }

  /** The commands the extension hands on to its controller: everything but pings. */
  function NonPing(cs: seq<Cmd>): seq<Cmd> {
    if cs == [] then []
    else
      var last := cs[|cs| - 1];
      NonPing(cs[..|cs| - 1]) + if last.kind.CmdPing? then [] else [last]
  }

  lemma NonPingAppend(cs: seq<Cmd>, c: Cmd)
    ensures NonPing(cs + [c]) == NonPing(cs) + if c.kind.CmdPing? then [] else [c]
  {
    assert (cs + [c])[..|cs|] == cs;
  }

  lemma {:induction false} NonPingPrefix(cs: seq<Cmd>, ds: seq<Cmd>)
    requires cs <= ds
    ensures NonPing(cs) <= NonPing(ds)
    decreases |ds|
  {
    if cs == ds {
    } else {
      assert cs <= ds[..|ds| - 1];
      NonPingPrefix(cs, ds[..|ds| - 1]);
    }
  }
}
