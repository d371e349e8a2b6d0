/** The `WebSocketManager` of app/main.py: a list of open connections and a
    broadcast that sends one message to each of them in list order, collects the
    ones whose send failed and then disconnects those. A socket is an opaque
    number; whether sending a message to a socket succeeds is the oracle
    `deliver`. The wire log `transmitted` records every send attempt in order. */
module Sockets {
  import opened Text

  type Socket = nat

  /** The three JSON messages the pipeline broadcasts, by their "type" field. */
  datatype Message =
    | TranscriptUpdate(sessionId: string, text: string, fullTranscript: string)  // "transcript_update"
    | SummaryUpdate(sessionId: string, summary: string)                          // "summary"
    | SessionEnded(sessionId: string, transcript: string, summary: string)       // "session_ended"

  /** One `send_text` attempt and whether it succeeded. */
  datatype Delivery = Delivery(socket: Socket, message: Message, ok: bool)

  /** What the manager holds (`active_connections`) and everything it has sent. */
  datatype Wire = Wire(connections: seq<Socket>, transmitted: seq<Delivery>)

  /** The send attempts of one broadcast pass over `conns`, in list order. */
  function Attempts(conns: seq<Socket>, m: Message, deliver: (Socket, Message) -> bool): (r: seq<Delivery>)
    ensures |r| == |conns|
  {
    if conns == [] then []
    else [Delivery(conns[0], m, deliver(conns[0], m))] + Attempts(conns[1..], m, deliver)
  }

  /** The `disconnected` list a broadcast pass builds. */
  function Failed(conns: seq<Socket>, m: Message, deliver: (Socket, Message) -> bool): seq<Socket>
  {
    if conns == [] then []
    else (if deliver(conns[0], m) then [] else [conns[0]]) + Failed(conns[1..], m, deliver)
  }

  /** Each attempt is the connection at that position with the message and its outcome. */
  lemma {:induction false} AttemptsAt(conns: seq<Socket>, m: Message, deliver: (Socket, Message) -> bool)
    ensures forall i :: 0 <= i < |conns| ==>
              Attempts(conns, m, deliver)[i] == Delivery(conns[i], m, deliver(conns[i], m))
  {
    if conns != [] {
      AttemptsAt(conns[1..], m, deliver);
    }
  }

  /** A socket is collected for disconnection exactly when it is in the list and its send failed. */
  lemma {:induction false} FailedMembers(conns: seq<Socket>, m: Message, deliver: (Socket, Message) -> bool)
    ensures forall c :: c in Failed(conns, m, deliver) <==> c in conns && !deliver(c, m)
  {
    if conns != [] {
      FailedMembers(conns[1..], m, deliver);
      assert conns == [conns[0]] + conns[1..];
    }
  }

  /** The connections that received `m`, in their original order. */
  function Survivors(conns: seq<Socket>, m: Message, deliver: (Socket, Message) -> bool): (r: seq<Socket>)
    ensures |r| <= |conns|
  {
    if conns == [] then []
    else (if deliver(conns[0], m) then [conns[0]] else []) + Survivors(conns[1..], m, deliver)
  }

  /** A connection survives exactly when it is in the list and received the message. */
  lemma {:induction false} SurvivorsMembers(conns: seq<Socket>, m: Message, deliver: (Socket, Message) -> bool)
    ensures forall c :: c in Survivors(conns, m, deliver) <==> c in conns && deliver(c, m)
  {
    if conns != [] {
      SurvivorsMembers(conns[1..], m, deliver);
      assert conns == [conns[0]] + conns[1..];
    }
  }

  /** Where `c` first occurs in `conns`. */
  function IndexOf(conns: seq<Socket>, c: Socket): (i: nat)
    requires c in conns
    ensures i < |conns| && conns[i] == c && c !in conns[..i]
  {
    if conns[0] == c then 0 else 1 + IndexOf(conns[1..], c)
  }

  /** `list.remove` guarded by `in`: drops the first occurrence of `c`, if any. */
  function RemoveFirst(conns: seq<Socket>, c: Socket): (r: seq<Socket>)
    ensures c !in conns ==> r == conns
    ensures c in conns ==> r == conns[..IndexOf(conns, c)] + conns[IndexOf(conns, c) + 1..]
  {
    if conns == [] then []
    else if conns[0] == c then conns[1..]
    else
      var r := [conns[0]] + RemoveFirst(conns[1..], c);
      if c in conns[1..] then
        CutAfterHead(conns, IndexOf(conns[1..], c));
        r
      else
        HeadTail(conns);
        r
  }

  /** Cutting out position `k` of the tail is cutting out position `k + 1` of the list. */
  lemma CutAfterHead(conns: seq<Socket>, k: nat)
    requires k + 1 < |conns|
    ensures [conns[0]] + (conns[1..][..k] + conns[1..][k + 1..]) == conns[..k + 1] + conns[k + 2..]
  {
    assert conns[..k + 1] == [conns[0]] + conns[1..][..k];
    assert conns[k + 2..] == conns[1..][k + 1..];
    Regroup([conns[0]], conns[1..][..k], conns[1..][k + 1..]);
  }

  /** `disconnect` applied to each member of `gone`, in order. */
  function RemoveEach(conns: seq<Socket>, gone: seq<Socket>): seq<Socket>
  {
    if gone == [] then conns else RemoveEach(RemoveFirst(conns, gone[0]), gone[1..])
  }

  /** `broadcast(m)`: nothing at all when there is no connection; otherwise one
      attempt per connection, then the failed ones are dropped. */
  function Publish(w: Wire, m: Message, deliver: (Socket, Message) -> bool): (r: Wire)
    ensures w.connections == [] ==> r == w
    ensures r.transmitted == w.transmitted + Attempts(w.connections, m, deliver)
  {
    if w.connections == [] then w
    else Wire(Survivors(w.connections, m, deliver), w.transmitted + Attempts(w.connections, m, deliver))
  }

  /** After a broadcast the connections are the old ones that received the message. */
  lemma PublishKeepsReceivers(w: Wire, m: Message, deliver: (Socket, Message) -> bool)
    ensures forall c :: c in Publish(w, m, deliver).connections <==> c in w.connections && deliver(c, m)
    ensures forall c :: c in w.connections && !deliver(c, m) ==> c !in Publish(w, m, deliver).connections
  {
    SurvivorsMembers(w.connections, m, deliver);
  }

  /** Broadcasting `msgs` one after the other. */
  function PublishAll(w: Wire, msgs: seq<Message>, deliver: (Socket, Message) -> bool): (r: Wire)
    ensures |r.transmitted| >= |w.transmitted| && r.transmitted[..|w.transmitted|] == w.transmitted
    ensures forall c :: c in r.connections ==> c in w.connections
    decreases |msgs|
  {
    if msgs == [] then w
    else
      PublishKeepsReceivers(w, msgs[0], deliver);
      PublishAll(Publish(w, msgs[0], deliver), msgs[1..], deliver)
  }

  /** A broadcast over no connection sends nothing, so `Publish` is the same
      single pass over the list either way. */
  lemma PublishOnePass(w: Wire, m: Message, deliver: (Socket, Message) -> bool)
    ensures Publish(w, m, deliver)
         == Wire(Survivors(w.connections, m, deliver), w.transmitted + Attempts(w.connections, m, deliver))
  {
    if w.connections == [] {
      assert w.transmitted + [] == w.transmitted;
    }
  }

  /** The send attempts and failures of a list are those of its parts. */
  lemma {:induction false} SendAppend(a: seq<Socket>, b: seq<Socket>, m: Message, deliver: (Socket, Message) -> bool)
    ensures Attempts(a + b, m, deliver) == Attempts(a, m, deliver) + Attempts(b, m, deliver)
    ensures Failed(a + b, m, deliver) == Failed(a, m, deliver) + Failed(b, m, deliver)
  {
    if a == [] {
      EmptyFront(a, b);
    } else {
      AppendTail(a, b);
      SendAppend(a[1..], b, m, deliver);
      Regroup([Delivery(a[0], m, deliver(a[0], m))], Attempts(a[1..], m, deliver), Attempts(b, m, deliver));
      Regroup(if deliver(a[0], m) then [] else [a[0]], Failed(a[1..], m, deliver), Failed(b, m, deliver));
    }
  }

  /** One step of the send loop, at position `i`. */
  lemma SendStep(conns: seq<Socket>, i: nat, m: Message, deliver: (Socket, Message) -> bool)
    requires i < |conns|
    ensures Failed(conns[..i + 1], m, deliver)
         == Failed(conns[..i], m, deliver) + (if deliver(conns[i], m) then [] else [conns[i]])
    ensures Attempts(conns[..i + 1], m, deliver)
         == Attempts(conns[..i], m, deliver) + [Delivery(conns[i], m, deliver(conns[i], m))]
  {
    assert conns[..i + 1] == conns[..i] + [conns[i]];
    SendAppend(conns[..i], [conns[i]], m, deliver);
  }

  /** One step of the disconnect loop, at position `j`. */
  lemma DisconnectStep(conns: seq<Socket>, gone: seq<Socket>, j: nat)
    requires j < |gone|
    ensures RemoveEach(conns, gone[j..]) == RemoveEach(RemoveFirst(conns, gone[j]), gone[j + 1..])
  {
    assert gone[j..][1..] == gone[j + 1..];
  }

  /** A connection that is not dropped is carried over, ahead of the rest. */
  lemma {:induction false} RemoveEachSkips(c: Socket, conns: seq<Socket>, gone: seq<Socket>)
    requires c !in gone
    ensures RemoveEach([c] + conns, gone) == [c] + RemoveEach(conns, gone)
    decreases |gone|
  {
    if gone != [] {
      assert ([c] + conns)[1..] == conns;
      assert RemoveFirst([c] + conns, gone[0]) == [c] + RemoveFirst(conns, gone[0]);
      RemoveEachSkips(c, RemoveFirst(conns, gone[0]), gone[1..]);
    }
  }

  /** Disconnecting the failed sockets one by one, as `broadcast` does, leaves
      exactly the sockets that received the message, in their original order —
      also when a socket is in the list twice, since both copies fail alike. */
  lemma {:induction false} PruneFailed(conns: seq<Socket>, m: Message, deliver: (Socket, Message) -> bool)
    ensures RemoveEach(conns, Failed(conns, m, deliver)) == Survivors(conns, m, deliver)
  {
    if conns != [] {
      var c := conns[0];
      assert conns == [c] + conns[1..];
      PruneFailed(conns[1..], m, deliver);
      var f := Failed(conns[1..], m, deliver);
      FailedMembers(conns[1..], m, deliver);
      if deliver(c, m) {
        assert c !in f;
        assert Failed(conns, m, deliver) == f;
        RemoveEachSkips(c, conns[1..], f);
        assert Survivors(conns, m, deliver) == [c] + Survivors(conns[1..], m, deliver);
      } else {
        assert Failed(conns, m, deliver) == [c] + f;
        assert ([c] + f)[1..] == f;
        assert RemoveFirst(conns, c) == conns[1..];
        assert Survivors(conns, m, deliver) == Survivors(conns[1..], m, deliver);
      }
    }
  }

  /** Broadcasting `a` and then `b` is broadcasting `a + b`. */
  lemma {:induction false} PublishAllAppend(w: Wire, a: seq<Message>, b: seq<Message>, deliver: (Socket, Message) -> bool)
    ensures PublishAll(w, a + b, deliver) == PublishAll(PublishAll(w, a, deliver), b, deliver)
    decreases |a|
  {
    if a == [] {
      assert a + b == b;
    } else {
      assert (a + b)[1..] == a[1..] + b;
      PublishAllAppend(Publish(w, a[0], deliver), a[1..], b, deliver);
    }
  }

  /** `WebSocketManager`. */
  class WebSocketManager {
    var connections: seq<Socket>
    var transmitted: seq<Delivery>

    function State(): Wire
      reads this
    {
      Wire(connections, transmitted)
    }

    constructor ()
      ensures connections == [] && transmitted == []
    {
      connections := [];
      transmitted := [];
    }

    /** `connect`: the accepted socket goes to the end of the list. */
    method Connect(s: Socket)
      modifies this
      ensures connections == old(connections) + [s]
      ensures transmitted == old(transmitted)
    {
      connections := connections + [s];
    }

    /** `disconnect`: removes the socket if present, otherwise does nothing. */
    method Disconnect(s: Socket)
      modifies this
      ensures connections == RemoveFirst(old(connections), s)
      ensures transmitted == old(transmitted)
    {
      if s in connections {
        var i := 0;
        while connections[i] != s
          invariant 0 <= i <= IndexOf(connections, s)
          invariant s !in connections[..i]
          decreases IndexOf(connections, s) - i
        {
          i := i + 1;
        }
        assert i == IndexOf(connections, s) by {
          var k := IndexOf(connections, s);
          assert forall j :: 0 <= j < k ==> connections[..k][j] == connections[j];
        }
        connections := connections[..i] + connections[i + 1..];
      }
    }

    /** `broadcast(message)`. */
    method Broadcast(m: Message, deliver: (Socket, Message) -> bool)
      modifies this
      ensures connections == Survivors(old(connections), m, deliver)
      ensures transmitted == old(transmitted) + Attempts(old(connections), m, deliver)
    {
      if connections == [] {
        return;
      }
      var conns := connections;
      var disconnected := SendAll(m, deliver);
      DisconnectAll(disconnected);
      PruneFailed(conns, m, deliver);
    }

    /** The send loop of `broadcast`: one attempt per connection in list order,
        collecting the sockets whose send failed. */
    method SendAll(m: Message, deliver: (Socket, Message) -> bool) returns (disconnected: seq<Socket>)
      modifies this
      ensures connections == old(connections)
      ensures disconnected == Failed(old(connections), m, deliver)
      ensures transmitted == old(transmitted) + Attempts(old(connections), m, deliver)
    {
      var conns := connections;
      disconnected := [];
      var i := 0;
      while i < |conns|
        invariant 0 <= i <= |conns|
        invariant connections == conns
        invariant disconnected == Failed(conns[..i], m, deliver)
        invariant transmitted == old(transmitted) + Attempts(conns[..i], m, deliver)
      {
        var c := conns[i];
        SendStep(conns, i, m, deliver);
        var ok := deliver(c, m);
        Regroup(old(transmitted), Attempts(conns[..i], m, deliver), [Delivery(c, m, ok)]);
        transmitted := transmitted + [Delivery(c, m, ok)];
        if !ok {
          disconnected := disconnected + [c];
        }
        i := i + 1;
      }
      assert conns[..i] == conns;
    }

    /** The disconnect loop of `broadcast`: `disconnect` each of `gone` in turn. */
    method DisconnectAll(gone: seq<Socket>)
      modifies this
      ensures connections == RemoveEach(old(connections), gone)
      ensures transmitted == old(transmitted)
    {
      var j := 0;
      while j < |gone|
        invariant 0 <= j <= |gone|
        invariant transmitted == old(transmitted)
        invariant RemoveEach(connections, gone[j..]) == RemoveEach(old(connections), gone)
      {
        DisconnectStep(connections, gone, j);
        Disconnect(gone[j]);
        j := j + 1;
      }
      assert gone[j..] == [];
    }
  }
}
