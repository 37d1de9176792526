/** raw_udp's peers and addresses as an object: the handlers that run on its
    strand, proved to do what UdpTables says. */
module RawUdpSender {
  import opened Bytes
  import opened RelayData
  import opened Endpoints
  import A = Addresses
  import U = UdpTables

  /** Where a datagram is sent: to a client, or to the address in the frame. */
  datatype Target = ToClient(client: U.Client) | ToAddress(addr: A.SockAddr)

  const NOWHERE := A.Inet([0, 0, 0, 0], [0, 0])   // a default udp::endpoint

  class RawUdp {
    const role: Role
    var stopped: bool
    var inbox: seq<U.Message>
    var queue: seq<Frame>
    var peers: map<nat, U.Client>
    var local: A.SockAddr            // what the socket is bound to
    var remote: A.SockAddr
    ghost var sent: seq<U.Datagram>

    ghost function View(): U.Sender
      reads this
    {
      U.Sender(stopped, inbox, queue, peers, sent)
    }

    constructor (r: Role)
      ensures View() == U.NEW_SENDER && role == r && local == NOWHERE && remote == NOWHERE
    {
      role, stopped, inbox, queue, peers, sent := r, false, [], [], map[], [];
      local, remote := NOWHERE, NOWHERE;
    }

    /** run_in_strand, for add_peer, del_peer and send_data. */
    method Post(m: U.Message)
      modifies `inbox
      ensures inbox == old(inbox) + [m]
    {
      inbox := inbox + [m];
    }

    method AddPeer(session: nat, peer: U.Client)
      modifies `peers
      ensures peers == U.Handle(old(peers), U.AddPeer(session, peer))
      ensures forall s :: s != session ==> (s in peers <==> s in old(peers)) && (s in peers ==> peers[s] == old(peers)[s])
    {
      peers := peers[session := peer];
    }

    /** Session 0 stands for all. */
    method DelPeer(session: nat)
      modifies `peers
      ensures peers == U.Handle(old(peers), U.DelPeer(session))
      ensures session !in peers
    {
      if session == 0 {
        peers := map[];
      } else {
        peers := peers - {session};
      }
    }

    /** The strand runs the next handler. */
    method Receive()
      requires inbox != []
      modifies this
      ensures View() == U.SenderReceive(old(View())) && local == old(local) && remote == old(remote)
    {
      var m := inbox[0];
      inbox := inbox[1..];
      match m
      case AddPeer(s, c) => AddPeer(s, c);
      case DelPeer(s) => DelPeer(s);
      case Out(f) =>
        if !stopped {
          queue := queue + [f];
        }
    }

    /** get_send_data_addr. At a remote end the datagram goes to the address in
        the frame. In transparent mode that is where it came from: the socket is
        bound to it, and the session's client is the target; an unknown session
        gets a default endpoint, which stays in the table. */
    method GetSendDataAddr(f: Frame) returns (dst: Target)
      requires |f.data| >= ADDRESS_SIZE
      modifies `local, `remote, `peers
      ensures role == RemoteServer ==>
                && dst == ToAddress(A.DecodeAddr(f.data)) && remote == A.DecodeAddr(f.data)
                && local == old(local) && peers == old(peers)
      ensures role == LocalTransparent ==>
                && dst == ToClient(U.PeerOf(old(peers), f.session)) && local == A.DecodeAddr(f.data)
                && peers == old(peers)[f.session := dst.client] && remote == old(remote)
      ensures role == LocalServer ==>
                && dst == ToAddress(remote) && remote == old(remote)
                && local == old(local) && peers == old(peers)
    {
      if role == RemoteServer {
        remote := A.DecodeAddr(f.data);
        return ToAddress(remote);
      }
      if role == LocalTransparent {
        var from := A.DecodeAddr(f.data);
        if local != from {
          local := from;
        }
        if f.session !in peers {
          peers := peers[f.session := U.Anyone];
        }
        return ToClient(peers[f.session]);
      }
      return ToAddress(remote);
    }

    /** internal_send_data for the front of the queue, in transparent mode. */
    method SendNext()
      requires role == LocalTransparent && queue != [] && |queue[0].data| >= ADDRESS_SIZE
      modifies this
      ensures View() == U.Transmit(old(View())) && local == A.DecodeAddr(old(queue)[0].data)
    {
      var dst := GetSendDataAddr(queue[0]);
      sent := sent + [U.Datagram(queue[0].session, dst.client, UdpPayload(queue[0]))];
      queue := queue[1..];
    }
  }
}
