/** The UDP messaging service: the peer it sends to, the sending guard, and
    the choice of the device's own Wi-Fi address.

    Sockets are not modelled. A connection is a record of the endpoint it was
    opened to and a serial number that gives each newly created connection
    its own identity; "sending" appends a datagram to a log of everything
    handed to a connection. */
module Udp {
  import opened Wrappers

  newtype UInt8 = x: int | 0 <= x < 0x100
  newtype UInt16 = x: int | 0 <= x < 0x1_0000

  /** The IPv4 address family of the BSD socket interface. */
  const AF_INET: UInt8 := 2
  /** The name of the Wi-Fi interface. */
  const WifiInterfaceName: string := "en0"

  /** One outbound connection: the peer endpoint and its serial number. */
  datatype Link = Link(host: string, port: UInt16, serial: nat)

  /** A message handed to a connection for transmission. */
  datatype Datagram = Datagram(link: Link, payload: string)

  /** The service's peer state: the current connection, the configured peer,
      how many connections have been created, and every datagram sent so far. */
  datatype Peer = Peer(connection: Option<Link>, peerHost: Option<string>,
                       peerPort: Option<UInt16>, created: nat, sent: seq<Datagram>)

  /** A connection exists exactly when a peer is configured, and it is the
      latest one created, to that peer; every datagram went to a connection
      that was created earlier. */
  predicate Consistent(p: Peer) {
    && (p.connection.None? <==> p.peerHost.None?)
    && (p.connection.None? <==> p.peerPort.None?)
    && (p.connection.Some? ==>
          p.created > 0 && p.connection.value == Link(p.peerHost.value, p.peerPort.value, p.created - 1))
    && forall i :: 0 <= i < |p.sent| ==> p.sent[i].link.serial < p.created
  }

  /** State before any peer is configured. */
  const Unconfigured: Peer := Peer(None, None, None, 0, [])

  /** The effect of `configurePeer(ip, port)`. */
  function Configured(p: Peer, ip: string, port: UInt16): (r: Peer)
    requires Consistent(p)
    ensures Consistent(r)
    ensures r.peerHost == Some(ip) && r.peerPort == Some(port)
    ensures r.connection.Some? && r.connection.value.host == ip && r.connection.value.port == port
    ensures r.connection != p.connection
    ensures forall d :: d in p.sent ==> d.link != r.connection.value
    ensures r.sent == p.sent
  {
    Peer(Some(Link(ip, port, p.created)), Some(ip), Some(port), p.created + 1, p.sent)
  }

  /** The effect of `send(message)`. */
  function Sent(p: Peer, message: string): (r: Peer)
    requires Consistent(p)
    ensures Consistent(r)
    ensures r.connection == p.connection && r.peerHost == p.peerHost
    ensures r.peerPort == p.peerPort && r.created == p.created
    ensures p.connection.None? ==> r.sent == p.sent
    ensures p.connection.Some? ==> r.sent == p.sent + [Datagram(p.connection.value, message)]
  {
    match p.connection
    case None => p
    case Some(link) => p.(sent := p.sent + [Datagram(link, message)])
  }

  /** The state after sending each of `messages` in turn. */
  function SendAll(p: Peer, messages: seq<string>): (r: Peer)
    requires Consistent(p)
    ensures Consistent(r)
    ensures r.connection == p.connection && r.created == p.created
    decreases |messages|
  {
    if messages == [] then p else SendAll(Sent(p, messages[0]), messages[1..])
  }

  /** With no connection configured nothing is ever transmitted. */
  lemma {:induction false} SendAllUnconfigured(p: Peer, messages: seq<string>)
    requires Consistent(p) && p.connection.None?
    ensures SendAll(p, messages) == p
    decreases |messages|
  {
    if messages != [] {
      SendAllUnconfigured(Sent(p, messages[0]), messages[1..]);
    }
  }

  /** With a connection configured, each message is handed to it, exactly
      once and in order, and nothing else is sent. */
  lemma {:induction false} SendAllConfigured(p: Peer, messages: seq<string>)
    requires Consistent(p) && p.connection.Some?
    ensures |SendAll(p, messages).sent| == |p.sent| + |messages|
    ensures SendAll(p, messages).sent[..|p.sent|] == p.sent
    ensures forall i :: 0 <= i < |messages| ==>
      SendAll(p, messages).sent[|p.sent| + i] == Datagram(p.connection.value, messages[i])
    decreases |messages|
  {
    if messages != [] {
      var q := Sent(p, messages[0]);
      SendAllConfigured(q, messages[1..]);
      var r := SendAll(p, messages);
      assert r == SendAll(q, messages[1..]);
      forall i | 0 <= i < |messages|
        ensures r.sent[|p.sent| + i] == Datagram(p.connection.value, messages[i])
      {
        if i > 0 {
          assert r.sent[|q.sent| + (i - 1)] == Datagram(q.connection.value, messages[1..][i - 1]);
        } else {
          assert r.sent[..|q.sent|] == q.sent;
          assert r.sent[|p.sent|] == r.sent[..|q.sent|][|p.sent|];
        }
      }
      assert r.sent[..|p.sent|] == r.sent[..|q.sent|][..|p.sent|];
    }
  }

  /** Configuring twice: the second peer wins. The second connection is not
      the first one and leads to the second endpoint; every later message goes
      to it, and the log keeps what was sent before. */
  lemma {:induction false} LastConfigurationWins(p: Peer, ip1: string, port1: UInt16,
                                                 ip2: string, port2: UInt16, messages: seq<string>)
    requires Consistent(p)
    ensures Configured(Configured(p, ip1, port1), ip2, port2).connection.value
            != Configured(p, ip1, port1).connection.value
    ensures Configured(Configured(p, ip1, port1), ip2, port2).connection.value.host == ip2
    ensures Configured(Configured(p, ip1, port1), ip2, port2).connection.value.port == port2
    ensures |SendAll(Configured(Configured(p, ip1, port1), ip2, port2), messages).sent|
            == |p.sent| + |messages|
    ensures SendAll(Configured(Configured(p, ip1, port1), ip2, port2), messages).sent[..|p.sent|]
            == p.sent
    ensures forall i :: 0 <= i < |messages| ==>
      SendAll(Configured(Configured(p, ip1, port1), ip2, port2), messages).sent[|p.sent| + i]
      == Datagram(Configured(Configured(p, ip1, port1), ip2, port2).connection.value, messages[i])
  {
    SendAllConfigured(Configured(Configured(p, ip1, port1), ip2, port2), messages);
  }

  /** One network interface as the interface query lists it: its address
      family, its name, and its address in numeric form (empty when the name
      lookup writes nothing). */
  datatype Interface = Interface(family: UInt8, name: string, numericHost: string)

  /** The interface whose address is reported: IPv4 on Wi-Fi. */
  predicate IsWifiIPv4(iface: Interface) {
    iface.family == AF_INET && iface.name == WifiInterfaceName
  }

  /** The address of the first matching interface in list order, if any. */
  function FirstWifiAddress(ifaces: seq<Interface>): (r: Option<string>)
    ensures r.None? <==> forall i :: 0 <= i < |ifaces| ==> !IsWifiIPv4(ifaces[i])
    ensures r.Some? ==>
      exists k :: 0 <= k < |ifaces| && IsWifiIPv4(ifaces[k]) && r.value == ifaces[k].numericHost &&
                  forall j :: 0 <= j < k ==> !IsWifiIPv4(ifaces[j])
  {
    if |ifaces| == 0 then None
    else if IsWifiIPv4(ifaces[0]) then Some(ifaces[0].numericHost)
    else
      var r := FirstWifiAddress(ifaces[1..]);
      assert forall i :: 1 <= i < |ifaces| ==> ifaces[i] == ifaces[1..][i - 1];
      r
  }

  /** The converse: the address of the first matching interface is the one returned. */
  lemma {:induction false} FirstWifiAddressAt(ifaces: seq<Interface>, k: nat)
    requires k < |ifaces| && IsWifiIPv4(ifaces[k])
    requires forall j :: 0 <= j < k ==> !IsWifiIPv4(ifaces[j])
    ensures FirstWifiAddress(ifaces) == Some(ifaces[k].numericHost)
  {
    if k > 0 {
      FirstWifiAddressAt(ifaces[1..], k - 1);
    }
  }

  /** The messaging service. */
  class UdpCommunication {
    var connection: Option<Link>
    const receivePort: UInt16
    var peerHost: Option<string>
    var peerPort: Option<UInt16>
    /** Number of connections created so far. */
    var created: nat
    /** Every datagram handed to a connection, oldest first. */
    var sent: seq<Datagram>

    function State(): Peer
      reads this
    {
      Peer(connection, peerHost, peerPort, created, sent)
    }

    predicate Valid()
      reads this
    {
      Consistent(State())
    }

    /** A service listening on `receivePort`, with no peer configured. */
    constructor (receivePort: UInt16)
      ensures Valid() && State() == Unconfigured
      ensures this.receivePort == receivePort
    {
      this.receivePort := receivePort;
      connection, peerHost, peerPort := None, None, None;
      created, sent := 0, [];
    }

    /** Records the peer and replaces the connection by a new one to it.
        Its effect is the function `Configured`, over which the lemmas about
        configuration are stated. */
    method ConfigurePeer(ip: string, port: UInt16)
      requires Valid()
      modifies this
      ensures Valid() && State() == Configured(old(State()), ip, port)
      ensures peerHost == Some(ip) && peerPort == Some(port)
      ensures connection == Some(Link(ip, port, old(created)))
      ensures sent == old(sent)
    {
      peerHost := Some(ip);
      peerPort := Some(port);
      connection := Some(Link(ip, port, created));
      created := created + 1;
    }

    /** Hands `message` to the connection, or does nothing without one.
        Its effect is the function `Sent`, over which the lemmas about
        sequences of sends are stated. */
    method Send(message: string)
      requires Valid()
      modifies this`sent
      ensures Valid() && State() == Sent(old(State()), message)
      ensures old(connection).None? ==> sent == old(sent)
      ensures old(connection).Some? ==> sent == old(sent) + [Datagram(connection.value, message)]
    {
      if connection.None? {
        return;
      }
      var link := connection.value;
      sent := sent + [Datagram(link, message)];
    }

    /** The device's Wi-Fi IPv4 address. `query` is the result of asking the
        system for its interfaces: `None` when the query fails. */
    static method LocalIPAddress(query: Option<seq<Interface>>) returns (address: Option<string>)
      ensures query.None? ==> address.None?
      ensures query.Some? ==> address == FirstWifiAddress(query.value)
    {
      address := None;
      if query.Some? {
        var ifaces := query.value;
        var k := 0;
        while k < |ifaces|
          invariant 0 <= k <= |ifaces|
          invariant address.None?
          invariant FirstWifiAddress(ifaces) == FirstWifiAddress(ifaces[k..])
        {
          var iface := ifaces[k];
          if iface.family == AF_INET && iface.name == WifiInterfaceName {
            address := Some(iface.numericHost);
            break;
          }
          assert ifaces[k..][1..] == ifaces[k + 1..];
          k := k + 1;
        }
      }
    }
  }
}
