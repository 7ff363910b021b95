/**
 * Multi-hop connections (pkg/ssh/jump.go): each hop is dialled through the client of the hop
 * before it, a failure closes everything opened so far, and teardown goes from the target back
 * to the first hop. Dialling and handshaking one hop, closing a client and opening a session
 * are not modelled: their outcomes are passed in as functions.
 */
module SshJump {
  import opened Wrappers
  import ConfigTypes

  /** An SSH client handle. */
  datatype Client = Client(id: nat)

  datatype JumpError =
    | HopFailed(hop: nat, hostName: string, cause: string)   // "hop <n> (<name>): <cause>"
    | NotConnected                                           // "not connected"
    | SessionFailed(cause: string)

  /** What opening the hops in order gives: all clients, or the clients before the failing hop. */
  datatype ChainOutcome =
    | Opened(clients: seq<Client>)
    | FailedAt(made: seq<Client>, hop: nat, cause: string)

  /**
   * The hops from hop `i` on, with the clients `made` of hops 0..i-1 already open and the next
   * hop dialled through `prev` (None: directly): each success appends its client and dials the
   * next hop through it; the first failure stops the chain.
   */
  function ChainFrom(hosts: seq<ConfigTypes.Host>, i: nat, made: seq<Client>,
                     connectHop: (ConfigTypes.Host, Option<Client>) -> Result<Client, string>,
                     prev: Option<Client>): (r: ChainOutcome)
    requires i <= |hosts|
    ensures r.Opened? ==> |r.clients| == |made| + |hosts| - i
    ensures r.FailedAt? ==> i <= r.hop < |hosts| && |r.made| == |made| + r.hop - i
    decreases |hosts| - i
  {
    if i == |hosts| then Opened(made)
    else match connectHop(hosts[i], prev)
      case Err(e) => FailedAt(made, i, e)
      case Ok(c) => ChainFrom(hosts, i + 1, made + [c], connectHop, Some(c))
  }

  /** All the hops, the first dialled through `prev`. */
  function OpenChain(hosts: seq<ConfigTypes.Host>,
                     connectHop: (ConfigTypes.Host, Option<Client>) -> Result<Client, string>,
                     prev: Option<Client>): ChainOutcome
  {
    ChainFrom(hosts, 0, [], connectHop, prev)
  }

  /** The client hop `j` is dialled through: `prev` for the first hop, else the one opened before it. */
  function Via(prev: Option<Client>, made: seq<Client>, j: nat): Option<Client>
    requires j <= |made|
  {
    if j == 0 then prev else Some(made[j - 1])
  }

  /** Each of `made` is what dialling its host through the previous client gave. */
  predicate HopsOpened(hosts: seq<ConfigTypes.Host>,
                       connectHop: (ConfigTypes.Host, Option<Client>) -> Result<Client, string>,
                       prev: Option<Client>, made: seq<Client>)
  {
    |made| <= |hosts| &&
    forall j :: 0 <= j < |made| ==> connectHop(hosts[j], Via(prev, made, j)) == Ok(made[j])
  }

  /** `ChainFrom` keeps what `OpenChainHops` states, from any point reached hop by hop. */
  lemma {:induction false} ChainFromHops(hosts: seq<ConfigTypes.Host>, i: nat, made: seq<Client>,
                                         connectHop: (ConfigTypes.Host, Option<Client>) -> Result<Client, string>,
                                         prev0: Option<Client>, prev: Option<Client>)
    requires i <= |hosts| && |made| == i && HopsOpened(hosts, connectHop, prev0, made)
    requires prev == Via(prev0, made, i)
    ensures ChainFrom(hosts, i, made, connectHop, prev).Opened? ==>
      HopsOpened(hosts, connectHop, prev0, ChainFrom(hosts, i, made, connectHop, prev).clients)
    ensures ChainFrom(hosts, i, made, connectHop, prev).FailedAt? ==>
      var o := ChainFrom(hosts, i, made, connectHop, prev);
      HopsOpened(hosts, connectHop, prev0, o.made) &&
      connectHop(hosts[o.hop], Via(prev0, o.made, o.hop)) == Err(o.cause)
    decreases |hosts| - i
  {
    if i < |hosts| && connectHop(hosts[i], prev).Ok? {
      var c := connectHop(hosts[i], prev).value;
      HopsOpenedSnoc(hosts, connectHop, prev0, made, c);
      ChainFromHops(hosts, i + 1, made + [c], connectHop, prev0, Some(c));
    }
  }

  /** One more hop dialled through the last client keeps `HopsOpened`. */
  lemma HopsOpenedSnoc(hosts: seq<ConfigTypes.Host>,
                       connectHop: (ConfigTypes.Host, Option<Client>) -> Result<Client, string>,
                       prev0: Option<Client>, made: seq<Client>, c: Client)
    requires HopsOpened(hosts, connectHop, prev0, made) && |made| < |hosts|
    requires connectHop(hosts[|made|], Via(prev0, made, |made|)) == Ok(c)
    ensures HopsOpened(hosts, connectHop, prev0, made + [c])
    ensures Via(prev0, made + [c], |made| + 1) == Some(c)
  {
    var more := made + [c];
    forall j | 0 <= j < |more|
      ensures connectHop(hosts[j], Via(prev0, more, j)) == Ok(more[j])
    {
      if j < |made| {
        assert Via(prev0, more, j) == Via(prev0, made, j);
      }
    }
  }

  /**
   * What the chain means hop by hop: on success one client per host, each dialled through the
   * one before; on failure at hop k the clients of hops 0..k-1 and hop k's error.
   */
  lemma OpenChainHops(hosts: seq<ConfigTypes.Host>,
                      connectHop: (ConfigTypes.Host, Option<Client>) -> Result<Client, string>,
                      prev: Option<Client>)
    ensures OpenChain(hosts, connectHop, prev).Opened? ==>
      var cs := OpenChain(hosts, connectHop, prev).clients;
      |cs| == |hosts| && HopsOpened(hosts, connectHop, prev, cs)
    ensures OpenChain(hosts, connectHop, prev).FailedAt? ==>
      var o := OpenChain(hosts, connectHop, prev);
      o.hop < |hosts| && |o.made| == o.hop && HopsOpened(hosts, connectHop, prev, o.made) &&
      connectHop(hosts[o.hop], Via(prev, o.made, o.hop)) == Err(o.cause)
  {
    ChainFromHops(hosts, 0, [], connectHop, prev, prev);
  }

  /** Closing `cs` in order, the error of the first client whose close fails. */
  function FirstCloseError(cs: seq<Client>, closeClient: Client -> Option<string>): (r: Option<string>)
    ensures r.None? <==> forall j :: 0 <= j < |cs| ==> closeClient(cs[j]).None?
    ensures r.Some? ==> exists j :: 0 <= j < |cs| && closeClient(cs[j]) == r &&
                                   (forall i :: 0 <= i < j ==> closeClient(cs[i]).None?)
  {
    if |cs| == 0 then None
    else if closeClient(cs[0]).Some? then closeClient(cs[0])
    else
      var r := FirstCloseError(cs[1..], closeClient);
      assert forall j :: 1 <= j < |cs| ==> cs[j] == cs[1..][j - 1];
      if r.Some? then
        var j :| 0 <= j < |cs[1..]| && closeClient(cs[1..][j]) == r &&
                 (forall i :: 0 <= i < j ==> closeClient(cs[1..][i]).None?);
        assert closeClient(cs[j + 1]) == r;
        r
      else r
  }

  function Reversed(s: seq<Client>): (r: seq<Client>)
    ensures |r| == |s|
    ensures forall k :: 0 <= k < |s| ==> r[k] == s[|s| - 1 - k]
  {
    if |s| == 0 then [] else Reversed(s[1..]) + [s[0]]
  }

  class JumpChain {
    var hosts: seq<ConfigTypes.Host>
    var clients: seq<Client>
    /** Every client closed so far, in closing order. */
    ghost var closeTrace: seq<Client>

    /** `NewJumpChain`: the host's jump hosts only. */
    constructor FromJump(host: ConfigTypes.Host)
      ensures hosts == host.jump && clients == [] && closeTrace == []
    {
      hosts := host.jump;
      clients := [];
      closeTrace := [];
    }

    /** `NewJumpChainWithTarget`: the jump hosts, then the host itself as the last hop. */
    constructor WithTarget(host: ConfigTypes.Host)
      ensures hosts == host.jump + [host] && |hosts| == |host.jump| + 1
      ensures clients == [] && closeTrace == []
    {
      hosts := host.jump + [host];
      clients := [];
      closeTrace := [];
    }

    /**
     * `closeAll`: close from the last client to the first without stopping at errors, forget
     * them all, and report the error seen last, which is that of the lowest-index failure.
     */
    method CloseAll(closeClient: Client -> Option<string>) returns (lastErr: Option<string>)
      modifies this`clients, this`closeTrace
      ensures clients == []
      ensures closeTrace == old(closeTrace) + Reversed(old(clients))
      ensures lastErr == FirstCloseError(old(clients), closeClient)
    {
      var cs := clients;
      lastErr := None;
      var i := |cs|;
      while i > 0
        invariant 0 <= i <= |cs|
        invariant closeTrace == old(closeTrace) + Reversed(cs[i..])
        invariant lastErr == FirstCloseError(cs[i..], closeClient)
      {
        i := i - 1;
        assert cs[i..][1..] == cs[i + 1..];
        var err := closeClient(cs[i]);
        closeTrace := closeTrace + [cs[i]];
        if err.Some? {
          lastErr := err;
        }
      }
      assert cs[0..] == cs;
      clients := [];
    }

    /** `Close`. */
    method Close(closeClient: Client -> Option<string>) returns (err: Option<string>)
      modifies this`clients, this`closeTrace
      ensures clients == []
      ensures closeTrace == old(closeTrace) + Reversed(old(clients))
      ensures err == FirstCloseError(old(clients), closeClient)
    {
      err := CloseAll(closeClient);
    }

    /**
     * `Connect`: open the hops in order, the first directly and each later one through the
     * client before it, appending each client. On a failure everything is closed (also
     * clients a previous `Connect` left) and the error names the 1-based hop and its host. On
     * success the last client is returned; the source indexes it without a check, so an
     * empty chain is excluded.
     */
    method Connect(connectHop: (ConfigTypes.Host, Option<Client>) -> Result<Client, string>,
                   closeClient: Client -> Option<string>) returns (r: Result<Client, JumpError>)
      requires |hosts| > 0 || |clients| > 0
      modifies this`clients, this`closeTrace
      ensures OpenChain(hosts, connectHop, None).Opened? ==>
        && clients == old(clients) + OpenChain(hosts, connectHop, None).clients
        && r == Ok(clients[|clients| - 1])
        && closeTrace == old(closeTrace)
      ensures OpenChain(hosts, connectHop, None).FailedAt? ==>
        var o := OpenChain(hosts, connectHop, None);
        && o.hop < |hosts|
        && r == Err(HopFailed(o.hop + 1, hosts[o.hop].name, o.cause))
        && clients == []
        && closeTrace == old(closeTrace) + Reversed(old(clients) + o.made)
    {
      ghost var start := clients;
      ghost var made: seq<Client> := [];
      var prevClient: Option<Client> := None;
      var i := 0;
      while i < |hosts|
        invariant 0 <= i <= |hosts| && |made| == i
        invariant clients == start + made && closeTrace == old(closeTrace)
        invariant prevClient == Via(None, made, i)
        invariant OpenChain(hosts, connectHop, None) == ChainFrom(hosts, i, made, connectHop, prevClient)
      {
        var host := hosts[i];
        var hop := connectHop(host, prevClient);
        if hop.Err? {
          var _ := CloseAll(closeClient);
          return Err(HopFailed(i + 1, host.name, hop.error));
        }
        var client := hop.value;
        clients := clients + [client];
        made := made + [client];
        prevClient := Some(client);
        i := i + 1;
      }
      r := Ok(clients[|clients| - 1]);
    }

    /** `GetSSHClient`: the client of the last hop, or None when not connected. */
    function GetSshClient(): (r: Option<Client>)
      reads this
      ensures r.None? <==> |clients| == 0
      ensures r.Some? ==> r.value == clients[|clients| - 1]
    {
      if |clients| == 0 then None else Some(clients[|clients| - 1])
    }

    /** `IsConnected`. */
    function IsConnected(): (b: bool)
      reads this
      ensures b <==> GetSshClient().Some?
    {
      |clients| > 0
    }

    /** `Session`: a new session on the target's client; `newSession` is what opening one gives. */
    function Session(newSession: Client -> Result<nat, string>): (r: Result<nat, JumpError>)
      reads this
      ensures !IsConnected() ==> r == Err(NotConnected)
      ensures IsConnected() ==> r.Ok? == newSession(clients[|clients| - 1]).Ok?
    {
      match GetSshClient()
      case None => Err(NotConnected)
      case Some(c) =>
        match newSession(c)
        case Ok(s) => Ok(s)
        case Err(e) => Err(SessionFailed(e))
    }
  }

  /** Connecting a two-hop chain where the second hop fails closes the first client and reports hop 2. */
  lemma SecondHopFailure(jump: ConfigTypes.Host, target: ConfigTypes.Host,
                         connectHop: (ConfigTypes.Host, Option<Client>) -> Result<Client, string>, c: Client)
    requires connectHop(jump, None) == Ok(c)
    requires connectHop(target, Some(c)).Err?
    ensures OpenChain([jump, target], connectHop, None) ==
      FailedAt([c], 1, connectHop(target, Some(c)).error)
  {
    var hs := [jump, target];
    assert hs[0] == jump && hs[1] == target;
    assert [] + [c] == [c];
    assert ChainFrom(hs, 0, [], connectHop, None) == ChainFrom(hs, 1, [c], connectHop, Some(c));
  }
}
