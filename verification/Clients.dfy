/** The life of one client as its owner sees it: made, closed at most once (queue.go, newClient;
    client.go, close). What its supervisor does meanwhile is the subject of ClientMachine. */
module Clients {
  import opened Basics
  import opened Configuration

  datatype CloseError = ClosingChannel(queue: string) | ClosingConnection(queue: string)

  class Client {
    const name: string
    const retry: Option<RetryConfig>
    /** Whether closing its channel or its connection will be refused. */
    const channelFault: bool
    const connectionFault: bool
    var hasChannel: bool
    var hasConnection: bool
    var isReady: bool
    var done: bool
    var onceUsed: bool
    /** How often the body guarded by closeOnce has run. */
    ghost var bodies: nat

    ghost predicate Valid()
      reads this
    {
      bodies == (if onceUsed then 1 else 0) && (done <==> onceUsed)
    }

    constructor (name: string, retry: Option<RetryConfig>, channelFault: bool, connectionFault: bool)
      ensures Valid() && !onceUsed && !isReady && !hasChannel && !hasConnection
      ensures this.name == name && this.retry == retry
    {
      this.name, this.retry := name, retry;
      this.channelFault, this.connectionFault := channelFault, connectionFault;
      hasChannel, hasConnection, isReady, done, onceUsed, bodies := false, false, false, false, false, 0;
    }

    /** What the next call to Close reports: the channel's error before the connection's, and
        nothing once the body has run. */
    function Pending(): Option<CloseError>
      reads this
    {
      if onceUsed then None
      else if hasChannel && channelFault then Some(ClosingChannel(name))
      else if hasConnection && connectionFault then Some(ClosingConnection(name))
      else None
    }

    /** `close`: only the first call runs the body and can fail; every call leaves done closed. */
    method Close() returns (err: Option<CloseError>)
      requires Valid()
      modifies this
      ensures Valid() && done && Pending() == None
      ensures err == old(Pending())
      ensures err == Some(ClosingChannel(name)) <==> !old(onceUsed) && old(hasChannel) && channelFault
      ensures err == Some(ClosingConnection(name)) <==>
                !old(onceUsed) && old(hasConnection) && connectionFault && !(old(hasChannel) && channelFault)
      ensures err.Some? ==> err.value == ClosingChannel(name) || err.value == ClosingConnection(name)
      ensures bodies == (if old(onceUsed) then old(bodies) else old(bodies) + 1)
      ensures isReady == (old(onceUsed) && old(isReady))
      ensures hasChannel == old(hasChannel) && hasConnection == old(hasConnection)
    {
      err := None;
      if !onceUsed {
        onceUsed := true;
        bodies := bodies + 1;
        isReady := false;
        if !done { done := true; }
        if hasChannel && channelFault && err.None? { err := Some(ClosingChannel(name)); }
        if hasConnection && connectionFault && err.None? { err := Some(ClosingConnection(name)); }
      }
    }
  }
}
