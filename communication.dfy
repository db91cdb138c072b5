// FahCommunication: the XML-RPC channel to the System Access Point. The
// network is not modelled; what the model keeps is the log of calls the
// client issues, in order, which is the only local effect of an RPC.

module Communication {
  import opened CryptUtil

  /** An XML-RPC parameter (rocks.xmpp Value.of(..)). */
  datatype Value = StringValue(s: string) | BytesValue(bytes: seq<byte>) | IntValue(i: int)

  /** One remote call: method name and parameters. */
  datatype RpcRequest = RpcRequest(methodName: string, parameters: seq<Value>)

  class FahCommunication {
    /** Every call issued so far, oldest first. */
    var sent: seq<RpcRequest>

    constructor ()
      ensures sent == []
    {
      sent := [];
    }

    /** rpcCall(methodName, parameters...): the request is sent; the reply is not modelled here. */
    method RpcCall(methodName: string, parameters: seq<Value>)
      modifies this`sent
      ensures sent == old(sent) + [RpcRequest(methodName, parameters)]
    {
      sent := sent + [RpcRequest(methodName, parameters)];
    }
  }
}
