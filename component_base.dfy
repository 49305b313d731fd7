/** The VST 3 component base: a single-peer connection point in the sense of
    the VST 3 SDK's `IConnectionPoint`, plus the plugin-base life cycle
    (`Initialize`, `Terminate`) and message notification.

    Peers, contexts and messages are compared by reference only, so they are
    plain object references here. */
module Vst3Plugin {

  /** `tresult` codes (`kResultOk`, `kResultFalse`, `kInvalidArgument` of the
      VST 3 SDK), with the COM-compatible values it uses on Windows. */
  const S_OK: int := 0
  const S_False: int := 1
  /** 0x80070057, read as a signed 32-bit value. */
  const E_InvalidArg: int := -0x7FF8_FFA9

  /** The service container: the host context is kept as `Unknown`. */
  class ServiceContainer {
    var Unknown: object?

    constructor ()
      ensures Unknown == null
    {
      Unknown := null;
    }
  }

  class ComponentBase {
    /** The connected peer, or null. */
    var peer: object?
    var serviceContainer: ServiceContainer
    /** The handlers subscribed to the `MessageReceived` event, in order. */
    var messageReceived: seq<object>

    constructor ()
      ensures peer == null && messageReceived == []
      ensures fresh(serviceContainer) && serviceContainer.Unknown == null
    {
      peer := null;
      messageReceived := [];
      serviceContainer := new ServiceContainer();
    }

    /** Stores the host context in the service container; always succeeds. */
    method Initialize(context: object?) returns (r: int)
      modifies serviceContainer
      ensures serviceContainer.Unknown == context
      ensures r == S_OK
    {
      serviceContainer.Unknown := context;
      r := S_OK;
    }

    /** Drops any peer; always succeeds. */
    method Terminate() returns (r: int)
      modifies this`peer
      ensures peer == null
      ensures r == S_OK
    {
      peer := null;
      r := S_OK;
    }

    /** Connects to `other`: an invalid argument for null, refused while a
        peer is connected (the existing peer stays), accepted otherwise. */
    method Connect(other: object?) returns (r: int)
      modifies this`peer
      ensures other == null ==> r == E_InvalidArg && peer == old(peer)
      ensures other != null && old(peer) != null ==> r == S_False && peer == old(peer)
      ensures other != null && old(peer) == null ==> r == S_OK && peer == other
    {
      if other == null {
        return E_InvalidArg;
      }
      if peer != null {
        return S_False;
      }
      peer := other;
      r := S_OK;
    }

    /** Disconnects from `other`: succeeds and clears the peer exactly when
        `other` is the connected peer; otherwise refused with nothing changed. */
    method Disconnect(other: object?) returns (r: int)
      modifies this`peer
      ensures old(peer) != null && old(peer) == other ==> r == S_OK && peer == null
      ensures !(old(peer) != null && old(peer) == other) ==> r == S_False && peer == old(peer)
    {
      if peer != null && peer == other {
        peer := null;
        return S_OK;
      }
      r := S_False;
    }

    /** Whether a received message is handled: exactly when some handler is
        subscribed to `MessageReceived`. */
    function OnMessageReceived(message: object): (handled: bool)
      reads this
      ensures handled <==> |messageReceived| > 0
    {
      messageReceived != []
    }

    /** The status of delivering `message`: an invalid argument for null,
        success when a handler takes it, `S_False` when none is subscribed. */
    function Notify(message: object?): (r: int)
      reads this
      ensures r == E_InvalidArg <==> message == null
      ensures r == S_OK <==> message != null && |messageReceived| > 0
      ensures r == S_False <==> message != null && |messageReceived| == 0
    {
      if message == null then E_InvalidArg
      else if OnMessageReceived(message) then S_OK
      else S_False
    }

    /** Subscribes a handler to `MessageReceived`. */
    method AddMessageReceived(handler: object)
      modifies this`messageReceived
      ensures messageReceived == old(messageReceived) + [handler]
    {
      messageReceived := messageReceived + [handler];
    }
  }

  /** Connecting to `other` and disconnecting from it again leaves the component
      unconnected, after which connecting succeeds once more. */
  method ConnectDisconnectReconnect(c: ComponentBase, other: object)
    returns (connected: int, disconnected: int, reconnected: int)
    requires c.peer == null
    modifies c`peer
    ensures connected == S_OK && disconnected == S_OK && reconnected == S_OK
    ensures c.peer == other
  {
    connected := c.Connect(other);
    disconnected := c.Disconnect(other);
    assert c.peer == null;
    reconnected := c.Connect(other);
  }

  /** Whatever the state, terminating and then connecting succeeds. */
  method TerminateThenConnect(c: ComponentBase, other: object) returns (terminated: int, connected: int)
    modifies c`peer
    ensures terminated == S_OK && connected == S_OK && c.peer == other
  {
    terminated := c.Terminate();
    connected := c.Connect(other);
  }
}
