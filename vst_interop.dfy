/** The VST 2.4 plugin entry layer: the plugin's main entry builds the native
    `AEffect` descriptor from the managed plugin's metadata, binds a command
    proxy to the descriptor's `user` slot through a handle, and the five
    callbacks installed in the descriptor resolve that handle and forward.

    Native pointers (channel arrays, `ptr`, the host callback) are addresses
    (`int`, 0 for null); floating-point values are `real`, only forwarded. The
    managed collaborators whose code is not part of this model (the plugin
    factory, the plugin command stub, the command proxy, the host command stub)
    are small classes whose answers are fixed when they are created. */
module VstInterop {
  import opened Wrappers

  /** `kEffectMagic`: the characters 'V', 's', 't', 'P' packed into 32 bits. */
  const kEffectMagic: int := 0x5673_7450

  /** The number of reserved bytes at the end of `AEffect`. */
  const FutureBytes: nat := 56

  /** What a function-pointer slot of the descriptor holds. */
  datatype EntryPoint =
    | NoEntry
    | DispatcherEntry
    | Process32Entry
    | Process64Entry
    | SetParameterEntry
    | GetParameterEntry

  /** A managed call either returns a value or raises an exception. */
  datatype Outcome<T> = Returned(value: T) | Threw

  /** The plugin metadata the command stub reports. */
  datatype VstPluginInfo = VstPluginInfo(
    Flags: int,
    InitialDelay: int,
    AudioInputCount: int,
    AudioOutputCount: int,
    ParameterCount: int,
    ProgramCount: int,
    PluginID: int,
    PluginVersion: int)

  /** The two sample precisions of the process callbacks. */
  datatype Precision = Single | Double

  /** A call the entry layer made on a command proxy. */
  datatype ProxyCall =
    | DispatchCall(opcode: int, index: int, value: int, ptr: int, opt: real)
    | ProcessCall(precision: Precision, inputs: int, outputs: int, sampleFrames: int,
                  numInputs: int, numOutputs: int)
    | SetParameterCall(index: int, parameter: real)
    | GetParameterCall(index: int)

  /** The native plugin descriptor, in the field order of the VST 2.4 SDK. */
  class AEffect {
    var magic: int
    var dispatcher: EntryPoint
    var process: EntryPoint
    var setParameter: EntryPoint
    var getParameter: EntryPoint
    var numPrograms: int
    var numParams: int
    var numInputs: int
    var numOutputs: int
    var flags: int
    var resvd1: int
    var resvd2: int
    var initialDelay: int
    var realQualities: int
    var offQualities: int
    var ioRatio: real
    var obj: int
    var user: int
    var uniqueID: int
    var version: int
    var processReplacing: EntryPoint
    var processDoubleReplacing: EntryPoint
    var future: seq<int>

    /** The fields the entry layer never assigns other than `user`: all zero. */
    ghost predicate UnassignedZero()
      reads this
    {
      process == NoEntry && resvd1 == 0 && resvd2 == 0 &&
      realQualities == 0 && offQualities == 0 && ioRatio == 0.0 && obj == 0 &&
      |future| == FutureBytes && forall i :: 0 <= i < |future| ==> future[i] == 0
    }

    /** Every field zero: a new descriptor cleared with `ZeroMemory`. */
    ghost predicate AllZero()
      reads this
    {
      UnassignedZero() && user == 0 && magic == 0 &&
      dispatcher == NoEntry && setParameter == NoEntry && getParameter == NoEntry &&
      processReplacing == NoEntry && processDoubleReplacing == NoEntry &&
      numPrograms == 0 && numParams == 0 && numInputs == 0 && numOutputs == 0 &&
      flags == 0 && initialDelay == 0 && uniqueID == 0 && version == 0
    }

    /** The plugin metadata as the descriptor carries it. */
    ghost function Metadata(): VstPluginInfo
      reads this
    {
      VstPluginInfo(flags, initialDelay, numInputs, numOutputs, numParams, numPrograms,
                    uniqueID, version)
    }

    /** Whether the five callbacks of the entry layer are installed. */
    ghost predicate EntriesInstalled()
      reads this
    {
      dispatcher == DispatcherEntry && processReplacing == Process32Entry &&
      processDoubleReplacing == Process64Entry && setParameter == SetParameterEntry &&
      getParameter == GetParameterEntry
    }

    /** The first block of `CreateAudioEffectInfo`: installs the five callbacks. */
    method InstallEntryPoints()
      modifies this`dispatcher, this`processReplacing, this`processDoubleReplacing,
               this`setParameter, this`getParameter
      ensures EntriesInstalled()
    {
      dispatcher := DispatcherEntry;
      processReplacing := Process32Entry;
      processDoubleReplacing := Process64Entry;
      setParameter := SetParameterEntry;
      getParameter := GetParameterEntry;
    }

    /** The second block of `CreateAudioEffectInfo`: copies the plugin metadata. */
    method CopyMetadata(info: VstPluginInfo)
      modifies this`flags, this`initialDelay, this`numInputs, this`numOutputs,
               this`numParams, this`numPrograms, this`uniqueID, this`version
      ensures Metadata() == info
    {
      flags := info.Flags;
      initialDelay := info.InitialDelay;
      numInputs := info.AudioInputCount;
      numOutputs := info.AudioOutputCount;
      numParams := info.ParameterCount;
      numPrograms := info.ProgramCount;
      uniqueID := info.PluginID;
      version := info.PluginVersion;
    }

    /** `new AEffect()` followed by `ZeroMemory`. */
    constructor ()
      ensures AllZero()
    {
      magic := 0;
      dispatcher, process, setParameter, getParameter := NoEntry, NoEntry, NoEntry, NoEntry;
      numPrograms, numParams, numInputs, numOutputs := 0, 0, 0, 0;
      flags, resvd1, resvd2, initialDelay := 0, 0, 0, 0;
      realQualities, offQualities, ioRatio, obj := 0, 0, 0.0, 0;
      user, uniqueID, version := 0, 0, 0;
      processReplacing, processDoubleReplacing := NoEntry, NoEntry;
      future := seq(FutureBytes, _ => 0);
    }
  }

  /** The host command stub: remembers the host callback and, once built, the
      descriptor it answers for. */
  class HostCommandStub {
    const hostCallback: int
    var effect: AEffect?
    var deleted: bool

    constructor (hostCallback: int)
      ensures this.hostCallback == hostCallback && effect == null && !deleted
    {
      this.hostCallback := hostCallback;
      effect := null;
      deleted := false;
    }

    method Initialize(effect: AEffect)
      modifies this
      ensures this.effect == effect && deleted == old(deleted)
    {
      this.effect := effect;
    }

    method Delete()
      modifies this
      ensures deleted && effect == old(effect)
    {
      deleted := true;
    }
  }

  /** The managed plugin's command stub, reduced to what it answers. */
  class PluginCommandStub {
    /** What `GetPluginInfo` yields: metadata, null, or an exception. */
    const pluginInfo: Outcome<Option<VstPluginInfo>>
    /** The result of a dispatched opcode. */
    const dispatchReply: (int, int, int, int, real) -> int
    /** The value of a parameter. */
    const parameterReply: int -> real

    constructor (pluginInfo: Outcome<Option<VstPluginInfo>>,
                 dispatchReply: (int, int, int, int, real) -> int,
                 parameterReply: int -> real)
      ensures this.pluginInfo == pluginInfo
      ensures this.dispatchReply == dispatchReply && this.parameterReply == parameterReply
    {
      this.pluginInfo := pluginInfo;
      this.dispatchReply := dispatchReply;
      this.parameterReply := parameterReply;
    }

    method GetPluginInfo(hostStub: HostCommandStub) returns (r: Outcome<Option<VstPluginInfo>>)
      ensures r == pluginInfo
    {
      r := pluginInfo;
    }
  }

  /** The managed plugin factory, reduced to what creating a command stub yields
      (creating the factory itself is folded into it). */
  class ManagedPluginFactory {
    const created: Outcome<PluginCommandStub?>

    constructor (created: Outcome<PluginCommandStub?>)
      ensures this.created == created
    {
      this.created := created;
    }

    method CreatePluginCommandStub() returns (r: Outcome<PluginCommandStub?>)
      ensures r == created
    {
      r := created;
    }
  }

  /** The command proxy bound to a loaded plugin: it hands every call to the
      command stub it wraps; the ghost log records the calls in order. */
  class PluginCommandProxy {
    const commandStub: PluginCommandStub
    ghost var calls: seq<ProxyCall>

    constructor (commandStub: PluginCommandStub)
      ensures this.commandStub == commandStub && calls == []
    {
      this.commandStub := commandStub;
      calls := [];
    }

    method Dispatch(opcode: int, index: int, value: int, ptr: int, opt: real) returns (r: int)
      modifies this
      ensures calls == old(calls) + [DispatchCall(opcode, index, value, ptr, opt)]
      ensures r == commandStub.dispatchReply(opcode, index, value, ptr, opt)
    {
      calls := calls + [DispatchCall(opcode, index, value, ptr, opt)];
      r := commandStub.dispatchReply(opcode, index, value, ptr, opt);
    }

    method Process(precision: Precision, inputs: int, outputs: int, sampleFrames: int,
                   numInputs: int, numOutputs: int)
      modifies this
      ensures calls == old(calls) +
        [ProcessCall(precision, inputs, outputs, sampleFrames, numInputs, numOutputs)]
    {
      calls := calls + [ProcessCall(precision, inputs, outputs, sampleFrames, numInputs, numOutputs)];
    }

    method SetParameter(index: int, value: real)
      modifies this
      ensures calls == old(calls) + [SetParameterCall(index, value)]
    {
      calls := calls + [SetParameterCall(index, value)];
    }

    method GetParameter(index: int) returns (r: real)
      modifies this
      ensures calls == old(calls) + [GetParameterCall(index)]
      ensures r == commandStub.parameterReply(index)
    {
      calls := calls + [GetParameterCall(index)];
      r := commandStub.parameterReply(index);
    }
  }

  /** The managed runtime's normal handles: each allocated handle is a non-zero
      pointer-sized token that resolves to the object it was allocated for. */
  class GCHandleTable {
    var targets: map<int, PluginCommandProxy>
    var nextToken: int

    ghost predicate Valid()
      reads this
    {
      0 < nextToken && forall t :: t in targets ==> 0 < t < nextToken
    }

    constructor ()
      ensures Valid() && targets == map[]
    {
      targets := map[];
      nextToken := 1;
    }

    /** `GCHandle::Alloc` followed by `ToIntPtr`: a token not in use before,
        never zero, now resolving to `target`; no other token changes. */
    method Alloc(target: PluginCommandProxy) returns (token: int)
      requires Valid()
      modifies this
      ensures Valid()
      ensures token != 0 && token !in old(targets)
      ensures targets == old(targets)[token := target]
    {
      token := nextToken;
      targets := targets[token := target];
      nextToken := nextToken + 1;
    }
  }

  /** Whether the command stub factory leads to a successful load: it returns a
      stub and the stub returns plugin metadata, neither raising. */
  predicate LoadSucceeds(factory: ManagedPluginFactory)
  {
    factory.created.Returned? && factory.created.value != null &&
    factory.created.value.pluginInfo.Returned? && factory.created.value.pluginInfo.value.Some?
  }

  /** Whether loading ends in an exception. */
  predicate LoadThrows(factory: ManagedPluginFactory)
  {
    factory.created.Threw? ||
    (factory.created.value != null && factory.created.value.pluginInfo.Threw?)
  }

  /** Builds the descriptor: zeroed, stamped with the magic, the five callbacks
      installed and the metadata copied verbatim (the flags cast to `int` is the
      identity on 32-bit values). */
  method CreateAudioEffectInfo(pluginInfo: VstPluginInfo) returns (pEffect: AEffect)
    ensures fresh(pEffect)
    ensures pEffect.magic == kEffectMagic
    ensures pEffect.EntriesInstalled()
    ensures pEffect.Metadata() == pluginInfo
    ensures pEffect.UnassignedZero() && pEffect.user == 0
  {
    pEffect := new AEffect();
    pEffect.magic := kEffectMagic;
    pEffect.InstallEntryPoints();
    pEffect.CopyMetadata(pluginInfo);
  }
  /** The plugin's main entry after bootstrapping: a descriptor when the factory
      yields a command stub and the stub yields metadata, null otherwise (no stub,
      no metadata, or an exception, after which the host stub is deleted). On
      success the descriptor's `user` slot holds a fresh handle resolving to a
      new proxy that wraps the command stub, and the host stub knows the
      descriptor. */
  method VSTPluginMainInternal(hostCallback: int, factory: ManagedPluginFactory, handles: GCHandleTable)
    returns (pEffect: AEffect?, hostStub: HostCommandStub, proxy: PluginCommandProxy?)
    requires handles.Valid()
    modifies handles
    ensures handles.Valid()
    ensures fresh(hostStub) && hostStub.hostCallback == hostCallback
    ensures pEffect != null <==> LoadSucceeds(factory)
    ensures pEffect == null ==>
      proxy == null && handles.targets == old(handles.targets) && hostStub.effect == null
    ensures LoadThrows(factory) ==> hostStub.deleted
    ensures !LoadThrows(factory) ==> !hostStub.deleted
    ensures pEffect != null ==>
      var info := factory.created.value.pluginInfo.value.value;
      fresh(pEffect) && pEffect.magic == kEffectMagic && pEffect.EntriesInstalled() &&
      pEffect.Metadata() == info && pEffect.UnassignedZero() &&
      proxy != null && fresh(proxy) &&
      proxy.commandStub == factory.created.value && proxy.calls == [] &&
      pEffect.user != 0 && pEffect.user !in old(handles.targets) &&
      handles.targets == old(handles.targets)[pEffect.user := proxy] &&
      hostStub.effect == pEffect
  {
    hostStub := new HostCommandStub(hostCallback);
    proxy := null;
    pEffect := null;

    var commandStub := factory.CreatePluginCommandStub();
    if commandStub.Threw? {
      hostStub.Delete();
      return;
    }
    if commandStub.value != null {
      var pluginInfo := commandStub.value.GetPluginInfo(hostStub);
      if pluginInfo.Threw? {
        hostStub.Delete();
        return;
      }
      if pluginInfo.value.Some? {
        pEffect := CreateAudioEffectInfo(pluginInfo.value.value);
        hostStub.Initialize(pEffect);
        proxy := new PluginCommandProxy(commandStub.value);
        var proxyHandle := handles.Alloc(proxy);
        pEffect.user := proxyHandle;
      }
    }
  }

  /** Whether a callback has a proxy to forward to: a descriptor with a
      non-null `user` slot. */
  predicate Attached(pluginInfo: AEffect?)
    reads pluginInfo
  {
    pluginInfo != null && pluginInfo.user != 0
  }

  /** What the callbacks demand of the host: a non-null `user` slot holds a live
      handle (resolving anything else is undefined in the managed runtime). */
  predicate Resolvable(pluginInfo: AEffect?, handles: GCHandleTable)
    reads pluginInfo, handles
  {
    Attached(pluginInfo) ==> pluginInfo.user in handles.targets
  }

  /** The proxy a callback may touch: the one `user` resolves to, if any. */
  function BoundProxy(pluginInfo: AEffect?, handles: GCHandleTable): set<object>
    reads pluginInfo, handles
  {
    if Attached(pluginInfo) && pluginInfo.user in handles.targets
    then {handles.targets[pluginInfo.user]} else {}
  }

  /** `dispatcher`: 0 without a proxy; otherwise the proxy's result, unchanged. */
  method DispatcherProc(pluginInfo: AEffect?, handles: GCHandleTable,
                        opcode: int, index: int, value: int, ptr: int, opt: real) returns (r: int)
    requires Resolvable(pluginInfo, handles)
    modifies BoundProxy(pluginInfo, handles)
    ensures !Attached(pluginInfo) ==> r == 0
    ensures Attached(pluginInfo) ==>
      var proxy := handles.targets[pluginInfo.user];
      r == proxy.commandStub.dispatchReply(opcode, index, value, ptr, opt) &&
      proxy.calls == old(proxy.calls) + [DispatchCall(opcode, index, value, ptr, opt)]
  {
    if pluginInfo != null && pluginInfo.user != 0 {
      var proxy := handles.targets[pluginInfo.user];
      r := proxy.Dispatch(opcode, index, value, ptr, opt);
      return;
    }
    r := 0;
  }

  /** `processReplacing`: nothing without a proxy; otherwise the channel arrays
      and frame count go to the proxy with the descriptor's channel counts. */
  method Process32Proc(pluginInfo: AEffect?, handles: GCHandleTable,
                       inputs: int, outputs: int, sampleFrames: int)
    requires Resolvable(pluginInfo, handles)
    modifies BoundProxy(pluginInfo, handles)
    ensures Attached(pluginInfo) ==>
      var proxy := handles.targets[pluginInfo.user];
      proxy.calls == old(proxy.calls) +
        [ProcessCall(Single, inputs, outputs, sampleFrames, pluginInfo.numInputs, pluginInfo.numOutputs)]
  {
    if pluginInfo != null && pluginInfo.user != 0 {
      var proxy := handles.targets[pluginInfo.user];
      proxy.Process(Single, inputs, outputs, sampleFrames, pluginInfo.numInputs, pluginInfo.numOutputs);
    }
  }

  /** `processDoubleReplacing`: as `Process32Proc`, at double precision. */
  method Process64Proc(pluginInfo: AEffect?, handles: GCHandleTable,
                       inputs: int, outputs: int, sampleFrames: int)
    requires Resolvable(pluginInfo, handles)
    modifies BoundProxy(pluginInfo, handles)
    ensures Attached(pluginInfo) ==>
      var proxy := handles.targets[pluginInfo.user];
      proxy.calls == old(proxy.calls) +
        [ProcessCall(Double, inputs, outputs, sampleFrames, pluginInfo.numInputs, pluginInfo.numOutputs)]
  {
    if pluginInfo != null && pluginInfo.user != 0 {
      var proxy := handles.targets[pluginInfo.user];
      proxy.Process(Double, inputs, outputs, sampleFrames, pluginInfo.numInputs, pluginInfo.numOutputs);
    }
  }

  /** `setParameter`: nothing without a proxy; otherwise index and value go to
      the proxy unchanged. */
  method SetParameterProc(pluginInfo: AEffect?, handles: GCHandleTable, index: int, value: real)
    requires Resolvable(pluginInfo, handles)
    modifies BoundProxy(pluginInfo, handles)
    ensures Attached(pluginInfo) ==>
      var proxy := handles.targets[pluginInfo.user];
      proxy.calls == old(proxy.calls) + [SetParameterCall(index, value)]
  {
    if pluginInfo != null && pluginInfo.user != 0 {
      var proxy := handles.targets[pluginInfo.user];
      proxy.SetParameter(index, value);
    }
  }

  /** `getParameter`: 0.0 without a proxy; otherwise the proxy's value, unchanged. */
  method GetParameterProc(pluginInfo: AEffect?, handles: GCHandleTable, index: int) returns (r: real)
    requires Resolvable(pluginInfo, handles)
    modifies BoundProxy(pluginInfo, handles)
    ensures !Attached(pluginInfo) ==> r == 0.0
    ensures Attached(pluginInfo) ==>
      var proxy := handles.targets[pluginInfo.user];
      r == proxy.commandStub.parameterReply(index) &&
      proxy.calls == old(proxy.calls) + [GetParameterCall(index)]
  {
    if pluginInfo != null && pluginInfo.user != 0 {
      var proxy := handles.targets[pluginInfo.user];
      r := proxy.GetParameter(index);
      return;
    }
    r := 0.0;
  }

  /** A load followed by one dispatch through the descriptor's `dispatcher`
      slot, which holds `DispatcherProc`: the host's first call on the returned
      descriptor reaches the command stub the factory created. */
  method LoadThenDispatch(hostCallback: int, factory: ManagedPluginFactory, handles: GCHandleTable,
                          opcode: int, index: int, value: int, ptr: int, opt: real)
    returns (pEffect: AEffect?, r: int)
    requires handles.Valid()
    modifies handles
    ensures pEffect != null <==> LoadSucceeds(factory)
    ensures pEffect != null ==> pEffect.dispatcher == DispatcherEntry
    ensures pEffect != null ==> r == factory.created.value.dispatchReply(opcode, index, value, ptr, opt)
    ensures pEffect == null ==> r == 0
  {
    var hostStub, proxy;
    pEffect, hostStub, proxy := VSTPluginMainInternal(hostCallback, factory, handles);
    r := DispatcherProc(pEffect, handles, opcode, index, value, ptr, opt);
  }
}
