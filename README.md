# VST.NET interop core, modelled in Dafny

This project models four pieces of the VST.NET interop layer and proves what they promise.

- **`UnmanagedArray<T>`** is the grow-only native buffer cache of the VST 2 interop. It hands back its array while the array is long enough. Otherwise it frees the array and allocates one of exactly the requested length.
- **The VST 2.4 plugin entry layer** covers four things:
  - the plugin's main entry after bootstrapping (`VSTPluginMainInternal`);
  - the descriptor builder `CreateAudioEffectInfo`, which fills the SDK's `AEffect` structure;
  - the managed handle stored in the descriptor's `user` slot;
  - the five callbacks installed in the descriptor: `dispatcher`, `processReplacing`, `processDoubleReplacing`, `setParameter` and `getParameter`.
- **`ComponentBase`** from the VST 3 interop is a single-peer connection point in the sense of the VST 3 SDK's `IConnectionPoint`. It returns the `tresult` codes `kResultOk`, `kResultFalse` and `kInvalidArgument`, which the source calls `S_OK`, `S_False` and `E_InvalidArg`.
- **`VstPluginAudioProcessorBase`** from the VST 2 framework has a pass-through `Process` that copies input channels to output channels. It also has the sample `Copy` that `Process` uses.

Files:

- `wrappers.dfy` holds `Option`.
- `unmanaged_array.dfy` holds module `UnmanagedArrays`.
- `vst_interop.dfy` holds module `VstInterop`.
- `component_base.dfy` holds module `Vst3Plugin`.
- `audio_processor.dfy` holds module `FrameworkPlugin`.

How the model represents the system:

- Native pointers (channel arrays, the dispatcher's `ptr`, the host callback) are `int` addresses, with 0 for null.
- Floating-point values (samples excepted, see below) are `real`. They are only forwarded, never computed.
- Samples are a type parameter `S`, because they are only copied.
- The managed runtime's `GCHandle` is the class `GCHandleTable`. It is a map from non-zero tokens to command proxies. `Alloc` hands out a token that was not in use before.
- The code of several collaborators is not part of this model: the plugin factory, the plugin command stub, the command proxy and the host command stub. Each is a small class whose answers are fixed when it is created:
  - the factory either yields a command stub, yields null or raises;
  - the command stub's `GetPluginInfo` either yields metadata, yields null or raises, and its dispatch and parameter answers are functions of the call's arguments;
  - the command proxy records every call it receives in a ghost log, in order, and returns the command stub's answer.

  Forwarding can therefore be stated exactly: the proxy's log grows by exactly this call, and the result is the stub's answer.
- A C++ destructor and a C++/CLI finalizer become the methods `Dispose` and `Finalize`. Freed arrays are recorded in the ghost log `released`.

Two facts about the code shape the contracts:

- `CreateAudioEffectInfo` (Source/Code/Jacobi.Vst.Interop/Jacobi.Vst.Interop.cpp:170-195) does not check its argument. Its caller, `VSTPluginMainInternal`, checks for null metadata first (line 61), so the builder always receives metadata.
- `GCHandle::FromIntPtr` on a value that is not a live handle is undefined. The callbacks therefore require that a non-null `user` slot holds a live token (`Resolvable`).

On `UnmanagedArray`:

- Across `GetArray` calls, once the cache holds an array, the recorded length never decreases. When there is an array, `Dispose` and `Finalize` free it and reset the length to 0; otherwise they change nothing.
- A cache adopted with a null array and a non-zero length is the exception. Its next `GetArray` records the requested length, which may be smaller. So `GetArray` promises a non-decreasing length only from a `Consistent()` state, where no array means length 0. The default constructor and `GetArray` always leave the cache in such a state. `DeleteArray`, `Finalize` and `Dispose` keep it there when it started there.

## Model

| member | source | states |
|---|---|---|
| `UnmanagedArrays.UnmanagedArray.constructor` | Source/Code/Jacobi.Vst.Interop/Host/UnmanagedArray.h:8 | A new cache holds no array, has length 0 and has freed nothing. |
| `UnmanagedArrays.UnmanagedArray.Adopt` | Source/Code/Jacobi.Vst.Interop/Host/UnmanagedArray.h:9 | The cache takes the given array and length unchanged. |
| `UnmanagedArrays.UnmanagedArray.GetArray` | Source/Code/Jacobi.Vst.Interop/Host/UnmanagedArray.h:13-28 | Suppose an array exists and the recorded length is at least `n`. Then the same array comes back, with length, contents and freed-log unchanged. Otherwise the old array, if there is one, is freed exactly once, and a fresh array of exactly `n` elements is returned, with length `n`. Either way the result is the cached array and is non-null, with `n <= length`. From a consistent state the length never decreases. |
| `UnmanagedArrays.UnmanagedArray.ToPointer` | Source/Code/Jacobi.Vst.Interop/Host/UnmanagedArray.h:30-33 | Returns the current array, possibly null, and changes nothing. |
| `UnmanagedArrays.UnmanagedArray.AllocateArray` | Source/Code/Jacobi.Vst.Interop/Host/UnmanagedArray.h:39-43 | The array becomes a fresh array of exactly `n` elements, and the length becomes `n`. |
| `UnmanagedArrays.UnmanagedArray.DeleteArray` | Source/Code/Jacobi.Vst.Interop/Host/UnmanagedArray.h:45-53 | With an array: frees it once, sets the array to null and the length to 0. Without one it changes nothing, so it is idempotent. It keeps `Consistent()` when it started there. |
| `UnmanagedArrays.UnmanagedArray.Finalize` | Source/Code/Jacobi.Vst.Interop/Host/UnmanagedArray.h:11 | The finalizer frees the current array (if any) exactly once and leaves no array. |
| `UnmanagedArrays.UnmanagedArray.Dispose` | Source/Code/Jacobi.Vst.Interop/Host/UnmanagedArray.h:10 | The destructor routes to the finalizer, with the same effect. |
| `UnmanagedArrays.DisposeThenFinalize` | Source/Code/Jacobi.Vst.Interop/Host/UnmanagedArray.h:10-11 | Running the destructor and then the finalizer frees the array at most once. |
| `UnmanagedArrays.GrowOnly` | Source/Code/Jacobi.Vst.Interop/Host/UnmanagedArray.h:16-24 | Over two `GetArray` calls the length never goes down and covers both requests. A request no larger than the previous one returns the same array. |
| `VstInterop.AEffect.constructor` | Source/Code/Jacobi.Vst.Interop/Jacobi.Vst.Interop.cpp:173-174 | A new descriptor cleared with `ZeroMemory` has every field zero, including `user` and the reserved bytes. |
| `VstInterop.AEffect.InstallEntryPoints` | Source/Code/Jacobi.Vst.Interop/Jacobi.Vst.Interop.cpp:177-182 | Installs the five callbacks into the dispatcher, processReplacing, processDoubleReplacing, setParameter and getParameter slots. No other field changes. |
| `VstInterop.AEffect.CopyMetadata` | Source/Code/Jacobi.Vst.Interop/Jacobi.Vst.Interop.cpp:184-192 | Copies the eight metadata fields verbatim, so the descriptor's metadata equals the plugin info. No other field changes. |
| `VstInterop.CreateAudioEffectInfo` | Source/Code/Jacobi.Vst.Interop/Jacobi.Vst.Interop.cpp:170-195 | Returns a fresh descriptor. Its magic is `kEffectMagic` and the five callbacks are installed. Reading back its flags, delay, channel counts, parameter and program counts, ID and version gives exactly the plugin info. Every unassigned field, `user` included, is zero. |
| `VstInterop.VSTPluginMainInternal` | Source/Code/Jacobi.Vst.Interop/Jacobi.Vst.Interop.cpp:38-97 | Returns a descriptor exactly when the factory yields a stub and the stub yields metadata. Returns null when there is no stub, no metadata or an exception; then no handle is allocated, and after an exception the host stub is deleted. On success the descriptor is built from the metadata, and the host stub is initialised with it. `user` then holds a fresh non-zero token that resolves to a new proxy wrapping the command stub, and no other token changes. |
| `VstInterop.GCHandleTable.Alloc` | Source/Code/Jacobi.Vst.Interop/Jacobi.Vst.Interop.cpp:70-75 | A handle allocation yields a non-zero token that was unused before. The token now resolves to the proxy, and all other tokens are unchanged. |
| `VstInterop.ManagedPluginFactory.CreatePluginCommandStub` | Source/Code/Jacobi.Vst.Interop/Jacobi.Vst.Interop.cpp:54 | Yields the stub fixed for the factory: a stub, null, or an exception. |
| `VstInterop.PluginCommandStub.GetPluginInfo` | Source/Code/Jacobi.Vst.Interop/Jacobi.Vst.Interop.cpp:59 | Yields the metadata outcome fixed for the stub. |
| `VstInterop.HostCommandStub.Initialize` | Source/Code/Jacobi.Vst.Interop/Jacobi.Vst.Interop.cpp:67 | The host stub records the descriptor it answers for. |
| `VstInterop.HostCommandStub.Delete` | Source/Code/Jacobi.Vst.Interop/Jacobi.Vst.Interop.cpp:91 | The host stub is marked deleted. |
| `VstInterop.HostCommandStub.constructor` | Source/Code/Jacobi.Vst.Interop/Jacobi.Vst.Interop.cpp:41-42 | A new host stub keeps the host callback it was given, has no descriptor yet and is not deleted. |
| `VstInterop.PluginCommandProxy.constructor` | Source/Code/Jacobi.Vst.Interop/Jacobi.Vst.Interop.cpp:72 | A new proxy wraps the given command stub and has received no call. |
| `VstInterop.PluginCommandProxy.Dispatch` | Source/Code/Jacobi.Vst.Interop/Jacobi.Vst.Interop.cpp:107 | Logs the call and returns the stub's answer for it. |
| `VstInterop.PluginCommandProxy.Process` | Source/Code/Jacobi.Vst.Interop/Jacobi.Vst.Interop.cpp:124 | Logs the process call with its arrays, frame count and channel counts. |
| `VstInterop.PluginCommandProxy.SetParameter` | Source/Code/Jacobi.Vst.Interop/Jacobi.Vst.Interop.cpp:151 | Logs the index and value. |
| `VstInterop.PluginCommandProxy.GetParameter` | Source/Code/Jacobi.Vst.Interop/Jacobi.Vst.Interop.cpp:163 | Logs the call and returns the stub's value for the index. |
| `VstInterop.DispatcherProc` | Source/Code/Jacobi.Vst.Interop/Jacobi.Vst.Interop.cpp:100-111 | With a null descriptor or a null `user`: returns 0 and touches nothing. Otherwise the proxy that `user` resolves to receives exactly this call, and its result comes back unchanged. |
| `VstInterop.Process32Proc` | Source/Code/Jacobi.Vst.Interop/Jacobi.Vst.Interop.cpp:114-126 | With a null descriptor or a null `user`: does nothing. Otherwise the proxy receives a single-precision process call with the channel arrays and frame count, and the descriptor's own `numInputs` and `numOutputs`. |
| `VstInterop.Process64Proc` | Source/Code/Jacobi.Vst.Interop/Jacobi.Vst.Interop.cpp:129-141 | The same at double precision. |
| `VstInterop.SetParameterProc` | Source/Code/Jacobi.Vst.Interop/Jacobi.Vst.Interop.cpp:144-153 | With a null descriptor or a null `user`: does nothing. Otherwise the proxy receives the index and value unchanged. |
| `VstInterop.GetParameterProc` | Source/Code/Jacobi.Vst.Interop/Jacobi.Vst.Interop.cpp:156-167 | With a null descriptor or a null `user`: returns 0.0. Otherwise the proxy receives the call, and its value comes back unchanged. |
| `VstInterop.LoadThenDispatch` | Source/Code/Jacobi.Vst.Interop/Jacobi.Vst.Interop.cpp:70-107 | After a successful load, the returned descriptor's `dispatcher` slot holds `DispatcherProc`, and dispatching through it yields the answer of the stub the factory created. After a failed load the descriptor is null and the dispatch returns 0. |
| `Vst3Plugin.ComponentBase.constructor` | Source3/Code/Jacobi.Vst3.Interop/Plugin/ComponentBase.cs:10-13 | A new component has no peer, no handler, and a fresh service container with no context. |
| `Vst3Plugin.ComponentBase.Initialize` | Source3/Code/Jacobi.Vst3.Interop/Plugin/ComponentBase.cs:23-30 | Stores the context as the service container's `Unknown` and returns `S_OK`. |
| `Vst3Plugin.ComponentBase.Terminate` | Source3/Code/Jacobi.Vst3.Interop/Plugin/ComponentBase.cs:32-41 | Always clears the peer and returns `S_OK`. |
| `Vst3Plugin.ComponentBase.Connect` | Source3/Code/Jacobi.Vst3.Interop/Plugin/ComponentBase.cs:47-63 | A null argument gives `E_InvalidArg` with the peer unchanged. When already connected: `S_False`, and the existing peer stays. Otherwise the peer becomes `other` and the result is `S_OK`. |
| `Vst3Plugin.ComponentBase.Disconnect` | Source3/Code/Jacobi.Vst3.Interop/Plugin/ComponentBase.cs:65-77 | Exactly when the peer is non-null and equals `other`: returns `S_OK` and clears the peer. Otherwise: `S_False`, with the peer unchanged. |
| `Vst3Plugin.ComponentBase.OnMessageReceived` | Source3/Code/Jacobi.Vst3.Interop/Plugin/ComponentBase.cs:93-105 | A message counts as handled exactly when a `MessageReceived` handler is subscribed. |
| `Vst3Plugin.ComponentBase.Notify` | Source3/Code/Jacobi.Vst3.Interop/Plugin/ComponentBase.cs:79-89 | Returns `E_InvalidArg` exactly for a null message. Returns `S_OK` exactly for a non-null message with a handler subscribed. Returns `S_False` exactly for a non-null message with none. |
| `Vst3Plugin.ComponentBase.AddMessageReceived` | Source3/Code/Jacobi.Vst3.Interop/Plugin/ComponentBase.cs:107 | Subscribing appends the handler to the event's invocation list. |
| `Vst3Plugin.ConnectDisconnectReconnect` | Source3/Code/Jacobi.Vst3.Interop/Plugin/ComponentBase.cs:47-77 | From the unconnected state, `Connect(x)` then `Disconnect(x)` returns to the unconnected state, and a second `Connect(x)` succeeds. |
| `Vst3Plugin.TerminateThenConnect` | Source3/Code/Jacobi.Vst3.Interop/Plugin/ComponentBase.cs:32-63 | From any state, `Terminate` followed by `Connect(x)` succeeds. |
| `FrameworkPlugin.VstPluginAudioProcessorBase.Default` | Source/Code/Jacobi.Vst.Framework/Plugin/VstPluginAudioProcessorBase.cs:20 | The default constructor leaves input count, output count and tail size at zero. |
| `FrameworkPlugin.VstPluginAudioProcessorBase.constructor` | Source/Code/Jacobi.Vst.Framework/Plugin/VstPluginAudioProcessorBase.cs:29-34 | Input count, output count and tail size are the arguments. |
| `FrameworkPlugin.VstPluginAudioProcessorBase.Copy` | Source/Code/Jacobi.Vst.Framework/Plugin/VstPluginAudioProcessorBase.cs:80-95 | Requires equal sample counts and a writable destination. Afterwards every destination sample equals the corresponding source sample, and the source is unchanged. |
| `FrameworkPlugin.VstPluginAudioProcessorBase.CopyChannel` | Source/Code/Jacobi.Vst.Framework/Plugin/VstPluginAudioProcessorBase.cs:62 | One `Copy` inside the routing loop: only the target output changes, and it takes the input's samples. |
| `FrameworkPlugin.VstPluginAudioProcessorBase.Process` | Source/Code/Jacobi.Vst.Framework/Plugin/VstPluginAudioProcessorBase.cs:54-65 | Output `k` holds the samples of input `k mod (inCount+1)` exactly when that remainder is below `inCount`; every other output, and every input, is unchanged. The loop terminates, and every channel index it uses is in range. |
| `FrameworkPlugin.RoutingTableClosedForm` | Source/Code/Jacobi.Vst.Framework/Plugin/VstPluginAudioProcessorBase.cs:58-64 | Lay out whole passes end to end: inputs 0 to `inCount-1`, then one skipped output. That routing agrees with the closed form used by `Process` at every output. |
| `FrameworkPlugin.RoutingTableReadsExistingInputs` | Source/Code/Jacobi.Vst.Framework/Plugin/VstPluginAudioProcessorBase.cs:58-64 | A corollary of the closed form: the pass-by-pass routing names only inputs below `inCount`, and it has one entry per output. |
| `FrameworkPlugin.RoutingTablePrefix` | Source/Code/Jacobi.Vst.Framework/Plugin/VstPluginAudioProcessorBase.cs:56-64 | A corollary of the closed form: the output count only bounds the loops. Routing fewer outputs gives the first entries of routing more, unchanged. |
| `FrameworkPlugin.RoutingIsPeriodic` | Source/Code/Jacobi.Vst.Framework/Plugin/VstPluginAudioProcessorBase.cs:58-64 | Moving an output `inCount+1` places further does not change whether it is written, nor from which input. |
| `FrameworkPlugin.NothingRoutedWithoutInputs` | Source/Code/Jacobi.Vst.Framework/Plugin/VstPluginAudioProcessorBase.cs:58-60 | With zero input channels no output is selected, so `Process` changes no output. |
| `FrameworkPlugin.OutputAfterFirstPassSkipped` | Source/Code/Jacobi.Vst.Framework/Plugin/VstPluginAudioProcessorBase.cs:58-64 | Output `inCount`, the one right after the first pass, is never written. With one input and two outputs, the second output is left untouched. |
| `FrameworkPlugin.VstPluginAudioProcessorBase.ProcessCyclic` | Source/Code/Jacobi.Vst.Framework/Plugin/VstPluginAudioProcessorBase.cs:54-65 | The evidently intended routing: with at least one input, every output `k` receives input `k mod inCount`, and the inputs are unchanged. With no input nothing changes. |
| `FrameworkPlugin.VstPluginAudioProcessorBase.SetPanLaw` | Source/Code/Jacobi.Vst.Framework/Plugin/VstPluginAudioProcessorBase.cs:68-71 | Always declines the pan law, whatever the arguments. |

## Findings

| source | as written | input that shows it | evidently intended | confidence | as-written member | corrected member |
|---|---|---|---|---|---|---|
| Source/Code/Jacobi.Vst.Framework/Plugin/VstPluginAudioProcessorBase.cs:58-60 | The inner loop already advances `n` for every copy. The outer loop's own `n++` then skips one output after each full pass over the inputs. | One input and two outputs (mono to stereo): output 1 is never written (`OutputAfterFirstPassSkipped`). | Every output receives input `n mod inCount`, and zero inputs change nothing. | medium; not executed | `FrameworkPlugin.VstPluginAudioProcessorBase.Process` | `FrameworkPlugin.VstPluginAudioProcessorBase.ProcessCyclic` |

## Left out

- The bootstrap in `VSTPluginMain` is not modelled: locating the interop file and initialising the assembly loader are file-system and runtime-loading work.
- `Utils::ShowWarning` and `Utils::ShowError` (message boxes) are not modelled. What remains of them is a null descriptor, plus the host stub's deletion after an exception.
- `TimeCriticalScope` in the process callbacks is a hint to the garbage collector with no observable effect, so it is not modelled.
- Releasing the handle and deleting the descriptor at unload are not modelled. The descriptor is deleted in the host command stub's finalizer (comment at Source/Code/Jacobi.Vst.Interop/Jacobi.Vst.Interop.cpp:172), which is not part of this model. Where the handle is released is not in the code modelled here.
- `VstInterop.VSTPluginMainInternal`: only the factory and `GetPluginInfo` can raise in the model. Exceptions from the file-name lookup, `HostCommandStub::Initialize`, the proxy constructor or `GCHandle::Alloc` are not modelled, and neither is what then becomes of the descriptor already built.
- The internals of the command proxy, command stub, factory and host command stub are not part of this model. In particular, the proxy's own fault handling is not modelled, and neither is any dependence of a stub's answers on earlier calls.
- The actual `GCHandle` runtime semantics and handle release are left out. The table only allocates and resolves.
- Integer widths are not modelled: all integers are unbounded. The `(int)` cast of the flags is the identity on 32-bit values.
- Floating-point values are not modelled as floats. They are `real` and are only forwarded or copied.
- `FrameworkPlugin.VstPluginAudioProcessorBase.Process`: requires that no two channels share a buffer. In-place (aliased) input and output buffers are not modelled.
- `FrameworkPlugin.VstPluginAudioProcessorBase.Copy`: the source checks sample counts and writability only with `Debug.Assert`. Here they are preconditions, and what a release build does when they fail is not modelled.
- The unsafe pointer access through `IDirectBufferAccess32` is not modelled. Buffers are arrays.
- `SampleRate` and `BlockSize` are virtual properties in the source. Here they are plain fields, and overriding them is not modelled.
- `UnmanagedArrays.UnmanagedArray.GetArray`: the requested length is a `nat`. A negative request, which makes the C++ `new[]` throw when a new array is needed, is not modelled.
- `UnmanagedArrays.UnmanagedArray.Adopt`: requires the adopted length to be non-negative and within the adopted array. The source leaves this to its caller.
- `Vst3Plugin.ComponentBase.Terminate`: disposing the service container is not modelled.
- `Trace.WriteLine` calls are not modelled. The effect of invoking a `MessageReceived` handler is not modelled either, nor is removing a handler from the event.
- Concurrency between the audio thread and the control thread is not modelled. The code has no synchronisation to verify.
