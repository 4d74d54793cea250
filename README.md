# GraphicsDevice fence and submission model

This project models how the DirectX 12 game engine's `GraphicsDevice` submits
command lists and tracks fences, and proves properties of that model.

The device owns three fenced queue kinds: Direct, Compute and Copy. Each kind
has four parts:

- a hardware command queue;
- a fence, whose `CompletedValue` only the GPU raises;
- a command-allocator pool;
- a 64-bit "next fence value" counter that starts at 1.

Submitting a batch of compiled command lists works in five steps:

1. Route by the first list's type. Bundle has no queue and is rejected with
   `NotSupportedException`.
2. Take the kind's counter value with an unchecked post-increment.
3. Enqueue every list's allocator into the kind's pool, in array order,
   tagged with that value.
4. Execute the native lists as one batch.
5. Signal the fence with the value.

`IsFenceComplete` compares the fence's completed value with a fence value.
`WaitForFence` and `WaitForFenceAsync` return at once when it holds.
Otherwise they register the shared fence event.

Files:

- `fence_values.dfy` (module `FenceValues`): C# `long` arithmetic and
  `PostIncrement`, which wraps from the largest `long` to the smallest.
  Also the values `n` submissions hand out.
- `submission.dfy` (module `Submission`):
  - routing (`QueueOf`);
  - the records a submission leaves in a pool and on a queue;
  - the submission loop `ReleaseAllocators`;
  - the per-kind history invariant `QueueHistory`. A queue's log replays to
    its counter, every pool tag was signalled on that queue, and the fence's
    completed value is 0 or a signalled value.
- `disposal.dfy` (module `Disposal`): the objects `Dispose` releases and in
  what order.
- `graphics_device.dfy` (module `Graphics`): the `GraphicsDevice` class.
  - Fields: counters, fence completed values, pool logs, queue logs, event
    registrations and disposed objects.
  - `SubmitCommandLists` (routing), `SubmitToQueue` (the rest) and
    `UpdateQueueState` (the single store of the new state) together make up
    the private C# `ExecuteCommandLists`. The other methods stand for
    the C# method of the same name, except `AdvanceFence`, which stands for
    the GPU.
  - Lemmas about any valid device.
- `wrappers.dfy` (module `Wrappers`): `Option`, `Result`, `Outcome`.

The native objects are represented by what the device does to them:

- a pool, by its `Enqueue` calls;
- a queue, by the operations pushed to it;
- a fence, by its completed value.

The GPU reaching a signal is the method `AdvanceFence`. It can raise a
fence's completed value only up to a value signalled on that queue.

Two behaviours of the code are kept as they are:

- **Mixed list types.** The code routes by `commandLists[0]` alone and never
  checks that later lists share its type. The model never reads the type of
  any list after the first.
- **Teardown.** `Dispose` signals the direct fence with the current
  `NextDirectFenceValue`, a value never handed out, without incrementing it.
  Then it pushes only a GPU-side `Wait`, and the CPU does not block. After
  that it releases the device's objects in the order the code writes them,
  with its defects (see "## Findings").

## Model

| member | source | states |
|---|---|---|
| Graphics.EffectiveFeatureLevel | DirectX12GameEngine.Graphics/GraphicsDevice.cs:36 | the device's feature level is never below 11_0 and never below the requested minimum, and it is one of the two |
| Graphics.GraphicsDevice.constructor | DirectX12GameEngine.Graphics/GraphicsDevice.cs:21-73 | a new device is valid; its feature level is clamped; all three counters are 1 and all fences 0; pools and queues are empty; the six descriptor allocators have capacities 1, 2, 4096, 256, 4096 and 256, the last two shader-visible |
| FenceValues.PostIncrement | DirectX12GameEngine.Graphics/GraphicsDevice.cs:238-252 | `counter++` on a `long` adds one, except at the largest `long`, where it wraps to the smallest |
| FenceValues.CounterWithoutWrap | DirectX12GameEngine.Graphics/GraphicsDevice.cs:143-147 | until it reaches the largest `long`, a counter started at `start` holds `start + n` after `n` submissions |
| FenceValues.IssuedWithoutWrap | DirectX12GameEngine.Graphics/GraphicsDevice.cs:143-147 | before a wrap, the i-th value handed out is `start + i` |
| FenceValues.IssuedStrictlyIncreasing | DirectX12GameEngine.Graphics/GraphicsDevice.cs:143-147 | before a wrap, the values one counter hands out strictly increase, so none is repeated |
| FenceValues.CounterWrapsAfterMaxLongSubmissions | DirectX12GameEngine.Graphics/GraphicsDevice.cs:143-147 | a counter started at 1 reaches the smallest `long` after 2^63 - 1 submissions |
| Submission.QueueOf | DirectX12GameEngine.Graphics/GraphicsDevice.cs:231-256 | exactly the Bundle type has no queue kind; Direct, Compute and Copy each have one |
| Submission.RoutingIsBijective | DirectX12GameEngine.Graphics/GraphicsDevice.cs:231-253 | a list type routes to a queue kind exactly when that kind accepts that type, so queue, fence, pool and counter all come from one kind |
| Submission.Released | DirectX12GameEngine.Graphics/GraphicsDevice.cs:260-264 | one pool record per list, the i-th holding list i's allocator, all tagged with the same fence value |
| Submission.NativeLists | DirectX12GameEngine.Graphics/GraphicsDevice.cs:258-262 | one native list per compiled list, in array order |
| Submission.ReleaseAllocators | DirectX12GameEngine.Graphics/GraphicsDevice.cs:258-264 | the loop fills a fresh array with the native lists in array order, and appends to the pool exactly every allocator, in array order, tagged with the fence value |
| Submission.SignalValuesOfSubmission | DirectX12GameEngine.Graphics/GraphicsDevice.cs:266-267 | a batch followed by its signal adds exactly that one value to the values the fence was signalled with |
| Submission.SignalledIsSignalValue | DirectX12GameEngine.Graphics/GraphicsDevice.cs:267 | a value counts as signalled on a queue exactly when a `Signal` of it was pushed to that queue, in both directions |
| Submission.ReplayLast | DirectX12GameEngine.Graphics/GraphicsDevice.cs:266-267 | a non-empty valid queue log ends with a batch and then the signal of the counter value it was submitted at |
| Submission.ReplayPaired | DirectX12GameEngine.Graphics/GraphicsDevice.cs:266-267 | in a valid queue log, every batch is directly followed by its signal and nothing else appears |
| Submission.ReplayIssues | DirectX12GameEngine.Graphics/GraphicsDevice.cs:224-270 | the values a valid queue log signals are exactly the values its counter handed out, in order, and the counter is where that many submissions leave it (wrap included) |
| Submission.HistoryBounds | DirectX12GameEngine.Graphics/GraphicsDevice.cs:224-275 | before a wrap, the i-th signal is i + 1, the counter is one past the number of signals, and every pool tag and the completed value lie between 0 and the last issued value |
| Submission.SubmissionKeepsHistory | DirectX12GameEngine.Graphics/GraphicsDevice.cs:224-270 | one submission at the counter's value keeps the per-kind history invariant |
| Submission.CompletionKeepsHistory | DirectX12GameEngine.Graphics/GraphicsDevice.cs:274 | the fence completing up to a value signalled on its queue keeps the per-kind history invariant |
| Graphics.GraphicsDevice.SubmitCommandLists | DirectX12GameEngine.Graphics/GraphicsDevice.cs:224-270 | Bundle first: `NotSupported` and nothing changes. Otherwise it returns the chosen kind's old counter value and advances only that counter; only that pool gains the allocator records and only that queue gains the batch and then its signal. Fences and event registrations are untouched and the device stays valid |
| Graphics.GraphicsDevice.SubmitToQueue | DirectX12GameEngine.Graphics/GraphicsDevice.cs:231-269 | for a chosen kind: the counter value is taken and post-incremented, the allocators are released with it, then the batch is executed and the value signalled; the other kinds are untouched |
| Graphics.GraphicsDevice.AdvanceFence | DirectX12GameEngine.Graphics/GraphicsDevice.cs:274 | the GPU raises one fence's completed value to a value signalled on its queue; everything else is unchanged and the device stays valid |
| Graphics.GraphicsDevice.WaitForFence | DirectX12GameEngine.Graphics/GraphicsDevice.cs:277-287 | on return the fence is complete. An already complete fence returns at once without registering an event. Otherwise it registers the event for the value once and returns when the fence has reached a signalled value at or past it. Other fences, counters, pools and queues are unchanged |
| Graphics.GraphicsDevice.WaitForFenceAsync | DirectX12GameEngine.Graphics/GraphicsDevice.cs:289-299 | a complete fence gives a finished task and no registration; otherwise one registration and a task pending on exactly that fence and value; no fence, counter, pool or queue changes |
| Graphics.GraphicsDevice.ExecuteCommandLists | DirectX12GameEngine.Graphics/GraphicsDevice.cs:191-207 | Bundle first: `NotSupported` and nothing changes. Otherwise it performs the submission of the chosen kind at its old counter value. With `wait` it ends with that value complete. If the fence had already reached the value, nothing is registered and the fence is unchanged; otherwise one event is registered for the value and the fence stops at exactly that value. Without `wait`, no fence changes and no event is registered. Other fences are unchanged |
| Graphics.GraphicsDevice.ExecuteCommandListsAsync | DirectX12GameEngine.Graphics/GraphicsDevice.cs:209-222 | Bundle first: `NotSupported` and nothing changes. Otherwise it performs the same submission and returns the task `WaitForFenceAsync` gives for the value just signalled: pending and registered unless the fence had already passed it. No fence changes |
| Graphics.GraphicsDevice.IsFenceComplete | DirectX12GameEngine.Graphics/GraphicsDevice.cs:272-275 | `CompletedValue(k) >= fenceValue`, as line 274 computes; what that means on a valid device is stated by `CompletionOnlyForIssuedValues` |
| Graphics.GraphicsDevice.NativeDirect3D11Device | DirectX12GameEngine.Graphics/GraphicsDevice.cs:87-105 | after the getter runs, the lazy Direct3D 11 device exists; a second call creates nothing new, and nothing else changes |
| Graphics.GraphicsDevice.Dispose | DirectX12GameEngine.Graphics/GraphicsDevice.cs:154-189 | the direct queue receives a signal and then a GPU-side wait of the current, not incremented, next direct value. The objects are then released exactly in the order lines 159-188 write, `DisposalOrderAsWritten`, with the Direct3D 11 device only when it was created (line 186). Nothing guards a second call, so a second call releases them all again and the record of releases grows by another full order |
| Graphics.IssuedValuesAreConsecutive | DirectX12GameEngine.Graphics/GraphicsDevice.cs:143-147 | on a valid device, before a wrap, a kind's signalled values are 1, 2, ... in strictly increasing order and its counter is one past the last |
| Graphics.CompletionOnlyForIssuedValues | DirectX12GameEngine.Graphics/GraphicsDevice.cs:272-275 | before a wrap, `IsFenceComplete` holds for every value up to 0 and only for values already handed out; the next value is never complete |
| Graphics.PoolTagsWereIssued | DirectX12GameEngine.Graphics/GraphicsDevice.cs:258-267 | before a wrap, every allocator waiting in a kind's pool carries a value that kind issued and signalled on its own queue |
| Disposal.DisposalAsWrittenMissesObjects | DirectX12GameEngine.Graphics/GraphicsDevice.cs:162-177 | the teardown as written, which `Dispose` performs, releases the direct fence twice in a row and never releases the copy fence, the sampler allocator or either shader-visible allocator |
| Disposal.DisposalReleasesEveryObject | DirectX12GameEngine.Graphics/GraphicsDevice.cs:159-188 | the corrected teardown `DisposalOrder` releases every object the device owns, the Direct3D 11 device exactly when it was created, and the native device last |
| Disposal.DisposalReleasesNothingTwice | DirectX12GameEngine.Graphics/GraphicsDevice.cs:159-188 | the corrected teardown `DisposalOrder` releases no object twice |

## Left out

- Graphics.GraphicsDevice.SubmitCommandLists, ExecuteCommandLists and
  ExecuteCommandListsAsync change only the counters, pools, queues, fences
  and event registrations, as their frames say. In particular they never
  create the Direct3D 11 device and never change what `Dispose` releases.
  This is stated as a frame, not as a lemma.
- Threading. The model leaves out `fenceLock` and races between threads. A
  blocking wait becomes a postcondition, and the GPU becomes the explicit
  `AdvanceFence` step.
- Graphics.GraphicsDevice.WaitForFence: one `AutoResetEvent`, `fenceEvent`,
  is shared by all three fences. The model's promise that the fence is
  complete on return assumes no other registration is still pending on
  that event. The code does not ensure this, even on one thread. Take an
  asynchronous wait on compute value v1 that is still pending, followed by
  `ExecuteCommandLists(true, ...)` on the direct queue. When compute reaches
  v1, the event may release the blocked `WaitOne` instead, which returns
  with the direct fence incomplete. `EventRegistrations` records every
  registration, but the model does not track which are still pending or
  which waiter the event releases.
- Graphics.GraphicsDevice.WaitForFenceAsync: `AwaitingFence(k, v)` names the
  fence value the registration was made for. The real task waits on the
  shared event and can complete when another fence's registration fires,
  which the model does not capture, for the same reason.
- `Task` and `WaitHandleAsyncFactory` plumbing. They are OS wait handles,
  not device state. `FenceTask` only records which fence value a task
  waits on.
- Native interop. The model leaves out D3D12 device creation and its failure
  (`COMException`), the debug layer, queue and fence creation, the Direct3D
  11 device's creation call and its failure, and `CreateRootSignature`.
  These are calls into libraries outside this model. The lazy Direct3D 11
  device is only a flag saying whether it exists. The feature level is its
  numeric code.
- Construction and closing of `CommandList` and `CopyCommandList`. The
  command-list sources are not part of this model. Only their release in
  `Dispose` is kept.
- `CommandAllocatorPool` and `DescriptorAllocator` internals. Their sources
  are not part of this model. A pool is only the log of `Enqueue`
  calls. A descriptor allocator is only its heap type, capacity and
  visibility.
- The compute-shader sample, `Image.cs` and the material files. They are
  application, image-decoding and shader-authoring code, outside the device
  core.
- Graphics.GraphicsDevice.SubmitCommandLists: an empty `commandLists` is a
  precondition. The code does not handle it: `commandLists[0]` throws
  `IndexOutOfRangeException`. The same holds for `ExecuteCommandLists` and
  `ExecuteCommandListsAsync`.
- Graphics.GraphicsDevice.WaitForFence: `wake` is the completed value the
  fence has when the event fires. It is chosen by the caller and stands for
  the GPU's progress during the block. A wait on a value that is never
  signalled does not return in the code, and it is excluded by the
  precondition.
- Graphics.GraphicsDevice.ExecuteCommandLists: the wait uses `wake` equal to
  the value just signalled. While the counter has not wrapped, that value is
  the highest one ever signalled on the queue, so it is the only value the
  fence can wake at.
- Graphics.IssuedValuesAreConsecutive: stated only before a kind's counter
  wraps, that is with fewer than 2^63 - 1 submissions. The invariant the
  device keeps, `ReplayIssues`, holds with the wrap too.
- Graphics.CompletionOnlyForIssuedValues: stated only before a wrap, for the
  same reason.
- Graphics.PoolTagsWereIssued: the bounds are stated only before a wrap. The
  "signalled on its own queue" half holds at all times, through the device
  invariant.
- Submission.HistoryBounds: stated only before a wrap.
- Graphics.GraphicsDevice.Dispose: does not promise the device invariant
  afterwards. The device is no longer valid once disposed, and nothing may
  be submitted to it again. `Disposables` is one entry in the order, not the individual
  objects it holds.
- Graphics.GraphicsDevice.SubmitCommandLists: pool updates are not made in
  place. The submission loop builds the pool's new log, and the device
  stores it once after the loop. With no other thread, no observer can tell
  the difference.

## Findings

| source | as written | input that shows it | evidently intended | confidence | as-written member | corrected member |
|---|---|---|---|---|---|---|
| DirectX12GameEngine.Graphics/GraphicsDevice.cs:159-188 | `Dispose` releases `NativeDirectFence` twice (lines 176 and 177) and never releases `NativeCopyFence`. It also never releases `SamplerAllocator`, `ShaderVisibleShaderResourceViewAllocator` or `ShaderVisibleSamplerAllocator` | any device: `new GraphicsDevice()` followed by `Dispose()`; `Dispose` releases `DisposalOrderAsWritten` | release each owned object exactly once, with the copy fence between the compute and the direct fence | not executed | Disposal.DisposalAsWrittenMissesObjects | Disposal.DisposalReleasesNothingTwice |
