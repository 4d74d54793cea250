/**
 * Command lists, the logs a submission leaves on a queue kind's allocator
 * pool and hardware queue, and the history those logs keep
 * (DirectX12GameEngine.Graphics/GraphicsDevice.cs, the private
 * `ExecuteCommandLists`).
 */
module Submission {
  import opened Wrappers
  import opened FenceValues

  /** The engine's command-list type. */
  datatype CommandListType = Direct | Bundle | Compute | Copy

  /** The three queue kinds that own a hardware queue, a fence and a pool. */
  datatype QueueKind = DirectQueue | ComputeQueue | CopyQueue

  /** Which queue, fence and pool serve a command-list type; Bundle has none. */
  function QueueOf(t: CommandListType): (r: Option<QueueKind>)
    ensures r.None? <==> t == Bundle
  {
    match t
    case Direct => Some(DirectQueue)
    case Compute => Some(ComputeQueue)
    case Copy => Some(CopyQueue)
    case Bundle => None
  }

  /** The command-list type whose lists a queue kind accepts. */
  function ListTypeOf(k: QueueKind): (t: CommandListType)
    ensures t != Bundle
  {
    match k
    case DirectQueue => Direct
    case ComputeQueue => Compute
    case CopyQueue => Copy
  }

  /** Routing is a bijection between the three fenced list types and the queue kinds. */
  lemma RoutingIsBijective(t: CommandListType, k: QueueKind)
    ensures QueueOf(t) == Some(k) <==> ListTypeOf(k) == t
  {
  }

  // ---------------------------------------------------------------- records

  /** Identity of a native command allocator (`ID3D12CommandAllocator`). */
  type AllocatorId = nat

  /** Identity of a native command list (`ID3D12CommandList`). */
  type NativeListId = nat

  /** A closed command list: its builder's type, the native list and the allocator that recorded it. */
  datatype CompiledCommandList = CompiledCommandList(
    listType: CommandListType,
    nativeCommandList: NativeListId,
    nativeCommandAllocator: AllocatorId)

  /** One `CommandAllocatorPool.Enqueue(allocator, fenceValue)` call. */
  datatype PoolEntry = PoolEntry(allocator: AllocatorId, fenceValue: int)

  /** An operation pushed to a hardware queue. */
  datatype QueueOp =
    | Execute(lists: seq<NativeListId>)   // ID3D12CommandQueue.ExecuteCommandLists
    | Signal(fenceValue: int)             // ID3D12CommandQueue.Signal(fence, value)
    | Wait(fenceValue: int)               // ID3D12CommandQueue.Wait(fence, value), a GPU-side wait

  // ---------------------------------------------------------------- submission records

  /** The pool entries one submission appends: every list's allocator, in array order, all tagged `fenceValue`. */
  function Released(commandLists: seq<CompiledCommandList>, fenceValue: int): (entries: seq<PoolEntry>)
    ensures |entries| == |commandLists|
    ensures forall i :: 0 <= i < |commandLists| ==>
      entries[i] == PoolEntry(commandLists[i].nativeCommandAllocator, fenceValue)
  {
    if commandLists == [] then []
    else
      var n := |commandLists| - 1;
      Released(commandLists[..n], fenceValue) + [PoolEntry(commandLists[n].nativeCommandAllocator, fenceValue)]
  }

  /** The native command lists of a submission, in array order. */
  function NativeLists(commandLists: seq<CompiledCommandList>): (lists: seq<NativeListId>)
    ensures |lists| == |commandLists|
    ensures forall i :: 0 <= i < |commandLists| ==> lists[i] == commandLists[i].nativeCommandList
  {
    if commandLists == [] then []
    else
      var n := |commandLists| - 1;
      NativeLists(commandLists[..n]) + [commandLists[n].nativeCommandList]
  }

  /**
   * The loop of the private `ExecuteCommandLists`: fills an array with the
   * native lists and enqueues every list's allocator, tagged `fenceValue`,
   * onto `pool`, in array order.
   */
  method ReleaseAllocators(commandLists: seq<CompiledCommandList>, fenceValue: int, pool: seq<PoolEntry>)
    returns (nativeCommandLists: array<NativeListId>, pool': seq<PoolEntry>)
    ensures fresh(nativeCommandLists)
    ensures nativeCommandLists[..] == NativeLists(commandLists)
    ensures pool' == pool + Released(commandLists, fenceValue)
  {
    nativeCommandLists := new NativeListId[|commandLists|];
    pool' := pool;
    for i := 0 to |commandLists|
      invariant forall j :: 0 <= j < i ==> nativeCommandLists[j] == commandLists[j].nativeCommandList
      invariant pool' == pool + Released(commandLists[..i], fenceValue)
    {
      nativeCommandLists[i] := commandLists[i].nativeCommandList;
      pool' := pool' + [PoolEntry(commandLists[i].nativeCommandAllocator, fenceValue)];
      assert commandLists[..i + 1][..i] == commandLists[..i];
    }
    assert commandLists[..|commandLists|] == commandLists;
    assert nativeCommandLists[..] == NativeLists(commandLists);
  }

  /** The values a queue's fence has been signalled with, in order. */
  function SignalValues(ops: seq<QueueOp>): seq<int> {
    if ops == [] then []
    else
      var n := |ops| - 1;
      SignalValues(ops[..n]) + (if ops[n].Signal? then [ops[n].fenceValue] else [])
  }

  /** A batch followed by its signal adds exactly that signal's value to the signalled values. */
  lemma SignalValuesOfSubmission(ops: seq<QueueOp>, lists: seq<NativeListId>, v: int)
    ensures SignalValues(ops + [Execute(lists)] + [Signal(v)]) == SignalValues(ops) + [v]
  {
    var withBatch := ops + [Execute(lists)];
    var withSignal := ops + [Execute(lists)] + [Signal(v)];
    assert withSignal[..|withBatch|] == withBatch;
    assert withBatch[..|ops|] == ops;
    assert SignalValues(withBatch) == SignalValues(ops);
  }

  /** Whether `ops` holds a signal of `v`, searched from the most recent operation back. */
  predicate Signalled(ops: seq<QueueOp>, v: int)
    decreases |ops|
  {
    ops != [] && (ops[|ops| - 1] == Signal(v) || Signalled(ops[..|ops| - 1], v))
  }

  /** `Signalled` agrees with the values `SignalValues` lists and with a `Signal` operation in the log. */
  lemma {:induction false} SignalledIsSignalValue(ops: seq<QueueOp>, v: int)
    ensures Signalled(ops, v) <==> v in SignalValues(ops)
    ensures Signalled(ops, v) <==> Signal(v) in ops
  {
    if ops != [] {
      var n := |ops| - 1;
      SignalledIsSignalValue(ops[..n], v);
      assert ops == ops[..n] + [ops[n]];
      assert Signal(v) in ops <==> Signal(v) in ops[..n] || ops[n] == Signal(v);
    }
  }

  /** Every batch on a queue is followed by its signal, and nothing else is on it. */
  ghost predicate Paired(ops: seq<QueueOp>) {
    && |ops| % 2 == 0
    && forall i :: 0 <= i < |ops| ==> if i % 2 == 0 then ops[i].Execute? else ops[i].Signal?
  }

  /**
   * Replays a queue's log against a counter that starts at 1: each batch
   * must be followed by a signal of the counter's current value, after
   * which the counter is post-incremented. The result is the counter after
   * the whole log, or None when the log is not of that shape.
   */
  function Replay(ops: seq<QueueOp>): (r: Option<int>)
    ensures r.Some? ==> IsLong(r.value)
    decreases |ops|
  {
    if ops == [] then Some(1)
    else if |ops| < 2 then None
    else
      var prev := Replay(ops[..|ops| - 2]);
      if prev.Some? && ops[|ops| - 2].Execute? && ops[|ops| - 1] == Signal(prev.value)
      then Some(PostIncrement(prev.value))
      else None
  }

  /** A non-empty log that replays is an earlier log that replays, then a batch and the signal of its counter. */
  lemma ReplayLast(ops: seq<QueueOp>)
    requires ops != [] && Replay(ops).Some?
    ensures |ops| >= 2
    ensures var prefix := ops[..|ops| - 2];
      && Replay(prefix).Some?
      && ops == prefix + [Execute(ops[|ops| - 2].lists)] + [Signal(Replay(prefix).value)]
      && Replay(ops).value == PostIncrement(Replay(prefix).value)
  {
    var prefix := ops[..|ops| - 2];
    assert ops == prefix + [ops[|ops| - 2]] + [ops[|ops| - 1]];
  }

  /** A log that replays consists of batches each followed by its signal. */
  lemma {:induction false} ReplayPaired(ops: seq<QueueOp>)
    requires Replay(ops).Some?
    ensures Paired(ops)
  {
    if ops != [] {
      ReplayLast(ops);
      var m := |ops| - 2;
      var prefix := ops[..m];
      ReplayPaired(prefix);
      forall i | 0 <= i < |ops|
        ensures if i % 2 == 0 then ops[i].Execute? else ops[i].Signal?
      {
        if i < m {
          assert ops[i] == prefix[i];
        }
      }
    }
  }

  /**
   * A log that replays to `next` consists of batches each followed by its
   * signal, the values it signals are exactly those the counter issued, and
   * `next` is the counter after that many submissions.
   */
  lemma {:induction false} ReplayIssues(ops: seq<QueueOp>, next: int)
    requires Replay(ops) == Some(next)
    ensures Paired(ops)
    ensures SignalValues(ops) == Issued(1, |SignalValues(ops)|)
    ensures next == Counter(1, |SignalValues(ops)|)
  {
    ReplayPaired(ops);
    if ops != [] {
      ReplayLast(ops);
      var m := |ops| - 2;
      var prefix := ops[..m];
      var prev := Replay(prefix).value;
      ReplayIssues(prefix, prev);
      var n := |SignalValues(prefix)|;
      SignalValuesOfSubmission(prefix, ops[m].lists, prev);
      assert Issued(1, n + 1) == Issued(1, n) + [Counter(1, n)];
    }
  }

  /**
   * The history one queue kind keeps: its log replays to its counter (so
   * it holds batches each followed by the signal of a value the counter
   * issued); every allocator in its pool is tagged with a value signalled
   * on this queue; its fence's completed value is the fence's initial 0 or
   * a value signalled on it.
   */
  ghost predicate QueueHistory(next: int, completed: int, pool: seq<PoolEntry>, ops: seq<QueueOp>) {
    && Replay(ops) == Some(next)
    && (forall i :: 0 <= i < |pool| ==> Signalled(ops, pool[i].fenceValue))
    && (completed == 0 || Signalled(ops, completed))
  }

  /**
   * Before the counter wraps, the history pins everything down: the i-th
   * signal is i + 1, the counter is one past the number of signals, every
   * pool tag and the completed value lie between 0 and the last value issued.
   */
  lemma HistoryBounds(next: int, completed: int, pool: seq<PoolEntry>, ops: seq<QueueOp>)
    requires QueueHistory(next, completed, pool, ops)
    requires |SignalValues(ops)| < MaxLong
    ensures var n := |SignalValues(ops)|;
      && next == n + 1
      && (forall i :: 0 <= i < n ==> SignalValues(ops)[i] == i + 1)
      && (forall i :: 0 <= i < |pool| ==> 1 <= pool[i].fenceValue < next)
      && 0 <= completed < next
  {
    var signals := SignalValues(ops);
    var n := |signals|;
    ReplayIssues(ops, next);
    IssuedWithoutWrap(1, n);
    CounterWithoutWrap(1, n);
    forall v | Signalled(ops, v)
      ensures 1 <= v <= n
    {
      SignalledIsSignalValue(ops, v);
      var i :| 0 <= i < n && signals[i] == v;
    }
  }

  /** A submission of `commandLists` at the counter's value keeps the queue's history. */
  lemma SubmissionKeepsHistory(next: int, completed: int, pool: seq<PoolEntry>, ops: seq<QueueOp>,
                               commandLists: seq<CompiledCommandList>)
    requires QueueHistory(next, completed, pool, ops)
    ensures QueueHistory(PostIncrement(next), completed, pool + Released(commandLists, next),
                         ops + [Execute(NativeLists(commandLists))] + [Signal(next)])
  {
    var withBatch := ops + [Execute(NativeLists(commandLists))];
    var ops' := withBatch + [Signal(next)];
    var pool' := pool + Released(commandLists, next);
    assert ops'[..|ops'| - 2] == ops;
    assert Replay(ops') == Some(PostIncrement(next));
    assert ops'[..|ops'| - 1] == withBatch;
    assert withBatch[..|withBatch| - 1] == ops;
    forall v | Signalled(ops, v)
      ensures Signalled(ops', v)
    {
      assert Signalled(withBatch, v);
    }
    forall i | 0 <= i < |pool'|
      ensures Signalled(ops', pool'[i].fenceValue)
    {
      if i < |pool| {
        assert pool'[i] == pool[i];
      }
    }
  }

  /** The GPU reaching a signalled value keeps the queue's history. */
  lemma CompletionKeepsHistory(next: int, completed: int, pool: seq<PoolEntry>, ops: seq<QueueOp>, value: int)
    requires QueueHistory(next, completed, pool, ops)
    requires Signalled(ops, value)
    ensures QueueHistory(next, value, pool, ops)
  {
  }

}
