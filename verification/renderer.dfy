/**
 * The integer bookkeeping of `Renderer`: device creation with the adapter
 * preference and feature-level fallback, the render-target descriptor
 * handles of the two back buffers, the fence counter, and the viewport,
 * scissor rectangle and projection constant buffer set up at construction.
 * Device calls are parameters; GPU objects are not modelled.
 */
module RendererCore {
  import opened Optional
  import Alignment

  /** Back buffers requested from the swap chain (`DXGI_SWAP_CHAIN_DESC1::BufferCount`). */
  const BufferCount: nat := 2
  /** Descriptors in the render-target-view heap. */
  const RtvDescriptorCount: nat := 2

  /** `SIZE_T` descriptor pointers wrap modulo 2^64; `UINT` products modulo 2^32. */
  const PtrModulus: nat := 0x1_0000_0000_0000_0000
  const UintModulus: nat := 0x1_0000_0000
  /** The fence value is a `UINT64`. */
  const FenceModulus: nat := 0x1_0000_0000_0000_0000

  // ---------------------------------------------------------------- device

  datatype FeatureLevel = Level12_2 | Level12_1 | Level12_0 | Level11_1 | Level11_0

  /** The feature levels tried, most capable first. */
  const Levels: seq<FeatureLevel> := [Level12_2, Level12_1, Level12_0, Level11_1, Level11_0]

  /** The adapter passed to `D3D12CreateDevice`: null (the system default) or an enumerated one. */
  datatype Adapter = DefaultAdapter | Enumerated(index: nat)

  /** `SUCCEEDED(hr)`. */
  predicate Succeeded(hr: int)
  {
    hr >= 0
  }

  predicate MatchAt(s: string, pattern: string, i: nat)
  {
    i + |pattern| <= |s| && s[i..i + |pattern|] == pattern
  }

  /** `s.find(pattern, from)`: the first position at or after `from` where `pattern` occurs. */
  function Find(s: string, pattern: string, from: nat): (r: Option<nat>)
    decreases |s| - from
    ensures r.Some? ==> from <= r.value && MatchAt(s, pattern, r.value)
    ensures r.Some? ==> forall j :: from <= j < r.value ==> !MatchAt(s, pattern, j)
    ensures r.None? ==> forall j :: from <= j ==> !MatchAt(s, pattern, j)
  {
    if from + |pattern| > |s| then None
    else if s[from..from + |pattern|] == pattern then Some(from)
    else Find(s, pattern, from + 1)
  }

  /** The adapter description mentions NVIDIA. */
  predicate IsNvidia(description: string)
  {
    Find(description, "NVIDIA", 0).Some?
  }

  /**
   * Walks the enumerated adapters in order and takes the first whose
   * description contains "NVIDIA"; otherwise (or without a factory) the
   * default adapter is used.
   */
  method SelectAdapter(hasFactory: bool, descriptions: seq<string>) returns (adapter: Adapter)
    ensures !hasFactory ==> adapter == DefaultAdapter
    ensures adapter.Enumerated? ==>
      && hasFactory
      && adapter.index < |descriptions|
      && IsNvidia(descriptions[adapter.index])
      && forall j :: 0 <= j < adapter.index ==> !IsNvidia(descriptions[j])
    ensures hasFactory && adapter == DefaultAdapter ==>
      forall j :: 0 <= j < |descriptions| ==> !IsNvidia(descriptions[j])
  {
    adapter := DefaultAdapter;
    if hasFactory {
      var i := 0;
      while i < |descriptions|
        invariant 0 <= i <= |descriptions|
        invariant forall j :: 0 <= j < i ==> !IsNvidia(descriptions[j])
      {
        if Find(descriptions[i], "NVIDIA", 0).Some? {
          adapter := Enumerated(i);
          break;
        }
        i := i + 1;
      }
    }
  }

  /**
   * Tries each feature level in order on the given adapter and stops at the
   * first success; `attempts` counts the calls made. The result reported is
   * that of the last call: the first success, or the failure of the last level.
   */
  method CreateDeviceOn(adapter: Adapter, create: (Adapter, FeatureLevel) -> int)
    returns (hr: int, attempts: nat)
    ensures 1 <= attempts <= |Levels|
    ensures hr == create(adapter, Levels[attempts - 1])
    ensures forall j :: 0 <= j < attempts - 1 ==> !Succeeded(create(adapter, Levels[j]))
    ensures Succeeded(hr) || attempts == |Levels|
  {
    hr := create(adapter, Levels[0]);
    attempts := 1;
    while attempts < |Levels| && !Succeeded(hr)
      invariant 1 <= attempts <= |Levels|
      invariant hr == create(adapter, Levels[attempts - 1])
      invariant forall j :: 0 <= j < attempts - 1 ==> !Succeeded(create(adapter, Levels[j]))
    {
      hr := create(adapter, Levels[attempts]);
      attempts := attempts + 1;
    }
  }

  /** `Renderer::CreateDevice`: adapter choice, then the feature-level fallback. */
  method CreateDevice(hasFactory: bool, descriptions: seq<string>, create: (Adapter, FeatureLevel) -> int)
    returns (adapter: Adapter, hr: int, attempts: nat)
    ensures !hasFactory ==> adapter == DefaultAdapter
    ensures adapter.Enumerated? ==>
      && hasFactory
      && adapter.index < |descriptions|
      && IsNvidia(descriptions[adapter.index])
      && forall j :: 0 <= j < adapter.index ==> !IsNvidia(descriptions[j])
    ensures hasFactory && adapter == DefaultAdapter ==>
      forall j :: 0 <= j < |descriptions| ==> !IsNvidia(descriptions[j])
    ensures 1 <= attempts <= |Levels|
    ensures hr == create(adapter, Levels[attempts - 1])
    ensures forall j :: 0 <= j < attempts - 1 ==> !Succeeded(create(adapter, Levels[j]))
    ensures Succeeded(hr) <==> exists j :: 0 <= j < |Levels| && Succeeded(create(adapter, Levels[j]))
    ensures Succeeded(hr) ==> hr == create(adapter, Levels[attempts - 1])
    ensures !Succeeded(hr) ==> hr == create(adapter, Level11_0)
  {
    adapter := SelectAdapter(hasFactory, descriptions);
    hr, attempts := CreateDeviceOn(adapter, create);
  }

  // ------------------------------------------------------- descriptor handles

  /** The CPU handle of descriptor i in a heap starting at `start` with stride `inc`. */
  function RtvHandle(start: nat, inc: nat, i: nat): nat
  {
    (start + i * inc) % PtrModulus
  }

  /** `handle.ptr += inc` on a `SIZE_T` moves from descriptor i to descriptor i + 1. */
  lemma RtvHandleStep(start: nat, inc: nat, i: nat)
    ensures (RtvHandle(start, inc, i) + inc) % PtrModulus == RtvHandle(start, inc, i + 1)
  {
    var a := start + i * inc;
    assert a + inc == start + (i + 1) * inc;
    assert RtvHandle(start, inc, i) == a - PtrModulus * (a / PtrModulus);
  }

  /**
   * `BeginDraw`'s arithmetic `start + index * inc`, with the product taken
   * in 32-bit `UINT` and the sum in `SIZE_T`, lands on the handle the
   * creation loop used for that back buffer: with two buffers the product
   * cannot wrap.
   */
  lemma BeginDrawHandleMatches(start: nat, inc: nat, index: nat)
    requires index < BufferCount && inc < UintModulus
    ensures (start + (index * inc) % UintModulus) % PtrModulus == RtvHandle(start, inc, index)
  {
  }

  // --------------------------------------------------------- the renderer

  datatype Viewport = Viewport(topLeftX: real, topLeftY: real, width: real, height: real,
                               minDepth: real, maxDepth: real)

  datatype Rect = Rect(left: int, top: int, right: int, bottom: int)

  class Renderer {
    var viewPort: Viewport
    var scissorRect: Rect
    /** Width of the constant buffer holding the projection matrix. */
    var constBufferWidth: nat

    var rtvHeapStart: nat
    var rtvIncrement: nat
    /** `backBuffer[i]` is the swap-chain buffer obtained with `GetBuffer(i)`. */
    var backBuffer: seq<nat>
    /** `rtvHandles[i]` is the descriptor where the view of `backBuffer[i]` was written. */
    var rtvHandles: seq<nat>

    var fenceVal: nat
    /** The number of command submissions so far. */
    ghost var commandsRun: nat

    ghost predicate Valid()
      reads this
    {
      && rtvHeapStart < PtrModulus && rtvIncrement < UintModulus
      && |backBuffer| == BufferCount && |rtvHandles| == BufferCount
      && BufferCount <= RtvDescriptorCount
      && (forall i :: 0 <= i < BufferCount ==> backBuffer[i] == i)
      && (forall i :: 0 <= i < BufferCount ==> rtvHandles[i] == RtvHandle(rtvHeapStart, rtvIncrement, i))
      && fenceVal == commandsRun % FenceModulus
    }

    /**
     * `Renderer(width, height, hwnd)` after the device objects exist: render
     * targets, the fence at 0, a viewport and scissor rectangle covering the
     * window, and a 256-byte constant buffer for the projection matrix.
     * The heap start and handle increment are what the device reports.
     */
    constructor (width: int, height: int, heapStart: nat, increment: nat)
      requires heapStart < PtrModulus && increment < UintModulus
      ensures Valid()
      ensures rtvHeapStart == heapStart && rtvIncrement == increment
      ensures fenceVal == 0 && commandsRun == 0
      ensures viewPort == Viewport(0.0, 0.0, width as real, height as real, 0.0, 1.0)
      ensures scissorRect == Rect(0, 0, width, height)
      ensures constBufferWidth == 256
    {
      rtvHeapStart := heapStart;
      rtvIncrement := increment;
      backBuffer := [];
      rtvHandles := [];
      fenceVal := 0;
      commandsRun := 0;
      viewPort := Viewport(0.0, 0.0, width as real, height as real, 0.0, 1.0);
      scissorRect := Rect(0, 0, width, height);
      Alignment.MatrixConstantBufferSize();
      constBufferWidth := Alignment.AlignUp256(Alignment.MatrixSize);
      new;
      CreateRenderTarget();
    }

    /**
     * Gets each back buffer and writes its render-target view at the current
     * handle, advancing the handle by one descriptor per buffer. No more views
     * are written than the heap holds.
     */
    method CreateRenderTarget()
      requires rtvHeapStart < PtrModulus
      modifies this`backBuffer, this`rtvHandles
      ensures |backBuffer| == BufferCount && |rtvHandles| == BufferCount <= RtvDescriptorCount
      ensures forall i :: 0 <= i < BufferCount ==> backBuffer[i] == i
      ensures forall i :: 0 <= i < BufferCount ==> rtvHandles[i] == RtvHandle(rtvHeapStart, rtvIncrement, i)
    {
      backBuffer := seq(BufferCount, _ => 0);
      rtvHandles := [];
      var handle := rtvHeapStart;
      var i := 0;
      while i < BufferCount
        invariant 0 <= i <= BufferCount
        invariant |backBuffer| == BufferCount && |rtvHandles| == i
        invariant forall k :: 0 <= k < i ==> backBuffer[k] == k
        invariant forall k :: 0 <= k < i ==> rtvHandles[k] == RtvHandle(rtvHeapStart, rtvIncrement, k)
        invariant handle == RtvHandle(rtvHeapStart, rtvIncrement, i)
      {
        backBuffer := backBuffer[i := i];
        rtvHandles := rtvHandles + [handle];
        RtvHandleStep(rtvHeapStart, rtvIncrement, i);
        handle := (handle + rtvIncrement) % PtrModulus;
        i := i + 1;
      }
    }

    /**
     * The render-target handle `BeginDraw` binds and clears for the current
     * back buffer: the one created for that buffer.
     */
    method BeginDraw(index: nat) returns (rtv: nat)
      requires Valid() && index < BufferCount
      ensures rtv == rtvHandles[index]
    {
      BeginDrawHandleMatches(rtvHeapStart, rtvIncrement, index);
      rtv := (rtvHeapStart + (index * rtvIncrement) % UintModulus) % PtrModulus;
    }

    /**
     * Submits the command list and signals the fence with the incremented
     * counter; waiting for completion is not modelled. The k-th submission
     * signals k, so signalled values strictly increase until the 64-bit
     * counter wraps.
     */
    method RunCommand() returns (signalled: nat)
      requires Valid()
      modifies this`fenceVal, this`commandsRun
      ensures Valid()
      ensures commandsRun == old(commandsRun) + 1
      ensures fenceVal == (old(fenceVal) + 1) % FenceModulus && signalled == fenceVal
      ensures old(fenceVal) + 1 < FenceModulus ==> signalled == old(fenceVal) + 1
    {
      fenceVal := (fenceVal + 1) % FenceModulus;
      commandsRun := commandsRun + 1;
      signalled := fenceVal;
    }

    /** Ends the frame: transition to present, then `RunCommand`; presenting is not modelled. */
    method EndDraw() returns (signalled: nat)
      requires Valid()
      modifies this`fenceVal, this`commandsRun
      ensures Valid()
      ensures commandsRun == old(commandsRun) + 1
      ensures fenceVal == (old(fenceVal) + 1) % FenceModulus && signalled == fenceVal
    {
      signalled := RunCommand();
    }
  }

  /**
   * Two submissions in a row signal two consecutive values, the second one
   * larger, as long as the 64-bit counter does not wrap in between.
   */
  method SubmitTwice(renderer: Renderer) returns (first: nat, second: nat)
    requires renderer.Valid() && renderer.fenceVal + 2 < FenceModulus
    modifies renderer`fenceVal, renderer`commandsRun
    ensures renderer.Valid()
    ensures first == old(renderer.fenceVal) + 1 && second == first + 1
    ensures first < second == renderer.fenceVal
    ensures renderer.commandsRun == old(renderer.commandsRun) + 2
  {
    first := renderer.RunCommand();
    second := renderer.RunCommand();
  }
}
