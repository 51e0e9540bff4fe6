/**
 * `Window`: the routing of window messages to the keyboard and mouse
 * trackers, and the per-iteration `Run` that stops on `WM_QUIT`, runs
 * frames through the frame gate and shows the window once. Window
 * creation, the message queue and the input trackers are not modelled:
 * the message `PeekMessage` found, if any, and the counter readings are
 * parameters.
 */
module WindowLoop {
  import opened Optional
  import RendererCore
  import FrameRate

  const WM_DESTROY: nat := 0x0002
  const WM_ACTIVATE: nat := 0x0006
  const WM_QUIT: nat := 0x0012
  const WM_ACTIVATEAPP: nat := 0x001C
  const WM_MOUSEACTIVATE: nat := 0x0021
  const WM_INPUT: nat := 0x00FF
  const WM_KEYDOWN: nat := 0x0100
  const WM_KEYUP: nat := 0x0101
  const WM_SYSKEYDOWN: nat := 0x0104
  const WM_SYSKEYUP: nat := 0x0105
  const WM_MENUCHAR: nat := 0x0120
  const WM_MOUSEMOVE: nat := 0x0200
  const WM_LBUTTONDOWN: nat := 0x0201
  const WM_LBUTTONUP: nat := 0x0202
  const WM_RBUTTONDOWN: nat := 0x0204
  const WM_RBUTTONUP: nat := 0x0205
  const WM_MBUTTONDOWN: nat := 0x0207
  const WM_MBUTTONUP: nat := 0x0208
  const WM_MOUSEWHEEL: nat := 0x020A
  const WM_XBUTTONDOWN: nat := 0x020B
  const WM_XBUTTONUP: nat := 0x020C
  const WM_MOUSEHOVER: nat := 0x02A1

  const MNC_CLOSE: nat := 1
  const MA_ACTIVATEANDEAT: nat := 2

  /** `MAKELRESULT(low, high)`: two 16-bit halves packed into one value. */
  function MakeLResult(low: nat, high: nat): (r: nat)
    requires low < 0x1_0000 && high < 0x1_0000
    ensures r % 0x1_0000 == low && r / 0x1_0000 == high
  {
    low + high * 0x1_0000
  }

  /** The window's activation messages, which both trackers want. */
  const ActivationMessages: set<nat> := {WM_ACTIVATE, WM_ACTIVATEAPP}
  const KeyMessages: set<nat> := {WM_KEYDOWN, WM_KEYUP, WM_SYSKEYDOWN, WM_SYSKEYUP}
  /** Raw input, pointer movement, button, wheel and hover messages. */
  const PointerMessages: set<nat> :=
    {WM_INPUT, WM_MOUSEMOVE, WM_LBUTTONDOWN, WM_LBUTTONUP, WM_RBUTTONDOWN, WM_RBUTTONUP,
     WM_MBUTTONDOWN, WM_MBUTTONUP, WM_MOUSEWHEEL, WM_XBUTTONDOWN, WM_XBUTTONUP, WM_MOUSEHOVER}

  /** What `WindowProc` answers: its own value, or whatever `DefWindowProc` says. */
  datatype Reply = CallDefault | Return(value: nat)

  /** Which handlers a message reaches, and how it is answered. */
  datatype Routing = Routing(postQuit: bool, toKeyboard: bool, toMouse: bool, reply: Reply)

  /** The outcome of one `switch`: forward to the tracker, and possibly answer at once. */
  datatype Stage = Stage(forward: bool, early: Option<nat>)

  /** The first `switch`: keyboard forwarding, or an early answer to `WM_MENUCHAR`. */
  function KeyboardStage(msg: nat): Stage
  {
    if msg == WM_ACTIVATE || msg == WM_ACTIVATEAPP then Stage(true, None)
    else if msg == WM_SYSKEYDOWN then Stage(true, None)
    else if msg == WM_KEYDOWN || msg == WM_KEYUP || msg == WM_SYSKEYUP then Stage(true, None)
    else if msg == WM_MENUCHAR then Stage(false, Some(MakeLResult(0, MNC_CLOSE)))
    else Stage(false, None)
  }

  /** The second `switch`: mouse forwarding, or an early answer to `WM_MOUSEACTIVATE`. */
  function MouseStage(msg: nat): Stage
  {
    if msg in ActivationMessages || msg in PointerMessages then Stage(true, None)
    else if msg == WM_MOUSEACTIVATE then Stage(false, Some(MA_ACTIVATEANDEAT))
    else Stage(false, None)
  }

  /**
   * `WindowProc`: `WM_DESTROY` first, then the keyboard stage, then the
   * mouse stage, then `DefWindowProc`; an early answer skips what follows.
   * Its contract is the resulting table, one line per kind of message.
   */
  function WindowProc(msg: nat): (r: Routing)
    ensures msg == WM_DESTROY ==> r == Routing(true, false, false, Return(0))
    ensures msg in ActivationMessages ==> r == Routing(false, true, true, CallDefault)
    ensures msg in KeyMessages ==> r == Routing(false, true, false, CallDefault)
    ensures msg == WM_MENUCHAR ==> r == Routing(false, false, false, Return(0x1_0000))
    ensures msg in PointerMessages ==> r == Routing(false, false, true, CallDefault)
    ensures msg == WM_MOUSEACTIVATE ==> r == Routing(false, false, false, Return(MA_ACTIVATEANDEAT))
    ensures msg !in ActivationMessages + KeyMessages + PointerMessages
              + {WM_DESTROY, WM_MENUCHAR, WM_MOUSEACTIVATE} ==>
      r == Routing(false, false, false, CallDefault)
  {
    if msg == WM_DESTROY then Routing(true, false, false, Return(0))
    else
      var keyboard := KeyboardStage(msg);
      if keyboard.early.Some? then Routing(false, keyboard.forward, false, Return(keyboard.early.value))
      else
        var mouse := MouseStage(msg);
        if mouse.early.Some? then Routing(false, keyboard.forward, mouse.forward, Return(mouse.early.value))
        else Routing(false, keyboard.forward, mouse.forward, CallDefault)
  }

  /** Only `WM_DESTROY` posts the quit message, and `WM_QUIT` itself is just passed on. */
  lemma OnlyDestroyQuits(msg: nat)
    ensures WindowProc(msg).postQuit <==> msg == WM_DESTROY
    ensures WindowProc(WM_QUIT) == Routing(false, false, false, CallDefault)
  {
  }

  class Window {
    var renderer: RendererCore.Renderer
    var fps: FrameRate.FPS
    /** The last message `PeekMessage` returned. */
    var msg: nat
    var show: bool
    /** How often `ShowWindow` has been called. */
    ghost var showCalls: nat
    /** How many frames have run. */
    ghost var frames: nat

    ghost predicate Valid()
      reads this, renderer, fps
    {
      && renderer.Valid() && fps.Valid()
      && showCalls == (if show then 1 else 0)
      && (show <==> frames > 0)
    }

    /**
     * Creates the renderer and initialises the frame gate; the window is
     * not shown yet and no message has been seen. Heap start, handle
     * increment and the counter readings come from the device and the OS.
     */
    constructor (width: int, height: int, frameRate: real,
                 heapStart: nat, increment: nat, frequency: nat, counter: int)
      requires heapStart < RendererCore.PtrModulus && increment < RendererCore.UintModulus
      requires frameRate > 0.0 && frequency > 0
      ensures Valid() && fresh(renderer) && fresh(fps)
      ensures renderer.fenceVal == 0 && renderer.scissorRect == RendererCore.Rect(0, 0, width, height)
      ensures fps.updateFlag && fps.frameRate == frameRate
      ensures !show && msg == 0 && frames == 0
    {
      renderer := new RendererCore.Renderer(width, height, heapStart, increment);
      var gate := new FrameRate.FPS();
      gate.Initialize(frameRate, frequency, counter);
      fps := gate;
      show := false;
      showCalls := 0;
      frames := 0;
      msg := 0;
    }

    /**
     * The frame passed to the gate: begin drawing on the current back
     * buffer, run the game's process, end drawing, and show the window the
     * first time only.
     */
    method Frame(backBufferIndex: nat)
      requires Valid() && backBufferIndex < RendererCore.BufferCount
      modifies this`show, this`showCalls, this`frames, renderer`fenceVal, renderer`commandsRun
      ensures Valid()
      ensures show && frames == old(frames) + 1
      ensures showCalls == 1
      ensures renderer.commandsRun == old(renderer.commandsRun) + 1
    {
      var rtv := renderer.BeginDraw(backBufferIndex);
      var signalled := renderer.EndDraw();
      if !show {
        showCalls := showCalls + 1;
        show := true;
      }
      frames := frames + 1;
    }

    /**
     * One iteration of the main loop. A peeked message replaces `msg`;
     * `WM_QUIT` ends the loop before anything else happens. Otherwise the
     * gate runs, with the frame as its callback (which always asks to
     * continue), and the loop goes on.
     */
    method Run(peeked: Option<nat>, backBufferIndex: nat, startCounter: int, nowCounter: int)
      returns (cont: bool)
      requires Valid() && backBufferIndex < RendererCore.BufferCount
      modifies this`msg, this`show, this`showCalls, this`frames
      modifies renderer`fenceVal, renderer`commandsRun
      modifies fps`updateFlag, fps`updateTime, fps`deltaTime, fps`actualFPS
      ensures Valid()
      ensures msg == (if peeked.Some? then peeked.value else old(msg))
      ensures !cont <==> msg == WM_QUIT
      ensures var ran := cont && old(fps.updateFlag);
        && frames == old(frames) + (if ran then 1 else 0)
        && renderer.commandsRun == old(renderer.commandsRun) + (if ran then 1 else 0)
        && show == (old(show) || ran)
      ensures !cont ==> fps.updateFlag == old(fps.updateFlag) && fps.updateTime == old(fps.updateTime)
      ensures !cont ==> fps.deltaTime == old(fps.deltaTime) && fps.actualFPS == old(fps.actualFPS)
      ensures cont ==> fps.updateTime == (if old(fps.updateFlag) then startCounter else old(fps.updateTime))
      ensures cont ==> (fps.updateFlag <==> FrameRate.IntervalReached(nowCounter - fps.updateTime, fps.freq, fps.frameRate))
      ensures cont && fps.updateFlag ==>
        fps.deltaTime == ((nowCounter - fps.updateTime) as real) / (fps.freq as real)
      ensures !(cont && fps.updateFlag) ==> fps.deltaTime == old(fps.deltaTime) && fps.actualFPS == old(fps.actualFPS)
    {
      if peeked.Some? {
        msg := peeked.value;
      }
      if msg == WM_QUIT {
        return false;
      }
      if fps.updateFlag {
        Frame(backBufferIndex);
      }
      var _, _ := fps.Run(startCounter, true, nowCounter);
      cont := true;
    }
  }
}
