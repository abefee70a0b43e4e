/**
 * The renderer frontend (renderer/renderer_frontend.c): the begin/end/draw
 * protocol over a backend, and the frame counter the backend carries. What
 * the backend's initialize, begin_frame and end_frame return is an input;
 * the frame's delta time is not used by the frontend's logic and is left out.
 */
module Renderer {
  /** The part of `renderer_backend` the frontend reads and writes. */
  class RendererBackend {
    var frameNumber: nat

    constructor ()
      ensures frameNumber == 0
    {
      frameNumber := 0;
    }
  }

  /** The results the backend gives during one `renderer_draw_frame`. */
  datatype FrameResults = FrameResults(begin: bool, end: bool)

  /** What `renderer_draw_frame` returns: false exactly when the frame began and its end failed. */
  function DrawResult(f: FrameResults): (ok: bool)
    ensures !ok <==> f.begin && !f.end
    ensures !f.begin ==> ok
  {
    if f.begin then f.end else true
  }

  /** The frame number after one draw: end_frame runs, and counts, only when begin succeeded. */
  function AfterDraw(frameNumber: nat, f: FrameResults): (n: nat)
    ensures n == frameNumber || n == frameNumber + 1
    ensures n == frameNumber + 1 <==> f.begin
  {
    if f.begin then frameNumber + 1 else frameNumber
  }

  /** The frame number after a sequence of draws. */
  function AfterDraws(frameNumber: nat, frames: seq<FrameResults>): nat
    decreases |frames|
  {
    if |frames| == 0 then frameNumber else AfterDraws(AfterDraw(frameNumber, frames[0]), frames[1..])
  }

  /** How many of the frames began successfully. */
  function SuccessfulBegins(frames: seq<FrameResults>): (n: nat)
    ensures n <= |frames|
    decreases |frames|
  {
    if |frames| == 0 then 0 else (if frames[0].begin then 1 else 0) + SuccessfulBegins(frames[1..])
  }

  /**
   * Over any sequence of draws the frame number grows by exactly the number
   * of frames whose begin succeeded, whether or not their end did.
   */
  lemma {:induction false} FrameNumberCountsBegins(frameNumber: nat, frames: seq<FrameResults>)
    ensures AfterDraws(frameNumber, frames) == frameNumber + SuccessfulBegins(frames)
    decreases |frames|
  {
    if |frames| > 0 {
      FrameNumberCountsBegins(AfterDraw(frameNumber, frames[0]), frames[1..]);
    }
  }

  /**
   * With the Vulkan backend's stub frame functions, which always succeed
   * (VulkanBackend.BeginFrame and VulkanBackend.EndFrame both ensure `ok`),
   * every frame's results are (true, true), so every draw succeeds and counts
   * one frame.
   */
  lemma StubBackendCountsEveryDraw(frameNumber: nat, frames: seq<FrameResults>)
    requires forall i :: 0 <= i < |frames| ==> frames[i] == FrameResults(true, true)
    ensures AfterDraws(frameNumber, frames) == frameNumber + |frames|
    ensures forall i :: 0 <= i < |frames| ==> DrawResult(frames[i])
  {
    FrameNumberCountsBegins(frameNumber, frames);
    AllBeginsCount(frames);
  }

  lemma {:induction false} AllBeginsCount(frames: seq<FrameResults>)
    requires forall i :: 0 <= i < |frames| ==> frames[i].begin
    ensures SuccessfulBegins(frames) == |frames|
    decreases |frames|
  {
    if |frames| > 0 {
      assert forall i :: 0 <= i < |frames[1..]| ==> frames[1..][i] == frames[i + 1];
      AllBeginsCount(frames[1..]);
    }
  }

  /** The frontend's static state: the backend, null before initialize. */
  class Frontend {
    var backend: RendererBackend?

    constructor ()
      ensures backend == null
    {
      backend := null;
    }

    /**
     * `renderer_initialize`: a fresh backend whose frame number is 0;
     * succeeds exactly when the backend's initialize does.
     */
    method Initialize(backendInitialized: bool) returns (ok: bool)
      modifies this
      ensures backend != null && fresh(backend) && backend.frameNumber == 0
      ensures ok == backendInitialized
    {
      backend := new RendererBackend();
      backend.frameNumber := 0;
      if !backendInitialized {
        return false;
      }
      return true;
    }

    /** `renderer_begin_frame`: the backend's answer; the frame number stays. */
    method BeginFrame(backendResult: bool) returns (ok: bool)
      requires backend != null
      ensures ok == backendResult
    {
      ok := backendResult;
    }

    /** `renderer_end_frame`: the backend's answer; the frame number goes up by one either way. */
    method EndFrame(backendResult: bool) returns (ok: bool)
      requires backend != null
      modifies backend
      ensures ok == backendResult
      ensures backend.frameNumber == old(backend.frameNumber) + 1
    {
      ok := backendResult;
      backend.frameNumber := backend.frameNumber + 1;
    }

    /**
     * `renderer_draw_frame`: ends the frame only when it began; fails only
     * when the end failed.
     */
    method DrawFrame(f: FrameResults) returns (ok: bool)
      requires backend != null
      modifies backend
      ensures ok == DrawResult(f)
      ensures backend.frameNumber == AfterDraw(old(backend.frameNumber), f)
    {
      var began := BeginFrame(f.begin);
      if began {
        var result := EndFrame(f.end);
        if !result {
          return false;
        }
      }
      return true;
    }
  }
}
