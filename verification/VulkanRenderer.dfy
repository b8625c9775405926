/** The renderer's frame loop against the device of module FrameRing.  Between any two calls
    the GPU does as much or as little as it likes; blocking calls let it work until what they
    wait for has happened. */
module VulkanRenderer {
  import opened Protocol
  import opened FrameRing

  datatype AcquireResult = Success(image: nat) | OutOfDate

  /** What meets one turn of the main loop: the scene to draw, whether a callback asks for a resize
      before it, and what the driver answers. */
  datatype Frame = Frame(scene: Scene, resized: bool, acquireFails: bool, presentOutOfDate: bool)

  /** The frames, the first with a resize that was already asked for. */
  function Noticed(inputs: seq<Frame>, resized: bool): (fs: seq<Frame>)
    ensures |fs| == |inputs|
    ensures forall n | 0 <= n < |inputs| ::
              fs[n] == if n == 0 then inputs[0].(resized := inputs[0].resized || resized) else inputs[n]
  {
    if inputs == [] then [] else inputs[0 := inputs[0].(resized := inputs[0].resized || resized)]
  }

  /** The scenes of the frames that are neither resized nor out of date, in order. */
  function ScenesOf(fs: seq<Frame>): seq<Scene> {
    if fs == [] then []
    else
      var last := fs[|fs| - 1];
      ScenesOf(fs[..|fs| - 1]) + if last.resized || last.acquireFails then [] else [last.scene]
  }

  /** How many frames rebuild the swapchain. */
  function Rebuilds(fs: seq<Frame>): nat {
    if fs == [] then 0
    else
      var last := fs[|fs| - 1];
      Rebuilds(fs[..|fs| - 1]) + if last.resized || last.acquireFails || last.presentOutOfDate then 1 else 0
  }

  lemma OneMoreFrame(fs: seq<Frame>, n: nat)
    requires n < |fs|
    ensures ScenesOf(fs[..n + 1]) ==
            ScenesOf(fs[..n]) + if fs[n].resized || fs[n].acquireFails then [] else [fs[n].scene]
    ensures Rebuilds(fs[..n + 1]) ==
            Rebuilds(fs[..n]) + if fs[n].resized || fs[n].acquireFails || fs[n].presentOutOfDate then 1 else 0
  {
    assert fs[..n + 1][..n] == fs[..n];
  }

  function SubmittedScenes(bs: seq<Submission>): (scenes: seq<Scene>)
    ensures |scenes| == |bs| && forall k | 0 <= k < |bs| :: scenes[k] == bs[k].scene
  {
    seq(|bs|, k requires 0 <= k < |bs| => bs[k].scene)
  }

  class VulkanRenderer {
    const frames: nat
    var device: Device
    var currentFrame: nat
    var framebufferResized: bool
    // the scene of every presentation asked for
    ghost var presented: seq<Scene>

    /** init's part: `n` frame slots, a swapchain of `m` images, one more than the surface's minimum. */
    constructor (n: nat, m: nat)
      requires n > 0 && m >= 2
      ensures Valid() && frames == n && presented == []
    {
      frames := n;
      device := Created(n, m);
      currentFrame, framebufferResized, presented := 0, false, [];
      CreatedGood(n, m);
    }

    ghost predicate Valid()
      reads this
    {
      Inv(device, Boundary) && |device.fences| == frames && |device.images| >= 2 && currentFrame < frames
    }

    /** What the GPU cannot change: the numbers of slots and images, the buffers the CPU writes,
        what has been submitted, and the invariant of the stage the renderer is in. */
    twostate predicate GpuOnly(stage: Stage)
      reads this
    {
      && Inv(old(device), stage) && Inv(device, stage)
      && |device.fences| == |old(device).fences| && |device.images| == |old(device).images|
      && device.submitted == old(device).submitted && device.generation == old(device).generation
      && device.ubos == old(device).ubos && device.commands == old(device).commands
    }

    /** One thing happens on the device, any that can. */
    method OneEvent(ghost stage: Stage)
      requires Inv(device, stage) && EnabledEvents(device) != {}
      modifies this`device
      ensures GpuOnly(stage) && LessWork(device, old(device))
    {
      var e :| e in EnabledEvents(device);
      GpuKeepsInv(device, stage, e);
      EventsUseUpWork(device, e);
      device := GpuStep(device, e);
    }

    /** Any number of things happen on the device. */
    method TimePasses(ghost stage: Stage)
      requires Inv(device, stage)
      modifies this`device
      ensures GpuOnly(stage)
    {
      while *
        invariant GpuOnly(stage)
        decreases |device.pending|, |Unstarted(device)|, |Unready(device)|, |QueuedImages(device)|,
                  |ShownImages(device)|
      {
        if EnabledEvents(device) == {} {
          break;
        }
        OneEvent(stage);
      }
    }

    /** vkWaitForFences without a timeout.  It returns: the work in flight decreases with every
        event, and something can happen as long as the fence is unsignalled. */
    method WaitForFence(s: nat)
      requires Inv(device, Boundary) && s < |device.fences|
      modifies this`device
      ensures GpuOnly(Boundary) && Inv(device, Waited(s))
    {
      while device.fences[s] != Signaled
        invariant GpuOnly(Boundary)
        decreases |device.pending|, |Unstarted(device)|, |Unready(device)|, |QueuedImages(device)|,
                  |ShownImages(device)|
      {
        if EnabledEvents(device) == {} {
          NoDeadlock(device, Boundary);
        }
        OneEvent(Boundary);
      }
      FenceOrSubmission(device, s);
    }

    /** The wait inside an acquire without a timeout.  It returns because the swapchain has an image
        besides the one on display. */
    method WaitForImage(s: nat)
      requires Inv(device, Waited(s)) && |device.images| >= 2
      modifies this`device
      ensures GpuOnly(Waited(s)) && SomeImageFree(device)
    {
      while !SomeImageFree(device)
        invariant GpuOnly(Waited(s))
        decreases |device.pending|, |Unstarted(device)|, |Unready(device)|, |QueuedImages(device)|,
                  |ShownImages(device)|
      {
        if EnabledEvents(device) == {} {
          NoDeadlock(device, Waited(s));
        }
        OneEvent(Waited(s));
      }
    }

    /** vkAcquireNextImageKHR: out of date (`fails`) with nothing changed, or some free image as soon as
        there is one.  A suboptimal result counts as success. */
    method AcquireNextImage(s: nat, fails: bool) returns (result: AcquireResult)
      requires Inv(device, Waited(s)) && |device.images| >= 2
      modifies this`device
      ensures SameRing() && device.submitted == old(device.submitted)
      ensures result.OutOfDate? <==> fails
      ensures match result
              case OutOfDate => device == old(device)
              case Success(i) => Inv(device, Holding(s, i))
    {
      if fails {
        return OutOfDate;
      }
      WaitForImage(s);
      var image :| 0 <= image < |device.images| && device.images[image] == Free;
      AcquireKeepsInv(device, s, image);
      device := Acquire(device, s, image);
      return Success(image);
    }

    /** The ring is the same: slots, images, swapchain. */
    twostate predicate SameRing()
      reads this`device
    {
      && |device.fences| == |old(device).fences| && |device.images| == |old(device).images|
      && device.generation == old(device).generation
    }

    /** vkDeviceWaitIdle, taken to wait for the presentations queued so far as well as for the
        submissions (FrameRing.RecreateExactly says what depends on that). */
    method DeviceWaitIdle()
      requires Inv(device, Boundary)
      modifies this`device
      ensures GpuOnly(Boundary) && QueuesIdle(device)
    {
      while !QueuesIdle(device)
        invariant GpuOnly(Boundary)
        decreases |device.pending|, |Unstarted(device)|, |Unready(device)|, |QueuedImages(device)|,
                  |ShownImages(device)|
      {
        if EnabledEvents(device) == {} {
          NoDeadlock(device, Boundary);
        }
        OneEvent(Boundary);
      }
    }

    /** Nothing is in flight: every image free and blank, every fence signalled. */
    ghost predicate Blanked()
      reads this`device
    {
      && device.pending == {} && (forall s | 0 <= s < |device.fences| :: device.fences[s] == Signaled)
      && (forall i | 0 <= i < |device.images| ::
            device.images[i] == Free && i < |device.pictures| && device.pictures[i] == Blank)
    }

    /** The next swapchain, with nothing in flight. */
    twostate predicate Rebuilt()
      reads this`device
    {
      && Inv(device, Boundary) && |device.fences| == |old(device).fences| && |device.images| >= 2
      && device.generation == old(device).generation + 1 && device.submitted == old(device).submitted
      && Blanked()
    }

    /** recreateSwapchain: the new swapchain may have another number of images. */
    method RecreateSwapchain()
      requires Inv(device, Boundary)
      modifies this`device
      ensures Rebuilt()
    {
      DeviceWaitIdle();
      var imageCount: int := *;
      if imageCount < 2 {
        imageCount := 2;
      }
      IdleIsQuiet(device);
      RecreateKeepsInv(device, imageCount);
      device := Recreate(device, imageCount);
    }

    /** What drawFrame does about an outdated swapchain. */
    method Rebuild()
      requires Inv(device, Boundary)
      modifies this`device, this`framebufferResized
      ensures Rebuilt() && !framebufferResized
    {
      DeviceWaitIdle();
      RecreateSwapchain();
      framebufferResized := false;
    }

    /** The calls between a successful acquire and the submission. */
    method Prepare(s: nat, image: nat, scene: Scene)
      requires Inv(device, Holding(s, image))
      modifies this`device
      ensures Inv(device, Ready(s, image)) && SameRing() && device.submitted == old(device.submitted)
      ensures device.ubos[s] == scene && device.commands[s] == Recorded(image, scene)
    {
      ResetKeepsInv(device, s, image);
      device := Reset(device, s);
      TimePasses(Ready(s, image));
      WriteKeepsInv(device, s, image, scene);
      device := WriteUniform(device, s, scene);
      TimePasses(Ready(s, image));
      WriteKeepsInv(device, s, image, scene);
      device := Record(device, s, image, scene);
      TimePasses(Ready(s, image));
    }

    /** Submission and presentation: one submission for this slot, image and scene. */
    method SubmitAndPresent(s: nat, image: nat, scene: Scene)
      requires Inv(device, Ready(s, image)) && device.ubos[s] == scene && device.commands[s] == Recorded(image, scene)
      modifies this`device, this`presented
      ensures Inv(device, Boundary) && SameRing()
      ensures device.submitted == old(device.submitted) + [Submission(s, image, image, scene)]
      ensures presented == old(presented) + [scene]
    {
      SubmitKeepsInv(device, s, image, scene);
      device := Submit(device, s, image, image, scene);
      TimePasses(Submitted(s, image, scene));
      PresentKeepsInv(device, s, image, scene);
      device := Present(device, image, image, scene);
      presented := presented + [scene];
    }

    /** The frame was drawn: one submission more, for this slot and scene, and one presentation. */
    twostate predicate Drawn(scene: Scene)
      reads this
    {
      && presented == old(presented) + [scene]
      && |device.submitted| == |old(device).submitted| + 1 && old(device).submitted <= device.submitted
      && device.submitted[|old(device).submitted|].slot == old(currentFrame)
      && device.submitted[|old(device).submitted|].scene == scene
      && 0 < frames && currentFrame == (old(currentFrame) + 1) % frames
    }

    /** drawFrame.  No rule of the device is ever broken (`Valid` holds the list of violations
        empty).  The frame is drawn exactly when no resize was asked for and the acquire is not out of
        date; it then submits and presents its scene and moves to the next slot, and the swapchain is
        rebuilt exactly if the presentation says so.  Otherwise it is rebuilt, with the same slot next
        and nothing submitted. */
    method DrawFrame(scene: Scene, acquireFails: bool, presentOutOfDate: bool) returns (drawn: bool)
      requires Valid()
      modifies this
      ensures Valid() && !framebufferResized
      ensures drawn <==> !old(framebufferResized) && !acquireFails
      ensures drawn ==> Drawn(scene)
      ensures drawn && presentOutOfDate ==> device.generation == old(device.generation) + 1 && Blanked()
      ensures drawn && !presentOutOfDate ==> SameRing()
      ensures !drawn ==> Rebuilt() && presented == old(presented) && currentFrame == old(currentFrame)
    {
      if framebufferResized {
        Rebuild();
        return false;
      }
      TimePasses(Boundary);
      WaitForFence(currentFrame);
      TimePasses(Waited(currentFrame));
      var result := AcquireNextImage(currentFrame, acquireFails);
      if result.OutOfDate? {
        BackToBoundary(device, currentFrame);
        Rebuild();
        return false;
      }
      drawn := true;
      DrawImage(result.image, scene);
      if presentOutOfDate || framebufferResized {
        Rebuild();
      }
      currentFrame := (currentFrame + 1) % frames;
    }

    /** drawFrame once it holds an image. */
    method DrawImage(image: nat, scene: Scene)
      requires currentFrame < |device.fences| && Inv(device, Holding(currentFrame, image))
      modifies this`device, this`presented
      ensures Inv(device, Boundary) && SameRing() && presented == old(presented) + [scene]
      ensures device.submitted == old(device.submitted) + [Submission(currentFrame, image, image, scene)]
    {
      TimePasses(Holding(currentFrame, image));
      Prepare(currentFrame, image, scene);
      SubmitAndPresent(currentFrame, image, scene);
    }

    /** The main loop.  A frame is drawn exactly when no resize came before it and its acquire is not
        out of date: the scenes submitted and presented are those of these frames, in order, and the
        swapchain is rebuilt once for each frame with a resize, an acquire or a presentation out of date.
        In every run, at every frame boundary, at most one submission per slot is in flight, each
        fence is signalled or about to be, and every image shown shows one scene whole. */
    method Run(inputs: seq<Frame>)
      requires Valid()
      modifies this
      ensures Valid() && device.violations == {} && |device.pending| <= frames
      ensures presented == old(presented) + ScenesOf(Noticed(inputs, old(framebufferResized)))
      ensures SubmittedScenes(device.submitted) ==
              old(SubmittedScenes(device.submitted)) + ScenesOf(Noticed(inputs, old(framebufferResized)))
      ensures device.generation == old(device.generation) + Rebuilds(Noticed(inputs, old(framebufferResized)))
      ensures forall s | 0 <= s < frames :: device.fences[s] == Signaled <==> !SlotPending(device, s)
      ensures forall i | 0 <= i < |device.images| && device.images[i].Shown? ::
                device.pictures[i] == Picture(device.images[i].scene, device.images[i].scene)
    {
      ghost var all := Noticed(inputs, framebufferResized);
      for n := 0 to |inputs|
        invariant Valid() && framebufferResized == (n == 0 && old(framebufferResized))
        invariant presented == old(presented) + ScenesOf(all[..n])
        invariant SubmittedScenes(device.submitted) == old(SubmittedScenes(device.submitted)) + ScenesOf(all[..n])
        invariant device.generation == old(device.generation) + Rebuilds(all[..n])
      {
        TakeFrame(inputs[n], all, n, old(presented), old(SubmittedScenes(device.submitted)), old(device.generation));
      }
      assert all[..|inputs|] == all;
      AtMostOnePerSlot(device, Boundary);
      forall s | 0 <= s < frames
        ensures device.fences[s] == Signaled <==> !SlotPending(device, s)
      {
        FenceOrSubmission(device, s);
      }
      forall i | 0 <= i < |device.images| && device.images[i].Shown?
        ensures device.pictures[i] == Picture(device.images[i].scene, device.images[i].scene)
      {
        assert ImageGood(device, Boundary, i);
      }
    }

    /** One turn of the main loop: a callback may have asked for a resize. */
    method TakeFrame(f: Frame, ghost all: seq<Frame>, ghost n: nat, ghost presented0: seq<Scene>,
                     ghost submitted0: seq<Scene>, ghost generation0: nat)
      requires Valid() && n < |all| && all[n] == f.(resized := f.resized || framebufferResized)
      requires presented == presented0 + ScenesOf(all[..n])
      requires SubmittedScenes(device.submitted) == submitted0 + ScenesOf(all[..n])
      requires device.generation == generation0 + Rebuilds(all[..n])
      modifies this
      ensures Valid() && !framebufferResized
      ensures presented == presented0 + ScenesOf(all[..n + 1])
      ensures SubmittedScenes(device.submitted) == submitted0 + ScenesOf(all[..n + 1])
      ensures device.generation == generation0 + Rebuilds(all[..n + 1])
    {
      OneMoreFrame(all, n);
      if f.resized {
        framebufferResized := true;
      }
      var drawn := DrawFrame(f.scene, f.acquireFails, f.presentOutOfDate);
      TimePasses(Boundary);
    }

    /** cleanup: nothing is destroyed while in use. */
    method Cleanup()
      requires Valid()
      modifies this`device
      ensures device.violations == {}
    {
      DeviceWaitIdle();
      DestroyIsClean(device);
      device := DestroyAll(device);
    }
  }
}
