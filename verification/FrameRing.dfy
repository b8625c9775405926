/** The device side of the frame ring: fences, binary semaphores, swapchain images and the
    submissions in flight, with the GPU completing work in any order.  The rules for what a
    caller may do come from sections 7.3 (Fences) and 7.4 (Semaphores) of the Vulkan
    specification; a call that breaks one is recorded in `violations`. */
module FrameRing {
  import opened Protocol

  datatype Fence = Unsignaled | Signaled

  /** A binary semaphore: where its signal operation is, and whether a wait is queued. */
  datatype SignalState = Off | OnItsWay | On
  datatype Semaphore = Semaphore(signal: SignalState, waitPending: bool)

  const IDLE := Semaphore(Off, false)

  /** A scene is one copy of the players with one camera; a picture is what a submission made
      of the uniform buffer and the command buffer it read. */
  type Scene = nat
  datatype Picture = Blank | Picture(camera: Scene, players: Scene)

  datatype Image = Free | Acquired | Queued(scene: Scene, wait: nat) | Shown(scene: Scene)
  datatype Recorded = Empty | Recorded(image: nat, players: Scene)

  /** One submission: its frame slot, the image it draws, the semaphore it signals. */
  datatype Submission = Submission(slot: nat, image: nat, signal: nat, scene: Scene)

  datatype Violation =
    | AcquireWithBusySemaphore
    | FenceResetWhilePending
    | CommandBufferChangedWhilePending
    | UniformWrittenWhilePending
    | SubmitWithFenceInUse
    | SubmitWaitNeverSignaled
    | SignaledTwiceWithoutWait
    | PresentOfImageNotAcquired
    | PresentWaitNeverSignaled
    | SwapchainDestroyedInUse
    | SyncObjectDestroyedInUse

  /** Fences, `available` semaphores, uniform and command buffers per frame slot; `finished`
      semaphores, images and pictures per swapchain image; the image on display; and, for the
      record, every submission ever made and how many swapchains there have been. */
  datatype Device = Device(fences: seq<Fence>, available: seq<Semaphore>, ubos: seq<Scene>, commands: seq<Recorded>,
                           finished: seq<Semaphore>, images: seq<Image>, pictures: seq<Picture>, display: Option<nat>,
                           submitted: seq<Submission>, generation: nat,
                           pending: set<Submission>, running: set<Submission>, violations: set<Violation>)

  predicate SlotPending(d: Device, s: nat) {
    exists b | b in d.pending :: b.slot == s
  }

  predicate ImagePending(d: Device, i: nat) {
    exists b | b in d.pending :: b.image == i
  }

  predicate Shaped(d: Device) {
    && 0 < |d.fences| == |d.available| == |d.ubos| == |d.commands|
    && 0 < |d.finished| == |d.images| == |d.pictures|
  }

  function Check(d: Device, ok: bool, v: Violation): Device {
    if ok then d else d.(violations := d.violations + {v})
  }

  // ----- what the GPU and the presentation engine do, in any order -----
  //
  // The engine keeps the image it put on display last, and gives an older one back at some time.

  datatype GpuEvent =
    | ImageReady(slot: nat)
    | Start(b: Submission)
    | Finish(b: Submission)
    | PresentWaits(image: nat)
    | Release(image: nat)

  predicate Enabled(d: Device, e: GpuEvent) {
    match e
    case ImageReady(s) => s < |d.available| && d.available[s].signal == OnItsWay
    case Start(b) => b in d.pending - d.running && b.slot < |d.available| && d.available[b.slot] == Semaphore(On, true)
    case Finish(b) =>
      b in d.pending && b in d.running && b.slot < |d.fences| && b.slot < |d.ubos| && b.slot < |d.commands| &&
        b.signal < |d.finished|
    case PresentWaits(i) =>
      i < |d.images| && d.images[i].Queued? && d.images[i].wait < |d.finished| &&
        d.finished[d.images[i].wait] == Semaphore(On, true)
    case Release(i) => i < |d.images| && d.images[i].Shown? && d.display != Some(i)
  }

  function GpuStep(d: Device, e: GpuEvent): Device
    requires Enabled(d, e)
  {
    match e
    case ImageReady(s) => d.(available := d.available[s := d.available[s].(signal := On)])
    case Start(b) => d.(available := d.available[b.slot := IDLE], running := d.running + {b})
    case Finish(b) =>
      var c := d.commands[b.slot];
      d.(pending := d.pending - {b}, running := d.running - {b}, fences := d.fences[b.slot := Signaled],
         finished := d.finished[b.signal := d.finished[b.signal].(signal := On)],
         pictures := if c.Recorded? && c.image < |d.pictures|
                     then d.pictures[c.image := Picture(d.ubos[b.slot], c.players)] else d.pictures)
    case PresentWaits(i) =>
      d.(finished := d.finished[d.images[i].wait := IDLE], images := d.images[i := Shown(d.images[i].scene)],
         display := Some(i))
    case Release(i) => d.(images := d.images[i := Free])
  }

  /** Everything that could happen next. */
  function EnabledEvents(d: Device): (es: set<GpuEvent>)
    ensures forall e :: e in es <==> Enabled(d, e)
  {
    (set s | 0 <= s < |d.available| && Enabled(d, ImageReady(s)) :: ImageReady(s)) +
    (set b | b in d.pending && Enabled(d, Start(b)) :: Start(b)) +
    (set b | b in d.pending && Enabled(d, Finish(b)) :: Finish(b)) +
    (set i | 0 <= i < |d.images| && Enabled(d, PresentWaits(i)) :: PresentWaits(i)) +
    (set i | 0 <= i < |d.images| && Enabled(d, Release(i)) :: Release(i))
  }

  // ----- the calls of the renderer -----

  /** vkAcquireNextImageKHR handing out image `i`. */
  function Acquire(d: Device, s: nat, i: nat): Device
    requires Shaped(d) && s < |d.fences| && i < |d.images|
  {
    Check(d, d.available[s] == IDLE, AcquireWithBusySemaphore)
      .(available := d.available[s := Semaphore(OnItsWay, false)], images := d.images[i := Acquired])
  }

  /** vkResetFences and vkResetCommandBuffer for one slot. */
  function Reset(d: Device, s: nat): Device
    requires Shaped(d) && s < |d.fences|
  {
    var d1 := Check(d, !SlotPending(d, s), FenceResetWhilePending);
    Check(d1, !SlotPending(d, s), CommandBufferChangedWhilePending)
      .(fences := d.fences[s := Unsignaled], commands := d.commands[s := Empty])
  }

  /** The copy into the mapped uniform buffer. */
  function WriteUniform(d: Device, s: nat, scene: Scene): Device
    requires Shaped(d) && s < |d.fences|
  {
    Check(d, !SlotPending(d, s), UniformWrittenWhilePending).(ubos := d.ubos[s := scene])
  }

  /** recordCommandBuffer. */
  function Record(d: Device, s: nat, i: nat, scene: Scene): Device
    requires Shaped(d) && s < |d.fences|
  {
    Check(d, !SlotPending(d, s), CommandBufferChangedWhilePending).(commands := d.commands[s := Recorded(i, scene)])
  }

  /** vkQueueSubmit: waits for available[s], signals finished[signal] and the fence of `s`. */
  function Submit(d: Device, s: nat, i: nat, signal: nat, scene: Scene): Device
    requires Shaped(d) && s < |d.fences| && signal < |d.finished|
  {
    var d1 := Check(d, d.fences[s] == Unsignaled && !SlotPending(d, s), SubmitWithFenceInUse);
    var d2 := Check(d1, d.available[s].signal != Off && !d.available[s].waitPending, SubmitWaitNeverSignaled);
    Check(d2, d.finished[signal] == IDLE, SignaledTwiceWithoutWait)
      .(pending := d.pending + {Submission(s, i, signal, scene)},
        submitted := d.submitted + [Submission(s, i, signal, scene)],
        available := d.available[s := d.available[s].(waitPending := true)],
        finished := d.finished[signal := Semaphore(OnItsWay, d.finished[signal].waitPending)])
  }

  /** vkQueuePresentKHR: waits for finished[wait].  The wait is queued whatever the result. */
  function Present(d: Device, i: nat, wait: nat, scene: Scene): Device
    requires Shaped(d) && i < |d.images| && wait < |d.finished|
  {
    var d1 := Check(d, d.images[i] == Acquired, PresentOfImageNotAcquired);
    Check(d1, d.finished[wait].signal != Off && !d.finished[wait].waitPending, PresentWaitNeverSignaled)
      .(images := d.images[i := Queued(scene, wait)],
        finished := d.finished[wait := d.finished[wait].(waitPending := true)])
  }

  /** No submission runs and no presentation waits. */
  predicate QueuesIdle(d: Device) {
    d.pending == {} && forall i | 0 <= i < |d.images| :: !d.images[i].Queued?
  }

  predicate SemaphoresIdle(ss: seq<Semaphore>) {
    forall k | 0 <= k < |ss| :: ss[k] == IDLE
  }

  /** The swapchain part of recreateSwapchain: old images and their semaphores go, `m` new come. */
  function Recreate(d: Device, m: nat): Device {
    var unused := QueuesIdle(d) && forall i | 0 <= i < |d.images| :: !d.images[i].Acquired?;
    var d1 := Check(d, unused, SwapchainDestroyedInUse);
    Check(d1, SemaphoresIdle(d.finished), SyncObjectDestroyedInUse)
      .(finished := seq(m, _ => IDLE), images := seq(m, _ => Free), pictures := seq(m, _ => Blank), display := None,
        generation := d.generation + 1)
  }

  /** cleanup: everything goes. */
  function DestroyAll(d: Device): Device {
    var d1 := Check(d, QueuesIdle(d), SwapchainDestroyedInUse);
    Check(d1, SemaphoresIdle(d.finished) && SemaphoresIdle(d.available), SyncObjectDestroyedInUse)
      .(fences := [], available := [], ubos := [], commands := [], finished := [], images := [], pictures := [],
        display := None)
  }

  // ----- the invariant -----

  /** Where in drawFrame the renderer is: at a frame boundary, past its fence wait, holding an
      image, past the fence reset, or between submission and presentation. */
  datatype Stage =
    | Boundary
    | Waited(slot: nat)
    | Holding(slot: nat, image: nat)
    | Ready(slot: nat, image: nat)
    | Submitted(slot: nat, image: nat, scene: Scene)

  /** A submission in flight has a slot and an image to itself, its fence is still to come, its
      buffers still hold its own scene, and its semaphores are about to be used by it alone. */
  ghost predicate SubmissionGood(d: Device, stage: Stage, b: Submission)
    requires Shaped(d)
  {
    && b.slot < |d.fences| && b.image < |d.images| && b.signal == b.image
    && d.fences[b.slot] == Unsignaled
    && (if b in d.running then d.available[b.slot] == IDLE
        else d.available[b.slot].waitPending && d.available[b.slot].signal != Off)
    && d.ubos[b.slot] == b.scene && d.commands[b.slot] == Recorded(b.image, b.scene)
    && d.finished[b.image].signal == OnItsWay
    && (d.images[b.image] == Queued(b.scene, b.image) ||
        (d.images[b.image] == Acquired && stage == Submitted(b.slot, b.image, b.scene)))
  }

  /** A slot with nothing in flight is signalled and quiet, but for the slot of the frame being
      drawn. */
  ghost predicate SlotGood(d: Device, stage: Stage, s: nat)
    requires Shaped(d) && s < |d.fences|
  {
    !SlotPending(d, s) ==>
      && (d.fences[s] == Unsignaled <==> stage.Ready? && stage.slot == s)
      && (if (stage.Holding? || stage.Ready?) && stage.slot == s
          then d.available[s].signal != Off && !d.available[s].waitPending
          else d.available[s] == IDLE)
  }

  /** An image that is free or shown is quiet; a queued one waits for its submission or for the
      wait itself; only the frame being drawn holds one. */
  ghost predicate ImageGood(d: Device, stage: Stage, i: nat)
    requires Shaped(d) && i < |d.images|
  {
    match d.images[i]
    case Free => d.finished[i] == IDLE && !ImagePending(d, i)
    case Shown(scene) => d.finished[i] == IDLE && !ImagePending(d, i) && d.pictures[i] == Picture(scene, scene)
    case Queued(scene, wait) =>
      && wait == i && d.finished[i].waitPending
      && (!ImagePending(d, i) ==> d.finished[i].signal == On && d.pictures[i] == Picture(scene, scene))
    case Acquired =>
      && (stage.Holding? || stage.Ready? || stage.Submitted?) && stage.image == i
      && if stage.Submitted? then
           && !d.finished[i].waitPending
           && (!ImagePending(d, i) ==> d.finished[i].signal == On && d.pictures[i] == Picture(stage.scene, stage.scene))
         else d.finished[i] == IDLE && !ImagePending(d, i)
  }

  ghost predicate StageGood(d: Device, stage: Stage)
    requires Shaped(d)
  {
    match stage
    case Boundary => true
    case Waited(s) => s < |d.fences| && !SlotPending(d, s)
    case Holding(s, i) => s < |d.fences| && !SlotPending(d, s) && i < |d.images| && d.images[i] == Acquired
    case Ready(s, i) => s < |d.fences| && !SlotPending(d, s) && i < |d.images| && d.images[i] == Acquired
    case Submitted(s, i, _) => s < |d.fences| && i < |d.images| && d.images[i] == Acquired
  }

  ghost predicate Distinct(d: Device) {
    forall a, b | a in d.pending && b in d.pending && a != b :: a.slot != b.slot && a.image != b.image
  }

  predicate DisplayGood(d: Device) {
    d.display.Some? ==> d.display.value < |d.images| && d.images[d.display.value].Shown?
  }

  ghost predicate Inv(d: Device, stage: Stage) {
    && Shaped(d) && StageGood(d, stage) && Distinct(d) && DisplayGood(d)
    && d.running <= d.pending
    && (forall b | b in d.pending :: SubmissionGood(d, stage, b))
    && (forall s | 0 <= s < |d.fences| :: SlotGood(d, stage, s))
    && (forall i | 0 <= i < |d.images| :: ImageGood(d, stage, i))
    && d.violations == {}
  }

  // ----- the GPU keeps it, whatever it does next -----

  lemma ImageReadyKeepsInv(d: Device, stage: Stage, s: nat)
    requires Inv(d, stage) && Enabled(d, ImageReady(s))
    ensures Inv(GpuStep(d, ImageReady(s)), stage)
  {
    var d' := GpuStep(d, ImageReady(s));
    assert forall t :: SlotPending(d', t) == SlotPending(d, t);
    assert forall i :: ImagePending(d', i) == ImagePending(d, i);
    assert SlotGood(d, stage, s);
    assert forall t | 0 <= t < |d.fences| :: SlotGood(d, stage, t) ==> SlotGood(d', stage, t);
    assert forall b | b in d.pending :: SubmissionGood(d, stage, b) ==> SubmissionGood(d', stage, b);
    assert forall i | 0 <= i < |d.images| :: ImageGood(d, stage, i) ==> ImageGood(d', stage, i);
  }

  lemma StartKeepsInv(d: Device, stage: Stage, b: Submission)
    requires Inv(d, stage) && Enabled(d, Start(b))
    ensures Inv(GpuStep(d, Start(b)), stage)
  {
    var d' := GpuStep(d, Start(b));
    assert SlotPending(d, b.slot);
    assert forall t :: SlotPending(d', t) == SlotPending(d, t);
    assert forall i :: ImagePending(d', i) == ImagePending(d, i);
    assert forall t | 0 <= t < |d.fences| :: SlotGood(d, stage, t) ==> SlotGood(d', stage, t);
    assert forall c | c in d.pending :: SubmissionGood(d, stage, c) ==> SubmissionGood(d', stage, c);
    assert forall i | 0 <= i < |d.images| :: ImageGood(d, stage, i) ==> ImageGood(d', stage, i);
  }

  lemma FinishFrees(d: Device, stage: Stage, b: Submission)
    requires Inv(d, stage) && Enabled(d, Finish(b))
    ensures var d' := GpuStep(d, Finish(b));
            && (forall t :: SlotPending(d', t) <==> SlotPending(d, t) && t != b.slot)
            && (forall i :: ImagePending(d', i) <==> ImagePending(d, i) && i != b.image)
  {
    assert SlotPending(d, b.slot) && ImagePending(d, b.image);
  }

  lemma FinishKeepsSubmissions(d: Device, stage: Stage, b: Submission)
    requires Inv(d, stage) && Enabled(d, Finish(b))
    ensures Shaped(GpuStep(d, Finish(b)))
    ensures forall c | c in GpuStep(d, Finish(b)).pending :: SubmissionGood(GpuStep(d, Finish(b)), stage, c)
  {
    var d' := GpuStep(d, Finish(b));
    forall c | c in d'.pending
      ensures SubmissionGood(d', stage, c)
    {
      assert SubmissionGood(d, stage, c);
    }
  }

  lemma FinishKeepsInv(d: Device, stage: Stage, b: Submission)
    requires Inv(d, stage) && Enabled(d, Finish(b))
    ensures Inv(GpuStep(d, Finish(b)), stage)
  {
    var d' := GpuStep(d, Finish(b));
    FinishFrees(d, stage, b);
    FinishKeepsSubmissions(d, stage, b);
    assert SubmissionGood(d, stage, b);
    assert forall t | 0 <= t < |d.fences| :: SlotGood(d, stage, t) ==> SlotGood(d', stage, t);
    assert forall i | 0 <= i < |d.images| :: ImageGood(d, stage, i) ==> ImageGood(d', stage, i);
  }

  lemma PresentWaitsKeepsInv(d: Device, stage: Stage, i: nat)
    requires Inv(d, stage) && Enabled(d, PresentWaits(i))
    ensures Inv(GpuStep(d, PresentWaits(i)), stage)
  {
    var d' := GpuStep(d, PresentWaits(i));
    assert ImageGood(d, stage, i);
    assert !ImagePending(d, i);
    assert forall t :: SlotPending(d', t) == SlotPending(d, t);
    assert forall j :: ImagePending(d', j) == ImagePending(d, j);
    assert forall t | 0 <= t < |d.fences| :: SlotGood(d, stage, t) ==> SlotGood(d', stage, t);
    assert forall c | c in d.pending :: SubmissionGood(d, stage, c) ==> SubmissionGood(d', stage, c);
    assert forall j | 0 <= j < |d.images| :: ImageGood(d, stage, j) ==> ImageGood(d', stage, j);
  }

  lemma ReleaseKeepsInv(d: Device, stage: Stage, i: nat)
    requires Inv(d, stage) && Enabled(d, Release(i))
    ensures Inv(GpuStep(d, Release(i)), stage)
  {
    var d' := GpuStep(d, Release(i));
    assert ImageGood(d, stage, i);
    assert !ImagePending(d, i);
    assert forall t :: SlotPending(d', t) == SlotPending(d, t);
    assert forall j :: ImagePending(d', j) == ImagePending(d, j);
    assert forall t | 0 <= t < |d.fences| :: SlotGood(d, stage, t) ==> SlotGood(d', stage, t);
    assert forall c | c in d.pending :: SubmissionGood(d, stage, c) ==> SubmissionGood(d', stage, c);
    assert forall j | 0 <= j < |d.images| :: ImageGood(d, stage, j) ==> ImageGood(d', stage, j);
  }

  lemma GpuKeepsInv(d: Device, stage: Stage, e: GpuEvent)
    requires Inv(d, stage) && Enabled(d, e)
    ensures Inv(GpuStep(d, e), stage)
  {
    match e
    case ImageReady(s) => ImageReadyKeepsInv(d, stage, s);
    case Start(b) => StartKeepsInv(d, stage, b);
    case Finish(b) => FinishKeepsInv(d, stage, b);
    case PresentWaits(i) => PresentWaitsKeepsInv(d, stage, i);
    case Release(i) => ReleaseKeepsInv(d, stage, i);
  }

  // ----- the renderer keeps it, call by call -----

  /** createSyncObjects for `n` slots and a swapchain of `m` images. */
  function Created(n: nat, m: nat): Device {
    Device(seq(n, _ => Signaled), seq(n, _ => IDLE), seq(n, _ => 0), seq(n, _ => Empty),
           seq(m, _ => IDLE), seq(m, _ => Free), seq(m, _ => Blank), None, [], 0, {}, {}, {})
  }

  lemma CreatedGood(n: nat, m: nat)
    requires n > 0 && m > 0
    ensures Inv(Created(n, m), Boundary)
  {
  }

  /** A signalled fence is a free slot: at a frame boundary each fence is signalled or has
      exactly one submission in flight that will signal it. */
  lemma FenceOrSubmission(d: Device, s: nat)
    requires Inv(d, Boundary) && s < |d.fences|
    ensures d.fences[s] == Signaled <==> !SlotPending(d, s)
    ensures d.fences[s] == Unsignaled <==>
            exists b | b in d.pending :: b.slot == s && forall c | c in d.pending && c.slot == s :: c == b
    ensures d.fences[s] == Signaled ==> Inv(d, Waited(s))
  {
    assert SlotGood(d, Boundary, s);
    if SlotPending(d, s) {
      var b :| b in d.pending && b.slot == s;
      assert SubmissionGood(d, Boundary, b);
    } else {
      assert forall t | 0 <= t < |d.fences| :: SlotGood(d, Boundary, t) ==> SlotGood(d, Waited(s), t);
      assert forall b | b in d.pending :: SubmissionGood(d, Boundary, b) ==> SubmissionGood(d, Waited(s), b);
      assert forall i | 0 <= i < |d.images| :: ImageGood(d, Boundary, i) ==> ImageGood(d, Waited(s), i);
    }
  }

  lemma BackToBoundary(d: Device, s: nat)
    requires Inv(d, Waited(s))
    ensures Inv(d, Boundary)
  {
    assert forall t | 0 <= t < |d.fences| :: SlotGood(d, Waited(s), t) ==> SlotGood(d, Boundary, t);
    assert forall b | b in d.pending :: SubmissionGood(d, Waited(s), b) ==> SubmissionGood(d, Boundary, b);
    assert forall i | 0 <= i < |d.images| :: ImageGood(d, Waited(s), i) ==> ImageGood(d, Boundary, i);
  }

  lemma AcquireKeepsInv(d: Device, s: nat, i: nat)
    requires Inv(d, Waited(s)) && i < |d.images| && d.images[i] == Free
    ensures Inv(Acquire(d, s, i), Holding(s, i))
  {
    var d', stage, stage' := Acquire(d, s, i), Waited(s), Holding(s, i);
    assert SlotGood(d, stage, s) && ImageGood(d, stage, i);
    assert forall t :: SlotPending(d', t) == SlotPending(d, t);
    assert forall j :: ImagePending(d', j) == ImagePending(d, j);
    assert forall t | 0 <= t < |d.fences| :: SlotGood(d, stage, t) ==> SlotGood(d', stage', t);
    assert forall b | b in d.pending :: SubmissionGood(d, stage, b) ==> SubmissionGood(d', stage', b);
    assert forall j | 0 <= j < |d.images| :: ImageGood(d, stage, j) ==> ImageGood(d', stage', j);
  }

  lemma ResetKeepsInv(d: Device, s: nat, i: nat)
    requires Inv(d, Holding(s, i))
    ensures Inv(Reset(d, s), Ready(s, i))
  {
    var d', stage, stage' := Reset(d, s), Holding(s, i), Ready(s, i);
    assert SlotGood(d, stage, s) && ImageGood(d, stage, i);
    assert forall t :: SlotPending(d', t) == SlotPending(d, t);
    assert forall j :: ImagePending(d', j) == ImagePending(d, j);
    assert forall t | 0 <= t < |d.fences| :: SlotGood(d, stage, t) ==> SlotGood(d', stage', t);
    assert forall b | b in d.pending :: SubmissionGood(d, stage, b) ==> SubmissionGood(d', stage', b);
    assert forall j | 0 <= j < |d.images| :: ImageGood(d, stage, j) ==> ImageGood(d', stage', j);
  }

  lemma WriteKeepsInv(d: Device, s: nat, i: nat, scene: Scene)
    requires Inv(d, Ready(s, i))
    ensures Inv(WriteUniform(d, s, scene), Ready(s, i))
    ensures Inv(Record(d, s, i, scene), Ready(s, i))
  {
    var stage := Ready(s, i);
    forall d' | d' == WriteUniform(d, s, scene) || d' == Record(d, s, i, scene)
      ensures Inv(d', stage)
    {
      assert forall t :: SlotPending(d', t) == SlotPending(d, t);
      assert forall j :: ImagePending(d', j) == ImagePending(d, j);
      assert forall t | 0 <= t < |d.fences| :: SlotGood(d, stage, t) ==> SlotGood(d', stage, t);
      assert forall b | b in d.pending :: SubmissionGood(d, stage, b) ==> SubmissionGood(d', stage, b);
      assert forall j | 0 <= j < |d.images| :: ImageGood(d, stage, j) ==> ImageGood(d', stage, j);
    }
  }

  lemma SubmitAdds(d: Device, s: nat, i: nat, scene: Scene)
    requires Inv(d, Ready(s, i))
    ensures var d' := Submit(d, s, i, i, scene);
            && d'.violations == {}
            && (forall t :: SlotPending(d', t) <==> SlotPending(d, t) || t == s)
            && (forall j :: ImagePending(d', j) <==> ImagePending(d, j) || j == i)
            && (forall b | b in d.pending :: b.slot != s && b.image != i)
  {
    var d' := Submit(d, s, i, i, scene);
    assert SlotGood(d, Ready(s, i), s) && ImageGood(d, Ready(s, i), i);
    assert Submission(s, i, i, scene) in d'.pending;
  }

  lemma SubmitKeepsSubmissions(d: Device, s: nat, i: nat, scene: Scene)
    requires Inv(d, Ready(s, i)) && d.ubos[s] == scene && d.commands[s] == Recorded(i, scene)
    ensures var d' := Submit(d, s, i, i, scene);
            Shaped(d') && Distinct(d') && d'.running <= d'.pending &&
            forall b | b in d'.pending :: SubmissionGood(d', Submitted(s, i, scene), b)
  {
    SubmitAdds(d, s, i, scene);
    var d', mine := Submit(d, s, i, i, scene), Submission(s, i, i, scene);
    assert SlotGood(d, Ready(s, i), s) && ImageGood(d, Ready(s, i), i);
    assert mine !in d.pending;
    forall b | b in d'.pending
      ensures SubmissionGood(d', Submitted(s, i, scene), b)
    {
      if b != mine {
        assert SubmissionGood(d, Ready(s, i), b);
      }
    }
  }

  lemma SubmitKeepsInv(d: Device, s: nat, i: nat, scene: Scene)
    requires Inv(d, Ready(s, i)) && d.ubos[s] == scene && d.commands[s] == Recorded(i, scene)
    ensures Inv(Submit(d, s, i, i, scene), Submitted(s, i, scene))
  {
    SubmitAdds(d, s, i, scene);
    SubmitKeepsSubmissions(d, s, i, scene);
    var d', stage, stage' := Submit(d, s, i, i, scene), Ready(s, i), Submitted(s, i, scene);
    assert SlotGood(d, stage, s) && ImageGood(d, stage, i);
    assert forall t | 0 <= t < |d.fences| :: SlotGood(d, stage, t) ==> SlotGood(d', stage', t);
    assert forall j | 0 <= j < |d.images| :: ImageGood(d, stage, j) ==> ImageGood(d', stage', j);
  }

  lemma PresentKeepsInv(d: Device, s: nat, i: nat, scene: Scene)
    requires Inv(d, Submitted(s, i, scene))
    ensures Inv(Present(d, i, i, scene), Boundary)
  {
    var d', stage := Present(d, i, i, scene), Submitted(s, i, scene);
    assert ImageGood(d, stage, i);
    assert forall t :: SlotPending(d', t) == SlotPending(d, t);
    assert forall j :: ImagePending(d', j) == ImagePending(d, j);
    assert d.finished[i].signal != Off by {
      if ImagePending(d, i) {
        var b :| b in d.pending && b.image == i;
        assert SubmissionGood(d, stage, b);
      }
    }
    assert forall t | 0 <= t < |d.fences| :: SlotGood(d, stage, t) ==> SlotGood(d', Boundary, t);
    assert forall b | b in d.pending :: SubmissionGood(d, stage, b) ==> SubmissionGood(d', Boundary, b);
    assert forall j | 0 <= j < |d.images| :: ImageGood(d, stage, j) ==> ImageGood(d', Boundary, j);
  }

  /** Waiting for idle leaves every semaphore off and every image with the presentation engine. */
  lemma IdleIsQuiet(d: Device)
    requires Inv(d, Boundary) && QueuesIdle(d)
    ensures SemaphoresIdle(d.finished) && SemaphoresIdle(d.available)
    ensures forall s | 0 <= s < |d.fences| :: d.fences[s] == Signaled
    ensures forall i | 0 <= i < |d.images| :: d.images[i].Free? || d.images[i].Shown?
  {
    forall i | 0 <= i < |d.images|
      ensures d.finished[i] == IDLE && (d.images[i].Free? || d.images[i].Shown?)
    {
      assert ImageGood(d, Boundary, i);
    }
    forall s | 0 <= s < |d.fences|
      ensures d.available[s] == IDLE && d.fences[s] == Signaled
    {
      assert SlotGood(d, Boundary, s);
    }
  }

  lemma RecreateKeepsInv(d: Device, m: nat)
    requires Inv(d, Boundary) && QueuesIdle(d) && m > 0
    ensures Inv(Recreate(d, m), Boundary)
  {
    IdleIsQuiet(d);
  }

  /** Tearing down after waiting for idle breaks no rule either. */
  lemma DestroyIsClean(d: Device)
    requires Inv(d, Boundary) && QueuesIdle(d)
    ensures DestroyAll(d).violations == {}
  {
    IdleIsQuiet(d);
  }

  /** What a rebuild needs, once no submission is in flight: it breaks a rule exactly when some
      presentation still waits for its semaphore. */
  lemma RecreateExactly(d: Device, m: nat)
    requires Inv(d, Boundary) && d.pending == {}
    ensures Recreate(d, m).violations == {} <==> forall i | 0 <= i < |d.images| :: !d.images[i].Queued?
  {
    if forall i | 0 <= i < |d.images| :: !d.images[i].Queued? {
      IdleIsQuiet(d);
    }
  }

  /** Apart from that the rebuilt ring is good, whatever presentations still waited. */
  lemma RebuiltAnyway(d: Device, m: nat)
    requires Inv(d, Boundary) && d.pending == {} && m > 0
    ensures Inv(Recreate(d, m).(violations := {}), Boundary)
  {
    forall s | 0 <= s < |d.fences|
      ensures d.available[s] == IDLE && d.fences[s] == Signaled
    {
      assert SlotGood(d, Boundary, s);
    }
  }

  /** The same goes for tearing everything down. */
  lemma DestroyExactly(d: Device)
    requires Inv(d, Boundary) && d.pending == {}
    ensures DestroyAll(d).violations == {} <==> forall i | 0 <= i < |d.images| :: !d.images[i].Queued?
  {
    if forall i | 0 <= i < |d.images| :: !d.images[i].Queued? {
      IdleIsQuiet(d);
    }
  }

  // ----- progress -----

  lemma InFlightCanMove(d: Device, stage: Stage, b: Submission)
    requires Inv(d, stage) && b in d.pending
    ensures Enabled(d, Finish(b)) || Enabled(d, Start(b)) || Enabled(d, ImageReady(b.slot))
  {
    assert SubmissionGood(d, stage, b);
  }

  predicate SomeImageFree(d: Device) {
    exists i | 0 <= i < |d.images| :: d.images[i] == Free
  }

  lemma NothingInFlight(d: Device, stage: Stage)
    requires Inv(d, stage) && EnabledEvents(d) == {}
    ensures d.pending == {}
    ensures forall e :: !Enabled(d, e)
  {
    assert forall e :: !Enabled(d, e) by {
      assert forall e :: Enabled(d, e) ==> e in EnabledEvents(d);
    }
    if b :| b in d.pending {
      InFlightCanMove(d, stage, b);
    }
  }

  /** Nothing is left to happen only when everything has happened: no submission is in flight, all
      fences are signalled, and every image can be acquired but the one on display.  So an acquire
      can go on exactly when the swapchain has two images or nothing is on display yet. */
  lemma NoDeadlock(d: Device, stage: Stage)
    requires Inv(d, stage) && (stage.Boundary? || stage.Waited?) && EnabledEvents(d) == {}
    ensures d.pending == {} && QueuesIdle(d)
    ensures forall s | 0 <= s < |d.fences| :: d.fences[s] == Signaled
    ensures forall i | 0 <= i < |d.images| :: d.images[i] == Free <==> d.display != Some(i)
    ensures SomeImageFree(d) <==> |d.images| >= 2 || d.display.None?
  {
    NothingInFlight(d, stage);
    forall s | 0 <= s < |d.fences|
      ensures d.fences[s] == Signaled
    {
      assert SlotGood(d, stage, s);
    }
    forall i | 0 <= i < |d.images|
      ensures d.images[i] == Free <==> d.display != Some(i)
      ensures !d.images[i].Queued?
    {
      assert ImageGood(d, stage, i) && !Enabled(d, Release(i)) && !Enabled(d, PresentWaits(i));
    }
    if |d.images| >= 2 {
      assert d.images[0] == Free || d.images[1] == Free;
    } else if d.display.None? {
      assert d.images[0] == Free;
    }
  }

  function Unstarted(d: Device): set<Submission> {
    d.pending - d.running
  }

  function Unready(d: Device): set<nat> {
    set s | 0 <= s < |d.available| && d.available[s].signal == OnItsWay
  }

  function QueuedImages(d: Device): set<nat> {
    set i | 0 <= i < |d.images| && d.images[i].Queued?
  }

  function ShownImages(d: Device): set<nat> {
    set i | 0 <= i < |d.images| && d.images[i].Shown?
  }

  /** Less is left to do. */
  predicate LessWork(d': Device, d: Device) {
    || |d'.pending| < |d.pending|
    || (|d'.pending| == |d.pending| &&
        (|| |Unstarted(d')| < |Unstarted(d)|
         || (|Unstarted(d')| == |Unstarted(d)| &&
             (|| |Unready(d')| < |Unready(d)|
              || (|Unready(d')| == |Unready(d)| &&
                  (|| |QueuedImages(d')| < |QueuedImages(d)|
                   || (|QueuedImages(d')| == |QueuedImages(d)| && |ShownImages(d')| < |ShownImages(d)|)))))))
  }

  lemma ReadyIsLess(d: Device, s: nat)
    requires Enabled(d, ImageReady(s))
    ensures LessWork(GpuStep(d, ImageReady(s)), d)
  {
    assert Unready(GpuStep(d, ImageReady(s))) == Unready(d) - {s};
  }

  lemma StartOrFinishIsLess(d: Device, e: GpuEvent)
    requires (e.Start? || e.Finish?) && Enabled(d, e)
    ensures LessWork(GpuStep(d, e), d)
  {
    if e.Start? {
      assert Unstarted(GpuStep(d, e)) == Unstarted(d) - {e.b};
    }
  }

  lemma PresentationIsLess(d: Device, e: GpuEvent)
    requires (e.PresentWaits? || e.Release?) && Enabled(d, e)
    ensures LessWork(GpuStep(d, e), d)
  {
    var d' := GpuStep(d, e);
    if e.PresentWaits? {
      assert QueuedImages(d') == QueuedImages(d) - {e.image};
    } else {
      assert QueuedImages(d') == QueuedImages(d);
      assert ShownImages(d') == ShownImages(d) - {e.image};
    }
  }

  /** Whatever happens next uses up work that only the renderer can add. */
  lemma EventsUseUpWork(d: Device, e: GpuEvent)
    requires Enabled(d, e)
    ensures LessWork(GpuStep(d, e), d)
  {
    match e
    case ImageReady(s) => ReadyIsLess(d, s);
    case Start(_) | Finish(_) => StartOrFinishIsLess(d, e);
    case PresentWaits(_) | Release(_) => PresentationIsLess(d, e);
  }

  /** Never more submissions in flight than there are slots. */
  lemma AtMostOnePerSlot(d: Device, stage: Stage)
    requires Inv(d, stage)
    ensures |d.pending| <= |d.fences|
  {
    assert forall b | b in d.pending :: SubmissionGood(d, stage, b);
    Pigeonhole(d.pending, |d.fences|);
  }

  lemma {:induction false} Pigeonhole(bs: set<Submission>, n: nat)
    requires forall b | b in bs :: b.slot < n
    requires forall a, b | a in bs && b in bs && a != b :: a.slot != b.slot
    ensures |bs| <= n
  {
    if n > 0 {
      if b :| b in bs && b.slot == n - 1 {
        Pigeonhole(bs - {b}, n - 1);
      } else {
        Pigeonhole(bs, n - 1);
      }
    } else if b :| b in bs {
      assert false;
    }
  }

  // ----- why the semaphore goes with the image -----

  /** One frame's calls with an explicit choice of the semaphore that submission signals and
      presentation waits for. */
  function Frame(d: Device, s: nat, i: nat, signal: nat, scene: Scene): Device
    requires Shaped(d) && s < |d.fences| && i < |d.images| && signal < |d.finished|
  {
    var d1 := Record(WriteUniform(Reset(Acquire(d, s, i), s), s, scene), s, i, scene);
    Present(Submit(d1, s, i, signal, scene), i, signal, scene)
  }

  /** One frame on a free slot with a free image: signalling the semaphore of image `signal` is a
      second signal exactly when a presentation still waits for that one; signalling the image's own
      breaks no rule. */
  lemma WhichSemaphoreExactly(d: Device, s: nat, i: nat, signal: nat, scene: Scene)
    requires Inv(d, Waited(s)) && i < |d.images| && d.images[i] == Free && signal < |d.finished|
    ensures SignaledTwiceWithoutWait in Frame(d, s, i, signal, scene).violations <==> d.images[signal].Queued?
    ensures Frame(d, s, i, i, scene).violations == {}
  {
    assert SlotGood(d, Waited(s), s) && ImageGood(d, Waited(s), i) && ImageGood(d, Waited(s), signal);
    var d1 := Record(WriteUniform(Reset(Acquire(d, s, i), s), s, scene), s, i, scene);
    assert d1.violations == {} && d1.finished == d.finished && d1.pending == d.pending;
  }

  /** The GPU does these things, if it can. */
  function GpuRun(d: Device, es: seq<GpuEvent>): Option<Device>
    decreases |es|
  {
    if es == [] then Some(d) else if Enabled(d, es[0]) then GpuRun(GpuStep(d, es[0]), es[1..]) else None
  }

  lemma ThreeEvents(d: Device, a: GpuEvent, b: GpuEvent, c: GpuEvent)
    requires Enabled(d, a) && Enabled(GpuStep(d, a), b) && Enabled(GpuStep(GpuStep(d, a), b), c)
    ensures GpuRun(d, [a, b, c]) == Some(GpuStep(GpuStep(GpuStep(d, a), b), c))
  {
    var one, two, three := [c], [b, c], [a, b, c];
    var d1 := GpuStep(d, a);
    var d2 := GpuStep(d1, b);
    assert one[1..] == [] && two[1..] == one && three[1..] == two;
    assert GpuRun(d2, one) == GpuRun(GpuStep(d2, c), one[1..]);
    assert GpuRun(d1, two) == GpuRun(d2, two[1..]);
    assert GpuRun(d, three) == GpuRun(d1, three[1..]);
  }

  const FIRST_DRAW := Submission(0, 0, 0, 1)
  const DRAWING := [ImageReady(0), Start(FIRST_DRAW), Finish(FIRST_DRAW)]

  /** Two slots, three images, after one frame that signals the semaphore of its slot. */
  const ONE_FRAME := Device([Unsignaled, Signaled], [Semaphore(OnItsWay, true), IDLE], [1, 0], [Recorded(0, 1), Empty],
                            [Semaphore(OnItsWay, true), IDLE, IDLE], [Queued(1, 0), Free, Free], [Blank, Blank, Blank],
                            None, [FIRST_DRAW], 0, {FIRST_DRAW}, {}, {})

  /** ... once the GPU has drawn it, while its presentation still waits ... */
  const ONE_DRAWN := ONE_FRAME.(fences := [Signaled, Signaled], available := [IDLE, IDLE],
                                finished := [Semaphore(On, true), IDLE, IDLE],
                                pictures := [Picture(1, 1), Blank, Blank], pending := {})

  const SECOND_DRAW := Submission(1, 1, 1, 2)

  /** ... and after a second frame on the other slot. */
  const TWO_FRAMES := ONE_DRAWN.(fences := [Signaled, Unsignaled], available := [IDLE, Semaphore(OnItsWay, true)],
                                 ubos := [1, 2], commands := [Recorded(0, 1), Recorded(1, 2)],
                                 finished := [Semaphore(On, true), Semaphore(OnItsWay, true), IDLE],
                                 images := [Queued(1, 0), Queued(2, 1), Free], pending := {SECOND_DRAW},
                                 submitted := [FIRST_DRAW, SECOND_DRAW])

  lemma FirstFrameLeads()
    ensures Frame(Created(2, 3), 0, 0, 0, 1) == ONE_FRAME
  {
  }

  lemma FirstDrawRuns()
    ensures GpuRun(ONE_FRAME, DRAWING) == Some(ONE_DRAWN)
  {
    var d1 := GpuStep(ONE_FRAME, ImageReady(0));
    var d2 := GpuStep(d1, Start(FIRST_DRAW));
    ThreeEvents(ONE_FRAME, ImageReady(0), Start(FIRST_DRAW), Finish(FIRST_DRAW));
    assert GpuStep(d2, Finish(FIRST_DRAW)) == ONE_DRAWN;
  }

  lemma SecondFrameLeads()
    ensures Frame(ONE_DRAWN, 1, 1, 1, 2) == TWO_FRAMES
  {
  }

  /** One semaphore per frame slot is not enough, on a run from the start: with two slots and three
      images a slot comes round again while its earlier presentation still waits, and the semaphore
      is signalled a second time.  The fence does not help: it only tells of the submission. */
  lemma SlotSemaphoresAreSignaledTwice()
    ensures Frame(Created(2, 3), 0, 0, 0, 1) == ONE_FRAME
    ensures GpuRun(ONE_FRAME, DRAWING) == Some(ONE_DRAWN)
    ensures Frame(ONE_DRAWN, 1, 1, 1, 2) == TWO_FRAMES
    ensures TWO_FRAMES.fences[0] == Signaled && TWO_FRAMES.images[2] == Free && TWO_FRAMES.violations == {}
    ensures SignaledTwiceWithoutWait in Frame(TWO_FRAMES, 0, 2, 0, 3).violations
    ensures Frame(TWO_FRAMES, 0, 2, 2, 3).violations == {}
  {
    FirstFrameLeads();
    FirstDrawRuns();
    SecondFrameLeads();
  }

  // ----- why waiting for submissions is not enough -----

  /** On a run from the start a rebuild at a moment when every fence is signalled and nothing is in
      flight destroys a swapchain in use: the first frame's presentation still waits. */
  lemma FencesDoNotCoverPresentations(m: nat)
    ensures Frame(Created(2, 3), 0, 0, 0, 1) == ONE_FRAME
    ensures GpuRun(ONE_FRAME, DRAWING) == Some(ONE_DRAWN)
    ensures ONE_DRAWN.pending == {} && forall s | 0 <= s < |ONE_DRAWN.fences| :: ONE_DRAWN.fences[s] == Signaled
    ensures Recreate(ONE_DRAWN, m).violations == {SwapchainDestroyedInUse, SyncObjectDestroyedInUse}
  {
    FirstFrameLeads();
    FirstDrawRuns();
    assert ONE_DRAWN.images[0].Queued? && ONE_DRAWN.finished[0] != IDLE;
  }

  // ----- why the swapchain needs a second image -----

  const LONE_FRAME := Device([Unsignaled], [Semaphore(OnItsWay, true)], [1], [Recorded(0, 1)],
                             [Semaphore(OnItsWay, true)], [Queued(1, 0)], [Blank], None, [FIRST_DRAW], 0,
                             {FIRST_DRAW}, {}, {})
  const LONE_DRAWN := LONE_FRAME.(fences := [Signaled], available := [IDLE], finished := [Semaphore(On, true)],
                                  pictures := [Picture(1, 1)], pending := {})
  const LONE_SHOWN := LONE_DRAWN.(finished := [IDLE], images := [Shown(1)], display := Some(0))

  lemma LoneDrawRuns()
    ensures GpuRun(LONE_FRAME, DRAWING) == Some(LONE_DRAWN)
  {
    var d1 := GpuStep(LONE_FRAME, ImageReady(0));
    var d2 := GpuStep(d1, Start(FIRST_DRAW));
    ThreeEvents(LONE_FRAME, ImageReady(0), Start(FIRST_DRAW), Finish(FIRST_DRAW));
    assert GpuStep(d2, Finish(FIRST_DRAW)) == LONE_DRAWN;
  }

  /** With a single image the second acquire blocks for ever: the first frame's image stays on
      display and nothing more can happen. */
  lemma LoneImageBlocks()
    ensures Frame(Created(1, 1), 0, 0, 0, 1) == LONE_FRAME
    ensures GpuRun(LONE_FRAME, DRAWING) == Some(LONE_DRAWN)
    ensures Enabled(LONE_DRAWN, PresentWaits(0)) && GpuStep(LONE_DRAWN, PresentWaits(0)) == LONE_SHOWN
    ensures LONE_SHOWN.fences[0] == Signaled && EnabledEvents(LONE_SHOWN) == {} && !SomeImageFree(LONE_SHOWN)
  {
    LoneDrawRuns();
    assert forall e :: !Enabled(LONE_SHOWN, e);
  }
}
