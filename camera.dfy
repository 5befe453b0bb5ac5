/**
 * The camera capture panel: it asks for the camera when it mounts, shows the
 * live stream, counts down 3, 2, 1 once per second on request, grabs one
 * still frame on the last tick, and offers retake, confirm and close.
 *
 * Each interval tick, each resolution of the camera request and each button
 * press is one method call. The parent's callbacks are recorded, in call
 * order, in `events`.
 */
module Capture {
  import opened Wrappers

  /** A media track of a camera stream. */
  class Track {
    var live: bool

    constructor ()
      ensures live
    {
      live := true;
    }
  }

  /** A stream handed over when camera access is granted. */
  class MediaStream {
    const tracks: seq<Track>

    constructor (tracks: seq<Track>)
      ensures this.tracks == tracks
    {
      this.tracks := tracks;
    }
  }

  /** A call the panel makes to its parent. */
  datatype CameraEvent =
    | ImageCaptured(image: string)   // onImageCapture(imageSrc)
    | CloseRequested                 // onClose()

  // ---------------------------------------------------------------------------
  // The countdown
  // ---------------------------------------------------------------------------

  /** The value the countdown starts from. */
  const CountdownStart: int := 3

  /** The result of one countdown update: the next value and whether it fired the capture. */
  datatype Step = Step(next: Option<int>, fire: bool)

  /**
   * The updater the interval hands to the countdown setter: 1 fires the
   * capture and clears the countdown, any other non-zero value counts down,
   * 0 and no value clear it.
   */
  function CountdownStep(prev: Option<int>): (s: Step)
    ensures s.fire <==> prev == Some(1)
    ensures s.fire ==> s.next == None
    ensures prev.Some? && prev.value != 0 && prev.value != 1 ==> s.next == Some(prev.value - 1)
    ensures prev.None? ==> s.next == None
    ensures prev == Some(0) ==> s.next == None && !s.fire
  {
    match prev
    case None => Step(None, false)
    case Some(n) =>
      if n == 1 then Step(None, true)
      else if n != 0 then Step(Some(n - 1), false)
      else Step(None, false)
  }

  /** Where a countdown stands after some ticks, and how many captures those ticks fired. */
  datatype Run = Run(final: Option<int>, captures: nat)

  /** The effect of `k` interval ticks on the countdown value `prev`. */
  function RunTicks(prev: Option<int>, k: nat): (r: Run)
    ensures prev.None? ==> r == Run(None, 0)
    ensures r.captures <= 1
    ensures r.captures == 1 <==> prev.Some? && 1 <= prev.value <= k
    decreases k
  {
    if k == 0 then Run(prev, 0)
    else
      var s := CountdownStep(prev);
      var rest := RunTicks(s.next, k - 1);
      Run(rest.final, rest.captures + if s.fire then 1 else 0)
  }

  /**
   * A countdown from `n` shows n, n - 1, ..., 1 without capturing, and its
   * n-th tick captures exactly once and clears it.
   */
  lemma {:induction false} CountdownFrom(n: int, k: nat)
    requires 1 <= n && k <= n
    ensures k < n ==> RunTicks(Some(n), k) == Run(Some(n - k), 0)
    ensures k == n ==> RunTicks(Some(n), k) == Run(None, 1)
  {
    if k > 0 {
      if n == 1 {
        assert RunTicks(None, 0) == Run(None, 0);
      } else {
        CountdownFrom(n - 1, k - 1);
      }
    }
  }

  /** From three, three ticks capture once and clear the countdown; no later tick captures again. */
  lemma ThreeTicksCaptureOnce(extra: nat)
    ensures RunTicks(Some(CountdownStart), 3) == Run(None, 1)
    ensures RunTicks(Some(CountdownStart), 3 + extra) == Run(None, 1)
  {
    CountdownFrom(CountdownStart, 3);
    RunTicksSplit(Some(CountdownStart), 3, extra);
  }

  /** Ticking `a` times and then `b` times is ticking `a + b` times. */
  lemma {:induction false} RunTicksSplit(prev: Option<int>, a: nat, b: nat)
    ensures var first := RunTicks(prev, a);
            var second := RunTicks(first.final, b);
            RunTicks(prev, a + b) == Run(second.final, first.captures + second.captures)
    decreases a
  {
    if a > 0 {
      RunTicksSplit(CountdownStep(prev).next, a - 1, b);
    }
  }

  // ---------------------------------------------------------------------------
  // The panel
  // ---------------------------------------------------------------------------

  class Camera {
    /** False once the panel has been taken off the screen. */
    var mounted: bool
    /** True while the camera request made on mount has not resolved. */
    var accessPending: bool
    var stream: MediaStream?
    var capturedImage: Option<string>
    var countdown: Option<int>
    var permissionDenied: bool
    /** True while the countdown's one-second interval is registered. */
    var intervalActive: bool
    /** The parent's callbacks, in the order they were called. */
    var events: seq<CameraEvent>
    /** Whether the parent passed an image callback. */
    const hasCaptureCallback: bool

    /**
     * The countdown runs exactly while its interval is registered and shows
     * 1 to 3; no countdown runs while a still is shown; a held stream means
     * access was granted.
     */
    ghost predicate Valid()
      reads this
    {
      && (countdown.Some? ==> 1 <= countdown.value <= CountdownStart)
      && (intervalActive <==> countdown.Some?)
      && (capturedImage.Some? ==> countdown.None?)
      && (accessPending ==> stream == null && !permissionDenied)
      && (stream != null ==> !permissionDenied)
    }

    /** The tracks of the held stream, if any. */
    function StreamTracks(): seq<Track>
      reads this
    {
      if stream == null then [] else stream.tracks
    }

    /** Whether the live video element is on the screen (the frame source for a capture). */
    function VideoShown(): bool
      reads this
    {
      mounted && !permissionDenied && capturedImage.None?
    }

    /** Whether the take-picture button is on the screen and enabled. */
    function CaptureButtonEnabled(): bool
      reads this
    {
      mounted && capturedImage.None? && countdown.None? && stream != null
    }

    /** Mounting the panel: it starts asking for the camera (video only). */
    constructor (hasCaptureCallback: bool)
      ensures Valid()
      ensures mounted && accessPending && stream == null && !permissionDenied
      ensures capturedImage == None && countdown == None && !intervalActive
      ensures events == [] && this.hasCaptureCallback == hasCaptureCallback
    {
      mounted, accessPending, stream := true, true, null;
      capturedImage, countdown, permissionDenied := None, None, false;
      intervalActive, events := false, [];
      this.hasCaptureCallback := hasCaptureCallback;
    }

    /**
     * The camera request resolved with `ms`: the panel holds the stream and
     * clears the denied flag. If the panel has already unmounted, the update
     * is dropped and nothing will ever stop `ms`.
     */
    method AccessGranted(ms: MediaStream)
      requires Valid()
      modifies this
      ensures Valid()
      ensures !accessPending
      ensures old(accessPending && mounted) ==> stream == ms && !permissionDenied
      ensures !old(accessPending && mounted) ==>
        stream == old(stream) && permissionDenied == old(permissionDenied)
      ensures mounted == old(mounted) && capturedImage == old(capturedImage)
      ensures countdown == old(countdown) && intervalActive == old(intervalActive)
      ensures events == old(events)
    {
      if accessPending && mounted {
        stream := ms;
        permissionDenied := false;
      }
      accessPending := false;
    }

    /** The camera request failed or was refused: the panel shows the denied message for good. */
    method AccessDenied()
      requires Valid()
      modifies this
      ensures Valid()
      ensures !accessPending
      ensures old(accessPending && mounted) ==> permissionDenied && !CaptureButtonEnabled()
      ensures !old(accessPending && mounted) ==> permissionDenied == old(permissionDenied)
      ensures stream == old(stream) && mounted == old(mounted)
      ensures capturedImage == old(capturedImage) && countdown == old(countdown)
      ensures intervalActive == old(intervalActive) && events == old(events)
    {
      if accessPending && mounted {
        permissionDenied := true;
      }
      accessPending := false;
    }

    /** Stops every track of the held stream and drops it; with no stream, nothing happens. */
    method StopCamera()
      requires Valid()
      modifies this, StreamTracks()
      ensures Valid()
      ensures stream == null
      ensures forall t :: t in old(StreamTracks()) ==> !t.live
      ensures mounted == old(mounted) && accessPending == old(accessPending)
      ensures capturedImage == old(capturedImage) && countdown == old(countdown)
      ensures permissionDenied == old(permissionDenied)
      ensures intervalActive == old(intervalActive) && events == old(events)
    {
      if stream != null {
        var tracks := stream.tracks;
        var i := 0;
        while i < |tracks|
          invariant 0 <= i <= |tracks|
          invariant forall j :: 0 <= j < i ==> !tracks[j].live
          modifies tracks
        {
          tracks[i].live := false;
          i := i + 1;
        }
        stream := null;
      }
    }

    /** Starts the countdown at 3 and registers its one-second interval. */
    method StartCountdown()
      requires Valid()
      requires countdown.None? && capturedImage.None?
      modifies this
      ensures Valid()
      ensures countdown == Some(CountdownStart) && intervalActive
      ensures mounted == old(mounted) && accessPending == old(accessPending)
      ensures stream == old(stream) && capturedImage == old(capturedImage)
      ensures permissionDenied == old(permissionDenied) && events == old(events)
    {
      countdown := Some(CountdownStart);
      intervalActive := true;
    }

    /** A press on the take-picture button, which does nothing while it is hidden or disabled. */
    method PressCaptureButton()
      requires Valid()
      modifies this
      ensures Valid()
      ensures old(CaptureButtonEnabled()) ==> countdown == Some(CountdownStart) && intervalActive
      ensures !old(CaptureButtonEnabled()) ==>
        countdown == old(countdown) && intervalActive == old(intervalActive)
      ensures mounted == old(mounted) && accessPending == old(accessPending)
      ensures stream == old(stream) && capturedImage == old(capturedImage)
      ensures permissionDenied == old(permissionDenied) && events == old(events)
    {
      if CaptureButtonEnabled() {
        StartCountdown();
      }
    }

    /**
     * Grabs the current video frame: when the video element is shown and a
     * 2-D drawing context is available (`contextAvailable`), the encoded
     * frame `frame` becomes the still and is handed to the parent.
     */
    method CaptureImage(contextAvailable: bool, frame: string)
      modifies this
      ensures old(VideoShown()) && contextAvailable ==>
        && capturedImage == Some(frame)
        && events == old(events) + (if hasCaptureCallback then [ImageCaptured(frame)] else [])
      ensures !(old(VideoShown()) && contextAvailable) ==>
        capturedImage == old(capturedImage) && events == old(events)
      ensures mounted == old(mounted) && accessPending == old(accessPending)
      ensures stream == old(stream) && countdown == old(countdown)
      ensures permissionDenied == old(permissionDenied) && intervalActive == old(intervalActive)
    {
      if VideoShown() && contextAvailable {
        capturedImage := Some(frame);
        if hasCaptureCallback {
          events := events + [ImageCaptured(frame)];
        }
      }
    }

    /**
     * One firing of the countdown interval. The countdown moves by
     * `CountdownStep`; on the step that fires, the interval is cleared and
     * the frame is captured. With no interval registered there is no tick;
     * after unmount the state update is dropped and the interval stays.
     */
    method Tick(contextAvailable: bool, frame: string)
      requires Valid()
      modifies this
      ensures Valid()
      ensures !old(intervalActive && mounted) ==>
        && countdown == old(countdown) && intervalActive == old(intervalActive)
        && capturedImage == old(capturedImage) && events == old(events)
      ensures old(intervalActive && mounted) ==>
        var s := CountdownStep(old(countdown));
        && countdown == s.next
        && intervalActive == !s.fire
        && (s.fire && contextAvailable && !old(permissionDenied) ==>
              && capturedImage == Some(frame)
              && events == old(events) + (if hasCaptureCallback then [ImageCaptured(frame)] else []))
        && (!(s.fire && contextAvailable && !old(permissionDenied)) ==>
              capturedImage == old(capturedImage) && events == old(events))
      ensures mounted == old(mounted) && accessPending == old(accessPending)
      ensures stream == old(stream) && permissionDenied == old(permissionDenied)
    {
      if !intervalActive || !mounted {
        return;
      }
      var s := CountdownStep(countdown);
      if s.fire {
        intervalActive := false;
        CaptureImage(contextAvailable, frame);
      }
      countdown := s.next;
    }

    /** The retake button: drops the still and shows the live video again. */
    method RetakePhoto()
      requires Valid()
      modifies this
      ensures Valid()
      ensures capturedImage == None
      ensures mounted == old(mounted) && accessPending == old(accessPending)
      ensures stream == old(stream) && countdown == old(countdown)
      ensures permissionDenied == old(permissionDenied)
      ensures intervalActive == old(intervalActive) && events == old(events)
    {
      capturedImage := None;
    }

    /** The confirm button: asks the parent to close, without stopping the stream. */
    method ConfirmPhoto()
      requires Valid()
      modifies this
      ensures Valid()
      ensures events == old(events) + [CloseRequested]
      ensures mounted == old(mounted) && accessPending == old(accessPending)
      ensures stream == old(stream) && capturedImage == old(capturedImage)
      ensures countdown == old(countdown) && permissionDenied == old(permissionDenied)
      ensures intervalActive == old(intervalActive)
    {
      events := events + [CloseRequested];
    }

    /** The close button: stops the stream first, then asks the parent to close. */
    method CloseButton()
      requires Valid()
      modifies this, StreamTracks()
      ensures Valid()
      ensures stream == null
      ensures forall t :: t in old(StreamTracks()) ==> !t.live
      ensures events == old(events) + [CloseRequested]
      ensures mounted == old(mounted) && accessPending == old(accessPending)
      ensures capturedImage == old(capturedImage) && countdown == old(countdown)
      ensures permissionDenied == old(permissionDenied)
      ensures intervalActive == old(intervalActive)
    {
      StopCamera();
      events := events + [CloseRequested];
    }

    /**
     * The panel leaves the screen. Its cleanup stops the stream it saw when
     * it was mounted, which was none, so no track is stopped and a running
     * interval stays registered.
     */
    method Unmount()
      requires Valid()
      modifies this
      ensures Valid()
      ensures !mounted
      ensures stream == old(stream) && intervalActive == old(intervalActive)
      ensures accessPending == old(accessPending) && capturedImage == old(capturedImage)
      ensures countdown == old(countdown) && permissionDenied == old(permissionDenied)
      ensures events == old(events)
    {
      mounted := false;
    }
  }

  // ---------------------------------------------------------------------------
  // Whole sessions
  // ---------------------------------------------------------------------------

  /**
   * Access granted, the take-picture button pressed, pressed again during
   * the countdown, and four interval firings: the parent receives exactly
   * one image, the countdown is cleared and the interval is gone.
   */
  method CountdownSession(frame: string)
    returns (events: seq<CameraEvent>, countdown: Option<int>, intervalRunning: bool)
    ensures events == [ImageCaptured(frame)]
    ensures countdown == None && !intervalRunning
  {
    var track := new Track();
    var ms := new MediaStream([track]);
    var cam := new Camera(true);
    cam.AccessGranted(ms);
    cam.PressCaptureButton();
    cam.Tick(true, frame);
    cam.PressCaptureButton();
    assert cam.countdown == Some(2);
    cam.Tick(true, frame);
    cam.Tick(true, frame);
    cam.Tick(true, frame);
    events, countdown, intervalRunning := cam.events, cam.countdown, cam.intervalActive;
  }

  /**
   * Access granted, then the close button, then unmount: every track of the
   * stream is stopped.
   */
  method CloseBeforeCountdown() returns (liveTracks: nat)
    ensures liveTracks == 0
  {
    var t1 := new Track();
    var t2 := new Track();
    var ms := new MediaStream([t1, t2]);
    var cam := new Camera(true);
    cam.AccessGranted(ms);
    cam.CloseButton();
    cam.Unmount();
    liveTracks := (if t1.live then 1 else 0) + (if t2.live then 1 else 0);
  }

  /**
   * Access granted, a full countdown whose capture makes the parent take the
   * panel off the screen: the stream's track is still live afterwards.
   */
  method CaptureThenUnmount(frame: string) returns (trackLive: bool, images: seq<CameraEvent>)
    ensures trackLive
    ensures images == [ImageCaptured(frame)]
  {
    var track := new Track();
    var ms := new MediaStream([track]);
    var cam := new Camera(true);
    cam.AccessGranted(ms);
    cam.PressCaptureButton();
    cam.Tick(true, frame);
    cam.Tick(true, frame);
    cam.Tick(true, frame);
    cam.Unmount();
    trackLive, images := track.live, cam.events;
  }

  /**
   * Unmounting during the countdown leaves the interval registered, and its
   * later firings capture nothing.
   */
  method UnmountDuringCountdown(frame: string) returns (intervalRunning: bool, images: seq<CameraEvent>)
    ensures intervalRunning
    ensures images == []
  {
    var track := new Track();
    var ms := new MediaStream([track]);
    var cam := new Camera(true);
    cam.AccessGranted(ms);
    cam.PressCaptureButton();
    cam.Tick(true, frame);
    cam.Unmount();
    cam.Tick(true, frame);
    cam.Tick(true, frame);
    intervalRunning, images := cam.intervalActive, cam.events;
  }
}
