/**
 * The foot scanner screen: a cursor over four fixed camera angles and the
 * ordered list of photos captured so far. A capture appends and advances; a
 * capture at the last angle stops the camera and hands the whole list to the
 * wizard; a retake drops the last photo and rewinds.
 */
module FootScannerPage {
  import opened Wrappers

  datatype Angle = Top | SideLeft | SideRight | Front

  /** The four required shots, in the order the screen asks for them. */
  const ScanSteps: seq<Angle> := [Top, SideLeft, SideRight, Front]

  /** Index of the last angle: `scanSteps.length - 1`. */
  const LastStep := |ScanSteps| - 1

  /**
   * The screen's state. `streamOpen` stands for a non-null media stream; a
   * photo is the opaque data URL the canvas produces.
   */
  datatype ScanState = ScanState(currentStep: int, photos: seq<string>, isCapturing: bool, streamOpen: bool)

  const Initial := ScanState(0, [], false, false)

  /** Before completion the cursor names the next slot to fill: it equals the photo count. */
  predicate Valid(s: ScanState)
  {
    0 <= s.currentStep <= LastStep && s.currentStep == |s.photos|
  }

  /** The state a completing capture leaves behind. */
  predicate Completed(s: ScanState)
  {
    s.currentStep == LastStep && |s.photos| == |ScanSteps| && !s.isCapturing && !s.streamOpen
  }

  /** The new state and, when the sequence completed, the list handed to the wizard. */
  datatype Outcome = Outcome(next: ScanState, handed: Option<seq<string>>)

  /** Opening the camera; a refused request is only logged. */
  function Started(s: ScanState, granted: bool): (r: ScanState)
    ensures granted ==> r.isCapturing && r.streamOpen
    ensures !granted ==> r == s
    ensures r.currentStep == s.currentStep && r.photos == s.photos
  {
    if granted then s.(streamOpen := true, isCapturing := true) else s
  }

  /** Closing the camera: the stream (if any) is released and capturing ends. */
  function Stopped(s: ScanState): (r: ScanState)
    ensures !r.isCapturing && !r.streamOpen
    ensures r.currentStep == s.currentStep && r.photos == s.photos
  {
    s.(streamOpen := false, isCapturing := false)
  }

  /** Stopping twice is the same as stopping once. */
  lemma StopIdempotent(s: ScanState)
    ensures Stopped(Stopped(s)) == Stopped(s)
  {
  }

  /**
   * A capture. The video element is mounted exactly while capturing and the
   * canvas always is, so a frame is taken iff capturing and a 2D context was
   * obtained; otherwise nothing changes.
   */
  function Capture(s: ScanState, hasContext: bool, dataUrl: string): (o: Outcome)
    ensures !(s.isCapturing && hasContext) ==> o == Outcome(s, None)
    ensures s.isCapturing && hasContext ==> o.next.photos == s.photos + [dataUrl]
    ensures o.handed.Some? <==> s.isCapturing && hasContext && s.currentStep >= LastStep
    ensures o.handed.Some? ==>
              o.handed.value == o.next.photos && o.next.currentStep == s.currentStep &&
              !o.next.isCapturing && !o.next.streamOpen
    ensures s.isCapturing && hasContext && s.currentStep < LastStep ==>
              o.next.currentStep == s.currentStep + 1 && o.next.isCapturing && o.next.streamOpen == s.streamOpen
  {
    if !(s.isCapturing && hasContext) then Outcome(s, None)
    else
      var newPhotos := s.photos + [dataUrl];
      if s.currentStep < LastStep then Outcome(s.(photos := newPhotos, currentStep := s.currentStep + 1), None)
      else Outcome(Stopped(s.(photos := newPhotos)), Some(newPhotos))
  }

  /** `slice(0, -1)`: everything but the last element; the empty list stays empty. */
  function DropLast(photos: seq<string>): (r: seq<string>)
    ensures |photos| > 0 ==> r + [photos[|photos| - 1]] == photos
    ensures |photos| == 0 ==> r == []
  {
    if |photos| == 0 then [] else photos[..|photos| - 1]
  }

  /** A retake: drop the last photo and move the cursor back unless it is at 0. */
  function Retake(s: ScanState): (r: ScanState)
    ensures |s.photos| > 0 ==> r.photos + [s.photos[|s.photos| - 1]] == s.photos
    ensures |s.photos| == 0 ==> r.photos == []
    ensures s.currentStep > 0 ==> r.currentStep == s.currentStep - 1
    ensures s.currentStep <= 0 ==> r.currentStep == s.currentStep
    ensures Valid(s) && |s.photos| > 0 ==> Valid(r)
    ensures r.isCapturing == s.isCapturing && r.streamOpen == s.streamOpen
  {
    s.(photos := DropLast(s.photos), currentStep := if s.currentStep > 0 then s.currentStep - 1 else s.currentStep)
  }

  /** What the user can do on the screen. */
  datatype Event = Start(granted: bool) | Shoot(hasContext: bool, dataUrl: string) | Undo | Stop

  function Apply(s: ScanState, e: Event): Outcome
  {
    match e
    case Start(granted) => Outcome(Started(s, granted), None)
    case Shoot(hasContext, dataUrl) => Capture(s, hasContext, dataUrl)
    case Undo => Outcome(Retake(s), None)
    case Stop => Outcome(Stopped(s), None)
  }

  /** A run of events up to the first completion, and how many events it consumed. */
  datatype RunResult = RunResult(last: ScanState, handed: Option<seq<string>>, used: nat)

  function Run(s: ScanState, events: seq<Event>): (r: RunResult)
    ensures r.used <= |events|
    decreases |events|
  {
    if events == [] then RunResult(s, None, 0)
    else
      var o := Apply(s, events[0]);
      if o.handed.Some? then RunResult(o.next, o.handed, 1)
      else
        var r := Run(o.next, events[1..]);
        RunResult(r.last, r.handed, r.used + 1)
  }

  /**
   * Reference for the photo list: the net effect of successful shots and
   * undos, ignoring the cursor entirely.
   */
  function Kept(photos: seq<string>, s: ScanState, events: seq<Event>): seq<string>
    decreases |events|
  {
    if events == [] then photos
    else
      var o := Apply(s, events[0]);
      match events[0]
      case Shoot(hasContext, dataUrl) =>
        Kept(if s.isCapturing && hasContext then photos + [dataUrl] else photos, o.next, events[1..])
      case Undo => Kept(DropLast(photos), o.next, events[1..])
      case _ => Kept(photos, o.next, events[1..])
  }

  /** One event keeps the cursor in step with the photos, or completes with four photos. */
  lemma ApplyKeepsCursor(s: ScanState, e: Event)
    requires Valid(s)
    ensures Apply(s, e).handed.None? ==> Valid(Apply(s, e).next)
    ensures Apply(s, e).handed.Some? ==>
              Completed(Apply(s, e).next) && Apply(s, e).handed.value == Apply(s, e).next.photos
    ensures Apply(s, e).next.photos ==
              match e
              case Shoot(hasContext, dataUrl) => if s.isCapturing && hasContext then s.photos + [dataUrl] else s.photos
              case Undo => DropLast(s.photos)
              case _ => s.photos
  {
  }

  /**
   * Whatever the user does, the cursor equals the photo count until the
   * sequence completes, a completed sequence hands over exactly four photos,
   * and those are the net result of the shots and retakes that led there.
   */
  lemma {:induction false} RunKeepsCursor(s: ScanState, events: seq<Event>)
    requires Valid(s)
    ensures Run(s, events).handed.None? ==> Valid(Run(s, events).last)
    ensures Run(s, events).handed.None? ==> Run(s, events).last.photos == Kept(s.photos, s, events)
    ensures Run(s, events).handed.Some? ==>
              var h := Run(s, events).handed.value;
              |h| == |ScanSteps| && Completed(Run(s, events).last) && h == Run(s, events).last.photos &&
              h == Kept(s.photos, s, events[..Run(s, events).used])
    decreases |events|
  {
    if events != [] {
      var o := Apply(s, events[0]);
      ApplyKeepsCursor(s, events[0]);
      if o.handed.Some? {
        assert events[..1] == [events[0]];
        assert Kept(s.photos, s, events[..1]) == Kept(o.next.photos, o.next, []);
      } else {
        RunKeepsCursor(o.next, events[1..]);
        var r := Run(o.next, events[1..]);
        if r.handed.Some? {
          var k := r.used;
          assert events[..k + 1][0] == events[0];
          assert events[..k + 1][1..] == events[1..][..k];
        }
      }
    }
  }

  /** Shots that succeed: capturing, with a 2D context. */
  function Shots(frames: seq<string>): (events: seq<Event>)
    ensures |events| == |frames|
  {
    if frames == [] then [] else [Shoot(true, frames[0])] + Shots(frames[1..])
  }

  /** Shooting the remaining slots hands over the earlier photos followed by the new ones, in order. */
  lemma {:induction false} ShotsHandOverInOrder(s: ScanState, frames: seq<string>)
    requires Valid(s) && s.isCapturing
    requires |frames| > 0 && |s.photos| + |frames| == |ScanSteps|
    ensures Run(s, Shots(frames)).handed == Some(s.photos + frames)
    ensures Run(s, Shots(frames)).used == |frames|
    decreases |frames|
  {
    var events := Shots(frames);
    var e := Shoot(true, frames[0]);
    assert events == [e] + Shots(frames[1..]);
    assert events[0] == e && events[1..] == Shots(frames[1..]);
    var o := Capture(s, true, frames[0]);
    assert Apply(s, e) == o;
    if |frames| == 1 {
      assert frames == [frames[0]];
      assert o.handed == Some(s.photos + frames);
    } else {
      var next := s.(photos := s.photos + [frames[0]], currentStep := s.currentStep + 1);
      assert o == Outcome(next, None);
      ShotsHandOverInOrder(next, frames[1..]);
      assert (s.photos + [frames[0]]) + frames[1..] == s.photos + frames;
    }
  }

  /** From the initial screen, starting the camera and four shots hand exactly those four photos over. */
  lemma FourShotsFromStart(a: string, b: string, c: string, d: string)
    ensures Run(Started(Initial, true), Shots([a, b, c, d])).handed == Some([a, b, c, d])
  {
    ShotsHandOverInOrder(Started(Initial, true), [a, b, c, d]);
    assert Started(Initial, true).photos + [a, b, c, d] == [a, b, c, d];
  }

  /** The progress bar: `(capturedPhotos.length / scanSteps.length) * 100`. */
  function Progress(count: nat): (p: real)
    ensures p == 25.0 * count as real
    ensures count <= |ScanSteps| ==> p in {0.0, 25.0, 50.0, 75.0, 100.0}
    ensures count == |ScanSteps| <==> p == 100.0
  {
    (count as real / |ScanSteps| as real) * 100.0
  }

  /** The header's "Step n of m": the step shown is the next slot to fill, out of four. */
  function StepLabel(s: ScanState): (shown: (int, int))
    ensures shown.1 == |ScanSteps|
    ensures Valid(s) ==> shown.0 == s.currentStep + 1 && 1 <= shown.0 <= shown.1
  {
    (|s.photos| + 1, |ScanSteps|)
  }

  /** The instructions card: `scanSteps[currentStep]?.title`. */
  function CurrentAngle(s: ScanState): (a: Option<Angle>)
    ensures Valid(s) || Completed(s) ==> a.Some? && a.value == ScanSteps[s.currentStep]
  {
    if 0 <= s.currentStep < |ScanSteps| then Some(ScanSteps[s.currentStep]) else None
  }

  datatype RowStatus = Captured | Active | Waiting

  /** The marker of row `index` in the progress list. */
  function RowMarker(s: ScanState, index: nat): RowStatus
  {
    if index < |s.photos| then Captured
    else if index == s.currentStep then Active
    else Waiting
  }

  /** Whether row `index`'s title is drawn dark: `index <= currentStep`. */
  function RowEmphasised(s: ScanState, index: nat): bool
  {
    index <= s.currentStep
  }

  /**
   * With the cursor in step: the rows before the cursor are checked, the
   * cursor's row is the single active one, later rows wait, and exactly the
   * checked and active rows are emphasised.
   */
  lemma RowsFollowCursor(s: ScanState, index: nat)
    requires Valid(s) && index < |ScanSteps|
    ensures RowMarker(s, index) == Captured <==> index < s.currentStep
    ensures RowMarker(s, index) == Active <==> index == s.currentStep
    ensures RowMarker(s, index) == Waiting <==> index > s.currentStep
    ensures RowEmphasised(s, index) <==> RowMarker(s, index) != Waiting
  {
  }

  /** The scanner screen's component state, updated in place by its handlers. */
  class Scanner {
    var currentStep: int
    var capturedPhotos: seq<string>
    var isCapturing: bool
    var streamOpen: bool

    function State(): ScanState
      reads this
    {
      ScanState(currentStep, capturedPhotos, isCapturing, streamOpen)
    }

    constructor ()
      ensures State() == Initial && Valid(State())
    {
      currentStep, capturedPhotos, isCapturing, streamOpen := 0, [], false, false;
    }

    method StartCamera(granted: bool)
      modifies this
      ensures State() == Started(old(State()), granted)
      ensures granted ==> isCapturing && streamOpen
      ensures currentStep == old(currentStep) && capturedPhotos == old(capturedPhotos)
    {
      if granted {
        streamOpen := true;
        isCapturing := true;
      }
    }

    method StopCamera()
      modifies this
      ensures State() == Stopped(old(State()))
      ensures !isCapturing && !streamOpen
      ensures currentStep == old(currentStep) && capturedPhotos == old(capturedPhotos)
    {
      if streamOpen {
        streamOpen := false;
      }
      isCapturing := false;
    }

    /** Returns the list passed to `onComplete`, if this capture completed the sequence. */
    method CapturePhoto(hasContext: bool, dataUrl: string) returns (handed: Option<seq<string>>)
      modifies this
      ensures Outcome(State(), handed) == Capture(old(State()), hasContext, dataUrl)
      ensures !(old(isCapturing) && hasContext) ==> State() == old(State()) && handed.None?
      ensures old(isCapturing) && hasContext ==> capturedPhotos == old(capturedPhotos) + [dataUrl]
      ensures old(isCapturing) && hasContext && old(currentStep) < LastStep ==>
                currentStep == old(currentStep) + 1 && handed.None? && isCapturing == old(isCapturing)
      ensures old(isCapturing) && hasContext && old(currentStep) >= LastStep ==>
                currentStep == old(currentStep) && handed == Some(capturedPhotos) && !isCapturing && !streamOpen
    {
      handed := None;
      if isCapturing && hasContext {
        var newPhotos := capturedPhotos + [dataUrl];
        capturedPhotos := newPhotos;
        if currentStep < LastStep {
          currentStep := currentStep + 1;
        } else {
          StopCamera();
          handed := Some(newPhotos);
        }
      }
    }

    method RetakePhoto()
      modifies this
      ensures State() == Retake(old(State()))
      ensures |old(capturedPhotos)| > 0 ==> capturedPhotos + [old(capturedPhotos)[|old(capturedPhotos)| - 1]] == old(capturedPhotos)
      ensures |old(capturedPhotos)| == 0 ==> capturedPhotos == []
      ensures currentStep == if old(currentStep) > 0 then old(currentStep) - 1 else old(currentStep)
      ensures old(currentStep) >= 0 ==> currentStep >= 0
      ensures isCapturing == old(isCapturing) && streamOpen == old(streamOpen)
    {
      capturedPhotos := DropLast(capturedPhotos);
      if currentStep > 0 {
        currentStep := currentStep - 1;
      }
    }
  }
}
