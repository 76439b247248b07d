/** The live-feed dashboard (AccessDashboard.tsx): the once-a-second frame
    sampler with its re-entrancy flag, the overlay it draws over the video
    frame, and the status of a manual access check. Each asynchronous handler
    is split at its first `await` into a Start and a Complete method; what the
    browser, the canvas and the server deliver comes in as parameters. */
module AccessDashboard {
  import opened Wrappers

  /** One detection as the service returns it: `type`, the box and `label`. */
  datatype Detection = Detection(kind: string, x: real, y: real, width: real, height: real,
                                 labelText: Option<string>)

  /** The values shown under "Recognition Details"; all three start as null. */
  datatype Recognition = Recognition(plate: Option<string>, face: Option<string>, timestamp: Option<string>)

  const Idle: string := "idle"
  const Processing: string := "processing"
  const Granted: string := "granted"
  const Error: string := "error"

  const FaceStroke: string := "#00ff00"
  const PlateStroke: string := "#0000ff"
  const FaceFill: string := "rgba(0,255,0,0.5)"
  const PlateFill: string := "rgba(0,0,255,0.5)"
  const LabelTextColor: string := "#ffffff"
  const LabelFont: string := "16px Arial"
  const UnknownLabel: string := "Unknown"
  const OverlayLineWidth: real := 2.0

  // ---------------------------------------------------------------------------
  // Draw commands and what they leave on the canvas

  /** The 2D-context calls the dashboard issues. `SetSize` stands for the
      assignments to `canvas.width` and `canvas.height`. */
  datatype DrawCmd =
    | SetSize(width: nat, height: nat)
    | ClearRect(x: real, y: real, w: real, h: real)
    | DrawVideoFrame(width: nat, height: nat)
    | SetStrokeStyle(color: string)
    | SetLineWidth(lineWidth: real)
    | StrokeRect(x: real, y: real, w: real, h: real)
    | SetFont(font: string)
    | SetFillStyle(color: string)
    | FillRect(x: real, y: real, w: real, h: real)
    | FillText(text: string, x: real, y: real)

  /** The context state that the drawing calls read. */
  datatype Pen = Pen(stroke: string, fill: string, lineWidth: real, font: string)

  /** The state of a fresh context, and of one whose canvas was resized. */
  const DefaultPen: Pen := Pen("#000000", "#000000", 1.0, "10px sans-serif")

  /** What a call leaves on the canvas, with the colours it was drawn in. */
  datatype Mark =
    | Reset(width: nat, height: nat)
    | Cleared(x: real, y: real, w: real, h: real)
    | VideoFrame(width: nat, height: nat)
    | Outline(x: real, y: real, w: real, h: real, color: string, lineWidth: real)
    | Area(x: real, y: real, w: real, h: real, color: string)
    | Text(text: string, x: real, y: real, color: string, font: string)

  /** The context state after one call. */
  function Step(pen: Pen, c: DrawCmd): Pen {
    match c
    case SetSize(_, _) => DefaultPen
    case SetStrokeStyle(color) => pen.(stroke := color)
    case SetLineWidth(width) => pen.(lineWidth := width)
    case SetFont(font) => pen.(font := font)
    case SetFillStyle(color) => pen.(fill := color)
    case _ => pen
  }

  /** The marks one call leaves, drawn with the current context state. */
  function MarkOf(pen: Pen, c: DrawCmd): seq<Mark> {
    match c
    case SetSize(w, h) => [Reset(w, h)]
    case ClearRect(x, y, w, h) => [Cleared(x, y, w, h)]
    case DrawVideoFrame(w, h) => [VideoFrame(w, h)]
    case StrokeRect(x, y, w, h) => [Outline(x, y, w, h, pen.stroke, pen.lineWidth)]
    case FillRect(x, y, w, h) => [Area(x, y, w, h, pen.fill)]
    case FillText(text, x, y) => [Text(text, x, y, pen.fill, pen.font)]
    case _ => []
  }

  /** The marks a run of calls leaves, starting from context state `pen`. */
  function Marks(cmds: seq<DrawCmd>, pen: Pen): seq<Mark>
    decreases |cmds|
  {
    if |cmds| == 0 then [] else MarkOf(pen, cmds[0]) + Marks(cmds[1..], Step(pen, cmds[0]))
  }

  /** The context state after a run of calls. */
  function PenAfter(cmds: seq<DrawCmd>, pen: Pen): Pen
    decreases |cmds|
  {
    if |cmds| == 0 then pen else PenAfter(cmds[1..], Step(pen, cmds[0]))
  }

  /** Running two batches of calls one after the other leaves the marks of the
      first and then those of the second, drawn from where the first left off. */
  lemma {:induction false} MarksAppend(a: seq<DrawCmd>, b: seq<DrawCmd>, pen: Pen)
    ensures Marks(a + b, pen) == Marks(a, pen) + Marks(b, PenAfter(a, pen))
    decreases |a|
  {
    if |a| > 0 {
      assert (a + b)[0] == a[0] && (a + b)[1..] == a[1..] + b;
      MarksAppend(a[1..], b, Step(pen, a[0]));
    } else {
      assert a + b == b;
    }
  }

  // ---------------------------------------------------------------------------
  // The overlay

  /** `det.label || 'Unknown'`: a missing or empty label reads as "Unknown". */
  function LabelOf(d: Detection): (r: string)
    ensures |r| > 0
    ensures r == UnknownLabel <==> d.labelText.None? || d.labelText.value in {"", UnknownLabel}
    ensures d.labelText.Some? && d.labelText.value != "" ==> r == d.labelText.value
    ensures d.labelText.None? || d.labelText == Some("") ==> r == UnknownLabel
  {
    match d.labelText
    case Some(l) => if l == "" then UnknownLabel else l
    case None => UnknownLabel
  }

  /** The box colour: green for a face, blue for anything else. */
  function StrokeColor(kind: string): string {
    if kind == "face" then FaceStroke else PlateStroke
  }

  /** The label background: translucent green for a face, blue otherwise. */
  function FillColor(kind: string): string {
    if kind == "face" then FaceFill else PlateFill
  }

  /** The calls the `forEach` body makes for one detection: the box, then
      the label; `measure` is `measureText(label).width` in the label font. */
  function DetectionCommands(d: Detection, measure: string -> real): seq<DrawCmd> {
    BoxCommands(d) + LabelCommands(d, measure)
  }

  function BoxCommands(d: Detection): seq<DrawCmd> {
    [SetStrokeStyle(StrokeColor(d.kind)), SetLineWidth(OverlayLineWidth),
     StrokeRect(d.x, d.y, d.width, d.height)]
  }

  function LabelCommands(d: Detection, measure: string -> real): seq<DrawCmd> {
    var caption := LabelOf(d);
    [SetFont(LabelFont), SetFillStyle(FillColor(d.kind)),
     FillRect(d.x, d.y - 25.0, measure(caption) + 10.0, 20.0),
     SetFillStyle(LabelTextColor), FillText(caption, d.x + 5.0, d.y - 10.0)]
  }

  /** The calls for all detections, in order. */
  function OverlayCommands(dets: seq<Detection>, measure: string -> real): (r: seq<DrawCmd>)
    ensures |r| == 8 * |dets|
    decreases |dets|
  {
    if |dets| == 0 then []
    else OverlayCommands(dets[..|dets| - 1], measure) + DetectionCommands(dets[|dets| - 1], measure)
  }

  /** What one detection leaves on the canvas: its box in the type colour at
      line width 2, the label background at (x, y-25) sized text width + 10 by
      20, and the label in white at (x+5, y-10). */
  function DetectionMarksOf(d: Detection, measure: string -> real): seq<Mark> {
    var caption := LabelOf(d);
    [Outline(d.x, d.y, d.width, d.height, StrokeColor(d.kind), OverlayLineWidth),
     Area(d.x, d.y - 25.0, measure(caption) + 10.0, 20.0, FillColor(d.kind)),
     Text(caption, d.x + 5.0, d.y - 10.0, LabelTextColor, LabelFont)]
  }

  /** The marks of all detections, in order. */
  function OverlayMarksOf(dets: seq<Detection>, measure: string -> real): seq<Mark>
    decreases |dets|
  {
    if |dets| == 0 then []
    else OverlayMarksOf(dets[..|dets| - 1], measure) + DetectionMarksOf(dets[|dets| - 1], measure)
  }

  /** One detection's calls leave its three marks whatever the context state
      was before: every style the drawing reads is set first. */
  lemma DetectionMarks(d: Detection, measure: string -> real, pen: Pen)
    ensures Marks(DetectionCommands(d, measure), pen) == DetectionMarksOf(d, measure)
  {
    var box := BoxCommands(d);
    var p2 := pen.(stroke := StrokeColor(d.kind), lineWidth := OverlayLineWidth);
    assert Marks(box[1..], pen.(stroke := StrokeColor(d.kind))) == Marks(box[2..], p2);
    assert Marks(box, pen) == [BoxOf(d)];
    assert PenAfter(box, pen) == p2 by {
      assert PenAfter(box[1..], pen.(stroke := StrokeColor(d.kind))) == PenAfter(box[2..], p2);
    }
    LabelMarks(d, measure, p2);
    MarksAppend(box, LabelCommands(d, measure), pen);
  }

  /** The label calls leave the background and the text whatever the context
      state was before. */
  lemma LabelMarks(d: Detection, measure: string -> real, pen: Pen)
    ensures Marks(LabelCommands(d, measure), pen) == DetectionMarksOf(d, measure)[1..]
  {
    var c := LabelCommands(d, measure);
    var caption := LabelOf(d);
    var p2 := pen.(font := LabelFont, fill := FillColor(d.kind));
    var p4 := p2.(fill := LabelTextColor);
    assert Marks(c[3..], p2) == [Text(caption, d.x + 5.0, d.y - 10.0, LabelTextColor, LabelFont)] by {
      assert Marks(c[4..], p4) == [Text(caption, d.x + 5.0, d.y - 10.0, LabelTextColor, LabelFont)];
    }
    assert Marks(c[1..], pen.(font := LabelFont)) == Marks(c[2..], p2);
  }

  lemma {:induction false} PenAfterAppend(a: seq<DrawCmd>, b: seq<DrawCmd>, pen: Pen)
    ensures PenAfter(a + b, pen) == PenAfter(b, PenAfter(a, pen))
    decreases |a|
  {
    if |a| > 0 {
      assert (a + b)[0] == a[0] && (a + b)[1..] == a[1..] + b;
      PenAfterAppend(a[1..], b, Step(pen, a[0]));
    } else {
      assert a + b == b;
    }
  }

  /** The overlay leaves each detection's three marks, in order, whatever the
      context state was before. */
  lemma {:induction false} OverlayMarks(dets: seq<Detection>, measure: string -> real, pen: Pen)
    ensures Marks(OverlayCommands(dets, measure), pen) == OverlayMarksOf(dets, measure)
    decreases |dets|
  {
    if |dets| > 0 {
      var init := dets[..|dets| - 1];
      var last := dets[|dets| - 1];
      MarksAppend(OverlayCommands(init, measure), DetectionCommands(last, measure), pen);
      OverlayMarks(init, measure, pen);
      DetectionMarks(last, measure, PenAfter(OverlayCommands(init, measure), pen));
    }
  }

  /** The rectangles stroked, in the order they were stroked. */
  function Outlines(ms: seq<Mark>): seq<Mark>
    decreases |ms|
  {
    if |ms| == 0 then []
    else (if ms[0].Outline? then [ms[0]] else []) + Outlines(ms[1..])
  }

  lemma {:induction false} OutlinesAppend(a: seq<Mark>, b: seq<Mark>)
    ensures Outlines(a + b) == Outlines(a) + Outlines(b)
    decreases |a|
  {
    if |a| > 0 {
      assert (a + b)[0] == a[0] && (a + b)[1..] == a[1..] + b;
      OutlinesAppend(a[1..], b);
    } else {
      assert a + b == b;
    }
  }

  /** The box drawn for one detection. */
  function BoxOf(d: Detection): Mark {
    Outline(d.x, d.y, d.width, d.height, StrokeColor(d.kind), OverlayLineWidth)
  }

  /** The overlay strokes exactly one rectangle per detection, in order, at the
      detection's box, green for a face and blue for anything else. */
  lemma {:induction false} OverlayOutlines(dets: seq<Detection>, measure: string -> real, pen: Pen)
    ensures |Outlines(Marks(OverlayCommands(dets, measure), pen))| == |dets|
    ensures forall i :: 0 <= i < |dets| ==> Outlines(Marks(OverlayCommands(dets, measure), pen))[i] == BoxOf(dets[i])
    decreases |dets|
  {
    OverlayMarks(dets, measure, pen);
    OutlinesOfMarks(dets, measure);
  }

  lemma {:induction false} OutlinesOfMarks(dets: seq<Detection>, measure: string -> real)
    ensures |Outlines(OverlayMarksOf(dets, measure))| == |dets|
    ensures forall i :: 0 <= i < |dets| ==> Outlines(OverlayMarksOf(dets, measure))[i] == BoxOf(dets[i])
    decreases |dets|
  {
    if |dets| > 0 {
      var init := dets[..|dets| - 1];
      var last := dets[|dets| - 1];
      var ms := DetectionMarksOf(last, measure);
      OutlinesOfMarks(init, measure);
      OutlinesAppend(OverlayMarksOf(init, measure), ms);
      assert Outlines(ms) == [BoxOf(last)] by {
        assert Outlines(ms[2..]) == [];
        assert Outlines(ms[1..]) == [];
      }
    }
  }

  // ---------------------------------------------------------------------------
  // The component's state

  /** What the server's detect reply gave: `SampleFailed` for a non-ok
      response or any thrown error, `SampleReplied` with `result.detections`
      when the body was read. */
  datatype SampleOutcome = SampleFailed | SampleReplied(found: Option<seq<Detection>>)

  /** What the verify-access request gave: `VerifyFailed` for a non-ok
      response or any thrown error, `VerifyReplied` with the body's fields. */
  datatype VerifyOutcome =
    | VerifyFailed
    | VerifyReplied(status: string, plate: Option<string>, face: Option<string>)

  /** The dashboard: the sampler's flag (`processingRef`), the shown
      detections, the access status and recognition, and the canvas with the
      calls issued on it. `sampleInFlight` and `verifyInFlight` say that a
      request has been sent and its Complete step is still to come. */
  class Dashboard {
    var processing: bool
    var sampleInFlight: bool
    var detections: seq<Detection>
    var accessStatus: string
    var verifyInFlight: bool
    var recognition: Recognition
    var canvasWidth: nat
    var canvasHeight: nat
    var drawn: seq<DrawCmd>

    /** A pending sample holds the flag; a pending check shows "processing"
        (which is what keeps the Verify button disabled). */
    predicate Valid()
      reads this
    {
      (sampleInFlight ==> processing) && (verifyInFlight ==> accessStatus == Processing)
    }

    /** The flag is held with no request pending: `toBlob` produced no blob,
        the promise never settles and the `finally` never runs. */
    predicate SamplerStalled()
      reads this
    {
      processing && !sampleInFlight
    }

    /** The status shows "processing" with no request pending. */
    predicate VerifyStalled()
      reads this
    {
      accessStatus == Processing && !verifyInFlight
    }

    /** The initial state: idle, no detections, a fresh 300 by 150 canvas. */
    constructor ()
      ensures Valid()
      ensures !processing && !sampleInFlight && detections == []
      ensures accessStatus == Idle && !verifyInFlight
      ensures recognition == Recognition(None, None, None)
      ensures canvasWidth == 300 && canvasHeight == 150 && drawn == []
    {
      processing := false;
      sampleInFlight := false;
      detections := [];
      accessStatus := Idle;
      verifyInFlight := false;
      recognition := Recognition(None, None, None);
      canvasWidth := 300;
      canvasHeight := 150;
      drawn := [];
    }

    /** `processFrame` up to the request: nothing happens while the flag is
        held or without a video or canvas element; otherwise the flag is taken,
        a missing context drops it again, and with a context the canvas takes
        the video's size and the frame. `sent` says that a blob was produced
        and the request made. */
    method StartSample(hasVideo: bool, hasCanvas: bool, hasContext: bool,
                       videoWidth: nat, videoHeight: nat, blobProduced: bool)
      returns (sent: bool)
      requires Valid()
      modifies this
      ensures Valid()
      ensures old(processing) || !hasVideo || !hasCanvas ==>
        !sent && processing == old(processing) && sampleInFlight == old(sampleInFlight)
      ensures !old(processing) && hasVideo && hasCanvas && !hasContext ==>
        !sent && !processing && !sampleInFlight
      ensures !old(processing) && hasVideo && hasCanvas && hasContext ==>
        processing && sent == blobProduced && sampleInFlight == sent
      ensures !old(processing) && hasVideo && hasCanvas && hasContext && !blobProduced ==> SamplerStalled()
      ensures if !old(processing) && hasVideo && hasCanvas && hasContext then
          canvasWidth == videoWidth && canvasHeight == videoHeight &&
          drawn == old(drawn) + [SetSize(videoWidth, videoHeight), DrawVideoFrame(videoWidth, videoHeight)]
        else
          canvasWidth == old(canvasWidth) && canvasHeight == old(canvasHeight) && drawn == old(drawn)
      ensures detections == old(detections) && accessStatus == old(accessStatus)
      ensures verifyInFlight == old(verifyInFlight) && recognition == old(recognition)
    {
      sent := false;
      if !hasVideo || !hasCanvas || processing {
        return;
      }
      processing := true;
      if !hasContext {
        processing := false;
        return;
      }
      canvasWidth, canvasHeight := videoWidth, videoHeight;
      drawn := drawn + [SetSize(videoWidth, videoHeight), DrawVideoFrame(videoWidth, videoHeight)];
      if blobProduced {
        sent := true;
        sampleInFlight := true;
      }
    }

    /** `processFrame` after the request: when still mounted and the reply
        carries detections, they replace the shown ones and the canvas is
        cleared, the frame redrawn and each detection drawn over it; in every
        case the flag is dropped. */
    method CompleteSample(outcome: SampleOutcome, mounted: bool, measure: string -> real)
      requires Valid() && sampleInFlight
      modifies this
      ensures Valid()
      ensures !processing && !sampleInFlight
      ensures if mounted && outcome.SampleReplied? && outcome.found.Some? then
          detections == outcome.found.value &&
          drawn == old(drawn) + [ClearRect(0.0, 0.0, canvasWidth as real, canvasHeight as real),
                                 DrawVideoFrame(canvasWidth, canvasHeight)]
                              + OverlayCommands(outcome.found.value, measure)
        else
          detections == old(detections) && drawn == old(drawn)
      ensures canvasWidth == old(canvasWidth) && canvasHeight == old(canvasHeight)
      ensures accessStatus == old(accessStatus) && verifyInFlight == old(verifyInFlight)
      ensures recognition == old(recognition)
    {
      if mounted && outcome.SampleReplied? && outcome.found.Some? {
        var ds := outcome.found.value;
        detections := ds;
        var overlay: seq<DrawCmd> := [];
        var i := 0;
        while i < |ds|
          invariant 0 <= i <= |ds|
          invariant overlay == OverlayCommands(ds[..i], measure)
        {
          assert ds[..i + 1][..i] == ds[..i];
          overlay := overlay + DetectionCommands(ds[i], measure);
          i := i + 1;
        }
        assert ds[..|ds|] == ds;
        drawn := drawn + [ClearRect(0.0, 0.0, canvasWidth as real, canvasHeight as real),
                          DrawVideoFrame(canvasWidth, canvasHeight)] + overlay;
      }
      processing := false;
      sampleInFlight := false;
    }

    /** `verifyAccess` up to the request, called only while the button is
        enabled: the status becomes "processing" first; without a video,
        canvas or context, or without a blob, it stays there with nothing
        pending. */
    method StartVerify(hasVideo: bool, hasCanvas: bool, hasContext: bool,
                       videoWidth: nat, videoHeight: nat, blobProduced: bool)
      returns (sent: bool)
      requires Valid() && accessStatus != Processing
      modifies this
      ensures Valid()
      ensures accessStatus == Processing
      ensures sent <==> hasVideo && hasCanvas && hasContext && blobProduced
      ensures verifyInFlight == sent
      ensures !sent ==> VerifyStalled()
      ensures if hasVideo && hasCanvas && hasContext then
          canvasWidth == videoWidth && canvasHeight == videoHeight &&
          drawn == old(drawn) + [SetSize(videoWidth, videoHeight), DrawVideoFrame(videoWidth, videoHeight)]
        else
          canvasWidth == old(canvasWidth) && canvasHeight == old(canvasHeight) && drawn == old(drawn)
      ensures processing == old(processing) && sampleInFlight == old(sampleInFlight)
      ensures detections == old(detections) && recognition == old(recognition)
    {
      sent := false;
      accessStatus := Processing;
      if !hasVideo || !hasCanvas || !hasContext {
        return;
      }
      canvasWidth, canvasHeight := videoWidth, videoHeight;
      drawn := drawn + [SetSize(videoWidth, videoHeight), DrawVideoFrame(videoWidth, videoHeight)];
      if blobProduced {
        sent := true;
        verifyInFlight := true;
      }
    }

    /** `verifyAccess` after the request: a failure shows "error"; a reply
        shows its status, and only a "granted" one replaces the recognition,
        stamped with the local time `now`. */
    method CompleteVerify(outcome: VerifyOutcome, now: string)
      requires Valid() && verifyInFlight
      modifies this
      ensures Valid()
      ensures !verifyInFlight
      ensures outcome.VerifyFailed? ==> accessStatus == Error && recognition == old(recognition)
      ensures outcome.VerifyReplied? ==> accessStatus == outcome.status
      ensures outcome.VerifyReplied? && outcome.status == Granted ==>
        recognition == Recognition(outcome.plate, outcome.face, Some(now))
      ensures outcome.VerifyReplied? && outcome.status != Granted ==> recognition == old(recognition)
      ensures processing == old(processing) && sampleInFlight == old(sampleInFlight)
      ensures detections == old(detections) && drawn == old(drawn)
      ensures canvasWidth == old(canvasWidth) && canvasHeight == old(canvasHeight)
    {
      verifyInFlight := false;
      match outcome
      case VerifyFailed =>
        accessStatus := Error;
      case VerifyReplied(status, plate, face) =>
        accessStatus := status;
        if status == Granted {
          recognition := Recognition(plate, face, Some(now));
        }
    }
  }
}
