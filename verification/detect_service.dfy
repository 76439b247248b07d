/** The decision logic of the detection service (detect_service.py): which faces
    and plates become detections, which registered user a face is matched to,
    how a frame turns into an access decision, and when a new user may register.
    The machine-learning calls (face locations, face encodings, face distances,
    YOLO plate boxes, OCR) are inputs to this model, not part of it. */
module DetectService {
  import opened Wrappers
  import opened Text
  import opened Plates

  /** Faces farther apart than this are different people (detect_service.py:35). */
  const FaceRecognitionThreshold: real := 0.5
  /** Faces smaller than this in either direction are ignored (detect_service.py:36). */
  const MinFaceSize: int := 20
  /** YOLO boxes must be more confident than this to count as plates (detect_service.py:174). */
  const PlateConfidenceThreshold: real := 0.5
  const UnknownName: string := "Unknown"
  /** What separates the name from the percentage in a face label. */
  const LabelSeparator: string := " ("

  /** A face encoding, as face_recognition computes it. */
  type Encoding = seq<real>

  /** A face box in face_recognition's (top, right, bottom, left) order. */
  datatype FaceLocation = FaceLocation(top: int, right: int, bottom: int, left: int)

  /** One entry of `known_faces`, keyed by `name`. */
  datatype KnownFace = KnownFace(name: string, faceEncoding: Encoding, plateNumber: string, registrationTime: int)

  /** One YOLO box: its confidence, its corners as floats, and the texts OCR read
      in the crop (empty when OCR read nothing or raised). */
  datatype PlateBox = PlateBox(conf: real, x1: real, y1: real, x2: real, y2: real, ocrTexts: seq<string>)

  /** What the vision libraries report about one frame. */
  datatype FrameAnalysis = FrameAnalysis(
    faceLocations: seq<FaceLocation>,
    encode: FaceLocation -> Encoding,
    yoloResults: seq<seq<PlateBox>>)

  datatype Detection =
    | Face(x: int, y: int, width: int, height: int, labelText: string, confidence: real)
    | Plate(x: int, y: int, width: int, height: int, labelText: string)

  /** The dictionaries `process_frame` returns (the timestamp is left out). */
  datatype Decision =
    | Granted(face: string, plate: string, confidence: real)
    | MissingFaceOrPlate
    | FaceNotRecognized(confidence: real)
    | PlateMismatch(detectedPlate: string, expectedPlate: Option<string>)

  function Status(d: Decision): string {
    if d.Granted? then "granted" else "denied"
  }

  // ---------------------------------------------------------------------------
  // known_faces as an insertion-ordered dictionary

  predicate DistinctNames(known: seq<KnownFace>) {
    forall i, j :: 0 <= i < j < |known| ==> known[i].name != known[j].name
  }

  /** The position of `name` among the keys of `known_faces`. */
  function FindName(known: seq<KnownFace>, name: string): (r: Option<nat>)
    ensures r.Some? ==> r.value < |known| && known[r.value].name == name
  {
    if |known| == 0 then None
    else if known[0].name == name then Some(0)
    else match FindName(known[1..], name)
      case None => None
      case Some(k) => Some(k + 1)
  }

  /** `FindName` finds the first entry with `name`, and fails exactly when
      there is none. */
  lemma {:induction false} FindNameMeaning(known: seq<KnownFace>, name: string)
    ensures var r := FindName(known, name);
      r.Some? ==> forall j :: 0 <= j < r.value ==> known[j].name != name
    ensures FindName(known, name).None? <==> forall j :: 0 <= j < |known| ==> known[j].name != name
  {
    if |known| > 0 && known[0].name != name {
      FindNameMeaning(known[1..], name);
      assert forall j :: 1 <= j < |known| ==> known[j] == known[1..][j - 1];
    }
  }

  /** The first entry with `name` is where `FindName` points. */
  lemma FindNameAt(known: seq<KnownFace>, name: string, k: nat)
    requires k < |known| && known[k].name == name
    requires forall j :: 0 <= j < k ==> known[j].name != name
    ensures FindName(known, name) == Some(k)
  {
    FindNameMeaning(known, name);
  }

  /** `known_faces.get(name)`. */
  function Lookup(known: seq<KnownFace>, name: string): (r: Option<KnownFace>)
    ensures r.Some? ==> r.value in known && r.value.name == name
    ensures r.None? ==> forall u :: u in known ==> u.name != name
  {
    FindNameMeaning(known, name);
    match FindName(known, name)
    case None => None
    case Some(i) => Some(known[i])
  }

  /** `known_faces[entry.name] = entry`: overwrite in place, or append a new key. */
  function Upsert(known: seq<KnownFace>, entry: KnownFace): (r: seq<KnownFace>)
    ensures entry in r
    ensures |known| <= |r| <= |known| + 1
  {
    match FindName(known, entry.name)
    case Some(i) => assert known[i := entry][i] == entry; known[i := entry]
    case None => assert (known + [entry])[|known|] == entry; known + [entry]
  }

  /** `FindName` looks only at the keys. */
  lemma {:induction false} FindNameByKeys(a: seq<KnownFace>, b: seq<KnownFace>, name: string)
    requires |a| == |b| && forall j :: 0 <= j < |a| ==> a[j].name == b[j].name
    ensures FindName(a, name) == FindName(b, name)
  {
    if |a| > 0 && a[0].name != name {
      FindNameByKeys(a[1..], b[1..], name);
    }
  }

  /** `Upsert` keeps the keys distinct and in place, and adds one key exactly
      when the name was not yet a key. */
  lemma UpsertKeepsKeys(known: seq<KnownFace>, entry: KnownFace)
    requires DistinctNames(known)
    ensures DistinctNames(Upsert(known, entry))
    ensures |Upsert(known, entry)| == if Lookup(known, entry.name).None? then |known| + 1 else |known|
    ensures forall i :: 0 <= i < |known| ==> Upsert(known, entry)[i].name == known[i].name
  {
    FindNameMeaning(known, entry.name);
  }

  /** `Upsert` behaves as Python's dictionary assignment: the key now maps to the
      entry and every other key keeps its value. */
  lemma UpsertIsAssignment(known: seq<KnownFace>, entry: KnownFace, other: string)
    requires DistinctNames(known)
    ensures Lookup(Upsert(known, entry), entry.name) == Some(entry)
    ensures other != entry.name ==> Lookup(Upsert(known, entry), other) == Lookup(known, other)
  {
    var r := Upsert(known, entry);
    FindNameMeaning(known, entry.name);
    FindNameMeaning(known, other);
    match FindName(known, entry.name)
    case Some(i) =>
      FindNameByKeys(r, known, entry.name);
      FindNameByKeys(r, known, other);
    case None =>
      assert forall j :: 0 <= j < |known| ==> r[j] == known[j];
      FindNameAt(r, entry.name, |known|);
      if other != entry.name {
        FindNameMeaning(r, other);
        if FindName(known, other).Some? {
          FindNameAt(r, other, FindName(known, other).value);
        }
      }
  }

  // ---------------------------------------------------------------------------
  // Matching one face against the known faces (detect_service.py:143-157)

  /** The distance from each known face, in dictionary order, to `encoding`. */
  function Distances(known: seq<KnownFace>, encoding: Encoding, distance: (Encoding, Encoding) -> real): seq<real> {
    seq(|known|, j requires 0 <= j < |known| => distance(known[j].faceEncoding, encoding))
  }

  /** Entry `k` is the match the loop settles on: close enough, no farther than
      any other entry, and strictly closer than every entry before it. */
  predicate IsBestMatch(ds: seq<real>, k: nat) {
    && k < |ds|
    && ds[k] < FaceRecognitionThreshold
    && (forall j :: 0 <= j < |ds| ==> ds[k] <= ds[j])
    && (forall j :: 0 <= j < k ==> ds[k] < ds[j])
  }

  /** The index the strict best-so-far loop ends with, or None for "Unknown". */
  function BestMatch(ds: seq<real>): (r: Option<nat>)
    ensures r.Some? ==> r.value < |ds|
    decreases |ds|
  {
    if |ds| == 0 then None
    else
      var n := |ds| - 1;
      var r := BestMatch(ds[..n]);
      if ds[n] < FaceRecognitionThreshold && (r.None? || ds[n] < ds[r.value]) then Some(n) else r
  }

  /** There is no match exactly when no distance is below the threshold, and
      otherwise the match is the one index that is the best match. */
  lemma {:induction false} BestMatchMeaning(ds: seq<real>)
    ensures BestMatch(ds).None? <==> forall j :: 0 <= j < |ds| ==> ds[j] >= FaceRecognitionThreshold
    ensures forall k: nat :: IsBestMatch(ds, k) <==> BestMatch(ds) == Some(k)
    decreases |ds|
  {
    if |ds| > 0 {
      var n := |ds| - 1;
      var prefix := ds[..n];
      BestMatchMeaning(prefix);
      assert forall j :: 0 <= j < n ==> prefix[j] == ds[j];
    }
  }

  /** `f"{name} ({confidence:.2%})"` for a match, the bare name otherwise; the
      percentage formatting is a parameter. */
  function FaceLabel(name: string, confidence: real, percent: real -> string): (r: string)
    ensures name == UnknownName ==> r == name
    ensures name != UnknownName ==> name + LabelSeparator <= r && r[|r| - 1] == ')'
  {
    if name != UnknownName then name + LabelSeparator + percent(confidence) + ")" else name
  }

  /** `label.split(" (")[0]`, as `process_frame` reads the name back. */
  function NameFromLabel(tag: string): (r: string)
    ensures r <= tag
    ensures !Contains(tag, LabelSeparator) ==> r == tag
    ensures Contains(tag, LabelSeparator) ==> OccursAt(tag, LabelSeparator, |r|)
    ensures forall j: nat :: j < |r| ==> !OccursAt(tag, LabelSeparator, j)
  {
    SplitHead(tag, LabelSeparator)
  }

  /** The name is recovered from its label exactly when it does not itself
      contain the separator " (". */
  lemma LabelRoundTrip(name: string, confidence: real, percent: real -> string)
    ensures NameFromLabel(FaceLabel(name, confidence, percent)) == name <==> !Contains(name, LabelSeparator)
  {
    if name != UnknownName {
      var tag := name + LabelSeparator + percent(confidence) + ")";
      var n := |name|;
      assert OccursAt(tag, LabelSeparator, n) by {
        assert tag[n..n + 2] == LabelSeparator;
      }
      var r := IndexOf(tag, LabelSeparator);
      IndexOfMeaning(tag, LabelSeparator);
      IndexOfMeaning(name, LabelSeparator);
      if !Contains(name, LabelSeparator) {
        assert r == Some(n) by {
          forall j: nat | j < n ensures !OccursAt(tag, LabelSeparator, j) {
            if j + 2 <= n {
              assert tag[j..j + 2] == name[j..j + 2];
              assert !OccursAt(name, LabelSeparator, j);
            } else {
              assert tag[j..j + 2][1] == tag[n] == ' ';
              assert LabelSeparator[1] == '(';
            }
          }
        }
        assert tag[..n] == name;
      } else {
        var i := IndexOf(name, LabelSeparator).value;
        assert OccursAt(tag, LabelSeparator, i) by {
          assert tag[i..i + 2] == name[i..i + 2];
        }
        assert |NameFromLabel(tag)| <= i < n;
      }
    }
  }

  /** A face box at least `MinFaceSize` high and wide. */
  predicate LargeEnough(loc: FaceLocation) {
    loc.bottom - loc.top >= MinFaceSize && loc.right - loc.left >= MinFaceSize
  }

  /** The detection `detect_objects` emits for one face, if any: none for a
      face that is too small, otherwise a face detection at the face's box. */
  function FaceDetectionFor(loc: FaceLocation, encoding: Encoding, known: seq<KnownFace>,
                            distance: (Encoding, Encoding) -> real, percent: real -> string): (r: Option<Detection>)
    ensures r.None? <==> !LargeEnough(loc)
    ensures r.Some? ==> r.value.Face? && r.value.x == loc.left && r.value.y == loc.top
    ensures r.Some? ==> r.value.width == loc.right - loc.left >= MinFaceSize
    ensures r.Some? ==> r.value.height == loc.bottom - loc.top >= MinFaceSize
  {
    if !LargeEnough(loc) then None
    else
      var ds := Distances(known, encoding, distance);
      var m := BestMatch(ds);
      var name := if m.Some? then known[m.value].name else UnknownName;
      var confidence := if name != UnknownName then 1.0 - ds[m.value] else 0.0;
      Some(Face(loc.left, loc.top, loc.right - loc.left, loc.bottom - loc.top,
                FaceLabel(name, confidence, percent), confidence))
  }

  /** A face smaller than `MinFaceSize` in height or width is dropped; any other
      face becomes a face detection at its box. Its name is the best match
      (or "Unknown" when no known face is closer than the threshold) and its
      confidence is 1 - distance, which exceeds one half when distances are
      not negative, or 0 for "Unknown". */
  lemma FaceDetectionMeaning(loc: FaceLocation, encoding: Encoding, known: seq<KnownFace>,
                             distance: (Encoding, Encoding) -> real, percent: real -> string)
    requires forall j :: 0 <= j < |known| ==> distance(known[j].faceEncoding, encoding) >= 0.0
    ensures var d := FaceDetectionFor(loc, encoding, known, distance, percent);
      && (d.Some? && (forall j :: 0 <= j < |known| ==> distance(known[j].faceEncoding, encoding) >= FaceRecognitionThreshold) ==>
            d.value.labelText == UnknownName && d.value.confidence == 0.0)
      && (d.Some? ==> forall k: nat :: IsBestMatch(Distances(known, encoding, distance), k) && known[k].name != UnknownName ==>
            && d.value.labelText == FaceLabel(known[k].name, d.value.confidence, percent)
            && d.value.confidence == 1.0 - distance(known[k].faceEncoding, encoding)
            && 0.5 < d.value.confidence <= 1.0)
      && (d.Some? ==> forall k: nat :: IsBestMatch(Distances(known, encoding, distance), k) && known[k].name == UnknownName ==>
            d.value.labelText == UnknownName && d.value.confidence == 0.0)
  {
    var ds := Distances(known, encoding, distance);
    var m := BestMatch(ds);
    BestMatchMeaning(ds);
    if m.Some? {
      assert IsBestMatch(ds, m.value);
      assert ds[m.value] == distance(known[m.value].faceEncoding, encoding);
    }
  }

  /** What `detect_objects` makes of each face, in order. */
  function FaceCandidates(frame: FrameAnalysis, known: seq<KnownFace>,
                          distance: (Encoding, Encoding) -> real, percent: real -> string): seq<Option<Detection>> {
    seq(|frame.faceLocations|, i requires 0 <= i < |frame.faceLocations| =>
      FaceDetectionFor(frame.faceLocations[i], frame.encode(frame.faceLocations[i]), known, distance, percent))
  }

  /** Candidate `j` is the detection made of face `j`: none when the face is
      too small, otherwise a face detection of at least `MinFaceSize` square. */
  lemma CandidateAt(frame: FrameAnalysis, known: seq<KnownFace>,
                    distance: (Encoding, Encoding) -> real, percent: real -> string, j: nat)
    requires j < |frame.faceLocations|
    ensures var loc := frame.faceLocations[j];
      FaceCandidates(frame, known, distance, percent)[j] == FaceDetectionFor(loc, frame.encode(loc), known, distance, percent)
  {
  }

  /** The face detections for the first `n` faces, in order. */
  function FaceDetections(frame: FrameAnalysis, known: seq<KnownFace>,
                          distance: (Encoding, Encoding) -> real, percent: real -> string, n: nat): seq<Detection>
    requires n <= |frame.faceLocations|
  {
    Present(FaceCandidates(frame, known, distance, percent), n)
  }

  /** What the matching loop leaves behind determines the face detection. */
  lemma FaceDetectionOfMatch(loc: FaceLocation, encoding: Encoding, known: seq<KnownFace>,
                             distance: (Encoding, Encoding) -> real, percent: real -> string,
                             name: string, bestDistance: Option<real>)
    requires LargeEnough(loc)
    requires var ds := Distances(known, encoding, distance);
      match BestMatch(ds)
      case None => name == UnknownName && bestDistance.None?
      case Some(k) => name == known[k].name && bestDistance == Some(ds[k])
    ensures var confidence := if name != UnknownName then 1.0 - bestDistance.value else 0.0;
      FaceDetectionFor(loc, encoding, known, distance, percent)
        == Some(Face(loc.left, loc.top, loc.right - loc.left, loc.bottom - loc.top,
                     FaceLabel(name, confidence, percent), confidence))
  {
  }

  /** Every face detection is a face at least `MinFaceSize` wide and high; there
      is at most one per face, and exactly one per face when no face is too small. */
  lemma FaceDetectionsFiltered(frame: FrameAnalysis, known: seq<KnownFace>,
                               distance: (Encoding, Encoding) -> real, percent: real -> string, n: nat)
    requires n <= |frame.faceLocations|
    ensures |FaceDetections(frame, known, distance, percent, n)| <= n
    ensures var ds := FaceDetections(frame, known, distance, percent, n);
      forall i :: 0 <= i < |ds| ==> ds[i].Face? && ds[i].width >= MinFaceSize && ds[i].height >= MinFaceSize
    ensures |FaceDetections(frame, known, distance, percent, n)| == n <==>
      forall i :: 0 <= i < n ==> LargeEnough(frame.faceLocations[i])
  {
    var opts := FaceCandidates(frame, known, distance, percent);
    PresentMeaning(opts, n);
    var ds := Present(opts, n);
    forall i | 0 <= i < |ds|
      ensures ds[i].Face? && ds[i].width >= MinFaceSize && ds[i].height >= MinFaceSize
    {
      var j :| 0 <= j < n && opts[j] == Some(ds[i]);
      CandidateAt(frame, known, distance, percent, j);
    }
    forall j | 0 <= j < n
      ensures opts[j].Some? <==> LargeEnough(frame.faceLocations[j])
    {
      CandidateAt(frame, known, distance, percent, j);
    }
  }

  /** Every face that is large enough gives its detection, whatever the other
      faces, and the detections keep the order of the faces. */
  lemma FaceDetectionsComplete(frame: FrameAnalysis, known: seq<KnownFace>,
                               distance: (Encoding, Encoding) -> real, percent: real -> string, n: nat)
    requires n <= |frame.faceLocations|
    ensures var ds := FaceDetections(frame, known, distance, percent, n);
      forall j :: 0 <= j < n && LargeEnough(frame.faceLocations[j]) ==>
        var loc := frame.faceLocations[j];
        FaceDetectionFor(loc, frame.encode(loc), known, distance, percent).value in ds
    ensures forall m :: 0 <= m <= n ==>
      FaceDetections(frame, known, distance, percent, m) <= FaceDetections(frame, known, distance, percent, n)
  {
    var opts := FaceCandidates(frame, known, distance, percent);
    PresentComplete(opts, n);
    forall j | 0 <= j < n && LargeEnough(frame.faceLocations[j])
      ensures var loc := frame.faceLocations[j];
        FaceDetectionFor(loc, frame.encode(loc), known, distance, percent).value in Present(opts, n)
    {
      CandidateAt(frame, known, distance, percent, j);
    }
    forall m | 0 <= m <= n
      ensures Present(opts, m) <= Present(opts, n)
    {
      PresentPrefix(opts, m, n);
    }
  }

  // ---------------------------------------------------------------------------
  // Plates (detect_service.py:170-194)

  /** Python's `int()` on a float: truncation toward zero. */
  function Truncate(r: real): (t: int)
    ensures r >= 0.0 ==> 0 <= t && t as real <= r < t as real + 1.0
    ensures r < 0.0 ==> t <= 0 && t as real - 1.0 < r <= t as real
  {
    if r >= 0.0 then r.Floor else -((-r).Floor)
  }

  /** The plate detection for a box: its truncated corners give the position
      and the size, and the first OCR text (or "Unknown") the label. */
  function PlateOf(box: PlateBox): (r: Detection)
    ensures r.Plate?
    ensures |box.ocrTexts| > 0 ==> r.labelText == box.ocrTexts[0]
    ensures |box.ocrTexts| == 0 ==> r.labelText == UnknownName
  {
    var x1, y1, x2, y2 := Truncate(box.x1), Truncate(box.y1), Truncate(box.x2), Truncate(box.y2);
    Plate(x1, y1, x2 - x1, y2 - y1, if |box.ocrTexts| > 0 then box.ocrTexts[0] else UnknownName)
  }

  /** The detection `detect_objects` emits for one YOLO box, if any. */
  function PlateDetectionFor(box: PlateBox): Option<Detection> {
    if box.conf > PlateConfidenceThreshold then Some(PlateOf(box)) else None
  }

  /** What `detect_objects` makes of each box of one YOLO result, in order. */
  function BoxCandidates(boxes: seq<PlateBox>): seq<Option<Detection>> {
    seq(|boxes|, i requires 0 <= i < |boxes| => PlateDetectionFor(boxes[i]))
  }

  /** The plate detections of the first `n` boxes of one YOLO result. */
  function BoxDetections(boxes: seq<PlateBox>, n: nat): seq<Detection>
    requires n <= |boxes|
  {
    Present(BoxCandidates(boxes), n)
  }

  /** Every box more confident than the threshold gives its detection, whatever
      the other boxes, and the detections keep the order of the boxes. */
  lemma BoxDetectionsComplete(boxes: seq<PlateBox>, n: nat)
    requires n <= |boxes|
    ensures forall b :: 0 <= b < n && boxes[b].conf > PlateConfidenceThreshold ==>
      PlateOf(boxes[b]) in BoxDetections(boxes, n)
    ensures forall m :: 0 <= m <= n ==> BoxDetections(boxes, m) <= BoxDetections(boxes, n)
  {
    var opts := BoxCandidates(boxes);
    PresentComplete(opts, n);
    forall b | 0 <= b < n && boxes[b].conf > PlateConfidenceThreshold
      ensures PlateOf(boxes[b]) in Present(opts, n)
    {
      assert opts[b] == PlateDetectionFor(boxes[b]);
    }
    forall m | 0 <= m <= n
      ensures Present(opts, m) <= Present(opts, n)
    {
      PresentPrefix(opts, m, n);
    }
  }

  /** The plate detections of the first `n` YOLO results, in order. */
  function PlateDetections(results: seq<seq<PlateBox>>, n: nat): seq<Detection>
    requires n <= |results|
  {
    if n == 0 then [] else PlateDetections(results, n - 1) + BoxDetections(results[n - 1], |results[n - 1]|)
  }

  /** A plate detection comes only from a box more confident than the threshold;
      its size is the difference of its truncated corners and its label is the
      first OCR text, or "Unknown". */
  lemma BoxDetectionsMeaning(boxes: seq<PlateBox>, n: nat)
    requires n <= |boxes|
    ensures |BoxDetections(boxes, n)| <= n
    ensures var ds := BoxDetections(boxes, n);
      forall i :: 0 <= i < |ds| ==>
        exists b :: 0 <= b < n && boxes[b].conf > PlateConfidenceThreshold && ds[i] == PlateOf(boxes[b])
    ensures |BoxDetections(boxes, n)| == n <==> forall b :: 0 <= b < n ==> boxes[b].conf > PlateConfidenceThreshold
  {
    var opts := BoxCandidates(boxes);
    PresentMeaning(opts, n);
    var ds := Present(opts, n);
    forall i | 0 <= i < |ds|
      ensures exists b :: 0 <= b < n && boxes[b].conf > PlateConfidenceThreshold && ds[i] == PlateOf(boxes[b])
    {
      var b :| 0 <= b < n && opts[b] == Some(ds[i]);
      assert opts[b] == PlateDetectionFor(boxes[b]);
    }
    forall b | 0 <= b < n
      ensures opts[b].Some? <==> boxes[b].conf > PlateConfidenceThreshold
    {
      assert opts[b] == PlateDetectionFor(boxes[b]);
    }
  }

  /** The plate half of `detect_objects`: every sufficiently confident YOLO box,
      result by result and box by box. */
  method DetectPlates(results: seq<seq<PlateBox>>) returns (detections: seq<Detection>)
    ensures detections == PlateDetections(results, |results|)
  {
    detections := [];
    var r := 0;
    while r < |results|
      invariant 0 <= r <= |results|
      invariant detections == PlateDetections(results, r)
    {
      var boxes := results[r];
      var b := 0;
      while b < |boxes|
        invariant 0 <= b <= |boxes|
        invariant detections == PlateDetections(results, r) + BoxDetections(boxes, b)
      {
        var box := boxes[b];
        ghost var kept := match PlateDetectionFor(box) case None => [] case Some(x) => [x];
        assert BoxCandidates(boxes)[b] == PlateDetectionFor(box);
        assert BoxDetections(boxes, b + 1) == BoxDetections(boxes, b) + kept;
        AppendAssociative(PlateDetections(results, r), BoxDetections(boxes, b), kept);
        if box.conf > PlateConfidenceThreshold {
          var x1, y1, x2, y2 := Truncate(box.x1), Truncate(box.y1), Truncate(box.x2), Truncate(box.y2);
          var plateText := UnknownName;
          if |box.ocrTexts| > 0 {
            plateText := box.ocrTexts[0];
          }
          assert kept == [Plate(x1, y1, x2 - x1, y2 - y1, plateText)];
          detections := detections + [Plate(x1, y1, x2 - x1, y2 - y1, plateText)];
        }
        b := b + 1;
      }
      r := r + 1;
    }
  }

  // ---------------------------------------------------------------------------
  // The access decision of process_frame (detect_service.py:207-247)

  /** Detection `k` is the face `max(..., key=confidence)` picks: a face, no less
      confident than any face, and strictly more confident than every face before it. */
  predicate IsTopFace(dets: seq<Detection>, k: nat) {
    && k < |dets| && dets[k].Face?
    && (forall i :: 0 <= i < |dets| && dets[i].Face? ==> dets[i].confidence <= dets[k].confidence)
    && (forall i :: 0 <= i < k && dets[i].Face? ==> dets[i].confidence < dets[k].confidence)
  }

  function TopFace(dets: seq<Detection>): (r: Option<nat>)
    ensures r.None? <==> forall i :: 0 <= i < |dets| ==> !dets[i].Face?
    ensures forall k: nat :: IsTopFace(dets, k) <==> r == Some(k)
    decreases |dets|
  {
    if |dets| == 0 then None
    else
      var n := |dets| - 1;
      var prefix := dets[..n];
      var r := TopFace(prefix);
      assert forall j :: 0 <= j < n ==> prefix[j] == dets[j];
      if dets[n].Face? && (r.None? || dets[n].confidence > dets[r.value].confidence) then Some(n) else r
  }

  /** `next(d for d in detections if d["type"] == "plate")`. */
  function FirstPlate(dets: seq<Detection>): (r: Option<nat>)
    ensures r.Some? ==> r.value < |dets| && dets[r.value].Plate?
                        && forall i :: 0 <= i < r.value ==> !dets[i].Plate?
    ensures r.None? <==> forall i :: 0 <= i < |dets| ==> !dets[i].Plate?
  {
    if |dets| == 0 then None
    else if dets[0].Plate? then Some(0)
    else match FirstPlate(dets[1..])
      case None => None
      case Some(k) => Some(k + 1)
  }

  /** The decision `process_frame` takes from the detections of a frame. */
  function Verdict(dets: seq<Detection>, known: seq<KnownFace>): (r: Decision)
    ensures TopFace(dets).None? || FirstPlate(dets).None? ==> r == MissingFaceOrPlate
    ensures r.Granted? ==> r.plate == dets[FirstPlate(dets).value].labelText
    ensures r.Granted? ==> r.face != UnknownName && Lookup(known, r.face).Some?
    ensures r.Granted? ==> ComparePlates(r.plate, Lookup(known, r.face).value.plateNumber)
  {
    if TopFace(dets).None? || FirstPlate(dets).None? then MissingFaceOrPlate
    else
      var f, p := TopFace(dets).value, FirstPlate(dets).value;
      var faceName := NameFromLabel(dets[f].labelText);
      var plateText := dets[p].labelText;
      if faceName == UnknownName then FaceNotRecognized(dets[f].confidence)
      else match Lookup(known, faceName)
        case Some(user) =>
          if ComparePlates(plateText, user.plateNumber) then Granted(faceName, plateText, dets[f].confidence)
          else PlateMismatch(plateText, Some(user.plateNumber))
        case None => PlateMismatch(plateText, None)
  }

  /** Without a face or without a plate, access is denied. */
  lemma DeniedWithoutFaceOrPlate(dets: seq<Detection>, known: seq<KnownFace>)
    requires (forall i :: 0 <= i < |dets| ==> !dets[i].Face?) || (forall i :: 0 <= i < |dets| ==> !dets[i].Plate?)
    ensures Verdict(dets, known) == MissingFaceOrPlate
    ensures Status(Verdict(dets, known)) == "denied"
  {
  }

  /** When the most confident face (the first one on ties) reads as "Unknown",
      access is denied as not recognised, whatever the plate. */
  lemma DeniedWhenUnrecognised(dets: seq<Detection>, known: seq<KnownFace>, f: nat, p: nat)
    requires IsTopFace(dets, f) && p < |dets| && dets[p].Plate?
    requires NameFromLabel(dets[f].labelText) == UnknownName
    ensures Verdict(dets, known) == FaceNotRecognized(dets[f].confidence)
  {
  }

  /** Access is granted exactly when the most confident face names a registered
      user and the first plate compares equal to that user's plate; the
      decision then carries that name and that plate text. */
  lemma GrantedIff(dets: seq<Detection>, known: seq<KnownFace>, f: nat, p: nat)
    requires DistinctNames(known)
    requires IsTopFace(dets, f)
    requires p < |dets| && dets[p].Plate? && forall i :: 0 <= i < p ==> !dets[i].Plate?
    ensures var name := NameFromLabel(dets[f].labelText);
      Verdict(dets, known).Granted? <==>
        name != UnknownName &&
        exists k :: 0 <= k < |known| && known[k].name == name && ComparePlates(dets[p].labelText, known[k].plateNumber)
    ensures Verdict(dets, known).Granted? ==>
      Verdict(dets, known) == Granted(NameFromLabel(dets[f].labelText), dets[p].labelText, dets[f].confidence)
  {
    var name := NameFromLabel(dets[f].labelText);
    assert FirstPlate(dets) == Some(p);
    if name != UnknownName {
      FindNameMeaning(known, name);
      match FindName(known, name)
      case None =>
      case Some(k) =>
        forall k' | 0 <= k' < |known| && known[k'].name == name ensures k' == k { }
    }
  }

  // ---------------------------------------------------------------------------
  // Registration (detect_service.py:83-108)

  function Area(loc: FaceLocation): int {
    (loc.bottom - loc.top) * (loc.right - loc.left)
  }

  /** `max(face_locations, key=area)`: the first face of largest area. */
  function LargestFace(locs: seq<FaceLocation>): (r: nat)
    requires |locs| > 0
    ensures r < |locs|
    ensures forall j :: 0 <= j < |locs| ==> Area(locs[j]) <= Area(locs[r])
    ensures forall j :: 0 <= j < r ==> Area(locs[j]) < Area(locs[r])
    decreases |locs|
  {
    if |locs| == 1 then 0
    else
      var n := |locs| - 1;
      var prefix := locs[..n];
      var r := LargestFace(prefix);
      assert forall j :: 0 <= j < n ==> prefix[j] == locs[j];
      if Area(locs[n]) > Area(locs[r]) then n else r
  }

  /** Some registered face is closer to `encoding` than the threshold. */
  predicate TooSimilar(known: seq<KnownFace>, encoding: Encoding, distance: (Encoding, Encoding) -> real) {
    exists j :: 0 <= j < |known| && distance(known[j].faceEncoding, encoding) < FaceRecognitionThreshold
  }

  /** The detection service with its `known_faces` dictionary, which registration
      updates in place. */
  class DetectionService {
    var knownFaces: seq<KnownFace>

    /** `knownFaces` is what `_load_known_faces` returned (the empty dictionary
        when there is no file or it cannot be read). */
    constructor (loaded: seq<KnownFace>)
      requires DistinctNames(loaded)
      ensures knownFaces == loaded
    {
      knownFaces := loaded;
    }

    /** `detect_objects`: the face detections, then the plate detections. */
    method DetectObjects(frame: FrameAnalysis, distance: (Encoding, Encoding) -> real, percent: real -> string)
      returns (detections: seq<Detection>)
      ensures detections == FaceDetections(frame, knownFaces, distance, percent, |frame.faceLocations|)
                            + PlateDetections(frame.yoloResults, |frame.yoloResults|)
    {
      var faces := DetectFaces(frame, distance, percent);
      var plates := DetectPlates(frame.yoloResults);
      detections := faces + plates;
    }

    /** The inner loop of `detect_objects` for one face: the name of the closest
        known face strictly below the threshold (the first one on ties) and its
        distance, or "Unknown" and no distance (Python's `float('inf')`). */
    method BestKnownFace(encoding: Encoding, distance: (Encoding, Encoding) -> real)
      returns (name: string, bestDistance: Option<real>)
      ensures var ds := Distances(knownFaces, encoding, distance);
        match BestMatch(ds)
        case None => name == UnknownName && bestDistance.None?
        case Some(k) => name == knownFaces[k].name && bestDistance == Some(ds[k])
    {
      ghost var ds := Distances(knownFaces, encoding, distance);
      name := UnknownName;
      bestDistance := None;
      ghost var best: Option<nat> := None;
      var k := 0;
      while k < |knownFaces|
        invariant 0 <= k <= |knownFaces|
        invariant best == BestMatch(ds[..k])
        invariant best.None? ==> name == UnknownName && bestDistance.None?
        invariant best.Some? ==> best.value < k && name == knownFaces[best.value].name && bestDistance == Some(ds[best.value])
      {
        var d := distance(knownFaces[k].faceEncoding, encoding);
        assert ds[..k + 1][..k] == ds[..k];
        if d < FaceRecognitionThreshold && (bestDistance.None? || d < bestDistance.value) {
          name := knownFaces[k].name;
          bestDistance := Some(d);
          best := Some(k);
        }
        k := k + 1;
      }
      assert ds[..k] == ds;
    }

    /** The face half of `detect_objects`: drop small faces, then find the
        closest known face below the threshold with a strict best-so-far loop. */
    method DetectFaces(frame: FrameAnalysis, distance: (Encoding, Encoding) -> real, percent: real -> string)
      returns (detections: seq<Detection>)
      ensures detections == FaceDetections(frame, knownFaces, distance, percent, |frame.faceLocations|)
    {
      detections := [];
      var i := 0;
      while i < |frame.faceLocations|
        invariant 0 <= i <= |frame.faceLocations|
        invariant detections == FaceDetections(frame, knownFaces, distance, percent, i)
      {
        var loc := frame.faceLocations[i];
        var encoding := frame.encode(loc);
        ghost var opts := FaceCandidates(frame, knownFaces, distance, percent);
        CandidateAt(frame, knownFaces, distance, percent, i);
        if !LargeEnough(loc) {
          assert Present(opts, i + 1) == detections + [];
          i := i + 1;
          continue;
        }
        var name, bestDistance := BestKnownFace(encoding, distance);
        var confidence := if name != UnknownName then 1.0 - bestDistance.value else 0.0;
        var face := Face(loc.left, loc.top, loc.right - loc.left, loc.bottom - loc.top,
                         FaceLabel(name, confidence, percent), confidence);
        FaceDetectionOfMatch(loc, encoding, knownFaces, distance, percent, name, bestDistance);
        detections := detections + [face];
        i := i + 1;
      }
    }

    /** `process_frame`: the decision for the detections of one frame. */
    method ProcessFrame(frame: FrameAnalysis, distance: (Encoding, Encoding) -> real, percent: real -> string)
      returns (decision: Decision)
      ensures decision == Verdict(FaceDetections(frame, knownFaces, distance, percent, |frame.faceLocations|)
                                  + PlateDetections(frame.yoloResults, |frame.yoloResults|), knownFaces)
    {
      var detections := DetectObjects(frame, distance, percent);
      decision := Verdict(detections, knownFaces);
    }

    /** `register_user`: refuse when no face is found or when the largest face is
        too close to a registered one; otherwise store the user under `name`.
        `saved` is whether `_save_known_faces` succeeded: when it fails the
        entry stays stored but False is returned. */
    method RegisterUser(name: string, plateNumber: string, faceLocations: seq<FaceLocation>,
                        encode: FaceLocation -> Encoding, distance: (Encoding, Encoding) -> real,
                        tick: int, saved: bool)
      returns (registered: bool)
      requires DistinctNames(knownFaces)
      modifies this
      ensures DistinctNames(knownFaces)
      ensures faceLocations == [] ==> !registered && knownFaces == old(knownFaces)
      ensures faceLocations != [] ==>
        var encoding := encode(faceLocations[LargestFace(faceLocations)]);
        var accepted := !TooSimilar(old(knownFaces), encoding, distance);
        && registered == (accepted && saved)
        && knownFaces == if accepted then Upsert(old(knownFaces), KnownFace(name, encoding, plateNumber, tick))
                         else old(knownFaces)
    {
      if faceLocations == [] {
        return false;
      }
      var chosen := faceLocations[0];
      if |faceLocations| > 1 {
        chosen := faceLocations[LargestFace(faceLocations)];
      }
      var encoding := encode(chosen);
      var i := 0;
      while i < |knownFaces|
        invariant 0 <= i <= |knownFaces|
        invariant forall j :: 0 <= j < i ==> distance(knownFaces[j].faceEncoding, encoding) >= FaceRecognitionThreshold
      {
        if distance(knownFaces[i].faceEncoding, encoding) < FaceRecognitionThreshold {
          return false;
        }
        i := i + 1;
      }
      UpsertKeepsKeys(knownFaces, KnownFace(name, encoding, plateNumber, tick));
      knownFaces := Upsert(knownFaces, KnownFace(name, encoding, plateNumber, tick));
      registered := saved;
    }
  }
}
