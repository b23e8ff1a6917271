/**
 * The camera feed panel (components/CameraView.tsx): three view flags that
 * feed events change, the overlays they select, and the detection boxes
 * drawn over the feed, coloured by a case-insensitive label taxonomy.
 */
module CameraView {
  import opened Wrappers
  import opened Palette
  import StatusBadge
  import Button

  // ---------------------------------------------------------------------------
  // Label taxonomy

  function LowerChar(c: char): (l: char)
    ensures !('A' <= l <= 'Z')
    ensures 'A' <= c <= 'Z' ==> l as int == c as int + 32
    ensures !('A' <= c <= 'Z') ==> l == c
  {
    if 'A' <= c <= 'Z' then (c as int + 32) as char else c
  }

  /** Lower-cases the ASCII letters of a label, character by character. */
  function ToLower(s: string): (r: string)
    ensures |r| == |s|
    ensures forall i :: 0 <= i < |s| ==> r[i] == LowerChar(s[i])
  {
    if s == [] then [] else [LowerChar(s[0])] + ToLower(s[1..])
  }

  /** Lower-casing a lower-cased label changes nothing. */
  lemma {:induction false} ToLowerIdempotent(s: string)
    ensures ToLower(ToLower(s)) == ToLower(s)
  {
    if s != [] {
      ToLowerIdempotent(s[1..]);
      assert ToLower(s)[1..] == ToLower(s[1..]);
    }
  }

  /**
   * Colour of a detected object's box by its label: person and human red,
   * car and vehicle blue, dog, cat and animal orange, anything else green.
   */
  function ColorForObjectType(kind: string): (c: string)
    ensures c == Red <==> ToLower(kind) in {"person", "human"}
    ensures c == Blue <==> ToLower(kind) in {"car", "vehicle"}
    ensures c == Orange <==> ToLower(kind) in {"dog", "cat", "animal"}
    ensures c == Green <==> ToLower(kind) !in {"person", "human", "car", "vehicle", "dog", "cat", "animal"}
  {
    var l := ToLower(kind);
    if l == "person" || l == "human" then "#FF453A"
    else if l == "car" || l == "vehicle" then "#0A84FF"
    else if l == "dog" || l == "cat" || l == "animal" then "#FF9500"
    else "#30D158"
  }

  /** The colour ignores case: a label and its lower-cased form agree. */
  lemma ColorIgnoresCase(kind: string)
    ensures ColorForObjectType(ToLower(kind)) == ColorForObjectType(kind)
  {
    ToLowerIdempotent(kind);
  }

  /** Two labels that are equal up to case get the same colour. */
  lemma SameColorUpToCase(a: string, b: string)
    requires ToLower(a) == ToLower(b)
    ensures ColorForObjectType(a) == ColorForObjectType(b)
  {
  }

  /** Labels in capitals are classified like their lower-case spelling. */
  lemma CapitalisedLabels()
    ensures ColorForObjectType("Person") == Red
    ensures ColorForObjectType("VEHICLE") == Blue
    ensures ColorForObjectType("Cat") == Orange
  {
    LowerPerson();
    LowerVehicle();
    LowerCat();
  }

  lemma LowerPerson()
    ensures ToLower("Person") == "person"
  {
    assert ToLower("Person")[0] == 'p';
  }

  lemma LowerVehicle()
    ensures ToLower("VEHICLE") == "vehicle"
  {
    var r := ToLower("VEHICLE");
    assert r[0] == 'v' && r[1] == 'e' && r[2] == 'h' && r[3] == 'i';
    assert r[4] == 'c' && r[5] == 'l' && r[6] == 'e';
  }

  lemma LowerCat()
    ensures ToLower("Cat") == "cat"
  {
    assert ToLower("Cat")[0] == 'c';
  }

  // ---------------------------------------------------------------------------
  // Detection boxes

  /** Normalised bounding box: fractions of the feed's width and height. */
  datatype BoundingBox = BoundingBox(x: real, y: real, width: real, height: real)

  datatype DetectedObject = DetectedObject(id: string, kind: string, confidence: real, boundingBox: BoundingBox)

  /** One box drawn over the feed; positions and extents are percentages. */
  datatype DetectionBox = DetectionBox(
    key: string,
    left: real, top: real, width: real, height: real,
    borderColor: string,
    labelColor: string,
    kind: string,
    confidence: real)

  function BoxFor(o: DetectedObject): (b: DetectionBox)
    ensures b.key == o.id && b.kind == o.kind && b.confidence == o.confidence
    ensures b.left == o.boundingBox.x * 100.0 && b.top == o.boundingBox.y * 100.0
    ensures b.width == o.boundingBox.width * 100.0 && b.height == o.boundingBox.height * 100.0
    ensures b.borderColor == b.labelColor == ColorForObjectType(o.kind)
  {
    var c := ColorForObjectType(o.kind);
    DetectionBox(o.id,
      o.boundingBox.x * 100.0, o.boundingBox.y * 100.0,
      o.boundingBox.width * 100.0, o.boundingBox.height * 100.0,
      c, c, o.kind, o.confidence)
  }

  /** One box per object, in the objects' order. */
  function MapBoxes(objects: seq<DetectedObject>): (boxes: seq<DetectionBox>)
    ensures |boxes| == |objects|
    ensures forall i :: 0 <= i < |objects| ==> boxes[i] == BoxFor(objects[i])
  {
    if objects == [] then [] else [BoxFor(objects[0])] + MapBoxes(objects[1..])
  }

  /**
   * The boxes drawn over the feed; `None` is the source's `null`, returned
   * when recognition is off or nothing was detected.
   */
  function DetectionBoxes(recognitionActive: bool, objects: seq<DetectedObject>): (r: Option<seq<DetectionBox>>)
    ensures r.None? <==> !recognitionActive || |objects| == 0
    ensures r.Some? ==> |r.value| == |objects|
    ensures r.Some? ==> forall i :: 0 <= i < |objects| ==> r.value[i] == BoxFor(objects[i])
  {
    if !recognitionActive || |objects| == 0 then None else Some(MapBoxes(objects))
  }

  /** Each box scales back to its object's normalised box. */
  lemma BoxesScaleBack(recognitionActive: bool, objects: seq<DetectedObject>, i: nat)
    requires recognitionActive && i < |objects|
    ensures var b := DetectionBoxes(recognitionActive, objects).value[i];
      BoundingBox(b.left / 100.0, b.top / 100.0, b.width / 100.0, b.height / 100.0) == objects[i].boundingBox
  {
  }

  // ---------------------------------------------------------------------------
  // Overlays and controls

  /** Which overlays cover the feed. */
  datatype Overlays = Overlays(loading: bool, error: bool, paused: bool)

  /**
   * The loading and error overlays each follow their own flag, so both may
   * show; the paused overlay shows only over a loaded, healthy, paused feed.
   */
  function OverlaysFor(isLoading: bool, hasError: bool, isPaused: bool): (o: Overlays)
    ensures o.loading == isLoading && o.error == hasError
    ensures o.paused <==> !isLoading && !hasError && isPaused
    ensures o.paused ==> !o.loading && !o.error
  {
    Overlays(isLoading, hasError, !isLoading && !hasError && isPaused)
  }

  /** Label of the pause control. */
  function PauseButtonLabel(isPaused: bool): (s: string)
    ensures isPaused <==> s == "Resume"
    ensures !isPaused <==> s == "Pause"
  {
    if isPaused then "Resume" else "Pause"
  }

  /** Label and variant of the recording control. */
  function RecordButton(isRecording: bool): (b: (string, Button.Variant))
    ensures isRecording <==> b == ("Stop Recording", Button.Destructive)
    ensures !isRecording <==> b == ("Start Recording", Button.Outline)
  {
    if isRecording then ("Stop Recording", Button.Destructive) else ("Start Recording", Button.Outline)
  }

  /**
   * Badges in the header, each drawn small: online when live, then recording
   * when recording.
   */
  function HeaderBadges(isLive: bool, isRecording: bool): (s: seq<(StatusBadge.Status, StatusBadge.BadgeSize)>)
    ensures forall i :: 0 <= i < |s| ==> s[i].1 == StatusBadge.Sm
    ensures (StatusBadge.Online, StatusBadge.Sm) in s <==> isLive
    ensures (StatusBadge.Recording, StatusBadge.Sm) in s <==> isRecording
    ensures |s| == (if isLive then 1 else 0) + (if isRecording then 1 else 0)
    ensures |s| == 2 ==> s[0].0 == StatusBadge.Online && s[1].0 == StatusBadge.Recording
  {
    (if isLive then [(StatusBadge.Online, StatusBadge.Sm)] else [])
    + (if isRecording then [(StatusBadge.Recording, StatusBadge.Sm)] else [])
  }

  /** The feed's view state, changed by feed events and the controls. */
  class CameraFeed {
    var isLoading: bool
    var hasError: bool
    var isPaused: bool

    /** A new feed is loading, healthy and playing. */
    constructor ()
      ensures isLoading && !hasError && !isPaused
    {
      isLoading, hasError, isPaused := true, false, false;
    }

    /** The overlays the current flags select. */
    function VisibleOverlays(): Overlays
      reads this
    {
      OverlaysFor(isLoading, hasError, isPaused)
    }

    /** The placeholder image finished loading. */
    method OnFeedLoad()
      modifies this
      ensures !isLoading && hasError == old(hasError) && isPaused == old(isPaused)
    {
      isLoading := false;
    }

    /** The device camera reported ready. */
    method OnCameraReady()
      modifies this
      ensures !isLoading && hasError == old(hasError) && isPaused == old(isPaused)
    {
      isLoading := false;
    }

    /** The placeholder image failed to load. */
    method OnFeedError()
      modifies this
      ensures hasError && isLoading == old(isLoading) && isPaused == old(isPaused)
    {
      hasError := true;
    }

    /** The Retry button on the error overlay. */
    method Retry()
      modifies this
      ensures !hasError && isLoading == old(isLoading) && isPaused == old(isPaused)
    {
      hasError := false;
    }

    method TogglePause()
      modifies this
      ensures isPaused == !old(isPaused)
      ensures isLoading == old(isLoading) && hasError == old(hasError)
    {
      isPaused := !isPaused;
    }
  }

  /** Toggling pause twice gives back the state it started from. */
  method TogglePauseTwice(feed: CameraFeed)
    modifies feed
    ensures feed.isPaused == old(feed.isPaused)
    ensures feed.isLoading == old(feed.isLoading) && feed.hasError == old(feed.hasError)
  {
    feed.TogglePause();
    feed.TogglePause();
  }

  /**
   * The overlays along one run of a feed: a new feed shows only the loading
   * overlay; once loaded and paused it shows only the paused overlay; a feed
   * error shows the error overlay and hides the paused one; Retry brings the
   * paused overlay back.
   */
  method OverlayLifecycle() returns (shown: seq<Overlays>)
    ensures |shown| == 4
    ensures shown[0] == Overlays(true, false, false)
    ensures shown[1] == Overlays(false, false, true)
    ensures shown[2] == Overlays(false, true, false)
    ensures shown[3] == Overlays(false, false, true)
  {
    var feed := new CameraFeed();
    shown := [feed.VisibleOverlays()];
    feed.OnFeedLoad();
    feed.TogglePause();
    shown := shown + [feed.VisibleOverlays()];
    feed.OnFeedError();
    shown := shown + [feed.VisibleOverlays()];
    feed.Retry();
    shown := shown + [feed.VisibleOverlays()];
  }
}
