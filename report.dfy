/** The waste-report page (app/report/page.tsx): it captures an image with
    the camera or picks one from the gallery, submits it with the location,
    a description and a timestamp, and renders the validation reply, whose
    label fields arrive in one of three shapes. */
module Report {
  import opened Common
  import opened Strings

  // ---------------------------------------------------------------------------
  // Label fields of the validation reply

  /** One element of a `waste_types` / `recyclable_items` array: a plain
      string, or an object `{type, confidence}` whose confidence may be
      missing. */
  datatype LabelItem = Name(text: string) | Typed(typeName: string, confidence: Option<real>)

  /** The shapes a label field arrives in: an array, one comma-separated
      string, or any other value, carried as the text `String(value)` gives. */
  datatype LabelsField =
    | LabelList(items: seq<LabelItem>)
    | CommaText(text: string)
    | OtherValue(asString: string)

  /** The uniform form all shapes are turned into. */
  datatype Label = Label(text: string, confidence: Option<real>)

  /** A confidence of 0 (or none at all): falsy, so no badge is shown. */
  predicate NoBadge(confidence: Option<real>)
  {
    confidence.None? || confidence.value == 0.0
  }

  /** An array element as a label: a string is its own label; an object
      gives its `type`, with its confidence only when that is truthy (a
      missing confidence or one of 0 is dropped). */
  function LabelOf(item: LabelItem): (l: Label)
    ensures item.Name? ==> l == Label(item.text, None)
    ensures item.Typed? ==> l.text == item.typeName
    ensures item.Typed? ==> (l.confidence.None? <==> NoBadge(item.confidence))
    ensures l.confidence.Some? ==> item.Typed? && l.confidence == item.confidence
  {
    match item
    case Name(t) => Label(t, None)
    case Typed(t, c) => Label(t, if NoBadge(c) then None else c)
  }

  /** `items.map(...)`: one label per element, in order. */
  function LabelsOf(items: seq<LabelItem>): (ls: seq<Label>)
    ensures |ls| == |items|
    ensures forall i :: 0 <= i < |items| ==> ls[i] == LabelOf(items[i])
  {
    if items == [] then [] else [LabelOf(items[0])] + LabelsOf(items[1..])
  }

  /** `pieces.map(p => p.trim())`, as labels without confidence. */
  function TrimmedLabels(pieces: seq<string>): (ls: seq<Label>)
    ensures |ls| == |pieces|
    ensures forall i :: 0 <= i < |pieces| ==> ls[i] == Label(Trim(pieces[i]), None)
  {
    if pieces == [] then [] else [Label(Trim(pieces[0]), None)] + TrimmedLabels(pieces[1..])
  }

  /** The normalisation the result panel applies to a label field: an array
      element by element, a string split at every comma with each piece
      trimmed (one piece more than there are commas), any other value as
      the single label `String(value)`. */
  function NormalizeLabels(v: LabelsField): (ls: seq<Label>)
    ensures v.LabelList? ==> |ls| == |v.items| && forall i :: 0 <= i < |ls| ==> ls[i] == LabelOf(v.items[i])
    ensures v.CommaText? ==> |ls| == Count(v.text, ',') + 1
    ensures v.CommaText? ==> forall i :: 0 <= i < |ls| ==> ls[i] == Label(Trim(Split(v.text, ',')[i]), None)
    ensures v.OtherValue? ==> ls == [Label(v.asString, None)]
  {
    match v
    case LabelList(items) => LabelsOf(items)
    case CommaText(text) => TrimmedLabels(Split(text, ','))
    case OtherValue(s) => [Label(s, None)]
  }

  /** The texts of a list of labels, in order. */
  function Texts(ls: seq<Label>): (ts: seq<string>)
    ensures |ts| == |ls|
    ensures forall i :: 0 <= i < |ls| ==> ts[i] == ls[i].text
  {
    if ls == [] then [] else [ls[0].text] + Texts(ls[1..])
  }

  function AsNames(names: seq<string>): seq<LabelItem>
  {
    seq(|names|, i requires 0 <= i < |names| => Name(names[i]))
  }

  function AsTyped(names: seq<string>, confidences: seq<Option<real>>): seq<LabelItem>
    requires |confidences| == |names|
  {
    seq(|names|, i requires 0 <= i < |names| => Typed(names[i], confidences[i]))
  }

  /** Pieces already without outer whitespace become their own labels. */
  lemma TrimmedPiecesAreNames(names: seq<string>)
    requires forall i :: 0 <= i < |names| ==> IsTrimmed(names[i])
    ensures TrimmedLabels(names) == LabelsOf(AsNames(names))
  {
    var fromText, fromNames := TrimmedLabels(names), LabelsOf(AsNames(names));
    forall i | 0 <= i < |names|
      ensures fromText[i] == fromNames[i]
    {
      TrimOfTrimmed(names[i]);
    }
  }

  /** The labels of an array of strings carry the strings, in order. */
  lemma NameTexts(names: seq<string>)
    ensures Texts(LabelsOf(AsNames(names))) == names
  {
  }

  /** The labels of an array of objects carry the objects' types, in order. */
  lemma TypedTexts(names: seq<string>, confidences: seq<Option<real>>)
    requires |confidences| == |names|
    ensures Texts(LabelsOf(AsTyped(names, confidences))) == names
  {
  }

  /** The three shapes agree: for labels that hold no comma and no outer
      whitespace, the comma-joined string normalises to exactly the labels
      of the array of strings, and the array of objects gives the same texts
      in the same order, whatever the confidences. */
  lemma ShapesAgree(names: seq<string>, confidences: seq<Option<real>>)
    requires |names| >= 1 && |confidences| == |names|
    requires forall i :: 0 <= i < |names| ==> ',' !in names[i] && IsTrimmed(names[i])
    ensures NormalizeLabels(CommaText(Join(names, ','))) == NormalizeLabels(LabelList(AsNames(names)))
    ensures Texts(NormalizeLabels(CommaText(Join(names, ',')))) == names
    ensures Texts(NormalizeLabels(LabelList(AsTyped(names, confidences)))) == names
  {
    SplitJoin(names, ',');
    assert NormalizeLabels(CommaText(Join(names, ','))) == TrimmedLabels(names);
    TrimmedPiecesAreNames(names);
    NameTexts(names);
    TypedTexts(names, confidences);
  }

  /** `.length` of a label field: arrays and strings have one, other values
      do not. */
  function DisplayLength(v: LabelsField): Option<int>
  {
    match v
    case LabelList(items) => Some(|items|)
    case CommaText(text) => Some(|text|)
    case OtherValue(_) => None
  }

  /** `waste_types.length > 0`: whether the waste-types section is shown. */
  predicate Shown(v: LabelsField)
  {
    DisplayLength(v).Some? && DisplayLength(v).value > 0
  }

  /** `recyclable_items && recyclable_items.length > 0`. */
  predicate RecyclablesShown(v: Option<LabelsField>)
  {
    v.Some? && Shown(v.value)
  }

  /** A shown section always has a label, and an empty string or array is
      hidden even though the string would normalise to one empty label. A
      value that is neither array nor string has no `length`, so its
      section is hidden. */
  lemma ShownSectionsHaveLabels(v: LabelsField)
    ensures Shown(v) ==> |NormalizeLabels(v)| >= 1
    ensures v.OtherValue? ==> !Shown(v)
    ensures !Shown(CommaText("")) && NormalizeLabels(CommaText("")) == [Label("", None)]
    ensures !Shown(LabelList([]))
  {
  }

  /** The recyclables section is hidden when the field is absent, and once
      shown it has a label. */
  lemma ShownRecyclablesHaveLabels(v: Option<LabelsField>)
    ensures !RecyclablesShown(None)
    ensures RecyclablesShown(v) ==> |NormalizeLabels(v.value)| >= 1
  {
    if v.Some? {
      ShownSectionsHaveLabels(v.value);
    }
  }

  // ---------------------------------------------------------------------------
  // Rendering a label chip

  /** A rendered chip: its label, the "(c%)" badge if any, and any other
      text React renders inside it. */
  datatype Chip = Chip(text: string, badge: Option<real>, strayText: string)

  /** The chip of an array element as the JSX writes it:
      `{typeof type === "object" && type.confidence && <badge/>}`. For a
      confidence of 0 the expression evaluates to the number 0, which React
      renders as the text "0"; a missing confidence evaluates to
      `undefined`, which renders nothing. */
  function ChipAsWritten(item: LabelItem): (c: Chip)
    ensures c.text == LabelOf(item).text && c.badge == LabelOf(item).confidence
    ensures c.strayText == (if item.Typed? && item.confidence == Some(0.0) then "0" else "")
  {
    match item
    case Name(t) => Chip(t, None, "")
    case Typed(t, conf) =>
      if conf == Some(0.0) then Chip(t, None, "0")
      else if conf.None? then Chip(t, None, "")
      else Chip(t, conf, "")
  }

  /** The chip of a normalised label: its text and badge, nothing else. */
  function ChipOf(l: Label): (c: Chip)
    ensures c.text == l.text && c.badge == l.confidence && c.strayText == ""
  {
    Chip(l.text, l.confidence, "")
  }

  /** The discrepancy: an object with confidence 0 shows a stray "0" after
      its label as written, and no stray text once normalised; every other
      element renders the same either way. */
  lemma ZeroConfidenceChip(t: string, item: LabelItem)
    ensures ChipAsWritten(Typed(t, Some(0.0))) == Chip(t, None, "0")
    ensures ChipOf(LabelOf(Typed(t, Some(0.0)))) == Chip(t, None, "")
    ensures !(item.Typed? && item.confidence == Some(0.0)) ==> ChipAsWritten(item) == ChipOf(LabelOf(item))
  {
  }

  // ---------------------------------------------------------------------------
  // Severity dot

  datatype Dot = GreenDot | YellowDot | OrangeDot | RedDot

  /** The colour of the severity dot: an exact, case-sensitive match of
      "Clean", "Low" and "Medium"; anything else is red. */
  function SeverityDot(severity: string): (d: Dot)
    ensures d == GreenDot <==> severity == "Clean"
    ensures d == YellowDot <==> severity == "Low"
    ensures d == OrangeDot <==> severity == "Medium"
    ensures d == RedDot <==> severity !in {"Clean", "Low", "Medium"}
  {
    if severity == "Clean" then GreenDot
    else if severity == "Low" then YellowDot
    else if severity == "Medium" then OrangeDot
    else RedDot
  }

  // ---------------------------------------------------------------------------
  // Messages

  const ValidationFailedError: string := "Failed to validate waste report. Please try again."
  const CameraError: string := "Camera access denied or not available"
  const LookupError: string := "Could not fetch location details"
  const DeniedError: string := "Location access denied"
  const UnsupportedError: string := "Geolocation is not supported by your browser"

  // ---------------------------------------------------------------------------
  // Camera

  /** A media track; `live` is false once it has been stopped. */
  class Track {
    var live: bool

    constructor ()
      ensures live
    {
      live := true;
    }

    method Stop()
      modifies this
      ensures !live
    {
      live := false;
    }
  }

  /** A media stream: the tracks `getTracks()` returns. */
  class MediaStream {
    const tracks: seq<Track>

    constructor (tracks: seq<Track>)
      ensures this.tracks == tracks
    {
      this.tracks := tracks;
    }
  }

  // ---------------------------------------------------------------------------
  // The page

  datatype Location = Location(latitude: real, longitude: real, placeName: string)

  /** How the location lookup on mount ends: no geolocation API, permission
      denied, the place-name lookup threw, or coordinates with the lookup's
      `display_name` (absent when it had none). */
  datatype GeoOutcome =
    | Unsupported
    | Denied
    | LookupFailed
    | Resolved(latitude: real, longitude: real, displayName: Option<string>)

  /** The fields of the validation reply the page renders. */
  datatype ValidationResponse = ValidationResponse(
    isValid: bool,
    message: string,
    confidenceScore: real,
    wasteTypes: LabelsField,
    severity: string,
    recyclableItems: Option<LabelsField>)

  /** How the validation request ends. */
  datatype ValidateReply = Threw | NotOk | Ok(data: ValidationResponse)

  /** A report as it leaves the page: image, location, description and the
      timestamp taken on mount. */
  datatype Submission = Submission(image: ImageFile, location: Location, description: string, timestamp: string)

  datatype UploadMode = CameraMode | GalleryMode

  class ReportPage {
    var image: Option<ImageFile>
    var previewUrl: string
    var description: string
    var location: Option<Location>
    var isLoading: bool
    var validationResult: Option<ValidationResponse>
    var error: Option<string>
    var uploadMode: UploadMode
    var showCamera: bool
    var stream: MediaStream?
    var timestamp: string
    /** The reports sent so far, oldest first. */
    var submissions: seq<Submission>
    /** Every track the page has obtained from the camera, oldest first. */
    ghost var obtained: seq<Track>

    /** The tracks of the current stream. */
    function StreamTracks(): seq<Track>
      reads this
    {
      if stream == null then [] else stream.tracks
    }

    /** No camera track is left running where the page can no longer reach
        it: every live track it obtained belongs to the current stream. */
    ghost predicate NoStrandedTrack()
      reads this, obtained
    {
      forall i :: 0 <= i < |obtained| && obtained[i].live ==> obtained[i] in StreamTracks()
    }

    /** Every track the page obtained has been stopped. */
    ghost predicate AllReleased()
      reads this, obtained
    {
      forall i :: 0 <= i < |obtained| ==> !obtained[i].live
    }

    /** The first render, with the mount effect's timestamp `now`. */
    constructor (now: string)
      ensures image == None && previewUrl == "" && description == "" && location == None
      ensures !isLoading && validationResult == None && error == None
      ensures uploadMode == CameraMode && !showCamera && stream == null
      ensures timestamp == now && submissions == [] && obtained == []
    {
      image := None;
      previewUrl := "";
      description := "";
      location := None;
      isLoading := false;
      validationResult := None;
      error := None;
      uploadMode := CameraMode;
      showCamera := false;
      stream := null;
      timestamp := now;
      submissions := [];
      obtained := [];
    }

    /** The mount effect's location lookup: a resolved position becomes the
        location (place name "Unknown Location" when the lookup gave none);
        each failure sets its own error. */
    method ApplyGeolocation(outcome: GeoOutcome)
      modifies this`location, this`error
      ensures outcome.Resolved? ==>
                && error == old(error)
                && location == Some(Location(outcome.latitude, outcome.longitude,
                                             if Truthy(outcome.displayName) then outcome.displayName.value
                                             else "Unknown Location"))
      ensures !outcome.Resolved? ==> location == old(location)
      ensures outcome.Unsupported? ==> error == Some(UnsupportedError)
      ensures outcome.Denied? ==> error == Some(DeniedError)
      ensures outcome.LookupFailed? ==> error == Some(LookupError)
    {
      match outcome {
        case Unsupported =>
          error := Some(UnsupportedError);
        case Denied =>
          error := Some(DeniedError);
        case LookupFailed =>
          error := Some(LookupError);
        case Resolved(lat, lng, name) =>
          var placeName := if Truthy(name) then name.value else "Unknown Location";
          location := Some(Location(lat, lng, placeName));
      }
    }

    /** The mode toggle only switches the mode; an open camera keeps running. */
    method SetUploadMode(mode: UploadMode)
      modifies this`uploadMode
      ensures uploadMode == mode
    {
      uploadMode := mode;
    }

    method EditDescription(text: string)
      modifies this`description
      ensures description == text
    {
      description := text;
    }

    /** `startCamera`, with `acquired` the stream `getUserMedia` resolved to
        (null when it was refused). The new stream replaces the current one
        without stopping it. */
    method StartCamera(acquired: MediaStream?)
      modifies this`stream, this`showCamera, this`error, this`obtained
      ensures acquired != null ==>
                && stream == acquired && showCamera && error == old(error)
                && obtained == old(obtained) + acquired.tracks
      ensures acquired == null ==>
                && stream == old(stream) && !showCamera && error == Some(CameraError)
                && obtained == old(obtained)
      ensures old(AllReleased()) ==> NoStrandedTrack()
    {
      if acquired != null {
        stream := acquired;
        showCamera := true;
        obtained := obtained + acquired.tracks;
      } else {
        error := Some(CameraError);
        showCamera := false;
      }
    }

    /** `stopCamera`: every track of the current stream is stopped, the
        stream is dropped and the camera view hidden. If no track was
        stranded before, none is left running. */
    method StopCamera()
      modifies this`stream, this`showCamera, StreamTracks()
      ensures stream == null && !showCamera
      ensures forall i :: 0 <= i < |old(StreamTracks())| ==> !old(StreamTracks())[i].live
      ensures old(NoStrandedTrack()) ==> AllReleased()
    {
      if stream != null {
        var tracks := stream.tracks;
        var i := 0;
        while i < |tracks|
          invariant 0 <= i <= |tracks|
          invariant forall j :: 0 <= j < i ==> !tracks[j].live
        {
          tracks[i].Stop();
          i := i + 1;
        }
        stream := null;
      }
      showCamera := false;
    }

    /** `captureImage`, with `frame` the file the canvas produced (none when
        there was no video, no drawing context or no blob) and `objectUrl`
        its preview URL. A frame becomes the image, clears the validation
        result and stops the camera; without one nothing changes. */
    method CaptureImage(frame: Option<ImageFile>, objectUrl: string)
      modifies this`image, this`previewUrl, this`validationResult, this`stream, this`showCamera, StreamTracks()
      ensures frame.Some? ==>
                && image == frame && previewUrl == objectUrl && validationResult == None
                && stream == null && !showCamera
                && (forall i :: 0 <= i < |old(StreamTracks())| ==> !old(StreamTracks())[i].live)
      ensures frame.None? ==>
                && image == old(image) && previewUrl == old(previewUrl)
                && validationResult == old(validationResult)
                && stream == old(stream) && showCamera == old(showCamera)
                && (forall i :: 0 <= i < |StreamTracks()| ==> StreamTracks()[i].live == old(StreamTracks()[i].live))
    {
      if frame.Some? {
        image := frame;
        previewUrl := objectUrl;
        validationResult := None;
        StopCamera();
      }
    }

    /** `handleImageUpload`: a chosen file becomes the image, with its preview
        URL, and clears the validation result. */
    method HandleImageUpload(file: Option<ImageFile>, objectUrl: string)
      modifies this`image, this`previewUrl, this`validationResult
      ensures file.Some? ==> image == file && previewUrl == objectUrl && validationResult == None
      ensures file.None? ==> image == old(image) && previewUrl == old(previewUrl) && validationResult == old(validationResult)
    {
      if file.Some? {
        image := file;
        previewUrl := objectUrl;
        validationResult := None;
      }
    }

    /** Both an image and a location are present. */
    predicate SubmitReady()
      reads this
    {
      image.Some? && location.Some?
    }

    /** `disabled={!image || !location || isLoading}` on the submit button. */
    predicate SubmitDisabled()
      reads this
    {
      image.None? || location.None? || isLoading
    }

    /** `handleSubmit`: without an image or a location nothing happens;
        otherwise one report is sent, and the reply either becomes the
        validation result or sets the single fixed failure message (keeping
        the previous result). Loading ends false. */
    method HandleSubmit(reply: ValidateReply)
      modifies this`isLoading, this`error, this`validationResult, this`submissions
      ensures !old(SubmitReady()) ==>
                && isLoading == old(isLoading) && error == old(error)
                && validationResult == old(validationResult) && submissions == old(submissions)
      ensures old(SubmitReady()) ==>
                && submissions == old(submissions) + [Submission(image.value, location.value, description, timestamp)]
                && !isLoading
                && (reply.Ok? ==> validationResult == Some(reply.data) && error == None)
                && (!reply.Ok? ==> validationResult == old(validationResult) && error == Some(ValidationFailedError))
    {
      if image.None? || location.None? {
        return;
      }
      isLoading := true;
      error := None;
      submissions := submissions + [Submission(image.value, location.value, description, timestamp)];
      match reply {
        case Ok(data) =>
          validationResult := Some(data);
        case _ =>
          error := Some(ValidationFailedError);
      }
      isLoading := false;
    }

    /** The unmount cleanup as written: the effect has no dependencies, so
        its closure calls the `stopCamera` of the first render, whose
        `stream` was null. No track is stopped. */
    method UnmountAsWritten()
      ensures forall i :: 0 <= i < |obtained| ==> obtained[i].live == old(obtained[i].live)
    {
    }

    /** The unmount cleanup as intended: stop the stream that is current at
        unmount. */
    method UnmountReleasing()
      modifies this`stream, this`showCamera, StreamTracks()
      ensures old(NoStrandedTrack()) ==> AllReleased()
    {
      StopCamera();
    }

    /** The mode switch as intended: leaving a mode releases the camera. */
    method SetUploadModeReleasing(mode: UploadMode)
      modifies this`uploadMode, this`stream, this`showCamera, StreamTracks()
      ensures uploadMode == mode && stream == null && !showCamera
      ensures old(NoStrandedTrack()) ==> AllReleased()
    {
      StopCamera();
      uploadMode := mode;
    }

    /** `startCamera` as intended: release the current stream before taking
        the new one, so no track is ever stranded. */
    method StartCameraReleasing(acquired: MediaStream?)
      modifies this`stream, this`showCamera, this`error, this`obtained, StreamTracks()
      ensures acquired != null ==> stream == acquired && showCamera && obtained == old(obtained) + acquired.tracks
      ensures acquired == null ==> stream == null && !showCamera && error == Some(CameraError) && obtained == old(obtained)
      ensures old(NoStrandedTrack()) ==> forall i :: 0 <= i < |old(obtained)| ==> !old(obtained)[i].live
      ensures old(NoStrandedTrack()) ==> NoStrandedTrack()
    {
      StopCamera();
      StartCamera(acquired);
    }
  }

  /** The submit button is enabled exactly when an image and a location are
      present and nothing is loading, so a press through the enabled button
      always passes `handleSubmit`'s guard and sends the report. */
  lemma EnabledSubmitIsReady(p: ReportPage)
    ensures !p.SubmitDisabled() <==> p.SubmitReady() && !p.isLoading
  {
  }

  /** The page's own unmount cleanup leaves an open camera running: after a
      successful start, the track is still live once the page unmounts. */
  method UnmountLeavesCameraLive() returns (stillLive: bool)
    ensures stillLive
  {
    var page := new ReportPage("2026-01-01T00:00:00.000Z");
    var track := new Track();
    var s := new MediaStream([track]);
    page.StartCamera(s);
    page.UnmountAsWritten();
    assert track == page.obtained[0];
    stillLive := track.live;
  }

  /** Switching to the gallery leaves an open camera running, its view no
      longer on screen. */
  method ModeSwitchLeavesCameraLive() returns (stillLive: bool)
    ensures stillLive
  {
    var page := new ReportPage("2026-01-01T00:00:00.000Z");
    var track := new Track();
    var s := new MediaStream([track]);
    page.StartCamera(s);
    page.SetUploadMode(GalleryMode);
    stillLive := track.live && page.uploadMode == GalleryMode;
  }

  /** Starting the camera while it is open strands the first stream: after
      a second start and a stop, the first track is still live and no longer
      reachable from the page. */
  method RestartStrandsFirstTrack() returns (stranded: bool)
    ensures stranded
  {
    var page := new ReportPage("2026-01-01T00:00:00.000Z");
    var first := new Track();
    var s1 := new MediaStream([first]);
    page.StartCamera(s1);
    var second := new Track();
    var s2 := new MediaStream([second]);
    page.StartCamera(s2);
    page.StopCamera();
    stranded := first.live && page.stream == null;
  }

  /** The releasing variants leave nothing running: a restart stops the
      first camera, and the unmount the second. */
  method ReleasingVariantsStopCamera() returns (released: bool)
    ensures released
  {
    var page := new ReportPage("2026-01-01T00:00:00.000Z");
    var first := new Track();
    var s1 := new MediaStream([first]);
    page.StartCameraReleasing(s1);
    var second := new Track();
    var s2 := new MediaStream([second]);
    page.StartCameraReleasing(s2);
    assert page.obtained == [first, second];
    page.UnmountReleasing();
    assert page.obtained[0] == first && page.obtained[1] == second;
    released := !first.live && !second.live;
  }
}
