/** The submission form (components/AdForm.tsx): its record, the edits the
    user makes to it, the video attachment guard and the submit guard. */
module AdForm {
  import opened Wrappers
  import opened Types
  import Text

  /** The video ceiling: 20 MiB, before base64 encoding. */
  const MaxVideoBytes: nat := 20 * 1024 * 1024

  /** The minimum copy length accepted when no video is attached. */
  const MinCopyLength: nat := 5

  const SizeAlert := "Video size exceeds 20MB limit. Please upload a smaller clip for analysis."
  const SubmitAlert := "Please provide ad copy or a video for a meaningful analysis."

  /** The form record when the form is first shown. `performanceData` starts
      as the empty string, not absent. */
  const InitialForm: AdInput := AdInput(PlatformLabel(Meta), "", "", "", Some(""), None)

  /** The options of the platform select, in enum order. */
  function PlatformOptions(): (opts: seq<string>)
    ensures |opts| == 6
    ensures forall p: Platform :: PlatformLabel(p) in opts
    ensures forall i, j :: 0 <= i < j < |opts| ==> opts[i] != opts[j]
    ensures forall o :: o in opts ==> exists p: Platform :: PlatformLabel(p) == o
  {
    PlatformEnumeration();
    var opts := seq(|AllPlatforms|, i requires 0 <= i < |AllPlatforms| => PlatformLabel(AllPlatforms[i]));
    assert forall p: Platform :: PlatformLabel(p) in opts by {
      forall p: Platform ensures PlatformLabel(p) in opts {
        assert p in AllPlatforms;
        var i :| 0 <= i < |AllPlatforms| && AllPlatforms[i] == p;
        assert opts[i] == PlatformLabel(p);
      }
    }
    opts
  }

  /** The named inputs of the form; `name` in a change event is one of these. */
  datatype Field = PlatformField | TargetAudience | Objective | AdCopy | PerformanceData

  /** What the input named `f` currently shows. */
  function FieldValue(form: AdInput, f: Field): Option<string> {
    match f
    case PlatformField => Some(form.platform)
    case TargetAudience => Some(form.targetAudience)
    case Objective => Some(form.objective)
    case AdCopy => Some(form.adCopy)
    case PerformanceData => form.performanceData
  }

  /** `handleChange`: the named field takes the new value; every other field
      and the attached video are kept. */
  function HandleChange(form: AdInput, name: Field, value: string): (r: AdInput)
    ensures FieldValue(r, name) == Some(value)
    ensures forall f :: f != name ==> FieldValue(r, f) == FieldValue(form, f)
    ensures r.videoData == form.videoData
  {
    match name
    case PlatformField => form.(platform := value)
    case TargetAudience => form.(targetAudience := value)
    case Objective => form.(objective := value)
    case AdCopy => form.(adCopy := value)
    case PerformanceData => form.(performanceData := Some(value))
  }

  /** The file picked in the video input: its byte size and declared type. */
  datatype VideoFile = VideoFile(size: nat, mimeType: string)

  /** What `FileReader.readAsDataURL` leaves in `reader.result` when it ends:
      nothing on a read error, otherwise the data URL. */
  datatype ReadResult = ReadError | DataUrl(url: string)

  /** A data URL always holds the comma that ends its header (section 3 of
      RFC 2397); the base64 payload after it holds none. */
  predicate WellFormedRead(read: ReadResult) {
    read.DataUrl? ==> ',' in read.url
  }

  /** The form after the upload event and the alert raised, if any. */
  datatype Upload = Upload(form: AdInput, alert: Option<string>)

  /** `handleVideoUpload` together with the reader's `onloadend`. With no
      file nothing happens; a file over the ceiling raises the size alert and
      leaves the form alone; a failed read throws inside the callback and so
      also leaves it alone; otherwise the payload after the data URL's first
      comma and the file's type become `videoData`. */
  function HandleVideoUpload(form: AdInput, file: Option<VideoFile>, read: ReadResult): (r: Upload)
    requires WellFormedRead(read)
    ensures r.alert.Some? <==> file.Some? && file.value.size > MaxVideoBytes
    ensures r.alert.Some? ==> r.alert.value == SizeAlert
    ensures r.form.videoData.Some? <==> form.videoData.Some? || (file.Some? && file.value.size <= MaxVideoBytes && read.DataUrl?)
    ensures r.form.videoData != form.videoData ==>
              && file.Some? && read.DataUrl? && |Text.Split(read.url, ',')| >= 2
              && r.form.videoData == Some(VideoData(Text.Split(read.url, ',')[1], file.value.mimeType))
    ensures forall f :: FieldValue(r.form, f) == FieldValue(form, f)
    ensures file.None? || file.value.size > MaxVideoBytes || read.ReadError? ==> r.form == form
    ensures file.Some? && file.value.size <= MaxVideoBytes && read.DataUrl? ==>
              && |Text.Split(read.url, ',')| >= 2
              && r.form == form.(videoData := Some(VideoData(Text.Split(read.url, ',')[1], file.value.mimeType)))
  {
    match file
    case None => Upload(form, None)
    case Some(f) =>
      if f.size > MaxVideoBytes then Upload(form, Some(SizeAlert))
      else
        match read
        case ReadError => Upload(form, None)
        case DataUrl(url) =>
          Text.SplitSegmentsFree(url, ',');
          assert |Text.Split(url, ',')| >= 2 by { NoSecondSegmentMeansNoComma(url); }
          Upload(form.(videoData := Some(VideoData(Text.Split(url, ',')[1], f.mimeType))), None)
  }

  /** A string with a single segment has no comma in it. */
  lemma NoSecondSegmentMeansNoComma(s: string)
    ensures |Text.Split(s, ',')| == 1 ==> ',' !in s
  {
    if |Text.Split(s, ',')| == 1 {
      Text.JoinSplit(s, ',');
      Text.SplitSegmentsFree(s, ',');
    }
  }

  /** For a data URL `header,payload`, the attached payload is exactly the
      base64 text after the comma. */
  lemma {:induction false} AttachedPayload(form: AdInput, file: VideoFile, header: string, payload: string)
    requires ',' !in header && ',' !in payload
    requires file.size <= MaxVideoBytes
    ensures HandleVideoUpload(form, Some(file), DataUrl(header + "," + payload)).form.videoData
              == Some(VideoData(payload, file.mimeType))
  {
    var url := header + "," + payload;
    assert url == Text.Join([header, payload], ',');
    Text.SplitJoin([header, payload], ',');
  }

  /** The size guard is strict: exactly 20 MiB is attached, one byte more is
      refused and the form is unchanged. */
  lemma SizeGuardBoundary(form: AdInput, mimeType: string, url: string)
    requires ',' in url
    ensures |Text.Split(url, ',')| >= 2
    ensures HandleVideoUpload(form, Some(VideoFile(MaxVideoBytes, mimeType)), DataUrl(url))
              == Upload(form.(videoData := Some(VideoData(Text.Split(url, ',')[1], mimeType))), None)
    ensures HandleVideoUpload(form, Some(VideoFile(MaxVideoBytes + 1, mimeType)), DataUrl(url)) == Upload(form, Some(SizeAlert))
  {
  }

  /** `removeVideo`: the video is dropped and every text field is kept. */
  function RemoveVideo(form: AdInput): (r: AdInput)
    ensures r.videoData.None?
    ensures forall f :: FieldValue(r, f) == FieldValue(form, f)
  {
    form.(videoData := None)
  }

  /** Removing a video undoes attaching one. */
  lemma RemoveUndoesUpload(form: AdInput, file: VideoFile, read: ReadResult)
    requires form.videoData.None? && WellFormedRead(read)
    ensures RemoveVideo(HandleVideoUpload(form, Some(file), read).form) == form
  {
  }

  /** What a submit attempt ends in: the record handed to `onAnalyze`, the
      alert shown instead, or nothing at all (the browser refused it). */
  datatype Submission = Submitted(form: AdInput) | Alerted(message: string) | Blocked

  /** `handleSubmit`: the form record is handed to `onAnalyze` unless the copy
      is shorter than five characters and no video is attached, in which case
      the user is alerted instead. */
  function HandleSubmit(form: AdInput): (r: Submission)
    ensures !r.Blocked?
    ensures r.Submitted? <==> |form.adCopy| >= MinCopyLength || form.videoData.Some?
    ensures r.Submitted? ==> r.form == form
    ensures r.Alerted? ==> r.message == SubmitAlert
  {
    if |form.adCopy| < MinCopyLength && form.videoData.None? then Alerted(SubmitAlert) else Submitted(form)
  }

  /** A submit as the browser performs it: nothing while the button is
      disabled (`isLoading`), nothing while a `required` input (audience,
      objective) is empty (the browser shows its own hint, not an alert), and
      otherwise `handleSubmit`. */
  function SubmitForm(form: AdInput, isLoading: bool): (r: Submission)
    ensures r.Submitted? ==> r.form == form && !isLoading
    ensures r.Submitted? <==> !isLoading && form.targetAudience != "" && form.objective != ""
                              && (|form.adCopy| >= MinCopyLength || form.videoData.Some?)
    ensures r.Blocked? <==> isLoading || form.targetAudience == "" || form.objective == ""
    ensures r.Alerted? ==> r.message == SubmitAlert
  {
    if isLoading || form.targetAudience == "" || form.objective == "" then Blocked
    else HandleSubmit(form)
  }

  /** The untouched form cannot be submitted; a short copy goes through once
      a video is attached; an empty copy without video never does. */
  lemma SubmitGuardCases(form: AdInput, v: VideoData)
    ensures HandleSubmit(InitialForm) == Alerted(SubmitAlert)
    ensures |form.adCopy| < MinCopyLength ==> HandleSubmit(form.(videoData := Some(v))).Submitted?
    ensures form.adCopy == "" && form.videoData.None? ==> HandleSubmit(form) == Alerted(SubmitAlert)
  {
  }
}
