/** The issue-report form: its record of fields, the handlers that update it
    (typed input, category buttons, QR autofill, voice note, photo and
    location callbacks) and submission, which classifies the validation
    score into a severity and credits five points. The random score and the
    values produced by the camera and geolocation are parameters. */
module IssueReporting {
  import opened Common
  import opened AuthContext

  datatype ReportForm = ReportForm(
    title: string, category: string, description: string, location: string,
    severity: string, capturedPhoto: Option<string>)

  const InitialForm: ReportForm := ReportForm("", "", "", "", "medium", None)

  /** The inputs wired to `handleInputChange`, by their `name` attribute. */
  datatype FormField = TitleInput | LocationInput | DescriptionInput | SeverityInput

  /** `{ ...prev, [name]: value }`: the named field takes the value. */
  function WithField(form: ReportForm, field: FormField, value: string): (r: ReportForm)
    ensures r.category == form.category && r.capturedPhoto == form.capturedPhoto
    ensures r.title == (if field == TitleInput then value else form.title)
    ensures r.location == (if field == LocationInput then value else form.location)
    ensures r.description == (if field == DescriptionInput then value else form.description)
    ensures r.severity == (if field == SeverityInput then value else form.severity)
  {
    match field
    case TitleInput => form.(title := value)
    case LocationInput => form.(location := value)
    case DescriptionInput => form.(description := value)
    case SeverityInput => form.(severity := value)
  }

  /** A second change of the same field overrides the first. */
  lemma WithFieldOverrides(form: ReportForm, field: FormField, v1: string, v2: string)
    ensures WithField(WithField(form, field, v1), field, v2) == WithField(form, field, v2)
  {
  }

  /** Changes of two different fields can happen in either order. */
  lemma WithFieldCommutes(form: ReportForm, f1: FormField, v1: string, f2: FormField, v2: string)
    requires f1 != f2
    ensures WithField(WithField(form, f1, v1), f2, v2) == WithField(WithField(form, f2, v2), f1, v1)
  {
  }

  const VoiceNoteSuffix: string := " [Voice note: Garbage is overflowing from the bin and creating a mess]"

  const QrLocation: string := "Bus Stop #42, MG Road"
  const QrCategory: string := "garbage_overflow"
  const QrBinId: string := "BIN-MG-042"

  /** The form after a QR scan of the simulated bin. */
  function QrFilled(form: ReportForm): (r: ReportForm)
    ensures r.location == QrLocation && r.category == QrCategory
    ensures r.title == "Issue at " + QrLocation
    ensures r.description == "QR scanned from bin ID: " + QrBinId
    ensures r.severity == form.severity && r.capturedPhoto == form.capturedPhoto
  {
    form.(location := QrLocation, category := QrCategory,
          title := "Issue at " + QrLocation, description := "QR scanned from bin ID: " + QrBinId)
  }

  /** Scanning twice is the same as scanning once. */
  lemma QrFilledIdempotent(form: ReportForm)
    ensures QrFilled(QrFilled(form)) == QrFilled(form)
  {
  }

  datatype Severity = Low | Medium | High {
    function Name(): string {
      match this
      case Low => "low"
      case Medium => "medium"
      case High => "high"
    }

    function Rank(): nat {
      match this
      case Low => 0
      case Medium => 1
      case High => 2
    }
  }

  /** Severity from the validation score: above 70 high, above 40 medium,
      otherwise low. */
  function ClassifySeverity(score: real): (s: Severity)
    ensures s == High <==> score > 70.0
    ensures s == Medium <==> 40.0 < score <= 70.0
    ensures s == Low <==> score <= 40.0
  {
    if score > 70.0 then High else if score > 40.0 then Medium else Low
  }

  /** A higher score never gives a lower severity. */
  lemma ClassifySeverityMonotone(a: real, b: real)
    requires a <= b
    ensures ClassifySeverity(a).Rank() <= ClassifySeverity(b).Rank()
  {
  }

  /** The thresholds themselves fall in the lower band. */
  lemma ClassifySeverityBoundaries()
    ensures ClassifySeverity(70.0) == Medium && ClassifySeverity(40.0) == Low
    ensures ClassifySeverity(0.0) == Low
  {
  }

  const ReportPoints: int := 5

  class IssueReportingPage {
    const auth: AuthProvider
    var formData: ReportForm
    var isRecording: bool

    constructor (auth: AuthProvider)
      ensures this.auth == auth && formData == InitialForm && !isRecording
    {
      this.auth := auth;
      formData := InitialForm;
      isRecording := false;
    }

    method HandleInputChange(field: FormField, value: string)
      modifies this`formData
      ensures formData == WithField(old(formData), field, value)
    {
      formData := WithField(formData, field, value);
    }

    /** A category button. */
    method SelectCategory(id: string)
      modifies this`formData
      ensures formData == old(formData).(category := id)
    {
      formData := formData.(category := id);
    }

    /** The camera callback with the captured image's data URL. */
    method PhotoCaptured(dataUrl: string)
      modifies this`formData
      ensures formData == old(formData).(capturedPhoto := Some(dataUrl))
    {
      formData := formData.(capturedPhoto := Some(dataUrl));
    }

    method RemovePhoto()
      modifies this`formData
      ensures formData == old(formData).(capturedPhoto := None)
    {
      formData := formData.(capturedPhoto := None);
    }

    /** The geolocation callback with the already formatted coordinates. */
    method LocationFound(coordinates: string)
      modifies this`formData
      ensures formData == old(formData).(location := coordinates)
    {
      formData := formData.(location := coordinates);
    }

    method ScanQRCode()
      modifies this`formData
      ensures formData == QrFilled(old(formData))
    {
      formData := QrFilled(formData);
    }

    method StartVoiceRecording()
      modifies this`isRecording
      ensures isRecording
    {
      isRecording := true;
    }

    /** The timer callback of the voice note: stops recording and appends
        the transcript to the description as it is then. */
    method VoiceNoteCompleted()
      modifies this`isRecording, this`formData
      ensures !isRecording
      ensures formData == old(formData).(description := old(formData.description) + VoiceNoteSuffix)
    {
      isRecording := false;
      formData := formData.(description := formData.description + VoiceNoteSuffix);
    }

    /** Classifies the score, credits five points and navigates to the
        dashboard. The severity is only reported: the form keeps its own. */
    method HandleSubmit(score: real) returns (severity: Severity, navigateTo: string)
      modifies auth`userPoints
      ensures severity == ClassifySeverity(score)
      ensures auth.userPoints == old(auth.userPoints).Plus(Int(ReportPoints))
      ensures formData == old(formData) && navigateTo == "/dashboard"
    {
      severity := ClassifySeverity(score);
      auth.AddPoints(Int(ReportPoints));
      navigateTo := "/dashboard";
    }
  }

  /** A scan, a voice note and a submission with score 85 from the mounted
      balance: the form keeps severity "medium" while the report is high,
      and the balance is 155. */
  method ReportScenario() returns (form: ReportForm, severity: Severity, balance: Num)
    ensures form.description == "QR scanned from bin ID: " + QrBinId + VoiceNoteSuffix
    ensures form.severity == "medium" && severity == High
    ensures balance == Int(155)
  {
    var auth := new AuthProvider();
    auth.Mount();
    var page := new IssueReportingPage(auth);
    page.ScanQRCode();
    page.StartVoiceRecording();
    page.VoiceNoteCompleted();
    var target;
    severity, target := page.HandleSubmit(85.0);
    form, balance := page.formData, auth.userPoints;
  }
}
