/** The application's shared data model (types.ts). */
module Types {
  import opened Wrappers

  datatype HealthDomain =
    | BreastHealth
    | ReproductiveHealth
    | Pregnancy
    | BoneHealth
    | Cardiovascular
    | SkinHealth
    | Nutrition
    | MentalHealth
    | CervicalHealth
    | PreventiveHealth
    | DentalOrthodontics
    | BreastCancerAnalysis

  /** The string value of each domain, as stored and compared by the views. */
  function DomainName(d: HealthDomain): string {
    match d
    case BreastHealth => "Breast Health"
    case ReproductiveHealth => "Reproductive Health"
    case Pregnancy => "Pregnancy & Maternal Care"
    case BoneHealth => "Bone & Joint Health"
    case Cardiovascular => "Cardiovascular Health"
    case SkinHealth => "Skin & Hair Health"
    case Nutrition => "Nutrition & Lifestyle"
    case MentalHealth => "Mental Health"
    case CervicalHealth => "Cervical & Ovarian Health"
    case PreventiveHealth => "General Preventive Health"
    case DentalOrthodontics => "Dental & Orthodontics"
    case BreastCancerAnalysis => "Breast Cancer Analysis"
  }

  datatype ScanType =
    | Mammogram
    | Ultrasound
    | Mri
    | PapSmear
    | DexaScan
    | Ecg
    | SkinPhoto
    | MealPhoto
    | CephalometricXray
    | BreastImage

  datatype Recommendation =
    | Biopsy
    | MriFollowUp
    | ShortFollowUp
    | Routine
    | ClinicalCorrelation
    | NoAction
    | Referral

  /** Normalised fractional coordinates of a region of interest. */
  datatype BoundingBox = BoundingBox(xMin: real, yMin: real, xMax: real, yMax: real)

  datatype Finding = Finding(
    id: string,
    labelText: string,
    description: string,
    boundingBox: BoundingBox,
    confidence: real)

  /** The canonical analysis result every domain is normalised into. */
  datatype AnalysisResult = AnalysisResult(
    riskScore: real,
    recommendation: Recommendation,
    clinicalSummary: string,
    patientSummary: string,
    findings: seq<Finding>,
    heatmapBase64: Option<string>,
    biRads: Option<int>)

  datatype CaseStatus = PendingAnalysis | AnalysisFailed | ReviewPending | ReviewCompleted

  datatype CasePriority = High | Medium | Low

  datatype ClinicianDecision = Accepted | Overridden | Deferred

  datatype CaseImage = CaseImage(dataUrl: string, name: string, mimeType: string)

  /** A unit of clinical work; `createdAt` is the creation time in milliseconds. */
  datatype Case = Case(
    id: string,
    patientId: string,
    createdAt: int,
    status: CaseStatus,
    priority: CasePriority,
    healthDomain: HealthDomain,
    scanType: ScanType,
    image: CaseImage,
    analysisResult: Option<AnalysisResult>,
    clinicianNote: Option<string>,
    clinicianDecision: Option<ClinicianDecision>,
    overrideReason: Option<string>,
    clinicalReport: Option<string>,
    patientReport: Option<string>)

  // --- Cephalometric analysis types ---

  datatype Point = Point(x: real, y: real)

  datatype Landmark = Landmark(name: string, point: Point)

  /** A numeric value as JavaScript computes it: a finite real, or NaN. */
  datatype Num = Finite(r: real) | NaN

  datatype Unit = Millimeters | Degrees

  datatype Interpretation =
    | Normal
    | Protrusive
    | Retrusive
    | HighAngle
    | LowAngle
    | SkeletalClassII
    | SkeletalClassIII

  datatype Measurement = Measurement(
    name: string,
    value: Num,
    unit: Unit,
    normalRange: Option<string>,
    interpretation: Option<Interpretation>)

  /** Analysis-battery name to its ordered measurements. */
  type CephalometricAnalysis = map<string, seq<Measurement>>

  // --- Breast cancer analysis types ---

  datatype BreastLabel = Mass | Calcification | Asymmetry | ArchitecturalDistortion

  function BreastLabelName(l: BreastLabel): string {
    match l
    case Mass => "Mass"
    case Calcification => "Calcification"
    case Asymmetry => "Asymmetry"
    case ArchitecturalDistortion => "Architectural Distortion"
  }

  datatype BreastFinding = BreastFinding(
    id: string,
    lesion: BreastLabel,
    description: string,
    boundingBox: BoundingBox,
    malignancyProbability: real)

  datatype BreastAnalysisResult = BreastAnalysisResult(
    biRadsScore: int,
    findings: seq<BreastFinding>,
    clinicalSummary: string)

  // --- Patient mode types ---

  datatype MenstrualData = MenstrualData(cycleDay: int, symptoms: string)

  datatype MenstrualInsights = MenstrualInsights(
    cyclePhase: string,
    fertileWindowPrediction: string,
    symptomExplanations: seq<string>,
    wellnessTips: seq<string>)

  datatype AnatomicalAnnotation = AnatomicalAnnotation(
    labelText: string,
    description: string,
    boundingBox: BoundingBox)

  datatype EditedImageResponse = EditedImageResponse(imageDataUrl: string, text: string)

  /** The name and declared MIME type of a file chosen by the user. */
  datatype FileInfo = FileInfo(name: string, mimeType: string)
}
