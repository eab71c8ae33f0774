/**
 * The records and enumerations of the lesson generator: teaching styles,
 * project layouts, a domain's configuration, a lesson's metadata and the
 * result of validating a candidate lesson, each with the defaults its
 * declaration gives.
 */
module Models {
  import opened Wrappers
  import opened FileSystem

  /** The teaching approach a domain uses; a string enumeration. */
  datatype PedagogyStyle = ConceptFirst | IntegrationFirst | ApplicationFirst {
    /** The member's string value. */
    function Value(): string {
      match this
      case ConceptFirst => "concept_first"
      case IntegrationFirst => "integration_first"
      case ApplicationFirst => "application_first"
    }
  }

  /** `PedagogyStyle(s)`: the member whose value is `s`, or `None` when there is none (a `ValueError`). */
  function PedagogyFromValue(s: string): (r: Option<PedagogyStyle>)
    ensures r.Some? ==> r.value.Value() == s
  {
    if s == "concept_first" then Some(ConceptFirst)
    else if s == "integration_first" then Some(IntegrationFirst)
    else if s == "application_first" then Some(ApplicationFirst)
    else None
  }

  /** Every style is found again from its value, and the three values are distinct. */
  lemma PedagogyRoundTrip(p: PedagogyStyle)
    ensures PedagogyFromValue(p.Value()) == Some(p)
    ensures forall q: PedagogyStyle :: q.Value() == p.Value() ==> q == p
  {
  }

  /** The enumeration has exactly three members and lookup succeeds exactly on their values. */
  lemma PedagogyMembers(s: string)
    ensures PedagogyFromValue(s).Some? <==> s in {"concept_first", "integration_first", "application_first"}
    ensures |{ConceptFirst, IntegrationFirst, ApplicationFirst}| == 3
    ensures forall p: PedagogyStyle :: p.Value() in {"concept_first", "integration_first", "application_first"}
  {
  }

  /** The shape of the project lessons are written into. */
  datatype ProjectType = LessonBased | AppBased {
    function Value(): string {
      match this
      case LessonBased => "lesson_based"
      case AppBased => "app_based"
    }
  }

  /** `ProjectType(s)`, or `None` when no member has value `s`. */
  function ProjectTypeFromValue(s: string): (r: Option<ProjectType>)
    ensures r.Some? ==> r.value.Value() == s
  {
    if s == "lesson_based" then Some(LessonBased)
    else if s == "app_based" then Some(AppBased)
    else None
  }

  lemma ProjectTypeRoundTrip(t: ProjectType)
    ensures ProjectTypeFromValue(t.Value()) == Some(t)
    ensures forall u: ProjectType :: u.Value() == t.Value() ==> u == t
  {
  }

  lemma ProjectTypeMembers(s: string)
    ensures ProjectTypeFromValue(s).Some? <==> s in {"lesson_based", "app_based"}
    ensures |{LessonBased, AppBased}| == 2
    ensures forall t: ProjectType :: t.Value() in {"lesson_based", "app_based"}
  {
  }

  /**
   * A content domain: how to teach it, where its project lives and how
   * strictly to validate its lessons.  `doctestStrategy` is a free string
   * ("deterministic", "ellipsis" or "skip" by convention).
   */
  datatype DomainConfig = DomainConfig(
    name: string,
    pedagogy: PedagogyStyle,
    projectType: ProjectType,
    projectPath: Option<Path>,
    lessonDir: string,
    templatePath: Option<string>,
    sourceRefs: map<string, string>,
    strictMypy: bool,
    doctestStrategy: string)

  /** `DomainConfig(name=..., pedagogy=..., project_type=...)` with every other field left at its default. */
  function NewDomainConfig(name: string, pedagogy: PedagogyStyle, projectType: ProjectType): (c: DomainConfig)
    ensures c.name == name && c.pedagogy == pedagogy && c.projectType == projectType
    ensures c.projectPath == None && c.lessonDir == "src/" && c.templatePath == None
    ensures c.sourceRefs == map[] && c.strictMypy && c.doctestStrategy == "deterministic"
  {
    DomainConfig(name, pedagogy, projectType, None, "src/", None, map[], true, "deterministic")
  }

  /** A generated lesson's number, title, file name, prerequisites and narrative. */
  datatype LessonMetadata = LessonMetadata(
    number: int,
    title: string,
    filename: string,
    prerequisites: seq<string>,
    narrative: string)

  /** `LessonMetadata(number=..., title=..., filename=...)` with the defaults for the rest. */
  function NewLessonMetadata(number: int, title: string, filename: string): (m: LessonMetadata)
    ensures m.number == number && m.title == title && m.filename == filename
    ensures m.prerequisites == [] && m.narrative == ""
  {
    LessonMetadata(number, title, filename, [], "")
  }

  /** The outcome of the validation pipeline on one candidate. */
  datatype ValidationResult = ValidationResult(isValid: bool, errors: seq<string>, toolsRun: seq<string>)

  /** `ValidationResult(is_valid=...)`: the validity flag is required, the lists default to empty. */
  function NewValidationResult(isValid: bool): (v: ValidationResult)
    ensures v.isValid == isValid && v.errors == [] && v.toolsRun == []
  {
    ValidationResult(isValid, [], [])
  }
}
