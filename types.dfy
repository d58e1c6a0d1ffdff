/** The records of `types.ts` that the modelled rules touch. Fields filled
    from AI responses that the application never checks (severity, category,
    difficulty) stay strings; the unions the application itself assigns are
    datatypes. */
module Types {
  import opened Wrappers

  datatype EnvironmentIssue = EnvironmentIssue(
    title: string,
    description: string,
    severity: string,
    impactCategory: string,
    impactScore: real)

  datatype ActionStep = ActionStep(step: string, priority: real, difficulty: string)

  datatype ActionPlan = ActionPlan(summary: string, steps: seq<ActionStep>, longTermGoal: string)

  /** The `{ issue, actionPlan }` result of an analysis. */
  datatype AnalysisResult = AnalysisResult(issue: EnvironmentIssue, actionPlan: ActionPlan)

  datatype AnalysisHistoryEntry = AnalysisHistoryEntry(
    id: string,
    timestamp: string,
    issue: EnvironmentIssue,
    actionPlan: ActionPlan,
    mediaUrl: Option<string>)

  /** `box_2d` is `[ymin, xmin, ymax, xmax]`. */
  datatype DetectedObject = DetectedObject(
    id: string,
    labelText: string,  // `label`, a reserved word in Dafny
    category: string,
    box2d: seq<real>,
    score: real,
    explanation: string)

  datatype TaskType = Pollution | Restoration | Habitat | Intelligence
  datatype Priority = Low | Medium | High
  datatype TaskStatus = Pending | InProgress | Completed

  datatype SectorTask = SectorTask(
    id: string,
    title: string,
    taskType: TaskType,
    priority: Priority,
    status: TaskStatus,
    latOffset: real,
    lngOffset: real,
    description: string,
    uri: Option<string>)

  /** Who spoke a line of the live transcript. */
  datatype Role = User | Ai

  datatype Transcription = Transcription(role: Role, text: string)
}
