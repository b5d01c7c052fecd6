/** The record shapes of the workout planner: the form it reads and the
    response envelope it produces. */
module WorkoutTypes {

  datatype Option<+T> = None | Some(value: T)

  /** A generation either resolves with a value or rejects with an error message. */
  datatype Result<+T> = Success(value: T) | Failure(error: string)

  /** What the form submits; `customGoals` is absent when the field is left empty. */
  datatype WorkoutFormData = WorkoutFormData(
    goal: string,
    fitnessLevel: string,
    preferences: seq<string>,
    healthConditions: seq<string>,
    daysPerWeek: int,
    sessionDuration: int,
    planDurationWeeks: int,
    customGoals: Option<seq<string>>)

  datatype WorkoutExercise = WorkoutExercise(
    name: string,
    duration: string,
    repetitions: string,
    sets: string,
    equipment: string)

  datatype DayWorkout = DayWorkout(day: string, exercises: seq<WorkoutExercise>)

  datatype Schedule = Schedule(daysPerWeek: int, sessionDuration: int)

  datatype PlanResult = PlanResult(
    goal: string,
    fitnessLevel: string,
    totalWeeks: int,
    schedule: Schedule,
    exercises: seq<DayWorkout>,
    seoTitle: string,
    seoContent: string,
    seoKeywords: string)

  datatype WorkoutPlanResponse = WorkoutPlanResponse(
    status: string,
    message: string,
    result: PlanResult,
    cacheTime: int)
}
