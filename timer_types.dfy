/**
 * The records of `src/types/timer.ts`. Times are whole seconds; the
 * timestamps (`createdAt`, `startedAt`, `completedAt`) are milliseconds
 * handed in by the caller. An optional field (`x?: T`) is an `Option`.
 */
module TimerTypes {
  import opened Wrappers

  /** The sixteen timer kinds, one per page of the app. */
  datatype TimerType =
    | EggTimer | SteakTimer | CoffeeTimer | TeaTimer | DoughProofing
    | Pomodoro | Hiit | BoxBreathing | Meditation | PowerNap
    | FiftyTwoSeventeen | Stopwatch | Countdown | QuickBurst
    | BoardGame | FiveSecondRule

  datatype TimerCategory = Kitchen | Fitness | Productivity | Games

  datatype StageType = Work | Rest | Break | Prepare

  datatype TimerStage = TimerStage(id: string, name: string, duration: int, stageType: StageType)

  /** A timer as the store holds it; `elapsed` only ever counts up from zero. */
  datatype Timer = Timer(
    id: string,
    timerType: TimerType,
    name: string,
    category: TimerCategory,
    duration: int,
    elapsed: nat,
    remaining: int,
    isRunning: bool,
    isPaused: bool,
    isCompleted: bool,
    stages: Option<seq<TimerStage>>,
    currentStageIndex: Option<nat>,
    createdAt: int,
    startedAt: Option<int>,
    completedAt: Option<int>)

  /** What `createTimer` is given (the unused `theme` and `sound` are dropped). */
  datatype TimerConfig = TimerConfig(
    timerType: TimerType,
    name: string,
    category: TimerCategory,
    duration: int,
    stages: Option<seq<TimerStage>>)

  datatype StageCompletion = StageCompletion(stageId: string, duration: int, completed: bool)

  /** One finished or abandoned run, as the history keeps it. */
  datatype TimerSession = TimerSession(
    id: string,
    timerType: TimerType,
    duration: int,
    completedAt: int,
    wasCompleted: bool,
    stages: Option<seq<StageCompletion>>)
}
