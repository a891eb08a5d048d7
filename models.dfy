/**
 * Row shapes of the tables the core reads and writes: `activities`,
 * `activity_splits`, `activity_comments`, `activity_feedbacks` and
 * `ai_feedbacks`. Column values the code copies from vendor payloads
 * without looking at them stay `Json.Value`s.
 */
module Models {
  import opened Json
  import opened Dates

  /** One row of `activities`. `activityId` is the vendor's (Garmin) id. */
  datatype Activity = Activity(
    activityId: Value,
    activityName: Value,
    userId: int,
    startTimeLocal: DateTime,
    startTimeGmt: DateTime,
    endTimeGmt: DateTime,
    activityType: Value,
    eventType: Value,
    distance: Value,             // metres
    duration: Value,             // seconds
    elapsedDuration: Value,
    movingDuration: Value,
    elevationGain: Value,
    elevationLoss: Value,
    minElevation: Value,
    maxElevation: Value,
    elevationCorrected: Value,
    averageSpeed: Value,         // m/s
    maxSpeed: Value,             // m/s
    startLatitude: Value,
    startLongitude: Value,
    endLatitude: Value,
    endLongitude: Value,
    averageHr: Value,
    maxHr: Value,
    hrTimeInZones: map<string, Value>,
    avgPower: Value,
    maxPower: Value,
    powerTimeInZones: map<string, Value>,
    aerobicTrainingEffect: Value,
    anaerobicTrainingEffect: Value,
    trainingEffectLabel: Value,
    vo2maxValue: Value,
    averageCadence: Value,
    maxCadence: Value,
    avgVerticalOscillation: Value,
    avgGroundContactTime: Value,
    avgStrideLength: Value,
    calories: Value,
    waterEstimated: Value,
    activityTrainingLoad: Value,
    moderateIntensityMinutes: Value,
    vigorousIntensityMinutes: Value,
    steps: Value,
    timeZoneId: Value,
    sportTypeId: Value,
    deviceId: Value,
    manufacturer: Value,
    lapCount: Value,
    privacy: Value,
    favorite: Value,
    manualActivity: Value)

  /**
   * One row of `activity_splits`; `activityId` holds the parent's Garmin id
   * text as it was given (its INTEGER column keeps a text that is not a
   * number as text).
   */
  datatype ActivitySplit = ActivitySplit(
    activityId: string,
    lapIndex: Value,
    startTimeGmt: DateTime,
    distance: Value,
    duration: Value,
    movingDuration: Value,
    averageSpeed: Value,
    maxSpeed: Value,
    averageHr: Value,
    maxHr: Value,
    averageRunCadence: Value,
    maxRunCadence: Value,
    averagePower: Value,
    maxPower: Value,
    groundContactTime: Value,
    strideLength: Value,
    verticalOscillation: Value,
    verticalRatio: Value,
    calories: Value,
    elevationGain: Value,
    elevationLoss: Value,
    maxElevation: Value,
    minElevation: Value,
    startLatitude: Value,
    startLongitude: Value,
    endLatitude: Value,
    endLongitude: Value)

  datatype ActivityComment = ActivityComment(id: int, activityId: Value, comment: Value, createdAt: DateTime)

  datatype ActivityFeedback = ActivityFeedback(id: int, userId: Value, activityId: Value,
                                               createdAt: DateTime, feedbackData: Value)

  /** One row of `ai_feedbacks`: a coaching request and its outcome. */
  datatype AIFeedback = AIFeedback(id: int, userId: int, createdAt: DateTime,
                                   status: string, feedbackData: Value)
}
