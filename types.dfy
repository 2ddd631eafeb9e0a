/** The record a finished scan hands to the report and presentation layers. */
module Types {
  import opened Wrappers

  /**
   * heartRate in beats per minute, respiratoryRate in breaths per minute, hrv on a
   * 0-100 stress-proxy scale, confidence 0-100, timestamp an ISO-8601 string.
   */
  datatype VitalsResult = VitalsResult(
    heartRate: int,
    respiratoryRate: Option<int>,
    hrv: Option<int>,
    confidence: int,
    timestamp: string)
}
