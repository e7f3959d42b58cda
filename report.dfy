/**
 * The report returned by the analysis service and shown by the dashboard
 * (frontend/src/components/AnalysisDashboard.tsx). The controller treats it as
 * opaque: it is stored exactly as received and never inspected.
 */
module Report {
  /** The three severities an anomaly may carry. */
  datatype AnomalyType = Info | Warning | Error

  /** One anomaly; the source calls the severity field `type`, a Dafny keyword. */
  datatype Anomaly = Anomaly(kind: AnomalyType, timestamp: string, message: string)

  /** A complete report: a summary and the anomalies in the order the service sent them. */
  datatype AnalysisReport = AnalysisReport(summary: string, anomalies: seq<Anomaly>)
}
