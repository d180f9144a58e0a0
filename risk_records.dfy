/** The records that plot_risk_assessment reads, and the failure it can raise. */
module RiskRecords {

  /** One input record: its "risk_label", "risk_value" and "comments" entries (the label is called name, as in the loops),
      which line 26 of secondrisk.py copies into a (label, value, comment) tuple. */
  datatype Risk = Risk(name: string, value: real, comments: string)

  /** Unpacking `zip(*combined)` into three names fails when there are no records. */
  datatype Error = UnpackError

  datatype Result<T> = Ok(value: T) | Err(error: Error)
}
