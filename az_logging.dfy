/**
 * aztools/logging.py: the `QuietAzureTokenLogs` filter, which keeps the
 * Azure CLI credential's success message, drops every other INFO record and
 * drops the WARNINGs of the credentials tried and failed before it.
 */
module AzLogging {
  import opened PyText

  /** The two parts of a `logging.LogRecord` the filter reads: its level name and its formatted message. */
  datatype LogRecord = LogRecord(levelname: string, message: string)

  /** The message of the credential that succeeded; always kept. */
  const SucceededPrefix: string := "AzureCliCredential.get_token succeeded"

  /** The messages of the credentials that are tried first and fail when the Azure CLI is used. */
  const FailedPrefixes: seq<string> := [
    "EnvironmentCredential.get_token failed",
    "ManagedIdentityCredential.get_token failed",
    "SharedTokenCacheCredential.get_token failed",
    "VisualStudioCodeCredential.get_token failed"
  ]

  /** `is_failed_creds_warning`: a WARNING whose message starts with one of the four failure messages. */
  predicate IsFailedCredsWarning(r: LogRecord)
    ensures IsFailedCredsWarning(r) ==> r.levelname == "WARNING" && !StartsWith(r.message, SucceededPrefix)
  {
    FailureIsNotSuccessAny(r.message);
    r.levelname == "WARNING" &&
    (StartsWith(r.message, FailedPrefixes[0]) ||
     StartsWith(r.message, FailedPrefixes[1]) ||
     StartsWith(r.message, FailedPrefixes[2]) ||
     StartsWith(r.message, FailedPrefixes[3]))
  }

  /** `filter`: whether the record is logged. */
  predicate Filter(r: LogRecord)
    ensures IsFailedCredsWarning(r) ==> !Filter(r)
    ensures r.levelname != "INFO" && r.levelname != "WARNING" ==> Filter(r)
  {
    if StartsWith(r.message, SucceededPrefix) then true
    else !(r.levelname == "INFO" || IsFailedCredsWarning(r))
  }

  /** No message starts with two prefixes that differ in their first character. */
  lemma {:induction false} DistinctPrefixes(m: string, p: string, q: string)
    requires |p| > 0 && |q| > 0 && p[0] != q[0]
    ensures StartsWith(m, p) ==> !StartsWith(m, q)
  {
    if StartsWith(m, p) {
      assert m[0] == m[..|p|][0] == p[0];
      if |q| <= |m| {
        assert m[..|q|][0] == m[0] != q[0];
      }
    }
  }

  /** A message starting with a failure message is not the success message. */
  lemma FailureIsNotSuccess(m: string, i: nat)
    requires i < |FailedPrefixes| && StartsWith(m, FailedPrefixes[i])
    ensures !StartsWith(m, SucceededPrefix)
  {
    DistinctPrefixes(m, FailedPrefixes[i], SucceededPrefix);
  }

  /** A message starting with any of the four failure messages is not the success message. */
  lemma FailureIsNotSuccessAny(m: string)
    ensures StartsWith(m, FailedPrefixes[0]) || StartsWith(m, FailedPrefixes[1]) ||
            StartsWith(m, FailedPrefixes[2]) || StartsWith(m, FailedPrefixes[3])
            ==> !StartsWith(m, SucceededPrefix)
  {
    DistinctPrefixes(m, FailedPrefixes[0], SucceededPrefix);
    DistinctPrefixes(m, FailedPrefixes[1], SucceededPrefix);
    DistinctPrefixes(m, FailedPrefixes[2], SucceededPrefix);
    DistinctPrefixes(m, FailedPrefixes[3], SucceededPrefix);
  }

  /** The success message is kept at every level. */
  lemma SuccessAlwaysKept(r: LogRecord)
    requires StartsWith(r.message, SucceededPrefix)
    ensures Filter(r)
  {
  }

  /** Every other INFO record is dropped. */
  lemma OtherInfoDropped(r: LogRecord)
    requires r.levelname == "INFO" && !StartsWith(r.message, SucceededPrefix)
    ensures !Filter(r)
  {
  }

  /** A WARNING starting with any of the four failure messages is dropped. */
  lemma FailedCredsWarningDropped(r: LogRecord, i: nat)
    requires r.levelname == "WARNING" && i < |FailedPrefixes| && StartsWith(r.message, FailedPrefixes[i])
    ensures IsFailedCredsWarning(r)
    ensures !Filter(r)
  {
    FailureIsNotSuccess(r.message, i);
  }

  /** A WARNING that is neither the success message nor one of the four failure messages is kept. */
  lemma OtherWarningKept(r: LogRecord)
    requires r.levelname == "WARNING"
    requires forall i :: 0 <= i < |FailedPrefixes| ==> !StartsWith(r.message, FailedPrefixes[i])
    ensures Filter(r)
  {
    assert !StartsWith(r.message, FailedPrefixes[0]);
    assert !StartsWith(r.message, FailedPrefixes[1]);
    assert !StartsWith(r.message, FailedPrefixes[2]);
    assert !StartsWith(r.message, FailedPrefixes[3]);
  }

  /** A failure message counts only at level WARNING: at any other level but INFO the record is kept. */
  lemma FailureKeptAtOtherLevels(r: LogRecord)
    requires r.levelname != "WARNING"
    ensures !IsFailedCredsWarning(r)
    ensures r.levelname != "INFO" ==> Filter(r)
  {
  }

  /**
   * The filter in one statement: a record is kept exactly when it carries the
   * success message, or it is not INFO and not a WARNING with a failure message.
   */
  lemma FilterExactly(r: LogRecord)
    ensures Filter(r) <==>
      StartsWith(r.message, SucceededPrefix) ||
      (r.levelname != "INFO" &&
       !(r.levelname == "WARNING" && exists i: nat | i < |FailedPrefixes| :: StartsWith(r.message, FailedPrefixes[i])))
  {
    if exists i: nat | i < |FailedPrefixes| :: StartsWith(r.message, FailedPrefixes[i]) {
      var i: nat :| i < |FailedPrefixes| && StartsWith(r.message, FailedPrefixes[i]);
      assert StartsWith(r.message, FailedPrefixes[i]);
    } else {
      assert !StartsWith(r.message, FailedPrefixes[0]);
      assert !StartsWith(r.message, FailedPrefixes[1]);
      assert !StartsWith(r.message, FailedPrefixes[2]);
      assert !StartsWith(r.message, FailedPrefixes[3]);
    }
  }

  /** The four records of the filter's examples: INFO "message" dropped, WARNING "message" kept, the environment failure dropped, the success kept at INFO. */
  lemma ExampleRecords()
    ensures !Filter(LogRecord("INFO", "message"))
    ensures Filter(LogRecord("WARNING", "message"))
    ensures !Filter(LogRecord("WARNING", "EnvironmentCredential.get_token failed"))
    ensures Filter(LogRecord("INFO", "AzureCliCredential.get_token succeeded"))
  {
    var m := "message";
    DistinctPrefixes(m, m, SucceededPrefix);
    DistinctPrefixes(m, m, FailedPrefixes[0]);
    DistinctPrefixes(m, m, FailedPrefixes[1]);
    DistinctPrefixes(m, m, FailedPrefixes[2]);
    DistinctPrefixes(m, m, FailedPrefixes[3]);
    FailedCredsWarningDropped(LogRecord("WARNING", FailedPrefixes[0]), 0);
    assert StartsWith(SucceededPrefix, SucceededPrefix);
  }
}
