/**
 * The response interceptor that detects a report still being prepared
 * (lib/interceptors/pollingInterceptor.js). No HTTP client of the exporter
 * attaches it; it is modelled on its own.
 */
module Polling {
  import opened Js
  import opened Http

  /** ASCII letters compared without regard to case. */
  function Fold(c: char): char {
    if 'a' <= c <= 'z' then (c as int - 'a' as int + 'A' as int) as char else c
  }

  /** `a.localeCompare(b, undefined, { sensitivity: 'accent' }) === 0`, for ASCII case differences. */
  predicate SameIgnoringCase(a: string, b: string) {
    |a| == |b| && forall i :: 0 <= i < |a| ==> Fold(a[i]) == Fold(b[i])
  }

  const InProgressStatus := "IN_PROGRESS"

  /**
   * The guarded test of lines 16-23: `response.data.status` is a string equal
   * to IN_PROGRESS ignoring case. A missing body, a missing status or a status
   * that is not a string makes the access throw, which counts as false.
   */
  predicate InProgress(data: Value) {
    data.Obj? && "status" in data.fields && data.fields["status"].Str?
    && SameIgnoringCase(data.fields["status"].s, InProgressStatus)
  }

  /** The error the interceptor rejects with (lines 24-32). */
  function InProgressError(resp: Response): AxiosError {
    AxiosError(InProgressMessage, Some("ECONNABORTED"), Some(resp), true)
  }

  /**
   * Both handlers of `attach`: a rejection is passed on unchanged; a response
   * whose status is IN_PROGRESS becomes a rejection that carries it; every
   * other response resolves as it is.
   */
  function Handle(o: Outcome): (r: Outcome)
    ensures o.Rejected? ==> r == o
    ensures o.Resolved? && InProgress(o.response.data) ==>
              r.Rejected? && r.error.message == InProgressMessage && r.error.code == Some("ECONNABORTED")
              && r.error.reportInProgress && r.error.response == Some(o.response)
    ensures o.Resolved? && !InProgress(o.response.data) ==> r == o
  {
    match o
    case Rejected(_) => o
    case Resolved(resp) => if InProgress(resp.data) then Rejected(InProgressError(resp)) else o
  }

  /** Any spelling of the status that differs only in letter case is detected. */
  lemma {:induction false} InProgressAnyCase(resp: Response, status: string)
    requires resp.data == Obj(map["status" := Str(status)])
    requires |status| == |InProgressStatus|
    requires forall i :: 0 <= i < |status| ==> Fold(status[i]) == Fold(InProgressStatus[i])
    ensures Handle(Resolved(resp)).Rejected?
    ensures Handle(Resolved(resp)).error.reportInProgress
  {
    assert InProgress(resp.data);
  }

  /** A finished report resolves with the very response it came with. */
  lemma CompletedPassesThrough(resp: Response)
    requires resp.data.Obj? && resp.data.fields == map["status" := Str("COMPLETED")]
    ensures Handle(Resolved(resp)) == Resolved(resp)
  {
    assert !SameIgnoringCase("COMPLETED", InProgressStatus) by {
      assert Fold("COMPLETED"[0]) != Fold(InProgressStatus[0]);
    }
  }

  /** A body without a usable status resolves unchanged. */
  lemma NoStatusPassesThrough(resp: Response)
    requires !resp.data.Obj? || "status" !in resp.data.fields || !resp.data.fields["status"].Str?
    ensures Handle(Resolved(resp)) == Resolved(resp)
  {
  }
}
