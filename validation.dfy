/**
 * The shape every form handler of the storefront validates with: a sequence of
 * `if (!ok) { setError(message); return; }` statements. Only the first failing
 * check is reported, and the handler goes on only when every check passes.
 */
module Validation {
  import opened Wrappers

  /** One early-return step: when `passes` is false the handler reports `message` and stops. */
  datatype Check = Check(passes: bool, message: string)

  /** Check `k` is the first one that fails. */
  predicate FailsFirstAt(checks: seq<Check>, k: int) {
    0 <= k < |checks| && !checks[k].passes && forall j :: 0 <= j < k ==> checks[j].passes
  }

  /** The error the chain reports, or None when the handler proceeds. */
  function FirstFailure(checks: seq<Check>): (r: Option<string>)
    ensures r.None? <==> forall i :: 0 <= i < |checks| ==> checks[i].passes
    ensures r.Some? ==> exists k :: FailsFirstAt(checks, k) && r.value == checks[k].message
  {
    if checks == [] then None
    else if !checks[0].passes then
      assert FailsFirstAt(checks, 0);
      Some(checks[0].message)
    else
      var rest := FirstFailure(checks[1..]);
      if rest.Some? then
        var k :| FailsFirstAt(checks[1..], k) && rest.value == checks[1..][k].message;
        assert FailsFirstAt(checks, k + 1);
        rest
      else
        rest
  }

  /** The chain reports exactly the message of its first failing check. */
  lemma {:induction false} FirstFailureAt(checks: seq<Check>, k: int)
    requires FailsFirstAt(checks, k)
    ensures FirstFailure(checks) == Some(checks[k].message)
  {
    if k > 0 {
      assert FailsFirstAt(checks[1..], k - 1);
      FirstFailureAt(checks[1..], k - 1);
    }
  }
}
