/** The classification of an Apify run failure shared by both retry queues
    (lib/memory-queue-manager.ts:238-282, lib/db-queue-manager.ts:498-541). */
module ApifyErrors {
  import opened Text

  /** A thrown error as the queues see it: `type`, `message` and `statusCode`, each
      already defaulted ('' / '' / 0) when absent. */
  datatype RunError = RunError(kind: string, message: string, statusCode: int)

  /** What starting an Apify task run gave back: a run id, or a thrown error. */
  datatype RunOutcome = Started(runId: string) | Threw(error: RunError)

  const ResourceKinds: seq<string> := [
    "actor-memory-limit-exceeded",
    "not-enough-usage-to-run-paid-actor",
    "usage-limit-exceeded",
    "concurrent-runs-limit-exceeded",
    "account-usage-limit-exceeded"
  ]

  const LimitPhrases: seq<string> := [
    "memory limit",
    "usage limit",
    "exceed your remaining usage",
    "concurrent runs limit",
    "account limit"
  ]

  /** The scan over the limit phrases, in their order: true at the first phrase found. */
  function MentionsLimit(lowered: string, phrases: seq<string>): (r: bool)
    ensures r <==> exists i :: 0 <= i < |phrases| && Contains(lowered, phrases[i])
  {
    if |phrases| == 0 then false
    else if Contains(lowered, phrases[0]) then true
    else
      var rest := MentionsLimit(lowered, phrases[1..]);
      assert forall i :: 1 <= i < |phrases| ==> phrases[i] == phrases[1..][i - 1];
      rest
  }

  /** Resource shortage: a listed type, a listed phrase in the lower-cased message,
      or HTTP 402. */
  predicate IsResourceLimitError(e: RunError)
  {
    if e.kind in ResourceKinds then true
    else if MentionsLimit(Lower(e.message), LimitPhrases) then true
    else e.statusCode == 402
  }

  /** The classification is exactly the disjunction of its three tests, in any order. */
  lemma ResourceLimitErrorCases(e: RunError)
    ensures IsResourceLimitError(e) <==>
              (e.kind in ResourceKinds
               || (exists i :: 0 <= i < |LimitPhrases| && Contains(Lower(e.message), LimitPhrases[i]))
               || e.statusCode == 402)
  {
  }
}
