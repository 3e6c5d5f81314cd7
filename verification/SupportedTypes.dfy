/** Policy types known to both plugins and the agent (src/common/types/SupportedTypes.h). */
module SupportedTypes {
  const AGENT_TYPE := "AskUser"

  const ASK_USER := 10
  const ALLOW_ONCE := 11
  const ALLOW_PER_SESSION := 12
  const ALLOW_PER_LIFE := 13
  const DENY_ONCE := 14
  const DENY_PER_SESSION := 15
  const DENY_PER_LIFE := 16

  /** What Cynara's own headers fix: the largest `PolicyType`, and the predefined verdicts. */
  datatype PolicyTypes = PolicyTypes(max: nat, allow: nat, deny: nat) {
    predicate Valid() {
      && DENY_PER_LIFE <= max < 0x7fff_ffff_ffff_ffff
      && allow <= max && deny <= max && allow != deny
      && !(ASK_USER <= allow <= DENY_PER_LIFE)
      && !(ASK_USER <= deny <= DENY_PER_LIFE)
    }
  }

  predicate PerLife(policyType: nat) {
    policyType == ALLOW_PER_LIFE || policyType == DENY_PER_LIFE
  }
}
