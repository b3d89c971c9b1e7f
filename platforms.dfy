/** The settings the client needs for the LTI platform storage (postMessage) protocol. */
module Platforms {

  /**
   * Whether postMessage calls name a target origin.  The LTI platform
   * storage specification requires it; the switch exists for platforms
   * that do not support it.
   */
  const SetPostMessageOrigin: bool := true

  datatype LtiStorageParams = LtiStorageParams(target: string, originSupportBroken: bool, platformOidcUrl: string)

  /** `getLtiStorageParams` */
  function GetLtiStorageParams(platformOidcUrl: string, target: string): (p: LtiStorageParams)
    ensures p.target == target
    ensures p.platformOidcUrl == platformOidcUrl
    ensures p.originSupportBroken == !SetPostMessageOrigin
    // with the switch on, whatever the arguments
    ensures !p.originSupportBroken
  {
    LtiStorageParams(target := target, originSupportBroken := !SetPostMessageOrigin, platformOidcUrl := platformOidcUrl)
  }
}
