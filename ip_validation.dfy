/**
 * `identifyNetwork`, the standalone network labeller, and the state cell of
 * the `useIPValidation` hook that receives the result of `validateClientIP`.
 */
module IpValidation {
  import opened JsText
  import opened Api

  /** `identifyNetwork(ip)`: an ordered chain, the more specific EMI subnet first. */
  function IdentifyNetwork(ip: string): (name: string)
    ensures name != ""
    ensures StartsWith(ip, "10.72.177.") ==> name == "EMI Network"
    ensures StartsWith(ip, "10.72.") && !StartsWith(ip, "10.72.177.") ==> name == "EMI Network (Other Subnet)"
    ensures !StartsWith(ip, "10.72.") && StartsWith(ip, "192.168.56.") ==> name == "VirtualBox Network"
    ensures ip == LoopbackIp ==> name == "Localhost"
    ensures name == "Unknown Network" <==>
      !StartsWith(ip, "10.72.") && !StartsWith(ip, "192.168.56.") && ip != LoopbackIp
  {
    if StartsWith(ip, "10.72.177.") then "EMI Network"
    else if StartsWith(ip, "10.72.") then assert ip[1] == '0'; "EMI Network (Other Subnet)"
    else if StartsWith(ip, "192.168.56.") then assert ip[1] == '9'; "VirtualBox Network"
    else if ip == LoopbackIp then "Localhost"
    else "Unknown Network"
  }

  lemma TenSeventyTwoPrefixes(ip: string)
    ensures StartsWith(ip, "10.72.177.") ==> StartsWith(ip, "10.72.")
    ensures StartsWith(ip, "10.72.") ==> !StartsWith(ip, "192.168.56.") && ip != LoopbackIp
  {
    if StartsWith(ip, "10.72.177.") {
      assert ip[..6] == "10.72.";
    }
    if StartsWith(ip, "10.72.") {
      assert ip[1] == '0';
    }
  }

  /**
   * The two labellers agree everywhere except on the other 10.72 subnets,
   * which `validateClientIP` calls "Unknown Network".
   */
  lemma LabellersAgreeOutsideOtherSubnets(ip: string)
    ensures StartsWith(ip, "10.72.") && !StartsWith(ip, "10.72.177.") ==>
      IdentifyNetwork(ip) == "EMI Network (Other Subnet)" && NetworkLabel(ip) == "Unknown Network"
    ensures !(StartsWith(ip, "10.72.") && !StartsWith(ip, "10.72.177.")) ==>
      IdentifyNetwork(ip) == NetworkLabel(ip)
  {
    TenSeventyTwoPrefixes(ip);
    if StartsWith(ip, "192.168.56.") {
      assert ip[0] == '1' && ip[1] == '9';
      assert ip != LoopbackIp;
    }
  }

  /** The status the hook starts with, before any check. */
  function InitialIpStatus(): (r: NetworkStatus)
    ensures !r.checked && !r.isAllowed && r.error.None? && r.debug == EmptyDebug
  {
    NetworkStatus("checking...", "Detecting...", false, "Checking network authorization...", false, EmptyDebug, None)
  }

  /** The status the hook stores when validation throws. */
  function HookErrorStatus(error: string): (r: NetworkStatus)
    ensures r.checked && !r.isAllowed && r.error == Some(error)
  {
    NetworkStatus("error", "Error", false, "Error checking network authorization", true, NoDebug, Some(error))
  }

  /** `{...result, network: result.network || identifyNetwork(result.ip)}`. */
  function MergeStatus(result: NetworkStatus): (r: NetworkStatus)
    ensures r.ip == result.ip && r.isAllowed == result.isAllowed && r.message == result.message
    ensures r.checked == result.checked && r.debug == result.debug && r.error == result.error
    ensures r.network == (if result.network != "" then result.network else IdentifyNetwork(result.ip))
  {
    result.(network := if result.network != "" then result.network else IdentifyNetwork(result.ip))
  }

  /** Every record `validateClientIP` produces already names a network, so the hook stores it unchanged. */
  lemma MergeKeepsValidatedStatus(ipData: Option<IpData>, hostname: string)
    ensures MergeStatus(ValidateClientIp(ipData, hostname)) == ValidateClientIp(ipData, hostname)
  {
  }

  /** The settled `validateClientIP()` promise as the hook sees it. */
  datatype Validation = Resolved(result: NetworkStatus) | Rejected(error: string)

  /** The `ipStatus` state cell of `useIPValidation`. */
  class IpValidationHook {
    var ipStatus: NetworkStatus

    constructor ()
      ensures ipStatus == InitialIpStatus()
      ensures !ipStatus.checked && !ipStatus.isAllowed
    {
      ipStatus := InitialIpStatus();
    }

    /** The single `setIpStatus` after the check settles. */
    method Settle(outcome: Validation)
      modifies this
      ensures outcome.Resolved? ==> ipStatus == MergeStatus(outcome.result)
      ensures outcome.Rejected? ==> ipStatus == HookErrorStatus(outcome.error)
    {
      match outcome
      case Resolved(result) => ipStatus := MergeStatus(result);
      case Rejected(error) => ipStatus := HookErrorStatus(error);
    }
  }
}
