/**
 * Values both services read from the cluster: label maps, the answers of
 * Kubernetes API calls and KubeVirt VirtualMachineInstances, together with
 * the label keys and the gateway URL scheme the two services share.
 */
module Kube {
  import opened Wrappers

  type Labels = map<string, string>

  const AppKey := "app"
  const AppName := "cyberdesk"
  const InstanceKey := "cyberdesk-instance"
  const ManagedByKey := "managed-by"
  const ManagedBy := "cyberdesk-operator"
  const DomainKey := "kubevirt.io/domain"
  const InUseKey := "pool.kubevirt.io/in-use"
  const WarmKey := "pool.kubevirt.io/warm"

  /** Python truthiness of an optional string: present and not empty. */
  predicate Truthy(s: Option<string>)
  {
    s.Some? && s.value != ""
  }

  /** `labels.get(key) == value` */
  predicate HasLabel(labels: Labels, key: string, value: string)
  {
    key in labels && labels[key] == value
  }

  /** `labels.get(key)` */
  function Get(labels: Labels, key: string): Option<string>
  {
    if key in labels then Some(labels[key]) else None
  }

  /** Answer of a Kubernetes API call whose response body is not used. */
  datatype ApiResult = ApiOk | ApiError(status: int)

  /** One entry of a VirtualMachineInstance's `status.interfaces`. */
  datatype Interface = Interface(ipAddress: Option<string>)

  /** A VirtualMachineInstance as fetched, or the API error of the fetch. */
  datatype VmiLookup =
    | VmiFound(phase: Option<string>, interfaces: seq<Interface>)
    | VmiError(status: int)

  /** `interfaces[0].get('ipAddress') if interfaces else None` */
  function FirstIp(interfaces: seq<Interface>): Option<string>
  {
    if interfaces == [] then None else interfaces[0].ipAddress
  }

  const ReadyPathPrefix := "/cyberdesk/"
  const ReadyPathSuffix := "/ready"

  /** The gateway endpoint the operator POSTs to once an instance is ready. */
  function ReadyUrl(gatewayBase: string, instanceId: string): string
  {
    gatewayBase + ReadyPathPrefix + instanceId + ReadyPathSuffix
  }

  /** The `{vm_id}` segment the gateway's `/cyberdesk/{vm_id}/ready` route reads. */
  function InstanceOfReadyUrl(gatewayBase: string, url: string): string
    requires |gatewayBase| + |ReadyPathPrefix| + |ReadyPathSuffix| <= |url|
  {
    url[|gatewayBase| + |ReadyPathPrefix|..|url| - |ReadyPathSuffix|]
  }

  /** The gateway reads back exactly the instance id the operator put in the URL. */
  lemma ReadyUrlRoundTrip(gatewayBase: string, instanceId: string)
    ensures |gatewayBase| + |ReadyPathPrefix| + |ReadyPathSuffix| <= |ReadyUrl(gatewayBase, instanceId)|
    ensures InstanceOfReadyUrl(gatewayBase, ReadyUrl(gatewayBase, instanceId)) == instanceId
    ensures ReadyUrl(gatewayBase, instanceId)[..|gatewayBase|] == gatewayBase
  {
    var url := ReadyUrl(gatewayBase, instanceId);
    assert url == gatewayBase + (ReadyPathPrefix + instanceId + ReadyPathSuffix);
  }

  /** Decimal rendering of a non-negative integer, as Python's `str(n)`. */
  function DecimalString(n: nat): (s: string)
    ensures |s| > 0
    ensures forall i :: 0 <= i < |s| ==> '0' <= s[i] <= '9'
    ensures |s| > 1 ==> s[0] != '0'
    decreases n
  {
    if n < 10 then [DigitChar(n)] else DecimalString(n / 10) + [DigitChar(n % 10)]
  }

  function DigitChar(d: nat): (c: char)
    requires d < 10
    ensures '0' <= c <= '9' && c as int - '0' as int == d
  {
    (d + '0' as int) as char
  }

  /** Reads back a string of decimal digits. */
  function ParseDecimal(s: string): nat
    requires forall i :: 0 <= i < |s| ==> '0' <= s[i] <= '9'
  {
    if s == [] then 0 else ParseDecimal(s[..|s| - 1]) * 10 + (s[|s| - 1] as int - '0' as int)
  }

  /** Rendering a port number loses nothing: reading it back gives the number. */
  lemma {:induction false} DecimalStringRoundTrip(n: nat)
    ensures ParseDecimal(DecimalString(n)) == n
    decreases n
  {
    var s := DecimalString(n);
    if n >= 10 {
      DecimalStringRoundTrip(n / 10);
      assert s[..|s| - 1] == DecimalString(n / 10);
    }
  }
}
