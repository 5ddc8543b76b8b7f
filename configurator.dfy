/** The device address and the status URL built from it (`showIPDialog` in train_crowd_monitor.js). */
module Configurator {
  import opened Wrappers
  import opened JsText

  /** The address the page starts with, before the user is asked. */
  const DefaultIp: string := "192.168.1.100"

  const UrlScheme: string := "http://"
  const StatusPath: string := "/api/status"

  /** The polling target for a device address: `http://<ip>/api/status`. */
  function StatusUrl(ip: string): (url: string)
    ensures |url| == |UrlScheme| + |ip| + |StatusPath|
    ensures url[..|UrlScheme|] == UrlScheme
    ensures url[|UrlScheme|..|url| - |StatusPath|] == ip
    ensures url[|url| - |StatusPath|..] == StatusPath
  {
    UrlScheme + ip + StatusPath
  }

  /** The device address inside a status URL, if the text is one. */
  function HostOf(url: string): Option<string> {
    if |url| >= |UrlScheme| + |StatusPath| && url[..|UrlScheme|] == UrlScheme && url[|url| - |StatusPath|..] == StatusPath
    then Some(url[|UrlScheme|..|url| - |StatusPath|])
    else None
  }

  /** The URL names its address: reading the address back from it gives the address. */
  lemma HostOfStatusUrl(ip: string)
    ensures HostOf(StatusUrl(ip)) == Some(ip)
  {
    var url := StatusUrl(ip);
    assert url[..|UrlScheme|] == UrlScheme;
    assert url[|url| - |StatusPath|..] == StatusPath;
    assert url[|UrlScheme|..|url| - |StatusPath|] == ip;
  }

  /** Different addresses poll different URLs. */
  lemma StatusUrlInjective(ip1: string, ip2: string)
    ensures StatusUrl(ip1) == StatusUrl(ip2) ==> ip1 == ip2
  {
    HostOfStatusUrl(ip1);
    HostOfStatusUrl(ip2);
  }

  /**
   * The address accepted from the prompt's answer (`ip && ip.trim() !== ''`): none when
   * the prompt was cancelled or the answer trims to nothing, otherwise the trimmed answer.
   */
  function ConfiguredAddress(input: Option<string>): (r: Option<string>)
    ensures r.Some? ==> input.Some? && r.value == Trim(input.value) && r.value != []
  {
    match input
    case None => None
    case Some(ip) => if ip != "" && Trim(ip) != "" then Some(Trim(ip)) else None
  }

  /**
   * An answer is accepted exactly when it holds something other than white space, and
   * the address kept then neither starts nor ends with white space.
   */
  lemma ConfiguredAddressAccepts(input: Option<string>)
    ensures ConfiguredAddress(input).Some? <==> input.Some? && !AllSpace(input.value)
    ensures ConfiguredAddress(input).Some? ==>
      var a := ConfiguredAddress(input).value;
      !IsJsSpace(a[0]) && !IsJsSpace(a[|a| - 1])
  {
    if input.Some? {
      TrimEmptyIffAllSpace(input.value);
    }
  }
}
