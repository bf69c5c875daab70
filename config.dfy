/** Invocation validation of src/config.ts: the required-field check, host
    normalisation and the authentication probe. The WHATWG URL parser is an
    uninterpreted partial function `hostnameOf` from a URL string to its
    hostname. */
module Config {
  import opened Wrappers
  import opened Text
  import opened Client

  const REQUIRED_FIELDS_MESSAGE := "Config requires all of {insightHost, insightClientUsername, insightClientPassword}"

  const INVALID_HOST_MESSAGE := "Invalid InsightVM hostname: "

  /** A string field that is truthy: present and not empty. */
  predicate Provided(v: Option<string>)
  {
    v.Some? && v.value != ""
  }

  class IntegrationConfig {
    var insightHost: Option<string>
    var insightClientUsername: Option<string>
    var insightClientPassword: Option<string>
    var disableTlsVerification: bool

    constructor (host: Option<string>, username: Option<string>, password: Option<string>, disableTls: bool)
      ensures insightHost == host && insightClientUsername == username
      ensures insightClientPassword == password && disableTlsVerification == disableTls
    {
      insightHost, insightClientUsername, insightClientPassword := host, username, password;
      disableTlsVerification := disableTls;
    }

    predicate HasRequiredFields()
      reads this
    {
      Provided(insightHost) && Provided(insightClientUsername) && Provided(insightClientPassword)
    }
  }

  /** The URL handed to the parser: the host itself when it starts with
      "http" (a raw prefix test), otherwise the host behind "https://". */
  function WithScheme(host: string): (url: string)
    ensures StartsWith(url, "http")
    ensures |url| == |host| || |url| == |host| + 8
    ensures url[|url| - |host|..] == host
    ensures StartsWith(host, "http") <==> url == host
  {
    if StartsWith(host, "http") then host
    else
      var url := "https://" + host;
      assert url[..4] == "http";
      url
  }

  /** The prefix test looks at the first four characters only: a bare host
      whose name begins with "http" is handed to the parser without a scheme. */
  lemma BareHttpNamedHostNotPrefixed()
    ensures WithScheme("httpbin.org") == "httpbin.org"
    ensures WithScheme("example.com") == "https://example.com"
  {
    assert "httpbin.org"[..4] == "http";
    assert "example.com"[0] != "http"[0];
  }

  /** validateHost: the parsed hostname, or an error naming the host exactly as
      given (not the prefixed form). */
  function ValidateHost(host: string, hostnameOf: string -> Option<string>): (r: Result<string, string>)
    ensures r.Ok? <==> hostnameOf(WithScheme(host)).Some?
    ensures r.Ok? ==> r.value == hostnameOf(WithScheme(host)).value
    ensures r.Err? ==> r.error == INVALID_HOST_MESSAGE + host
  {
    match hostnameOf(WithScheme(host))
    case Some(hostname) => Ok(hostname)
    case None => Err(INVALID_HOST_MESSAGE + host)
  }

  /** validateInvocation: the required fields are checked first; then the
      host is normalised and written back into the configuration; then the
      client built from that configuration probes the API root, whose failure
      (`probe`) becomes the validation error. */
  method ValidateInvocation(config: IntegrationConfig, hostnameOf: string -> Option<string>, probe: Option<Thrown>)
    returns (r: Result<(), string>)
    modifies config
    ensures config.insightClientUsername == old(config.insightClientUsername)
    ensures config.insightClientPassword == old(config.insightClientPassword)
    ensures config.disableTlsVerification == old(config.disableTlsVerification)
    ensures !old(config.HasRequiredFields()) ==>
              r == Err(REQUIRED_FIELDS_MESSAGE) && config.insightHost == old(config.insightHost)
    ensures old(config.HasRequiredFields()) ==>
              var checked := ValidateHost(old(config.insightHost).value, hostnameOf);
              && (checked.Err? ==> r == Err(checked.error) && config.insightHost == old(config.insightHost))
              && (checked.Ok? ==> config.insightHost == Some(checked.value)
                                  && r == VerifyAuthentication(checked.value, probe))
  {
    if !config.HasRequiredFields() {
      return Err(REQUIRED_FIELDS_MESSAGE);
    }
    var checked := ValidateHost(config.insightHost.value, hostnameOf);
    if checked.Err? {
      return Err(checked.error);
    }
    config.insightHost := Some(checked.value);
    r := VerifyAuthentication(config.insightHost.value, probe);
  }
}
