/** What the two storage tools share, written identically in both of them:
    the credential check, the bucket-access probe and the access-URL builder. */
module StorageCommon {
  import opened Wrappers
  import opened PyText

  /** The plugin credentials; `None` when the key is missing. */
  datatype Credentials = Credentials(accessKey: Option<string>, secretKey: Option<string>)

  const MissingKeys: string := "七牛云 Access Key 和 Secret Key 不能为空"
  const AuthFailed: string := "七牛云认证失败，请检查 Access Key 和 Secret Key"

  /** `_get_auth`: the credential error it raises, if any. */
  function AuthError(creds: Credentials): (e: Option<string>)
    ensures e.None? <==> Filled(creds.accessKey) && Filled(creds.secretKey)
    ensures e.Some? ==> e.value == MissingKeys
  {
    if !Filled(creds.accessKey) || !Filled(creds.secretKey) then Some(MissingKeys) else None
  }

  /** `存储空间 '<bucket>' 不存在`. */
  function NoSuchBucket(bucket: string): string {
    "存储空间 '" + bucket + "' 不存在"
  }

  /** What one listing request to the bucket produced: an exception, or a
      status code with the `error` text of the response. */
  datatype Probe = ProbeRaised(message: string) | ProbeReplied(status: int, error: Option<string>)

  /** `_validate_bucket_access`: `None` when access is confirmed, otherwise the
      message of the credential-validation error it raises. Missing keys are
      reported before any request; every other failure is wrapped. */
  function BucketAccessError(creds: Credentials, bucket: string, probe: Probe): (e: Option<string>)
    ensures AuthError(creds).Some? ==> e == AuthError(creds)
    ensures e.None? <==> AuthError(creds).None? && probe.ProbeReplied? && probe.status == 200
    ensures AuthError(creds).None? && probe.ProbeReplied? ==>
              (probe.status == 401 <==> e == Some(AuthFailed)) &&
              (probe.status == 631 <==> e == Some(NoSuchBucket(bucket)))
  {
    if AuthError(creds).Some? then AuthError(creds)
    else match probe
      case ProbeRaised(message) => Some("验证存储空间时发生错误: " + message)
      case ProbeReplied(status, error) =>
        assert AuthFailed[0] != NoSuchBucket(bucket)[0];
        if status == 200 then None
        else if status == 401 then Some(AuthFailed)
        else if status == 631 then Some(NoSuchBucket(bucket))
        else Some("验证存储空间失败: " + Render(error))
  }

  /** The two schemes a domain may already carry. */
  predicate HasScheme(d: string) {
    StartsWith(d, "http://") || StartsWith(d, "https://")
  }

  /** The domain as the URL starts: trailing slashes dropped, `https://` added
      when no scheme is given. */
  function UrlBase(domain: string): string {
    var d := StripRight(domain, {'/'});
    if HasScheme(d) then d else "https://" + d
  }

  /** `_generate_access_url`: the key itself without a domain, otherwise the
      key under the normalised domain. */
  function AccessUrl(key: string, domain: Option<string>): (url: string)
    ensures !Filled(domain) ==> url == key
    ensures Filled(domain) ==> HasScheme(url) && EndsWith(url, "/" + key)
  {
    if Filled(domain) then
      var base := UrlBase(domain.value);
      assert StartsWith(base + "/" + key, base[..7]);
      UrlBase(domain.value) + "/" + key
    else key
  }

  /** The URL is the domain without its trailing slashes `d`, given an
      `https://` scheme when it has none, then `/` and the key unchanged. */
  lemma AccessUrlKeepsKey(key: string, domain: Option<string>) returns (d: string)
    requires Filled(domain)
    ensures |d| <= |domain.value| && domain.value[..|d|] == d
    ensures forall k :: |d| <= k < |domain.value| ==> domain.value[k] == '/'
    ensures d == [] || d[|d| - 1] != '/'
    ensures var url := AccessUrl(key, domain);
            url == (if HasScheme(d) then d else "https://" + d) + "/" + key
  {
    d := StripRight(domain.value, {'/'});
    StripRightSpec(domain.value, {'/'});
  }

  /** Trailing slashes on the domain make no difference. */
  lemma TrailingSlashIgnored(key: string, domain: string)
    requires domain != ""
    ensures AccessUrl(key, Some(domain + "/")) == AccessUrl(key, Some(domain))
  {
    assert (domain + "/")[..|domain + "/"| - 1] == domain;
  }

  /** A domain that already has a scheme and no trailing slash is used as it is. */
  lemma DomainWithSchemeKept(key: string, domain: string)
    requires HasScheme(domain) && domain[|domain| - 1] != '/'
    ensures AccessUrl(key, Some(domain)) == domain + "/" + key
  {
  }
}
