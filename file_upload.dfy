/** The upload tool: the key a file is stored under, the upload policy, the
    message chosen for a failed upload, and the two messages the tool yields.
    The remote calls are inputs: `Probe` is the answer to the access check and
    `PutReply` the answer to the upload. */
module FileUpload {
  import opened Wrappers
  import opened PyText
  import opened StorageCommon

  // ---------------------------------------------------------------------------
  // The stored key

  /** The directory part of a key: the stripped prefix with a `/` appended
      when it lacks one, or nothing when it strips to the empty string. */
  function Directory(prefix: string): string {
    var p := Strip(prefix, Whitespace);
    if p != "" && !EndsWith(p, "/") then p + "/" else p
  }

  /** `_apply_prefix`. */
  function ApplyPrefix(filename: string, prefix: Option<string>): (key: string)
    ensures EndsWith(key, filename)
    ensures !Filled(prefix) ==> key == filename
  {
    if !Filled(prefix) then filename
    else
      var key := Directory(prefix.value) + filename;
      assert key[|key| - |filename|..] == filename;
      key
  }

  /** The key is the filename under a directory part that is the stripped
      prefix, with a `/` appended exactly when it is non-empty and lacks one. */
  lemma PrefixJoin(filename: string, prefix: string)
    requires prefix != ""
    ensures var key := ApplyPrefix(filename, Some(prefix));
            var dir := key[..|key| - |filename|];
            var p := Strip(prefix, Whitespace);
            && (dir == "" || dir[|dir| - 1] == '/')
            && (dir == "" <==> p == "")
            && (dir != "" ==> dir[0] !in Whitespace)
            && (p == "" || EndsWith(p, "/") ==> dir == p)
            && (p != "" && !EndsWith(p, "/") ==> dir == p + "/")
  {
    var key := ApplyPrefix(filename, Some(prefix));
    var p := Strip(prefix, Whitespace);
    var i, j := StripSpec(prefix, Whitespace);
    assert key == Directory(prefix) + filename;
    assert key[..|key| - |filename|] == Directory(prefix);
    if p != "" {
      assert Directory(prefix)[0] == p[0];
    }
  }

  /** A prefix made only of whitespace leaves the bare filename. */
  lemma BlankPrefixIgnored(filename: string, prefix: string)
    requires forall k :: 0 <= k < |prefix| ==> prefix[k] in Whitespace
    ensures ApplyPrefix(filename, Some(prefix)) == filename
  {
    var i, j := StripSpec(prefix, Whitespace);
  }

  /** A prefix that already ends in `/` is kept as it is once stripped. */
  lemma SlashTerminatedPrefixKept(filename: string, prefix: string)
    requires prefix != "" && prefix[0] !in Whitespace && prefix[|prefix| - 1] == '/'
    ensures ApplyPrefix(filename, Some(prefix)) == prefix + filename
  {
    StripUnchanged(prefix, Whitespace);
  }

  // ---------------------------------------------------------------------------
  // Validation

  const ContentRequired: string := "上传内容不能为空"
  const FilenameRequired: string := "文件名不能为空"
  const BucketRequired: string := "存储空间名称不能为空"

  /** The message of the first required parameter that is missing or empty:
      content, then filename, then bucket. */
  function MissingParameter(content: Option<string>, filename: Option<string>, bucket: Option<string>): (e: Option<string>)
    ensures e.None? <==> Filled(content) && Filled(filename) && Filled(bucket)
    ensures e == Some(ContentRequired) <==> !Filled(content)
    ensures e == Some(FilenameRequired) <==> Filled(content) && !Filled(filename)
    ensures e == Some(BucketRequired) <==> Filled(content) && Filled(filename) && !Filled(bucket)
  {
    assert ContentRequired[0] != FilenameRequired[0] && ContentRequired[0] != BucketRequired[0];
    assert FilenameRequired[0] != BucketRequired[0];
    if !Filled(content) then Some(ContentRequired)
    else if !Filled(filename) then Some(FilenameRequired)
    else if !Filled(bucket) then Some(BucketRequired)
    else None
  }

  // ---------------------------------------------------------------------------
  // The upload

  /** The extra upload policy: present only when overwriting is not allowed. */
  datatype Policy = Policy(scope: string, insertOnly: int)

  function UploadPolicy(bucket: string, key: string, overwrite: bool): (p: Option<Policy>)
    ensures p.Some? <==> !overwrite
    ensures p.Some? ==> p.value.insertOnly == 1
  {
    if overwrite then None else Some(Policy(bucket + ":" + key, 1))
  }

  /** The scope names the bucket and the key, separated by the first `:` after
      the bucket name. */
  lemma PolicyScope(bucket: string, key: string)
    ensures var scope := UploadPolicy(bucket, key, false).value.scope;
            && |scope| == |bucket| + 1 + |key|
            && scope[..|bucket|] == bucket && scope[|bucket|] == ':' && scope[|bucket| + 1..] == key
  {
  }

  const AlreadyExists: string := "文件已存在且未设置覆盖选项"

  /** The message for a reply with a status other than 200. */
  function UploadErrorMessage(status: int, error: Option<string>): (msg: string)
    ensures msg == AlreadyExists <==> status == 614 && Filled(error)
    ensures msg != AlreadyExists ==>
              StartsWith(msg, "上传失败: HTTP " + IntToString(status))
  {
    var base := "上传失败: HTTP " + IntToString(status);
    if Filled(error) then
      if status == 614 then AlreadyExists
      else
        assert (base + " - " + error.value)[0] != AlreadyExists[0];
        assert StartsWith(base + " - " + error.value, base) by {
          assert (base + " - " + error.value)[..|base|] == base;
        }
        base + " - " + error.value
    else
      assert base[0] != AlreadyExists[0];
      assert StartsWith(base, base) by {
        assert base[..|base|] == base;
      }
      base
  }

  /** The error text, when present and the status is not 614, follows the code. */
  lemma ErrorTextReported(status: int, error: Option<string>)
    requires Filled(error) && status != 614
    ensures EndsWith(UploadErrorMessage(status, error), " - " + error.value)
  {
    var base := "上传失败: HTTP " + IntToString(status);
    var tail := " - " + error.value;
    assert UploadErrorMessage(status, error) == base + tail by {
      assert base + " - " + error.value == base + tail;
    }
    assert (base + tail)[|base + tail| - |tail|..] == tail;
  }

  /** What `put_data` produced: an exception, or a status code with the
      reply's `key` and `hash` and the `error` text. */
  datatype PutReply =
    | PutRaised(message: string)
    | PutReplied(status: int, key: Option<string>, hash: Option<string>, error: Option<string>)

  datatype Upload = Uploaded(key: string, hash: string, bucket: string) | UploadFailed(error: string)

  /** `_upload_to_qiniu`: the missing-key error and every exception become a
      failure message; a 200 reply keeps the server's key, defaulting to the
      requested one. */
  function UploadOutcome(creds: Credentials, key: string, bucket: string, reply: PutReply): (r: Upload)
    ensures r.Uploaded? <==> AuthError(creds).None? && reply.PutReplied? && reply.status == 200
    ensures r.Uploaded? ==> r.bucket == bucket && r.key == reply.key.GetOr(key)
    ensures r.Uploaded? && reply.key.None? ==> r.key == key
    ensures (AuthError(creds).Some? || reply.PutRaised?) ==>
              r.UploadFailed? && StartsWith(r.error, "上传过程中发生错误: ")
    ensures AuthError(creds).None? && reply.PutReplied? && reply.status != 200 ==>
              r == UploadFailed(UploadErrorMessage(reply.status, reply.error)) &&
              (r.error == AlreadyExists <==> reply.status == 614 && Filled(reply.error))
  {
    if AuthError(creds).Some? then UploadFailed("上传过程中发生错误: " + AuthError(creds).value)
    else match reply
      case PutRaised(message) => UploadFailed("上传过程中发生错误: " + message)
      case PutReplied(status, serverKey, hash, error) =>
        if status == 200 then Uploaded(serverKey.GetOr(key), hash.GetOr(""), bucket)
        else UploadFailed(UploadErrorMessage(status, error))
  }

  // ---------------------------------------------------------------------------
  // The tool

  /** The tool parameters; `None` for a missing key. */
  datatype UploadParams = UploadParams(content: Option<string>, filename: Option<string>, prefix: Option<string>,
                                       bucket: Option<string>, domain: Option<string>, overwrite: bool)

  /** The JSON message of the tool. */
  datatype UploadJson = UploadJson(fileKey: Option<string>, fileUrl: Option<string>, error: Option<string>)

  /** The text message, followed by the JSON message unless validation stopped
      the tool. */
  datatype UploadReply = UploadReply(text: string, json: Option<UploadJson>)

  /** The upload request the tool sends: the key and the policy of its token. */
  datatype PutRequest = PutRequest(bucket: string, key: string, policy: Option<Policy>)

  /** The request the tool sends once the parameters are valid. */
  function RequestOf(params: UploadParams): PutRequest
    requires MissingParameter(params.content, params.filename, params.bucket).None?
  {
    var key := ApplyPrefix(params.filename.value, params.prefix);
    PutRequest(params.bucket.value, key, UploadPolicy(params.bucket.value, key, params.overwrite))
  }

  /** `_invoke`: check the three required parameters in order, apply the
      prefix, check access, upload, and report. */
  function Invoke(params: UploadParams, creds: Credentials, probe: Probe, reply: PutReply): (r: UploadReply)
    ensures r.json.None? <==> MissingParameter(params.content, params.filename, params.bucket).Some?
    ensures r.json.Some? && r.json.value.fileKey.Some? <==>
              && MissingParameter(params.content, params.filename, params.bucket).None?
              && BucketAccessError(creds, params.bucket.value, probe).None?
              && reply.PutReplied? && reply.status == 200
    ensures r.json.Some? && r.json.value.fileKey.Some? ==>
              r.json.value.fileKey.value == reply.key.GetOr(ApplyPrefix(params.filename.value, params.prefix))
  {
    var missing := MissingParameter(params.content, params.filename, params.bucket);
    if missing.Some? then UploadReply(missing.value, None)
    else
      var req := RequestOf(params);
      var denied := BucketAccessError(creds, req.bucket, probe);
      if denied.Some? then
        UploadReply("认证错误：" + denied.value, Some(UploadJson(None, None, Some("认证错误：" + denied.value))))
      else match UploadOutcome(creds, req.key, req.bucket, reply)
        case Uploaded(key, _, _) =>
          UploadReply("文件上传成功：" + req.key,
                      Some(UploadJson(Some(key), if Filled(params.domain) then Some(AccessUrl(key, params.domain)) else None, None)))
        case UploadFailed(error) =>
          UploadReply("文件上传失败：" + error, Some(UploadJson(None, None, Some(error))))
  }

  /** A missing parameter stops the tool with its own message, whatever the
      credentials or the remote side would have said. */
  lemma ValidationFirst(params: UploadParams, creds: Credentials, probe: Probe, reply: PutReply,
                        creds': Credentials, probe': Probe, reply': PutReply)
    requires MissingParameter(params.content, params.filename, params.bucket).Some?
    ensures Invoke(params, creds, probe, reply) == Invoke(params, creds', probe', reply')
    ensures Invoke(params, creds, probe, reply).json.None?
  {
  }

  /** The JSON message has an error exactly when it has no key; a URL only
      accompanies a key and a configured domain, and it ends with that key. */
  lemma ReplyWellFormed(params: UploadParams, creds: Credentials, probe: Probe, reply: PutReply)
    ensures var r := Invoke(params, creds, probe, reply);
            r.json.Some? ==>
              && (r.json.value.error.Some? <==> r.json.value.fileKey.None?)
              && (r.json.value.fileUrl.Some? <==> r.json.value.fileKey.Some? && Filled(params.domain))
              && (r.json.value.fileUrl.Some? ==> EndsWith(r.json.value.fileUrl.value, "/" + r.json.value.fileKey.value))
  {
  }

  /** A successful upload without a key in the reply reports the prefixed
      filename as the key. */
  lemma DefaultKeyIsPrefixed(params: UploadParams, creds: Credentials, probe: Probe, hash: Option<string>, error: Option<string>)
    requires MissingParameter(params.content, params.filename, params.bucket).None?
    requires AuthError(creds).None? && BucketAccessError(creds, params.bucket.value, probe).None?
    ensures var r := Invoke(params, creds, probe, PutReplied(200, None, hash, error));
            r.json == Some(UploadJson(Some(ApplyPrefix(params.filename.value, params.prefix)),
                                      if Filled(params.domain)
                                      then Some(AccessUrl(ApplyPrefix(params.filename.value, params.prefix), params.domain))
                                      else None,
                                      None))
  {
  }
}
