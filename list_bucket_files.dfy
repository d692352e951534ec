/** The bucket-listing tool: parameter normalisation, one page of the listing
    turned into file records, and the two messages the tool yields. The
    remote calls are inputs: `Probe` is the answer to the access check and
    `ListCall` the answer to the page request. */
module ListBucketFiles {
  import opened Wrappers
  import opened PyText
  import opened StorageCommon

  const DefaultLimit: int := 100
  const MaxLimit: int := 1000

  // ---------------------------------------------------------------------------
  // Parameters

  /** `max(1, min(limit, 1000))`. */
  function ClampLimit(limit: int): (r: int)
    ensures 1 <= r <= MaxLimit
    ensures 1 <= limit <= MaxLimit <==> r == limit
    ensures limit < 1 ==> r == 1
    ensures limit > MaxLimit ==> r == MaxLimit
  {
    var capped := if limit < MaxLimit then limit else MaxLimit;
    if 1 < capped then capped else 1
  }

  /** Clamping never reorders two limits. */
  lemma ClampMonotone(a: int, b: int)
    requires a <= b
    ensures ClampLimit(a) <= ClampLimit(b)
  {
  }

  /** The optional `prefix` and `marker`: an empty string means no value. A
      missing key reads as the empty string, so it too gives `None`. */
  function EmptyToNone(p: Option<string>): (r: Option<string>)
    ensures r.Some? <==> Filled(p)
    ensures r.Some? ==> r == p
  {
    if p == Some("") then None else p
  }

  // ---------------------------------------------------------------------------
  // One page of the listing

  /** An entry of the `items` array: a dictionary whose keys may be missing
      (`None`), or anything else. */
  datatype RawItem =
    | NotDict
    | Entry(key: Option<string>, fsize: Option<int>, hash: Option<string>, putTime: Option<int>,
            lastModify: Option<int>, mimeType: Option<string>, endUser: Option<string>,
            fileType: Option<int>, status: Option<int>, md5: Option<string>)

  /** The record the tool reports for one file. */
  datatype FileInfo = FileInfo(key: string, size: int, hash: string, putTime: int, lastModify: int,
                               mimeType: string, endUser: string, fileType: int, status: int, md5: string)

  /** The body of a listing reply: missing or empty, not a dictionary, or a
      dictionary with its `items` (default empty) and `marker`. */
  datatype ListBody = NoBody | OtherBody | DictBody(items: seq<RawItem>, marker: Option<string>)

  /** What the page request produced: an exception, or `(ret, eof, info)`. */
  datatype ListCall =
    | ListRaised(message: string)
    | ListReplied(body: ListBody, eof: bool, statusCode: int, error: Option<string>)

  /** `_list_files`: a page, a failure message, or a raised credential error. */
  datatype Listing =
    | Listed(files: seq<FileInfo>, count: int, eof: bool, marker: Option<string>)
    | ListFailed(error: string)
    | ListRejected(message: string)

  /** One dictionary entry with every missing field defaulted. */
  function Describe(item: RawItem): FileInfo
    requires item.Entry?
  {
    FileInfo(item.key.GetOr(""), item.fsize.GetOr(0), item.hash.GetOr(""), item.putTime.GetOr(0),
             item.lastModify.GetOr(item.putTime.GetOr(0)), item.mimeType.GetOr(""),
             item.endUser.GetOr(""), item.fileType.GetOr(0), item.status.GetOr(0), item.md5.GetOr(""))
  }

  /** The file records of a page: the dictionary entries in order, the rest skipped. */
  function Mapped(items: seq<RawItem>): seq<FileInfo> {
    if items == [] then []
    else
      var last := items[|items| - 1];
      Mapped(items[..|items| - 1]) + (if last.Entry? then [Describe(last)] else [])
  }

  function ItemsOf(body: ListBody): seq<RawItem> {
    if body.DictBody? then body.items else []
  }

  function MarkerOf(body: ListBody): Option<string> {
    if body.DictBody? then body.marker else None
  }

  /** The next-page marker: the reply's own, or failing that the key of the
      last file of the page. */
  function NextMarker(marker: Option<string>, files: seq<FileInfo>): Option<string> {
    if marker.None? && files != [] then Some(files[|files| - 1].key) else marker
  }

  /** The outcome `_list_files` reaches for a reply. */
  function ListOutcome(creds: Credentials, bucket: string, call: ListCall): Listing {
    if AuthError(creds).Some? then ListRejected(AuthError(creds).value)
    else match call
      case ListRaised(message) => ListFailed("获取文件列表时发生错误: " + message)
      case ListReplied(body, eof, code, error) =>
        if code == 200 then
          var files := Mapped(ItemsOf(body));
          Listed(files, |files|, eof, NextMarker(MarkerOf(body), files))
        else if code == 401 then ListRejected(AuthFailed)
        else if code == 631 then ListRejected(NoSuchBucket(bucket))
        else ListFailed("获取文件列表失败: HTTP " + IntToString(code) + " - " + Render(error))
  }

  /** `_list_files` with its loop over the entries. */
  method ListFiles(creds: Credentials, bucket: string, call: ListCall) returns (result: Listing)
    ensures result == ListOutcome(creds, bucket, call)
    ensures result.Listed? ==> result.count == |result.files| && |result.files| <= |ItemsOf(call.body)|
  {
    if AuthError(creds).Some? {
      return ListRejected(AuthError(creds).value);
    }
    if call.ListRaised? {
      return ListFailed("获取文件列表时发生错误: " + call.message);
    }
    var code := call.statusCode;
    if code == 200 {
      var files: seq<FileInfo> := [];
      var nextMarker: Option<string> := None;
      var items: seq<RawItem> := [];
      if call.body.DictBody? {
        items := call.body.items;
        nextMarker := call.body.marker;
      }
      for i := 0 to |items|
        invariant files == Mapped(items[..i])
      {
        assert items[..i + 1][..i] == items[..i];
        if items[i].Entry? {
          files := files + [Describe(items[i])];
        }
      }
      assert items[..|items|] == items;
      if nextMarker.None? && |files| > 0 {
        nextMarker := Some(files[|files| - 1].key);
      }
      MappedShrinks(items);
      result := Listed(files, |files|, call.eof, nextMarker);
    } else if code == 401 {
      result := ListRejected(AuthFailed);
    } else if code == 631 {
      result := ListRejected(NoSuchBucket(bucket));
    } else {
      result := ListFailed("获取文件列表失败: HTTP " + IntToString(code) + " - " + Render(call.error));
    }
  }

  // ---------------------------------------------------------------------------
  // Properties of a page

  /** A page never has more records than entries, and has exactly as many when
      every entry is a dictionary. */
  lemma {:induction false} MappedShrinks(items: seq<RawItem>)
    ensures |Mapped(items)| <= |items|
    ensures (forall k :: 0 <= k < |items| ==> items[k].Entry?) ==> |Mapped(items)| == |items|
  {
    if items != [] {
      MappedShrinks(items[..|items| - 1]);
    }
  }

  /** Consecutive runs of entries map to consecutive runs of records. */
  lemma {:induction false} MappedConcat(a: seq<RawItem>, b: seq<RawItem>)
    ensures Mapped(a + b) == Mapped(a) + Mapped(b)
  {
    if b == [] {
      assert a + b == a;
    } else {
      assert (a + b)[..|a + b| - 1] == a + b[..|b| - 1];
      MappedConcat(a, b[..|b| - 1]);
    }
  }

  /** Every record comes from a dictionary entry of the page. */
  lemma {:induction false} MappedFromEntries(items: seq<RawItem>, f: FileInfo)
    requires f in Mapped(items)
    ensures exists k :: 0 <= k < |items| && items[k].Entry? && f == Describe(items[k])
  {
    var init := items[..|items| - 1];
    if f in Mapped(init) {
      MappedFromEntries(init, f);
      var k :| 0 <= k < |init| && init[k].Entry? && f == Describe(init[k]);
      assert items[k] == init[k];
    }
  }

  /** The defaults of a record: size, times, type and status fall back to 0,
      texts to the empty string, and the modification time to the upload time. */
  lemma DescribeDefaults(item: RawItem)
    requires item.Entry?
    ensures item.fsize.None? ==> Describe(item).size == 0
    ensures item.key.None? ==> Describe(item).key == ""
    ensures item.lastModify.Some? ==> Describe(item).lastModify == item.lastModify.value
    ensures item.lastModify.None? ==> Describe(item).lastModify == Describe(item).putTime
    ensures item.lastModify.None? && item.putTime.None? ==> Describe(item).lastModify == 0
  {
  }

  /** Without a `marker` in the reply, the next marker is the key of the last
      dictionary entry of the page. */
  lemma MarkerIsLastEntryKey(items: seq<RawItem>, j: int)
    requires 0 <= j < |items| && items[j].Entry?
    requires forall k :: j < k < |items| ==> items[k].NotDict?
    ensures NextMarker(None, Mapped(items)) == Some(items[j].key.GetOr(""))
  {
    MappedConcat(items[..j + 1], items[j + 1..]);
    assert items == items[..j + 1] + items[j + 1..];
    NoEntriesMapToNothing(items[j + 1..]);
    assert items[..j + 1][..j] == items[..j];
  }

  lemma {:induction false} NoEntriesMapToNothing(items: seq<RawItem>)
    requires forall k :: 0 <= k < |items| ==> items[k].NotDict?
    ensures Mapped(items) == []
  {
    if items != [] {
      NoEntriesMapToNothing(items[..|items| - 1]);
    }
  }

  /** How the status code decides the outcome once the keys are present:
      200 lists, 401 and 631 raise credential errors, and any other code is a
      failure naming the code. */
  lemma ListStatusCases(creds: Credentials, bucket: string, call: ListCall)
    requires AuthError(creds).None? && call.ListReplied?
    ensures call.statusCode == 200 <==> ListOutcome(creds, bucket, call).Listed?
    ensures call.statusCode == 401 ==> ListOutcome(creds, bucket, call) == ListRejected(AuthFailed)
    ensures call.statusCode == 631 ==> ListOutcome(creds, bucket, call) == ListRejected(NoSuchBucket(bucket))
    ensures call.statusCode !in {200, 401, 631} ==>
              ListOutcome(creds, bucket, call).ListFailed? &&
              StartsWith(ListOutcome(creds, bucket, call).error, "获取文件列表失败: HTTP " + IntToString(call.statusCode))
  {
  }

  // ---------------------------------------------------------------------------
  // The tool

  /** The tool parameters; `None` for a missing key. */
  datatype ListParams = ListParams(bucket: Option<string>, prefix: Option<string>, limit: Option<int>,
                                   marker: Option<string>, domain: Option<string>)

  /** The page request the tool sends. */
  datatype ListRequest = ListRequest(bucket: string, prefix: Option<string>, limit: int, marker: Option<string>)

  datatype FileEntry = FileEntry(info: FileInfo, url: Option<string>)

  /** The JSON message of the tool. */
  datatype ListJson = ListJson(files: seq<FileEntry>, count: int, eof: bool, nextMarker: Option<string>,
                               bucket: string, prefix: Option<string>, error: Option<string>)

  /** The text message, followed by the JSON message unless the tool stopped early. */
  datatype ListReply = ListReply(text: string, json: Option<ListJson>)

  const BucketRequired: string := "存储空间名称不能为空"

  /** A record with its access URL, present only when a domain is configured. */
  function Linked(info: FileInfo, domain: Option<string>): FileEntry {
    FileEntry(info, if Filled(domain) then Some(AccessUrl(info.key, domain)) else None)
  }

  function LinkedAll(files: seq<FileInfo>, domain: Option<string>): seq<FileEntry> {
    seq(|files|, k requires 0 <= k < |files| => Linked(files[k], domain))
  }

  /** The request the tool would send for its parameters. */
  function RequestOf(params: ListParams): ListRequest
    requires Filled(params.bucket)
  {
    ListRequest(params.bucket.value, EmptyToNone(params.prefix),
                ClampLimit(params.limit.GetOr(DefaultLimit)), EmptyToNone(params.marker))
  }

  /** The empty page the error paths report. */
  function ErrorJson(bucket: string, prefix: Option<string>, error: string): ListJson {
    ListJson([], 0, true, None, bucket, prefix, Some(error))
  }

  /** What `_invoke` yields. */
  function InvokeReply(params: ListParams, creds: Credentials, probe: Probe, call: ListCall): ListReply {
    if !Filled(params.bucket) then ListReply(BucketRequired, None)
    else
      var req := RequestOf(params);
      var denied := BucketAccessError(creds, req.bucket, probe);
      if denied.Some? then
        ListReply("认证错误：" + denied.value, Some(ErrorJson(req.bucket, req.prefix, "认证错误：" + denied.value)))
      else match ListOutcome(creds, req.bucket, call)
        case Listed(files, count, eof, marker) =>
          ListReply("文件列表获取成功，共 " + IntToString(count) + " 个文件",
                    Some(ListJson(LinkedAll(files, params.domain), count, eof, if eof then None else marker,
                                  req.bucket, req.prefix, None)))
        case ListFailed(error) =>
          ListReply("文件列表获取失败：" + error, Some(ErrorJson(req.bucket, req.prefix, error)))
        case ListRejected(message) =>
          ListReply("认证错误：" + message, Some(ErrorJson(req.bucket, req.prefix, "认证错误：" + message)))
  }

  /** `_invoke`: validate the bucket name, normalise the parameters, check
      access, fetch the page and attach URLs. `request` is the page request
      sent, if the tool got that far. */
  method Invoke(params: ListParams, creds: Credentials, probe: Probe, call: ListCall)
    returns (request: Option<ListRequest>, reply: ListReply)
    ensures reply == InvokeReply(params, creds, probe, call)
    ensures request.Some? <==> Filled(params.bucket) && BucketAccessError(creds, params.bucket.value, probe).None?
    ensures request.Some? ==> request.value == RequestOf(params)
  {
    if !Filled(params.bucket) {
      return None, ListReply(BucketRequired, None);
    }
    var bucket := params.bucket.value;
    var prefix := EmptyToNone(params.prefix);
    var marker := EmptyToNone(params.marker);
    var limit := ClampLimit(params.limit.GetOr(DefaultLimit));
    var denied := BucketAccessError(creds, bucket, probe);
    if denied.Some? {
      var error := "认证错误：" + denied.value;
      return None, ListReply(error, Some(ErrorJson(bucket, prefix, error)));
    }
    request := Some(ListRequest(bucket, prefix, limit, marker));
    var listing := ListFiles(creds, bucket, call);
    match listing {
      case Listed(files, count, eof, next) =>
        var withUrls: seq<FileEntry> := [];
        for i := 0 to |files|
          invariant |withUrls| == i
          invariant forall k :: 0 <= k < i ==> withUrls[k] == Linked(files[k], params.domain)
        {
          var url: Option<string> := None;
          if Filled(params.domain) {
            url := Some(AccessUrl(files[i].key, params.domain));
          }
          withUrls := withUrls + [FileEntry(files[i], url)];
        }
        assert withUrls == LinkedAll(files, params.domain);
        reply := ListReply("文件列表获取成功，共 " + IntToString(count) + " 个文件",
                           Some(ListJson(withUrls, count, eof, if eof then None else next, bucket, prefix, None)));
      case ListFailed(error) =>
        reply := ListReply("文件列表获取失败：" + error, Some(ErrorJson(bucket, prefix, error)));
      case ListRejected(message) =>
        var error := "认证错误：" + message;
        reply := ListReply(error, Some(ErrorJson(bucket, prefix, error)));
    }
  }

  // ---------------------------------------------------------------------------
  // Properties of the tool

  /** Without a bucket name the tool answers with one text message, whatever
      the credentials or the remote side would have said. */
  lemma BucketRequiredFirst(params: ListParams, creds: Credentials, probe: Probe, call: ListCall,
                            creds': Credentials, probe': Probe, call': ListCall)
    requires !Filled(params.bucket)
    ensures InvokeReply(params, creds, probe, call) == InvokeReply(params, creds', probe', call')
    ensures InvokeReply(params, creds, probe, call) == ListReply(BucketRequired, None)
  {
  }

  /** Whatever happens, the JSON message's count is its number of files, the
      next marker is absent on the last page, and every file carries a URL
      exactly when a domain is configured. */
  lemma ReplyWellFormed(params: ListParams, creds: Credentials, probe: Probe, call: ListCall)
    ensures var r := InvokeReply(params, creds, probe, call);
            r.json.Some? ==>
              && r.json.value.count == |r.json.value.files|
              && (r.json.value.eof ==> r.json.value.nextMarker.None?)
              && (r.json.value.error.Some? ==> r.json.value.files == [])
              && forall e :: e in r.json.value.files ==> (e.url.Some? <==> Filled(params.domain))
  {
  }

  /** The page size sent is always between 1 and 1000, and the prefix and
      marker are never empty strings. */
  lemma RequestNormalised(params: ListParams)
    requires Filled(params.bucket)
    ensures 1 <= RequestOf(params).limit <= MaxLimit
    ensures RequestOf(params).prefix != Some("") && RequestOf(params).marker != Some("")
    ensures params.limit.None? ==> RequestOf(params).limit == DefaultLimit
  {
  }
}
