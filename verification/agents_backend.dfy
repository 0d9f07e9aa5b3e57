/** The backend's agent service (Express side): the file-URL list of an
    agent, the storage path of an uploaded file, the batch upload that
    splits files into successes and failures, agent creation with uploaded
    files, and lookup by id. Supabase (storage, inserts, updates, queries)
    and the third-party notification are oracles: their answers are
    parameters. */
module AgentsBackend {
  import opened Wrappers
  import opened Text

  /** PostgREST's "no rows" code, which a lookup does not treat as an error. */
  const NoRowsCode: string := "PGRST116"

  /** A thrown value: an `Error` carries a message, anything else does not. */
  datatype Thrown = ErrorObject(message: string) | OtherThrown

  /** `error instanceof Error ? error.message : "Unknown error"`. */
  function ErrorMessage(t: Thrown): string {
    match t
    case ErrorObject(m) => m
    case OtherThrown => "Unknown error"
  }

  predicate Distinct(s: seq<string>) {
    forall i, j :: 0 <= i < j < |s| ==> s[i] != s[j]
  }

  // ---------------------------------------------------------------------------
  // updateAgentFileUrls

  /** `Array.from(new Set(urls))`: each URL once, at its first occurrence. */
  function Dedup(urls: seq<string>): (r: seq<string>)
    ensures |r| <= |urls|
  {
    if urls == [] then []
    else
      var r := Dedup(urls[..|urls| - 1]);
      var last := urls[|urls| - 1];
      if last in r then r else r + [last]
  }

  /** The deduplicated list holds the same URLs, each once. */
  lemma {:induction false} DedupShape(urls: seq<string>)
    ensures forall u :: u in Dedup(urls) <==> u in urls
    ensures Distinct(Dedup(urls))
  {
    if urls != [] {
      var init := urls[..|urls| - 1];
      DedupShape(init);
      assert urls == init + [urls[|urls| - 1]];
    }
  }

  /** A list without repeats is its own deduplication. */
  lemma {:induction false} DedupDistinct(urls: seq<string>)
    requires Distinct(urls)
    ensures Dedup(urls) == urls
  {
    if urls != [] {
      var init := urls[..|urls| - 1];
      DedupDistinct(init);
      assert urls[|urls| - 1] !in init by {
        forall i | 0 <= i < |init|
          ensures init[i] != urls[|urls| - 1]
        {
          assert init[i] == urls[i];
        }
      }
      assert init + [urls[|urls| - 1]] == urls;
    }
  }

  /** The `file_urls` that `updateAgentFileUrls` writes: the current list
      plus the new URL, with every repeat removed. The deduplicated current
      list is kept as a prefix and the URL is added at most once. */
  function UpdatedFileUrls(current: seq<string>, url: string): (r: seq<string>)
    ensures Dedup(current) <= r && |r| <= |Dedup(current)| + 1
    ensures url in r && Distinct(r)
    ensures forall u :: u in r <==> u in current || u == url
  {
    assert (current + [url])[..|current|] == current;
    DedupShape(current + [url]);
    Dedup(current + [url])
  }

  /** On a list without repeats the URL is appended exactly when it is
      absent, and the list is otherwise unchanged. */
  lemma AppendIfAbsent(current: seq<string>, url: string)
    requires Distinct(current)
    ensures url in current ==> UpdatedFileUrls(current, url) == current
    ensures url !in current ==> UpdatedFileUrls(current, url) == current + [url]
  {
    DedupDistinct(current);
    assert (current + [url])[..|current|] == current;
  }

  // ---------------------------------------------------------------------------
  // uploadFileToSupabase

  /** `${org_id}/${agent_id}/${file_name}`. */
  function StoragePath(orgId: string, agentId: string, fileName: string): string {
    orgId + "/" + agentId + "/" + fileName
  }

  /** When the ids hold no `/`, the path splits back into the organisation,
      the agent and the file name's own segments. */
  lemma StoragePathSegments(orgId: string, agentId: string, fileName: string)
    requires forall i :: 0 <= i < |orgId| ==> orgId[i] != '/'
    requires forall i :: 0 <= i < |agentId| ==> agentId[i] != '/'
    ensures Split(StoragePath(orgId, agentId, fileName), '/') == [orgId, agentId] + Split(fileName, '/')
  {
    assert StoragePath(orgId, agentId, fileName) == orgId + ['/'] + (agentId + ['/'] + fileName);
    SplitConcat(orgId, agentId + ['/'] + fileName, '/');
    SplitConcat(agentId, fileName, '/');
    SplitNoSep(orgId, '/');
    SplitNoSep(agentId, '/');
  }

  /** `getPublicUrl(path)` of the storage bucket: the bucket's public prefix
      followed by the object's path. */
  function PublicUrl(publicBase: string, path: string): string {
    publicBase + path
  }

  /** An uploaded file (its bytes are not part of this model). */
  datatype UploadFile = UploadFile(originalName: string, mimeType: string)

  /** What Supabase answered for one file: the storage upload's error, and
      the error of the `file_urls` update that follows it. */
  datatype Attempt = Attempt(upload: Option<Thrown>, update: Option<Thrown>)

  /** `uploadFileToSupabase`: the public URL of the file's storage path when
      both the upload and the update succeed, otherwise what was thrown. */
  function UploadOne(agentId: string, orgId: string, file: UploadFile, attempt: Attempt, publicBase: string)
    : (r: Result<string, Thrown>)
    ensures r.Ok? <==> attempt.upload.None? && attempt.update.None?
    ensures r.Ok? ==> r.value == PublicUrl(publicBase, StoragePath(orgId, agentId, file.originalName))
    ensures attempt.upload.Some? ==> r == Err(attempt.upload.value)
  {
    if attempt.upload.Some? then Err(attempt.upload.value)
    else if attempt.update.Some? then Err(attempt.update.value)
    else Ok(PublicUrl(publicBase, StoragePath(orgId, agentId, file.originalName)))
  }

  // ---------------------------------------------------------------------------
  // uploadFilesToSupabase

  datatype Uploaded = Uploaded(fileName: string, publicUrl: string)
  datatype FailedUpload = FailedUpload(fileName: string, error: string)
  datatype UploadResults = UploadResults(successful: seq<Uploaded>, failed: seq<FailedUpload>)

  /** The files among the first `n` that uploaded, in order. */
  function Successful(agentId: string, orgId: string, files: seq<UploadFile>, attempts: seq<Attempt>,
                      publicBase: string, n: nat): seq<Uploaded>
    requires n <= |files| && n <= |attempts|
  {
    if n == 0 then []
    else
      var r := UploadOne(agentId, orgId, files[n - 1], attempts[n - 1], publicBase);
      Successful(agentId, orgId, files, attempts, publicBase, n - 1)
      + (if r.Ok? then [Uploaded(files[n - 1].originalName, r.value)] else [])
  }

  /** The files among the first `n` that failed, in order, with the message. */
  function Failed(agentId: string, orgId: string, files: seq<UploadFile>, attempts: seq<Attempt>,
                  publicBase: string, n: nat): seq<FailedUpload>
    requires n <= |files| && n <= |attempts|
  {
    if n == 0 then []
    else
      var r := UploadOne(agentId, orgId, files[n - 1], attempts[n - 1], publicBase);
      Failed(agentId, orgId, files, attempts, publicBase, n - 1)
      + (if r.Err? then [FailedUpload(files[n - 1].originalName, ErrorMessage(r.error))] else [])
  }

  /** Every file lands in exactly one of the two lists. */
  lemma {:induction false} PartitionComplete(agentId: string, orgId: string, files: seq<UploadFile>, attempts: seq<Attempt>,
                                             publicBase: string, n: nat)
    requires n <= |files| && n <= |attempts|
    ensures |Successful(agentId, orgId, files, attempts, publicBase, n)| + |Failed(agentId, orgId, files, attempts, publicBase, n)| == n
  {
    if n > 0 {
      PartitionComplete(agentId, orgId, files, attempts, publicBase, n - 1);
    }
  }

  /** A file is listed as uploaded exactly when its upload and update both
      succeeded, with the public URL of its storage path. */
  lemma {:induction false} SuccessfulExactly(agentId: string, orgId: string, files: seq<UploadFile>, attempts: seq<Attempt>,
                                             publicBase: string, n: nat, u: Uploaded)
    requires n <= |files| && n <= |attempts|
    ensures u in Successful(agentId, orgId, files, attempts, publicBase, n) <==>
            exists i :: 0 <= i < n && attempts[i].upload.None? && attempts[i].update.None?
                        && u == Uploaded(files[i].originalName, PublicUrl(publicBase, StoragePath(orgId, agentId, files[i].originalName)))
  {
    if n > 0 {
      SuccessfulExactly(agentId, orgId, files, attempts, publicBase, n - 1, u);
      var i := n - 1;
      if u in Successful(agentId, orgId, files, attempts, publicBase, n) && u !in Successful(agentId, orgId, files, attempts, publicBase, n - 1) {
        assert attempts[i].upload.None? && attempts[i].update.None?
               && u == Uploaded(files[i].originalName, PublicUrl(publicBase, StoragePath(orgId, agentId, files[i].originalName)));
      }
    }
  }

  /** The public URLs of the uploaded files. */
  function UrlsOf(uploaded: seq<Uploaded>): (urls: seq<string>)
    ensures |urls| == |uploaded|
  {
    seq(|uploaded|, i requires 0 <= i < |uploaded| => uploaded[i].publicUrl)
  }

  lemma UrlsOfAppend(uploaded: seq<Uploaded>, u: Uploaded)
    ensures UrlsOf(uploaded + [u]) == UrlsOf(uploaded) + [u.publicUrl]
  {
    assert forall j :: 0 <= j < |uploaded| ==> (uploaded + [u])[j] == uploaded[j];
  }

  /** One more file goes to exactly one of the two lists. */
  lemma UploadStep(agentId: string, orgId: string, files: seq<UploadFile>, attempts: seq<Attempt>,
                   publicBase: string, i: nat)
    requires i < |files| && i < |attempts|
    ensures var r := UploadOne(agentId, orgId, files[i], attempts[i], publicBase);
            && Successful(agentId, orgId, files, attempts, publicBase, i + 1)
               == Successful(agentId, orgId, files, attempts, publicBase, i)
                  + (if r.Ok? then [Uploaded(files[i].originalName, r.value)] else [])
            && Failed(agentId, orgId, files, attempts, publicBase, i + 1)
               == Failed(agentId, orgId, files, attempts, publicBase, i)
                  + (if r.Err? then [FailedUpload(files[i].originalName, ErrorMessage(r.error))] else [])
  {
  }

  /** The caller's `currentFileUrls` array, which the batch upload pushes to. */
  class FileUrlList {
    var urls: seq<string>

    constructor(urls: seq<string>)
      ensures this.urls == urls
    {
      this.urls := urls;
    }

    /** `currentFileUrls.push(url)`. */
    method Push(url: string)
      modifies this
      ensures urls == old(urls) + [url]
    {
      urls := urls + [url];
    }
  }

  /** One pass of the batch loop: `uploadFileToSupabase`, which on success
      writes the agent's `file_urls` from the caller's list, then the push of
      the new URL onto that list. */
  method UploadNext(agentId: string, orgId: string, file: UploadFile, attempt: Attempt, publicBase: string,
                    current: FileUrlList)
    returns (outcome: Result<string, Thrown>, written: Option<seq<string>>)
    modifies current
    ensures outcome == UploadOne(agentId, orgId, file, attempt, publicBase)
    ensures outcome.Ok? ==> current.urls == old(current.urls) + [outcome.value] && written == Some(Dedup(current.urls))
    ensures outcome.Err? ==> current.urls == old(current.urls) && written.None?
  {
    outcome := UploadOne(agentId, orgId, file, attempt, publicBase);
    written := None;
    if outcome.Ok? {
      written := Some(UpdatedFileUrls(current.urls, outcome.value));
      current.Push(outcome.value);
    }
  }

  /** `uploadFilesToSupabase`: `attempts[i]` is what Supabase answered for
      `files[i]`. Each file ends up in exactly one list, in input order; the
      caller's list grows by one URL per success; and the `file_urls` last
      written for the agent (if any update ran) are the deduplicated list. */
  method UploadFiles(agentId: string, orgId: string, files: seq<UploadFile>, attempts: seq<Attempt>,
                     publicBase: string, current: FileUrlList)
    returns (results: UploadResults, written: Option<seq<string>>)
    requires |attempts| == |files|
    modifies current
    ensures results.successful == Successful(agentId, orgId, files, attempts, publicBase, |files|)
    ensures results.failed == Failed(agentId, orgId, files, attempts, publicBase, |files|)
    ensures |results.successful| + |results.failed| == |files|
    ensures current.urls == old(current.urls) + UrlsOf(results.successful)
    ensures written.Some? <==> |results.successful| > 0
    ensures written.Some? ==> written.value == Dedup(current.urls)
  {
    results := UploadResults([], []);
    written := None;
    var i := 0;
    while i < |files|
      invariant 0 <= i <= |files|
      invariant results.successful == Successful(agentId, orgId, files, attempts, publicBase, i)
      invariant results.failed == Failed(agentId, orgId, files, attempts, publicBase, i)
      invariant current.urls == old(current.urls) + UrlsOf(results.successful)
      invariant written.Some? <==> |results.successful| > 0
      invariant written.Some? ==> written.value == Dedup(current.urls)
    {
      var file := files[i];
      var outcome, w := UploadNext(agentId, orgId, file, attempts[i], publicBase, current);
      UploadStep(agentId, orgId, files, attempts, publicBase, i);
      match outcome {
        case Ok(url) =>
          UrlsOfAppend(results.successful, Uploaded(file.originalName, url));
          results := UploadResults(results.successful + [Uploaded(file.originalName, url)], results.failed);
          written := w;
        case Err(e) =>
          results := UploadResults(results.successful, results.failed + [FailedUpload(file.originalName, ErrorMessage(e))]);
      }
      i := i + 1;
    }
    assert |results.successful| + |results.failed| == |files| by {
      PartitionComplete(agentId, orgId, files, attempts, publicBase, |files|);
    }
  }

  // ---------------------------------------------------------------------------
  // createAgent / storeAgentInDatabase / getAgentById

  /** The agent a client asks to create. */
  datatype NewAgent = NewAgent(
    name: string, description: string, orgId: string,
    resourceUrls: Option<seq<string>>, fileUrls: Option<seq<string>>)

  /** A row of the `agents` table. */
  datatype AgentRecord = AgentRecord(
    agentId: string, name: string, description: string, orgId: string,
    fileUrls: seq<string>, resourceUrls: Option<seq<string>>, active: bool)

  /** The table's own values for the columns an insert leaves out. */
  datatype ColumnDefaults = ColumnDefaults(fileUrls: seq<string>, resourceUrls: Option<seq<string>>, active: bool)

  /** `storeAgentInDatabase` as written: it inserts only `name`, `org_id`,
      `agent_id` and `description`, so the other columns take the table's
      defaults whatever the caller passed. */
  function InsertedAsWritten(record: AgentRecord, defaults: ColumnDefaults): (row: AgentRecord)
    ensures row.agentId == record.agentId && row.name == record.name
    ensures row.description == record.description && row.orgId == record.orgId
    ensures row.fileUrls == defaults.fileUrls && row.active == defaults.active
  {
    AgentRecord(record.agentId, record.name, record.description, record.orgId,
                defaults.fileUrls, defaults.resourceUrls, defaults.active)
  }

  /** The URLs of files uploaded during creation do not reach the stored row. */
  lemma InsertDropsFileUrls()
    ensures var record := AgentRecord("a1", "Support", "", "o1", ["https://files/o1/a1/faq.pdf"], None, true);
            InsertedAsWritten(record, ColumnDefaults([], None, false)).fileUrls != record.fileUrls
  {
  }

  /** The `file_urls` the created agent is stored with: the uploaded URLs,
      in file order, when files are given, otherwise the client's list. */
  function FinalFileUrls(agentId: string, agent: NewAgent, files: seq<UploadFile>, attempts: seq<Attempt>,
                         publicBase: string): seq<string>
    requires |attempts| == |files|
  {
    if |files| > 0 then UrlsOf(Successful(agentId, agent.orgId, files, attempts, publicBase, |files|))
    else agent.fileUrls.GetOr([])
  }

  /** With files given, the stored list replaces the client's list and has one
      URL per file that did not fail. */
  lemma FinalFileUrlsCount(agentId: string, agent: NewAgent, files: seq<UploadFile>, attempts: seq<Attempt>,
                           publicBase: string)
    requires |attempts| == |files| && |files| > 0
    ensures |FinalFileUrls(agentId, agent, files, attempts, publicBase)|
         == |files| - |Failed(agentId, agent.orgId, files, attempts, publicBase, |files|)|
  {
    PartitionComplete(agentId, agent.orgId, files, attempts, publicBase, |files|);
  }

  /** `createAgent` with the store step writing every column it is given:
      the third party's id, the agent's fields, `active`, and the final
      `file_urls`; a notification or insert failure is rethrown. */
  method CreateAgent(agent: NewAgent, files: seq<UploadFile>, notify: Result<string, Thrown>,
                     attempts: seq<Attempt>, publicBase: string, insert: Option<Thrown>)
    returns (r: Result<AgentRecord, Thrown>)
    requires |attempts| == |files|
    ensures notify.Err? ==> r == Err(notify.error)
    ensures notify.Ok? && insert.Some? ==> r == Err(insert.value)
    ensures notify.Ok? && insert.None? ==>
              r == Ok(AgentRecord(notify.value, agent.name, agent.description, agent.orgId,
                                  FinalFileUrls(notify.value, agent, files, attempts, publicBase), agent.resourceUrls, true))
  {
    if notify.Err? {
      return Err(notify.error);
    }
    var agentId := notify.value;
    var finalFileUrls := agent.fileUrls.GetOr([]);
    if |files| > 0 {
      var list := new FileUrlList(finalFileUrls);
      var results, _ := UploadFiles(agentId, agent.orgId, files, attempts, publicBase, list);
      finalFileUrls := UrlsOf(results.successful);
    }
    if insert.Some? {
      return Err(insert.value);
    }
    r := Ok(AgentRecord(agentId, agent.name, agent.description, agent.orgId, finalFileUrls, agent.resourceUrls, true));
  }

  /** A query error as PostgREST reports it. */
  datatype DbError = DbError(code: string, message: string)

  /** `getAgentById`: the row, or none when no row matched; any other query
      error is rethrown. */
  function GetAgentById(data: Option<AgentRecord>, error: Option<DbError>): (r: Result<Option<AgentRecord>, DbError>)
    ensures r.Err? <==> error.Some? && error.value.code != NoRowsCode
    ensures r.Err? ==> r.error == error.value
    ensures r.Ok? ==> r.value == data
  {
    if error.Some? && error.value.code != NoRowsCode then Err(error.value) else Ok(data)
  }
}
