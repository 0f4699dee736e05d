/** The remote data cache (worker/handlers/data.py).

    The data service is an oracle: a `Remote` says what each metadata
    request and each file request would answer. Cached files are a set of
    names (`disk`); deleting a missing file is an ignored error, so it is set
    difference. Time is the integer `now`. Locks are not modelled: one `get`
    and one sweep pass are each one sequential step, and the sweep is told
    which entries are locked. A ghost log records every request sent to the
    service. */
module DataCache {
  import opened Results
  import opened Models
  import opened Seqs

  /** `Data.__get_chunk`'s retry budget: failures skipped before one raises. */
  const MaxChunkRetries: nat := 5
  /** `Data.__get_new`'s budget of metadata refreshes on a checksum mismatch. */
  const MaxMetaRefreshes: nat := 4

  /** One answer of the data service to `GET <api>/<source_id>`. */
  datatype MetaResponse = NotOk(status: int) | Answer(meta: MetaData)

  /** One answer to `GET <api>/<source_id>/files/<file>`: the raw bytes
      streamed (before any decompression), or a failure. */
  datatype ChunkOutcome = Fetched(content: seq<byte>) | Unavailable(status: int)

  /** The data service during one `get`: the n-th metadata request of that
      `get` (from 0) answers `meta(n)`, a file request answers `chunk(file)`. */
  datatype Remote = Remote(meta: nat -> MetaResponse, chunk: string -> ChunkOutcome)

  /** A request sent to the data service. */
  datatype Call = MetaCall(sourceId: string) | FileCall(sourceId: string, file: string)

  /** `(files, checksum, time_field)`: what `__get_new` returns and what a
      cache item holds once filled (the three are always assigned together). */
  datatype Fill = Fill(files: seq<string>, checksum: string, timeField: string)

  /** A cache item's state: its fill (`None` before the first successful
      refresh) and its `created` stamp. */
  datatype ItemState = ItemState(fill: Option<Fill>, created: int)

  /** Python's truth value of `cache_item.files`. */
  predicate HasFiles(st: ItemState)
  {
    st.fill.Some? && st.fill.value.files != []
  }

  // ---------------------------------------------------------------- metadata

  /** `Data.get_metadata`'s checks on one response. */
  function CheckMetadata(sourceId: string, resp: MetaResponse): (r: Result<MetaData, DataError>)
    ensures r.Ok? <==> resp.Answer? && resp.meta.checksum != ""
    ensures r.Ok? ==> r.value == resp.meta
    ensures resp.NotOk? ==> r == Err(HttpError(resp.status))
    ensures resp.Answer? && resp.meta.checksum == "" ==> r == Err(NoData(sourceId))
  {
    match resp
    case NotOk(status) => Err(HttpError(status))
    case Answer(meta) => if meta.checksum == "" then Err(NoData(sourceId)) else Ok(meta)
  }

  // ------------------------------------------------------------ file download

  /** How many of `files` the service fails to serve. */
  function CountFailed(files: seq<string>, chunk: string -> ChunkOutcome): nat
  {
    if files == [] then 0
    else (if chunk(files[0]).Unavailable? then 1 else 0) + CountFailed(files[1..], chunk)
  }

  /** The bytes that go into the running checksum: the served files' raw
      content, in manifest order. */
  function Payload(files: seq<string>, chunk: string -> ChunkOutcome): seq<byte>
  {
    if files == [] then []
    else Bytes(chunk(files[0])) + Payload(files[1..], chunk)
  }

  /** The files of `files` that get written to the cache directory. */
  function Written(files: seq<string>, chunk: string -> ChunkOutcome): set<string>
  {
    set f | f in files && chunk(f).Fetched?
  }

  /** One request per file, in order. */
  function FileCalls(sourceId: string, files: seq<string>): (r: seq<Call>)
    ensures |r| == |files|
    ensures forall i :: 0 <= i < |files| ==> r[i] == FileCall(sourceId, files[i])
  {
    seq(|files|, i requires 0 <= i < |files| => FileCall(sourceId, files[i]))
  }

  /** `Data.__get_data` from `files[0]` on, after `retries` failed files were
      already skipped: the error raised (if any) and how many files are
      requested. One counter is shared by all files, and a failed file is
      skipped, never requested again. When it raises and where it stops are
      proved for all inputs in `DownloadRaisesOnSixthFailure` below. */
  function Download(files: seq<string>, chunk: string -> ChunkOutcome, retries: nat): (d: (Option<DataError>, nat))
    ensures d.1 <= |files|
  {
    if files == [] then (None, 0)
    else
      match chunk(files[0])
      case Fetched(_) =>
        var d := Download(files[1..], chunk, retries);
        (d.0, d.1 + 1)
      case Unavailable(status) =>
        if retries >= MaxChunkRetries then (Some(HttpError(status)), 1)
        else
          var d := Download(files[1..], chunk, retries + 1);
          (d.0, d.1 + 1)
  }

  /** The download raises exactly when more than five files fail in all; it
      then stops at the sixth failed file, whose status it raises. Otherwise
      it requests every file. */
  lemma {:induction false} DownloadRaisesOnSixthFailure(files: seq<string>, chunk: string -> ChunkOutcome, retries: nat)
    requires retries <= MaxChunkRetries
    ensures var d := Download(files, chunk, retries);
      && (d.0.None? <==> CountFailed(files, chunk) + retries <= MaxChunkRetries)
      && (d.0.None? ==> d.1 == |files|)
      && (d.0.Some? ==>
            0 < d.1 && chunk(files[d.1 - 1]).Unavailable?
            && d.0.value == HttpError(chunk(files[d.1 - 1]).status)
            && CountFailed(files[..d.1], chunk) + retries == MaxChunkRetries + 1)
  {
    if files != [] {
      assert files[..1] == [files[0]] && files[1..][..0] == [];
      var r' := if chunk(files[0]).Fetched? then retries else retries + 1;
      if r' <= MaxChunkRetries {
        DownloadRaisesOnSixthFailure(files[1..], chunk, r');
        var d := Download(files[1..], chunk, r');
        assert files[..d.1 + 1] == [files[0]] + files[1..][..d.1];
        assert files[..d.1 + 1][1..] == files[1..][..d.1];
      }
    }
  }

  /** The bytes one answer contributes to the checksum. */
  function Bytes(o: ChunkOutcome): seq<byte>
  {
    match o case Fetched(c) => c case Unavailable(_) => []
  }

  /** One more file of a left-to-right download: its bytes and its effect on
      the shared retry counter. */
  lemma {:induction false} DownloadStep(files: seq<string>, chunk: string -> ChunkOutcome, i: nat, retries: nat)
    requires i < |files| && retries <= MaxChunkRetries
    ensures Payload(files[i..], chunk) == Bytes(chunk(files[i])) + Payload(files[i + 1..], chunk)
    ensures chunk(files[i]).Fetched? ==>
              Download(files[i..], chunk, retries)
              == (Download(files[i + 1..], chunk, retries).0, 1 + Download(files[i + 1..], chunk, retries).1)
    ensures chunk(files[i]).Unavailable? && retries < MaxChunkRetries ==>
              Download(files[i..], chunk, retries)
              == (Download(files[i + 1..], chunk, retries + 1).0, 1 + Download(files[i + 1..], chunk, retries + 1).1)
    ensures chunk(files[i]).Unavailable? && retries == MaxChunkRetries ==>
              Download(files[i..], chunk, retries) == (Some(HttpError(chunk(files[i]).status)), 1)
  {
    assert files[i..][0] == files[i] && files[i..][1..] == files[i + 1..];
  }

  /** The requests sent and the files written for the files before `i`. */
  ghost predicate RequestedUpTo(sourceId: string, files: seq<string>, chunk: string -> ChunkOutcome, i: nat,
                                calls0: seq<Call>, disk0: set<string>, calls: seq<Call>, disk: set<string>)
  {
    i <= |files|
    && calls == calls0 + FileCalls(sourceId, files[..i])
    && disk == disk0 + Written(files[..i], chunk)
  }

  lemma RequestedNothing(sourceId: string, files: seq<string>, chunk: string -> ChunkOutcome, calls0: seq<Call>, disk0: set<string>)
    ensures RequestedUpTo(sourceId, files, chunk, 0, calls0, disk0, calls0, disk0)
  {
    assert files[..0] == [];
  }

  /** Requesting file `i` logs one request and writes the file if it is served. */
  lemma RequestedNext(sourceId: string, files: seq<string>, chunk: string -> ChunkOutcome, i: nat,
                      calls0: seq<Call>, disk0: set<string>, calls: seq<Call>, disk: set<string>)
    requires RequestedUpTo(sourceId, files, chunk, i, calls0, disk0, calls, disk) && i < |files|
    ensures RequestedUpTo(sourceId, files, chunk, i + 1, calls0, disk0, calls + [FileCall(sourceId, files[i])],
                          if chunk(files[i]).Fetched? then disk + {files[i]} else disk)
  {
    assert files[..i + 1] == files[..i] + [files[i]];
    assert FileCalls(sourceId, files[..i + 1]) == FileCalls(sourceId, files[..i]) + [FileCall(sourceId, files[i])];
  }

  /** The loop state of `__get_data` after the files before `i`: the rest of
      the download still to come from `files[i..]` with `retries` failures
      already counted, and the bytes hashed so far. */
  ghost predicate DownloadedUpTo(files: seq<string>, chunk: string -> ChunkOutcome, i: nat, retries: nat, payload: seq<byte>)
  {
    i <= |files| && retries <= MaxChunkRetries
    && Download(files, chunk, 0).0 == Download(files[i..], chunk, retries).0
    && Download(files, chunk, 0).1 == i + Download(files[i..], chunk, retries).1
    && payload + Payload(files[i..], chunk) == Payload(files, chunk)
  }

  lemma DownloadedNothing(files: seq<string>, chunk: string -> ChunkOutcome)
    ensures DownloadedUpTo(files, chunk, 0, 0, [])
  {
    assert files[0..] == files;
  }

  /** Serving file `i` adds its bytes to the checksum. */
  lemma DownloadedServed(files: seq<string>, chunk: string -> ChunkOutcome, i: nat, retries: nat, payload: seq<byte>)
    requires DownloadedUpTo(files, chunk, i, retries, payload)
    requires i < |files| && chunk(files[i]).Fetched?
    ensures DownloadedUpTo(files, chunk, i + 1, retries, payload + chunk(files[i]).content)
  {
    DownloadStep(files, chunk, i, retries);
    assert payload + chunk(files[i]).content + Payload(files[i + 1..], chunk)
        == payload + Payload(files[i..], chunk);
  }

  /** A failed file below the retry budget is counted and skipped. */
  lemma DownloadedSkipped(files: seq<string>, chunk: string -> ChunkOutcome, i: nat, retries: nat, payload: seq<byte>)
    requires DownloadedUpTo(files, chunk, i, retries, payload)
    requires i < |files| && chunk(files[i]).Unavailable? && retries < MaxChunkRetries
    ensures DownloadedUpTo(files, chunk, i + 1, retries + 1, payload)
  {
    DownloadStep(files, chunk, i, retries);
  }

  /** A failed file at the retry budget ends the download with its status. */
  lemma DownloadedRaised(files: seq<string>, chunk: string -> ChunkOutcome, i: nat, retries: nat, payload: seq<byte>)
    requires DownloadedUpTo(files, chunk, i, retries, payload)
    requires i < |files| && chunk(files[i]).Unavailable? && retries == MaxChunkRetries
    ensures Download(files, chunk, 0) == (Some(HttpError(chunk(files[i]).status)), i + 1)
  {
    DownloadStep(files, chunk, i, retries);
  }

  /** Past the last file nothing was raised and all bytes were hashed. */
  lemma DownloadedAll(files: seq<string>, chunk: string -> ChunkOutcome, retries: nat, payload: seq<byte>)
    requires DownloadedUpTo(files, chunk, |files|, retries, payload)
    ensures Download(files, chunk, 0) == (None, |files|)
    ensures payload == Payload(files, chunk)
  {
    assert files[|files|..] == [];
    assert payload + [] == payload;
  }

  /** Downloading the whole list reaches its end exactly when no error is raised. */
  lemma DownloadAll(files: seq<string>, chunk: string -> ChunkOutcome)
    requires Download(files, chunk, 0).0.None?
    ensures files[..Download(files, chunk, 0).1] == files
  {
    DownloadRaisesOnSixthFailure(files, chunk, 0);
  }

  // --------------------------------------------------------- full refresh

  /** The checksum-mismatch loop of `__get_new`: with `meta` the metadata in
      hand after `retries` refreshes, either the checksum computed from the
      download matches, or the metadata (only) is requested again, at most
      `MaxMetaRefreshes` times in all. Returns the outcome and how many more
      metadata requests were made. */
  function Confirm(sourceId: string, remote: Remote, base: nat, computed: string, meta: MetaData, retries: nat)
    : (c: (Result<Fill, DataError>, nat))
    requires retries <= MaxMetaRefreshes
    decreases MaxMetaRefreshes - retries
    ensures retries + c.1 <= MaxMetaRefreshes
    ensures c.0.Ok? ==> c.0.value.checksum == computed
  {
    if meta.checksum == computed then (Ok(Fill(meta.files, meta.checksum, meta.timeField)), 0)
    else if retries >= MaxMetaRefreshes then (Err(ChecksumMismatch), 0)
    else
      match CheckMetadata(sourceId, remote.meta(base + retries + 1))
      case Err(e) => (Err(e), 1)
      case Ok(next) =>
        var c := Confirm(sourceId, remote, base, computed, next, retries + 1);
        (c.0, c.1 + 1)
  }

  /** `count` metadata requests. */
  function MetaCalls(sourceId: string, count: nat): (r: seq<Call>)
    ensures |r| == count
    ensures forall i :: 0 <= i < count ==> r[i] == MetaCall(sourceId)
  {
    seq(count, i => MetaCall(sourceId))
  }

  /** What one `__get_new` does: its outcome, the requests it sends and the
      files it writes. */
  datatype Refresh = Refresh(result: Result<Fill, DataError>, calls: seq<Call>, written: set<string>)

  /** `Data.__get_new`, whose first metadata request is request number
      `base` of the current `get`. */
  function NewFetch(sourceId: string, remote: Remote, sha: seq<byte> -> string, base: nat): Refresh
  {
    match CheckMetadata(sourceId, remote.meta(base))
    case Err(e) => Refresh(Err(e), [MetaCall(sourceId)], {})
    case Ok(first) =>
      var t := Retrieval(sourceId, remote, sha, base, first);
      Refresh(t.result, [MetaCall(sourceId)] + t.calls, t.written)
  }

  /** The rest of `__get_new` once the first metadata `first` is in hand:
      the download, then the mismatch loop. */
  function Retrieval(sourceId: string, remote: Remote, sha: seq<byte> -> string, base: nat, first: MetaData): Refresh
  {
    var d := Download(first.files, remote.chunk, 0);
    var fetched := first.files[..d.1];
    match d.0
    case Some(e) => Refresh(Err(e), FileCalls(sourceId, fetched), Written(fetched, remote.chunk))
    case None =>
      var c := Confirm(sourceId, remote, base, sha(Payload(first.files, remote.chunk)), first, 0);
      Refresh(c.0, FileCalls(sourceId, fetched) + MetaCalls(sourceId, c.1), Written(fetched, remote.chunk))
  }

  /** Number of metadata requests in a log. */
  function CountMeta(calls: seq<Call>): nat
  {
    if calls == [] then 0 else (if calls[0].MetaCall? then 1 else 0) + CountMeta(calls[1..])
  }

  lemma {:induction false} CountMetaAppend(a: seq<Call>, b: seq<Call>)
    ensures CountMeta(a + b) == CountMeta(a) + CountMeta(b)
  {
    if a == [] {
      assert a + b == b;
    } else {
      assert (a + b)[0] == a[0] && (a + b)[1..] == a[1..] + b;
      CountMetaAppend(a[1..], b);
    }
  }

  lemma {:induction false} CountMetaOfFileCalls(sourceId: string, files: seq<string>)
    ensures CountMeta(FileCalls(sourceId, files)) == 0
  {
    if files != [] {
      assert FileCalls(sourceId, files)[1..] == FileCalls(sourceId, files[1..]);
      CountMetaOfFileCalls(sourceId, files[1..]);
    }
  }

  lemma {:induction false} CountMetaOfMetaCalls(sourceId: string, count: nat)
    ensures CountMeta(MetaCalls(sourceId, count)) == count
  {
    if count > 0 {
      assert MetaCalls(sourceId, count)[1..] == MetaCalls(sourceId, count - 1);
      CountMetaOfMetaCalls(sourceId, count - 1);
    }
  }

  /** A full refresh sends one metadata request, then requests a prefix of
      the first metadata's manifest, each file once and in manifest order, then
      at most four more metadata requests; so at most five metadata requests. */
  lemma NewFetchRequests(sourceId: string, remote: Remote, sha: seq<byte> -> string, base: nat)
    ensures var r := NewFetch(sourceId, remote, sha, base);
      CountMeta(r.calls) <= 1 + MaxMetaRefreshes
      && (CheckMetadata(sourceId, remote.meta(base)).Err? ==> r.calls == [MetaCall(sourceId)])
      && (CheckMetadata(sourceId, remote.meta(base)).Ok? ==>
          var files := remote.meta(base).meta.files;
          exists n: nat, k: nat :: n <= |files| && k <= MaxMetaRefreshes
            && r.calls == [MetaCall(sourceId)] + FileCalls(sourceId, files[..n]) + MetaCalls(sourceId, k))
  {
    var r := NewFetch(sourceId, remote, sha, base);
    match CheckMetadata(sourceId, remote.meta(base))
    case Err(_) =>
    case Ok(first) =>
      var d := Download(first.files, remote.chunk, 0);
      var fetched := first.files[..d.1];
      var head := [MetaCall(sourceId)] + FileCalls(sourceId, fetched);
      CountMetaOfFileCalls(sourceId, fetched);
      CountMetaAppend([MetaCall(sourceId)], FileCalls(sourceId, fetched));
      var k := 0;
      if d.0.None? {
        k := Confirm(sourceId, remote, base, sha(Payload(first.files, remote.chunk)), first, 0).1;
      } else {
        assert MetaCalls(sourceId, 0) == [];
      }
      assert r.calls == head + MetaCalls(sourceId, k);
      CountMetaAppend(head, MetaCalls(sourceId, k));
      CountMetaOfMetaCalls(sourceId, k);
  }

  /** A refresh that succeeds returns the checksum computed locally over the
      bytes downloaded for the first metadata's manifest. */
  lemma NewFetchChecksum(sourceId: string, remote: Remote, sha: seq<byte> -> string, base: nat)
    requires NewFetch(sourceId, remote, sha, base).result.Ok?
    ensures CheckMetadata(sourceId, remote.meta(base)).Ok?
    ensures NewFetch(sourceId, remote, sha, base).result.value.checksum
         == sha(Payload(remote.meta(base).meta.files, remote.chunk))
  {
  }

  /** On a checksum mismatch the refresh answers with the manifest of the
      last metadata fetched, not the one whose files it downloaded: when the
      second metadata's checksum matches the download of the first one's
      files, the fill names the second manifest while only the first one's
      files were written. */
  lemma RefreshReturnsLastManifest(sourceId: string, remote: Remote, sha: seq<byte> -> string, base: nat,
                                   first: MetaData, second: MetaData)
    requires remote.meta(base) == Answer(first) && remote.meta(base + 1) == Answer(second)
    requires first.checksum != "" && second.checksum != ""
    requires CountFailed(first.files, remote.chunk) <= MaxChunkRetries
    requires first.checksum != sha(Payload(first.files, remote.chunk))
    requires second.checksum == sha(Payload(first.files, remote.chunk))
    ensures NewFetch(sourceId, remote, sha, base).result == Ok(Fill(second.files, second.checksum, second.timeField))
    ensures NewFetch(sourceId, remote, sha, base).written == Written(first.files, remote.chunk)
  {
    DownloadRaisesOnSixthFailure(first.files, remote.chunk, 0);
    assert first.files[..|first.files|] == first.files;
  }

  /** For instance: a first manifest `["a"]` with a stale checksum, then a
      second manifest `["b"]`. The refresh answers `["b"]`, a file it never
      downloaded, and only `a` was written. */
  lemma RefreshAnswersUndownloadedFile()
    ensures var first := MetaData("old", "ts", ["a"], false);
      var second := MetaData("new", "ts", ["b"], false);
      var remote := Remote(n => if n == 0 then Answer(first) else Answer(second), f => Fetched([]));
      var r := NewFetch("s", remote, b => "new", 0);
      r.result.Ok? && r.result.value.files == ["b"] && r.written == {"a"}
  {
    var first := MetaData("old", "ts", ["a"], false);
    var second := MetaData("new", "ts", ["b"], false);
    var remote := Remote(n => if n == 0 then Answer(first) else Answer(second), f => Fetched([]));
    assert CountFailed(["a"], remote.chunk) == 0 by {
      assert ["a"][1..] == [];
    }
    RefreshReturnsLastManifest("s", remote, b => "new", 0, first, second);
    assert Written(["a"], remote.chunk) == {"a"};
  }

  // ------------------------------------------------------------------- get

  /** What one `Data.get` does to a cache item: the answer, the item's new
      state, the requests sent, the files written and the files removed
      (the disk afterwards is `(disk + written) - removed`). */
  datatype Access = Access(result: Result<Fill, DataError>, item: ItemState, calls: seq<Call>,
                           written: set<string>, removed: set<string>)

  /** `Data.get` on an item in state `st` at time `now`. An item with no
      files is refreshed (its `created` is left alone); an item older than
      `maxAge` has its metadata checked and is refreshed only when the
      checksum changed; a younger one is served as it is. */
  function Serve(st: ItemState, now: int, maxAge: int, sourceId: string, remote: Remote, sha: seq<byte> -> string): (a: Access)
    ensures a.result.Ok? ==> a.item.fill == Some(a.result.value)
    ensures a.result.Err? ==> a.item == st && a.removed == {}
  {
    if !HasFiles(st) then
      var n := NewFetch(sourceId, remote, sha, 0);
      var item := if n.result.Ok? then st.(fill := Some(n.result.value)) else st;
      Access(n.result, item, n.calls, n.written, {})
    else if now - st.created > maxAge then
      Recheck(st, now, sourceId, remote, sha)
    else
      Access(Ok(st.fill.value), st, [], {}, {})
  }

  /** The stale branch of `Data.get`: one metadata request, and a refresh
      (the old files then removed) only when the checksum changed; either
      way `created` becomes `now` unless something raised. */
  function Recheck(st: ItemState, now: int, sourceId: string, remote: Remote, sha: seq<byte> -> string): (a: Access)
    requires st.fill.Some?
    ensures a.result.Ok? ==> a.item == ItemState(Some(a.result.value), now)
    ensures a.result.Err? ==> a.item == st && a.removed == {}
  {
    match CheckMetadata(sourceId, remote.meta(0))
    case Err(e) => Access(Err(e), st, [MetaCall(sourceId)], {}, {})
    case Ok(meta) =>
      if meta.checksum != st.fill.value.checksum then
        var n := NewFetch(sourceId, remote, sha, 1);
        var calls := [MetaCall(sourceId)] + n.calls;
        match n.result
        case Err(e) => Access(Err(e), st, calls, n.written, {})
        case Ok(f) => Access(Ok(f), ItemState(Some(f), now), calls, n.written, Elements(st.fill.value.files))
      else
        Access(Ok(st.fill.value), st.(created := now), [MetaCall(sourceId)], {}, {})
  }

  /** An item with files and age at most `maxAge` is served with no request
      and no change. */
  lemma ServeFresh(st: ItemState, now: int, maxAge: int, sourceId: string, remote: Remote, sha: seq<byte> -> string)
    requires HasFiles(st) && now - st.created <= maxAge
    ensures Serve(st, now, maxAge, sourceId, remote, sha) == Access(Ok(st.fill.value), st, [], {}, {})
  {
  }

  /** An item with no files is fully refreshed; if the refresh raises, the
      item is left exactly as it was. */
  lemma ServeUnfilled(st: ItemState, now: int, maxAge: int, sourceId: string, remote: Remote, sha: seq<byte> -> string)
    requires !HasFiles(st)
    ensures var a := Serve(st, now, maxAge, sourceId, remote, sha);
      var n := NewFetch(sourceId, remote, sha, 0);
      a.result == n.result && a.calls == n.calls && a.removed == {}
      && a.item.created == st.created
      && (n.result.Err? ==> a.item == st)
  {
  }

  /** Past `maxAge` with an unchanged metadata checksum, the files and the
      checksum are kept, only `created` is reset, and the one request made is
      for metadata. */
  lemma ServeStaleUnchanged(st: ItemState, now: int, maxAge: int, sourceId: string, remote: Remote, sha: seq<byte> -> string)
    requires HasFiles(st) && now - st.created > maxAge
    requires CheckMetadata(sourceId, remote.meta(0)).Ok?
    requires CheckMetadata(sourceId, remote.meta(0)).value.checksum == st.fill.value.checksum
    ensures Serve(st, now, maxAge, sourceId, remote, sha)
         == Access(Ok(st.fill.value), ItemState(st.fill, now), [MetaCall(sourceId)], {}, {})
  {
  }

  /** Past `maxAge` with a changed checksum, a successful refresh replaces
      the fill, resets `created`, and then removes every old file name,
      including one that the new manifest uses again: such a file is served
      but no longer on disk. */
  lemma ServeStaleChanged(st: ItemState, now: int, maxAge: int, sourceId: string, remote: Remote,
                          sha: seq<byte> -> string, disk: set<string>, reused: string)
    requires HasFiles(st) && now - st.created > maxAge
    requires CheckMetadata(sourceId, remote.meta(0)).Ok?
    requires remote.meta(0).meta.checksum != st.fill.value.checksum
    requires NewFetch(sourceId, remote, sha, 1).result.Ok?
    ensures var a := Serve(st, now, maxAge, sourceId, remote, sha);
      var f := NewFetch(sourceId, remote, sha, 1).result.value;
      a.result == Ok(f) && a.item == ItemState(Some(f), now)
      && a.removed == Elements(st.fill.value.files)
      && (reused in st.fill.value.files && reused in f.files ==> reused !in (disk + a.written) - a.removed)
  {
  }

  /** A `get` that raises leaves the item's files, checksum, time field and
      `created` untouched and removes no file. */
  lemma ServeErrorKeepsItem(st: ItemState, now: int, maxAge: int, sourceId: string, remote: Remote, sha: seq<byte> -> string)
    requires Serve(st, now, maxAge, sourceId, remote, sha).result.Err?
    ensures Serve(st, now, maxAge, sourceId, remote, sha).item == st
    ensures Serve(st, now, maxAge, sourceId, remote, sha).removed == {}
  {
  }

  /** Whatever branch `get` takes, it asks for metadata at most six times
      (one check and a full refresh). */
  lemma ServeRequests(st: ItemState, now: int, maxAge: int, sourceId: string, remote: Remote, sha: seq<byte> -> string)
    ensures CountMeta(Serve(st, now, maxAge, sourceId, remote, sha).calls) <= 2 + MaxMetaRefreshes
  {
    NewFetchRequests(sourceId, remote, sha, 0);
    NewFetchRequests(sourceId, remote, sha, 1);
    var n := NewFetch(sourceId, remote, sha, 1);
    CountMetaAppend([MetaCall(sourceId)], n.calls);
  }

  // ------------------------------------------------------------------ sweep

  /** One pass of `Data.run` selects, in dict order, the entries that are not
      locked and older than `maxAge`. */
  function StaleKeys(order: seq<string>, view: map<string, ItemState>, locked: set<string>, now: int, maxAge: int)
    : (r: seq<string>)
    requires forall k :: k in order ==> k in view
    ensures forall k :: k in r <==> k in order && k !in locked && now - view[k].created > maxAge
    ensures Distinct(order) ==> Distinct(r)
  {
    if order == [] then []
    else
      var init := order[..|order| - 1];
      var last := order[|order| - 1];
      assert order == init + [last];
      var r := StaleKeys(init, view, locked, now, maxAge);
      if last !in locked && now - view[last].created > maxAge then r + [last] else r
  }

  /** How many leading entries of `keys` have a fill: the deletion loop
      raises `TypeError` at the first whose `files` is `None`. */
  function FilledPrefix(keys: seq<string>, view: map<string, ItemState>): (n: nat)
    requires forall k :: k in keys ==> k in view
    ensures n <= |keys|
    ensures forall i :: 0 <= i < n ==> view[keys[i]].fill.Some?
    ensures n < |keys| ==> view[keys[n]].fill.None?
  {
    if keys == [] || view[keys[0]].fill.None? then 0
    else 1 + FilledPrefix(keys[1..], view)
  }

  /** The entries one sweep pass evicts. */
  function Evicted(order: seq<string>, view: map<string, ItemState>, locked: set<string>, now: int, maxAge: int)
    : (r: seq<string>)
    requires forall k :: k in order ==> k in view
    ensures forall k :: k in r ==>
              k in order && k !in locked && now - view[k].created > maxAge && view[k].fill.Some?
  {
    var stale := StaleKeys(order, view, locked, now, maxAge);
    stale[..FilledPrefix(stale, view)]
  }

  /** All the file names of the fills of `keys`. */
  function FilesOf(keys: seq<string>, view: map<string, ItemState>): set<string>
    requires forall k :: k in keys ==> k in view
  {
    if keys == [] then {}
    else
      var last := keys[|keys| - 1];
      FilesOf(keys[..|keys| - 1], view)
        + (if view[last].fill.Some? then Elements(view[last].fill.value.files) else {})
  }

  /** When every stale entry has been filled, a sweep pass evicts exactly the
      entries that are unlocked and older than `maxAge`. */
  lemma EvictsExactlyStale(order: seq<string>, view: map<string, ItemState>, locked: set<string>, now: int, maxAge: int)
    requires forall k :: k in order ==> k in view
    requires forall k :: k in order && k !in locked && now - view[k].created > maxAge ==> view[k].fill.Some?
    ensures forall k ::
              k in Evicted(order, view, locked, now, maxAge)
              <==> k in order && k !in locked && now - view[k].created > maxAge
  {
    var stale := StaleKeys(order, view, locked, now, maxAge);
    FilledPrefixAll(stale, view);
    assert stale[..|stale|] == stale;
  }

  lemma {:induction false} FilledPrefixAll(keys: seq<string>, view: map<string, ItemState>)
    requires forall k :: k in keys ==> k in view && view[k].fill.Some?
    ensures FilledPrefix(keys, view) == |keys|
  {
    if keys != [] {
      FilledPrefixAll(keys[1..], view);
    }
  }

  /** An unlocked stale entry that was never filled (its first refresh
      raised) stops the pass: it and every stale entry after it in dict order
      stay cached. */
  lemma UnfilledStaleBlocksLater(order: seq<string>, view: map<string, ItemState>, locked: set<string>,
                                 now: int, maxAge: int, i: nat, j: nat)
    requires forall k :: k in order ==> k in view
    requires Distinct(order)
    requires var stale := StaleKeys(order, view, locked, now, maxAge);
      i <= j < |stale| && view[stale[i]].fill.None?
    ensures StaleKeys(order, view, locked, now, maxAge)[j] !in Evicted(order, view, locked, now, maxAge)
  {
    var stale := StaleKeys(order, view, locked, now, maxAge);
    var n := FilledPrefix(stale, view);
    assert n <= i;
    forall p | 0 <= p < n
      ensures stale[..n][p] != stale[j]
    {
      assert p < j;
    }
  }

  // ------------------------------------------------ loop states of the methods

  /** The loop state of `__get_new`'s mismatch loop: `meta` is the metadata in
      hand after `retries` refreshes, and the refreshes still to come finish
      what `Confirm` says for the whole loop. */
  ghost predicate ConfirmingFrom(sourceId: string, remote: Remote, base: nat, computed: string,
                                 first: MetaData, meta: MetaData, retries: nat)
  {
    retries <= MaxMetaRefreshes
    && Confirm(sourceId, remote, base, computed, first, 0)
       == (Confirm(sourceId, remote, base, computed, meta, retries).0,
           retries + Confirm(sourceId, remote, base, computed, meta, retries).1)
  }

  lemma ConfirmingStart(sourceId: string, remote: Remote, base: nat, computed: string, first: MetaData)
    ensures ConfirmingFrom(sourceId, remote, base, computed, first, first, 0)
  {
  }

  /** A refresh whose metadata is valid moves the loop on by one. */
  lemma ConfirmingNext(sourceId: string, remote: Remote, base: nat, computed: string,
                       first: MetaData, meta: MetaData, retries: nat)
    requires ConfirmingFrom(sourceId, remote, base, computed, first, meta, retries)
    requires meta.checksum != computed && retries < MaxMetaRefreshes
    requires CheckMetadata(sourceId, remote.meta(base + retries + 1)).Ok?
    ensures ConfirmingFrom(sourceId, remote, base, computed, first,
                           CheckMetadata(sourceId, remote.meta(base + retries + 1)).value, retries + 1)
  {
  }

  /** A refresh that raises ends the loop with its error. */
  lemma ConfirmingRaised(sourceId: string, remote: Remote, base: nat, computed: string,
                         first: MetaData, meta: MetaData, retries: nat)
    requires ConfirmingFrom(sourceId, remote, base, computed, first, meta, retries)
    requires meta.checksum != computed && retries < MaxMetaRefreshes
    requires CheckMetadata(sourceId, remote.meta(base + retries + 1)).Err?
    ensures Confirm(sourceId, remote, base, computed, first, 0)
         == (Err(CheckMetadata(sourceId, remote.meta(base + retries + 1)).error), retries + 1)
  {
  }

  /** After the fourth refresh a mismatch raises. */
  lemma ConfirmingExhausted(sourceId: string, remote: Remote, base: nat, computed: string,
                            first: MetaData, meta: MetaData, retries: nat)
    requires ConfirmingFrom(sourceId, remote, base, computed, first, meta, retries)
    requires meta.checksum != computed && retries == MaxMetaRefreshes
    ensures Confirm(sourceId, remote, base, computed, first, 0) == (Err(ChecksumMismatch), retries)
  {
  }

  /** A match ends the loop with the metadata in hand. */
  lemma ConfirmingMatched(sourceId: string, remote: Remote, base: nat, computed: string,
                          first: MetaData, meta: MetaData, retries: nat)
    requires ConfirmingFrom(sourceId, remote, base, computed, first, meta, retries)
    requires meta.checksum == computed
    ensures Confirm(sourceId, remote, base, computed, first, 0)
         == (Ok(Fill(meta.files, meta.checksum, meta.timeField)), retries)
  {
  }

  lemma MetaCallsNext(sourceId: string, count: nat)
    ensures MetaCalls(sourceId, count) + [MetaCall(sourceId)] == MetaCalls(sourceId, count + 1)
  {
  }

  /** The shape of `Data`'s dict as values: `order` lists the keys once each,
      and no item is shared by two keys. */
  ghost predicate Consistent(cache: map<string, CacheItem>, order: seq<string>)
  {
    (forall k :: k in order <==> k in cache)
    && Distinct(order)
    && (forall k1, k2 :: k1 in cache && k2 in cache && k1 != k2 ==> cache[k1] != cache[k2])
  }

  /** Deleting keys keeps the dict consistent. */
  lemma ConsistentWithout(cache: map<string, CacheItem>, order: seq<string>, gone: set<string>)
    requires Consistent(cache, order)
    ensures Consistent(cache - gone, Without(order, gone))
  {
  }

  /** The loop state of the deletion loop of `Data.run`: the first `j`
      selected entries are gone with their files. */
  ghost predicate EvictedUpTo(stale: seq<string>, view: map<string, ItemState>, j: nat,
                              cache0: map<string, CacheItem>, order0: seq<string>, disk0: set<string>,
                              cache: map<string, CacheItem>, order: seq<string>, disk: set<string>)
    requires forall k :: k in stale ==> k in view
  {
    j <= |stale|
    && cache == cache0 - Elements(stale[..j])
    && order == Without(order0, Elements(stale[..j]))
    && disk == disk0 - FilesOf(stale[..j], view)
  }

  lemma EvictedNothing(stale: seq<string>, view: map<string, ItemState>,
                       cache0: map<string, CacheItem>, order0: seq<string>, disk0: set<string>)
    requires forall k :: k in stale ==> k in view
    ensures EvictedUpTo(stale, view, 0, cache0, order0, disk0, cache0, order0, disk0)
  {
    assert stale[..0] == [];
    assert Elements([]) == {} && FilesOf([], view) == {};
    assert cache0 - {} == cache0 && disk0 - {} == disk0;
    WithoutNothing(order0);
  }

  /** Evicting entry `j` drops its key and its files. */
  lemma EvictedNext(stale: seq<string>, view: map<string, ItemState>, j: nat,
                    cache0: map<string, CacheItem>, order0: seq<string>, disk0: set<string>,
                    cache: map<string, CacheItem>, order: seq<string>, disk: set<string>)
    requires forall k :: k in stale ==> k in view
    requires EvictedUpTo(stale, view, j, cache0, order0, disk0, cache, order, disk)
    requires j < |stale| && view[stale[j]].fill.Some?
    ensures EvictedUpTo(stale, view, j + 1, cache0, order0, disk0, cache - {stale[j]},
                        Without(order, {stale[j]}), disk - Elements(view[stale[j]].fill.value.files))
  {
    assert stale[..j + 1] == stale[..j] + [stale[j]];
    assert stale[..j + 1][..j] == stale[..j];
    assert Elements(stale[..j + 1]) == Elements(stale[..j]) + {stale[j]};
    WithoutWithout(order0, Elements(stale[..j]), {stale[j]});
  }

  /** The pass has evicted exactly `stale[..j]` once it reaches the end of
      the selection or an entry with no file list. */
  lemma EvictedStopsAt(order: seq<string>, view: map<string, ItemState>, locked: set<string>, now: int, maxAge: int, j: nat)
    requires forall k :: k in order ==> k in view
    requires var stale := StaleKeys(order, view, locked, now, maxAge);
      j <= FilledPrefix(stale, view) && (j == |stale| || (j < |stale| && view[stale[j]].fill.None?))
    ensures var stale := StaleKeys(order, view, locked, now, maxAge);
      j <= |stale| && Evicted(order, view, locked, now, maxAge) == stale[..j]
  {
  }

  /** The loop state of a sweep pass over the dict `order0`/`cache0` with
      item states `view`: `stale` is the selection, and the first `j`
      selected entries, all filled, are gone with their files. */
  ghost predicate Sweeping(order0: seq<string>, view: map<string, ItemState>, locked: set<string>, now: int, maxAge: int,
                           stale: seq<string>, j: nat, cache0: map<string, CacheItem>, disk0: set<string>,
                           cache: map<string, CacheItem>, order: seq<string>, disk: set<string>)
  {
    SweepSetup(order0, view, locked, now, maxAge, stale, cache0)
    && j <= FilledPrefix(stale, view)
    && EvictedUpTo(stale, view, j, cache0, order0, disk0, cache, order, disk)
  }

  /** What holds for the whole pass: the dict and its order at the start,
      the view of the items, and the selected entries. */
  ghost predicate SweepSetup(order0: seq<string>, view: map<string, ItemState>, locked: set<string>, now: int,
                             maxAge: int, stale: seq<string>, cache0: map<string, CacheItem>)
  {
    (forall k :: k in order0 <==> k in cache0)
    && Distinct(order0)
    && (forall k :: k in order0 ==> k in view)
    && stale == StaleKeys(order0, view, locked, now, maxAge)
  }

  lemma SweepingStart(order0: seq<string>, view: map<string, ItemState>, locked: set<string>, now: int, maxAge: int,
                      cache0: map<string, CacheItem>, disk0: set<string>)
    requires Consistent(cache0, order0) && view.Keys == cache0.Keys
    ensures Sweeping(order0, view, locked, now, maxAge, StaleKeys(order0, view, locked, now, maxAge), 0,
                     cache0, disk0, cache0, order0, disk0)
  {
    EvictedNothing(StaleKeys(order0, view, locked, now, maxAge), view, cache0, order0, disk0);
  }

  /** Evicting the filled entry `j` moves the pass on by one. */
  lemma SweepingNext(order0: seq<string>, view: map<string, ItemState>, locked: set<string>, now: int, maxAge: int,
                     stale: seq<string>, j: nat, cache0: map<string, CacheItem>, disk0: set<string>,
                     cache: map<string, CacheItem>, order: seq<string>, disk: set<string>)
    requires Sweeping(order0, view, locked, now, maxAge, stale, j, cache0, disk0, cache, order, disk)
    requires j < |stale| && view[stale[j]].fill.Some?
    ensures Sweeping(order0, view, locked, now, maxAge, stale, j + 1, cache0, disk0, cache - {stale[j]},
                     Without(order, {stale[j]}), disk - Elements(view[stale[j]].fill.value.files))
  {
    EvictedNext(stale, view, j, cache0, order0, disk0, cache, order, disk);
  }

  /** The entry the pass is at is still cached, as it was. */
  lemma SweepingAt(order0: seq<string>, view: map<string, ItemState>, locked: set<string>, now: int, maxAge: int,
                   stale: seq<string>, j: nat, cache0: map<string, CacheItem>, disk0: set<string>,
                   cache: map<string, CacheItem>, order: seq<string>, disk: set<string>)
    requires Sweeping(order0, view, locked, now, maxAge, stale, j, cache0, disk0, cache, order, disk)
    requires j < |stale|
    ensures stale[j] in cache && stale[j] in cache0 && stale[j] in view && cache[stale[j]] == cache0[stale[j]]
  {
    NotYetEvicted(stale, j);
  }

  /** Where the deletion loop stops, the state it reached is the one the
      pass promises. */
  lemma SweepingDone(order0: seq<string>, view: map<string, ItemState>, locked: set<string>, now: int, maxAge: int,
                     stale: seq<string>, j: nat, cache0: map<string, CacheItem>, disk0: set<string>,
                     cache: map<string, CacheItem>, order: seq<string>, disk: set<string>)
    requires Sweeping(order0, view, locked, now, maxAge, stale, j, cache0, disk0, cache, order, disk)
    requires j == |stale| || (j < |stale| && view[stale[j]].fill.None?)
    ensures var gone := Evicted(order0, view, locked, now, maxAge);
      && cache == cache0 - Elements(gone)
      && order == Without(order0, Elements(gone))
      && disk == disk0 - FilesOf(gone, view)
  {
    EvictedStopsAt(order0, view, locked, now, maxAge, j);
  }

  /** An entry selected but not yet reached is still cached. */
  lemma NotYetEvicted(stale: seq<string>, j: nat)
    requires Distinct(stale) && j < |stale|
    ensures stale[j] !in Elements(stale[..j])
  {
    forall p | 0 <= p < j
      ensures stale[..j][p] != stale[j]
    {
    }
  }

  // ---------------------------------------------------------- the objects

  /** `CacheItem`: one cached source. Its lock is not modelled. */
  class CacheItem {
    var fill: Option<Fill>
    var created: int

    /** A new item has no files and is stamped with the current time. */
    constructor (now: int)
      ensures fill == None && created == now
    {
      fill := None;
      created := now;
    }

    function State(): ItemState
      reads this
    {
      ItemState(fill, created)
    }
  }

  /** `Data`: the cache of downloaded sources, in dict insertion order, and
      the names of the files in the storage directory. */
  class Data {
    const maxAge: int
    var cache: map<string, CacheItem>
    var order: seq<string>
    var disk: set<string>
    ghost var calls: seq<Call>

    /** The dict's keys in insertion order, each once; no shared items. */
    ghost predicate Valid()
      reads this
    {
      Consistent(cache, order)
    }

    /** The state of every cached item. */
    function View(): map<string, ItemState>
      reads this, cache.Values
    {
      map k | k in cache :: cache[k].State()
    }

    /** The item `get(sourceId)` works on at time `now`: the cached one, or a
        new one. */
    function ItemAt(sourceId: string, now: int): ItemState
      reads this, cache.Values
    {
      if sourceId in cache then cache[sourceId].State() else ItemState(None, now)
    }

    /** An empty cache over a storage directory holding `stored`. */
    constructor (maxAge: int, stored: set<string>)
      ensures Valid()
      ensures this.maxAge == maxAge && cache == map[] && order == [] && disk == stored && calls == []
    {
      this.maxAge := maxAge;
      cache := map[];
      order := [];
      disk := stored;
      calls := [];
    }

    /** `Data.get_metadata`, as metadata request number `n` of this `get`. */
    method GetMetadata(sourceId: string, remote: Remote, n: nat) returns (r: Result<MetaData, DataError>)
      modifies this`calls
      ensures r == CheckMetadata(sourceId, remote.meta(n))
      ensures calls == old(calls) + [MetaCall(sourceId)]
    {
      calls := calls + [MetaCall(sourceId)];
      match remote.meta(n)
      case NotOk(status) =>
        r := Err(HttpError(status));
      case Answer(meta) =>
        if meta.checksum == "" {
          r := Err(NoData(sourceId));
        } else {
          r := Ok(meta);
        }
    }

    /** `Data.__get_chunk`: requests one file; a file that is served is
        written to the storage directory. */
    method GetChunk(sourceId: string, file: string, remote: Remote) returns (o: ChunkOutcome)
      modifies this`disk, this`calls
      ensures o == remote.chunk(file)
      ensures calls == old(calls) + [FileCall(sourceId, file)]
      ensures disk == if o.Fetched? then old(disk) + {file} else old(disk)
    {
      calls := calls + [FileCall(sourceId, file)];
      o := remote.chunk(file);
      if o.Fetched? {
        disk := disk + {file};
      }
    }

    /** `Data.__get_data`: requests the files in order and feeds the bytes
        of each one served to the running checksum; a failed file is skipped
        until the sixth failure, which raises. */
    method GetData(sourceId: string, files: seq<string>, remote: Remote, sha: seq<byte> -> string)
      returns (r: Result<string, DataError>)
      modifies this`disk, this`calls
      ensures var d := Download(files, remote.chunk, 0);
        && (d.0.Some? ==> r == Err(d.0.value))
        && (d.0.None? ==> r == Ok(sha(Payload(files, remote.chunk))))
        && calls == old(calls) + FileCalls(sourceId, files[..d.1])
        && disk == old(disk) + Written(files[..d.1], remote.chunk)
    {
      var payload: seq<byte> := [];
      var retries: nat := 0;
      var i := 0;
      DownloadedNothing(files, remote.chunk);
      RequestedNothing(sourceId, files, remote.chunk, calls, disk);
      while i < |files|
        invariant DownloadedUpTo(files, remote.chunk, i, retries, payload)
        invariant RequestedUpTo(sourceId, files, remote.chunk, i, old(calls), old(disk), calls, disk)
      {
        RequestedNext(sourceId, files, remote.chunk, i, old(calls), old(disk), calls, disk);
        var o := GetChunk(sourceId, files[i], remote);
        if o.Unavailable? {
          if retries >= MaxChunkRetries {
            DownloadedRaised(files, remote.chunk, i, retries, payload);
            return Err(HttpError(o.status));
          }
          DownloadedSkipped(files, remote.chunk, i, retries, payload);
          retries := retries + 1;
        } else {
          DownloadedServed(files, remote.chunk, i, retries, payload);
          payload := payload + o.content;
        }
        i := i + 1;
      }
      DownloadedAll(files, remote.chunk, retries, payload);
      assert files[..|files|] == files;
      r := Ok(sha(payload));
    }

    /** `Data.__get_new`: metadata, download, then up to four metadata
        refreshes while the checksums differ; the first metadata request is
        number `base` of this `get`. */
    method GetNew(sourceId: string, remote: Remote, sha: seq<byte> -> string, base: nat)
      returns (r: Result<Fill, DataError>)
      modifies this`disk, this`calls
      ensures var n := NewFetch(sourceId, remote, sha, base);
        r == n.result && calls == old(calls) + n.calls && disk == old(disk) + n.written
    {
      var m := GetMetadata(sourceId, remote, base);
      if m.Err? {
        return Err(m.error);
      }
      r := Retrieve(sourceId, remote, sha, base, m.value);
    }

    /** The rest of `__get_new`: the download, then the mismatch loop. */
    method Retrieve(sourceId: string, remote: Remote, sha: seq<byte> -> string, base: nat, first: MetaData)
      returns (r: Result<Fill, DataError>)
      modifies this`disk, this`calls
      ensures var t := Retrieval(sourceId, remote, sha, base, first);
        r == t.result && calls == old(calls) + t.calls && disk == old(disk) + t.written
    {
      var checksum := GetData(sourceId, first.files, remote, sha);
      if checksum.Err? {
        return Err(checksum.error);
      }
      DownloadAll(first.files, remote.chunk);
      r := Reconcile(sourceId, remote, base, checksum.value, first);
    }

    /** The mismatch loop of `__get_new`: while the metadata's checksum differs
        from the one computed, the metadata (only) is requested again, at most
        four times. */
    method Reconcile(sourceId: string, remote: Remote, base: nat, computed: string, first: MetaData)
      returns (r: Result<Fill, DataError>)
      modifies this`calls
      ensures var c := Confirm(sourceId, remote, base, computed, first, 0);
        r == c.0 && calls == old(calls) + MetaCalls(sourceId, c.1)
    {
      var meta := first;
      var retries: nat := 0;
      ConfirmingStart(sourceId, remote, base, computed, first);
      assert MetaCalls(sourceId, 0) == [];
      while meta.checksum != computed
        invariant ConfirmingFrom(sourceId, remote, base, computed, first, meta, retries)
        invariant calls == old(calls) + MetaCalls(sourceId, retries)
        decreases MaxMetaRefreshes - retries
      {
        if retries > 3 {
          ConfirmingExhausted(sourceId, remote, base, computed, first, meta, retries);
          return Err(ChecksumMismatch);
        }
        var m := GetMetadata(sourceId, remote, base + retries + 1);
        MetaCallsNext(sourceId, retries);
        if m.Err? {
          ConfirmingRaised(sourceId, remote, base, computed, first, meta, retries);
          return Err(m.error);
        }
        ConfirmingNext(sourceId, remote, base, computed, first, meta, retries);
        meta := m.value;
        retries := retries + 1;
      }
      ConfirmingMatched(sourceId, remote, base, computed, first, meta, retries);
      r := Ok(Fill(meta.files, meta.checksum, meta.timeField));
    }

    /** Removes the named files from the storage directory; a file that is
        not there is skipped. */
    method RemoveFiles(files: seq<string>)
      modifies this`disk
      ensures disk == old(disk) - Elements(files)
    {
      var i := 0;
      while i < |files|
        invariant i <= |files|
        invariant disk == old(disk) - Elements(files[..i])
      {
        assert Elements(files[..i + 1]) == Elements(files[..i]) + {files[i]};
        disk := disk - {files[i]};
        i := i + 1;
      }
      assert files[..i] == files;
    }

    /** `Data.get(sourceId)` at time `now`: the item is created if missing
        (and stays, even when the fetch raises), then served as `Serve`
        says; no other item changes. */
    method Get(sourceId: string, now: int, remote: Remote, sha: seq<byte> -> string)
      returns (r: Result<Fill, DataError>)
      requires Valid()
      modifies this, cache.Values
      ensures Valid()
      ensures var a := Serve(old(ItemAt(sourceId, now)), now, maxAge, sourceId, remote, sha);
        && r == a.result
        && sourceId in cache && cache[sourceId].State() == a.item
        && calls == old(calls) + a.calls
        && disk == (old(disk) + a.written) - a.removed
      ensures order == if sourceId in old(cache) then old(order) else old(order) + [sourceId]
      ensures forall k :: k in cache <==> k in old(cache) || k == sourceId
      ensures forall k :: k in old(cache) && k != sourceId ==>
                cache[k] == old(cache[k]) && cache[k].State() == old(cache[k].State())
    {
      var item := Entry(sourceId, now);
      r := ServeItem(sourceId, item, now, remote, sha);
    }

    /** The first step of `Data.get`: the item under `sourceId`, created
        (stamped `now`, with no files) and added at the end of the dict if
        missing. */
    method Entry(sourceId: string, now: int) returns (item: CacheItem)
      requires Valid()
      modifies this
      ensures Valid()
      ensures sourceId in cache && item == cache[sourceId] && item.State() == old(ItemAt(sourceId, now))
      ensures sourceId in old(cache) ==> item == old(cache[sourceId])
      ensures sourceId !in old(cache) ==> fresh(item)
      ensures order == if sourceId in old(cache) then old(order) else old(order) + [sourceId]
      ensures forall k :: k in cache <==> k in old(cache) || k == sourceId
      ensures forall k :: k in old(cache) ==> cache[k] == old(cache[k])
      ensures calls == old(calls) && disk == old(disk)
    {
      if sourceId !in cache {
        item := new CacheItem(now);
        cache := cache[sourceId := item];
        order := order + [sourceId];
      } else {
        item := cache[sourceId];
      }
    }

    /** `Data.__refresh_cache_item`: a full refresh whose result, when there
        is one, becomes the item's fill; `created` is left alone. */
    method RefreshItem(sourceId: string, item: CacheItem, remote: Remote, sha: seq<byte> -> string, base: nat)
      returns (r: Result<Fill, DataError>)
      modifies item, this`disk, this`calls
      ensures var n := NewFetch(sourceId, remote, sha, base);
        r == n.result && calls == old(calls) + n.calls && disk == old(disk) + n.written
      ensures item.fill == (if r.Ok? then Some(r.value) else old(item.fill))
      ensures item.created == old(item.created)
    {
      r := GetNew(sourceId, remote, sha, base);
      if r.Ok? {
        item.fill := Some(r.value);
      }
    }

    /** The locked part of `Data.get` on `item`, as `Serve` says. */
    method ServeItem(sourceId: string, item: CacheItem, now: int, remote: Remote, sha: seq<byte> -> string)
      returns (r: Result<Fill, DataError>)
      modifies item, this`disk, this`calls
      ensures var a := Serve(old(item.State()), now, maxAge, sourceId, remote, sha);
        && r == a.result && item.State() == a.item
        && calls == old(calls) + a.calls
        && disk == (old(disk) + a.written) - a.removed
    {
      if item.fill.None? || item.fill.value.files == [] {
        r := RefreshItem(sourceId, item, remote, sha, 0);
        if r.Err? {
          return;
        }
        r := Ok(item.fill.value);
      } else if now - item.created > maxAge {
        r := ServeStale(sourceId, item, now, remote, sha);
      } else {
        r := Ok(item.fill.value);
      }
    }

    /** The stale branch of `Data.get`, as `Recheck` says. */
    method ServeStale(sourceId: string, item: CacheItem, now: int, remote: Remote, sha: seq<byte> -> string)
      returns (r: Result<Fill, DataError>)
      requires item.fill.Some?
      modifies item, this`disk, this`calls
      ensures var a := Recheck(old(item.State()), now, sourceId, remote, sha);
        && r == a.result && item.State() == a.item
        && calls == old(calls) + a.calls
        && disk == (old(disk) + a.written) - a.removed
    {
      ghost var st := item.State();
      ghost var a := Recheck(st, now, sourceId, remote, sha);
      var m := GetMetadata(sourceId, remote, 0);
      if m.Err? {
        assert a == Access(Err(m.error), st, [MetaCall(sourceId)], {}, {});
        return Err(m.error);
      }
      if m.value.checksum != item.fill.value.checksum {
        ghost var n := NewFetch(sourceId, remote, sha, 1);
        r := Replace(sourceId, item, remote, sha);
        if r.Err? {
          assert a == Access(r, st, [MetaCall(sourceId)] + n.calls, n.written, {});
          return;
        }
        assert a == Access(r, ItemState(Some(r.value), now), [MetaCall(sourceId)] + n.calls, n.written,
                           Elements(st.fill.value.files));
      } else {
        assert a == Access(Ok(st.fill.value), ItemState(st.fill, now), [MetaCall(sourceId)], {}, {});
      }
      item.created := now;
      r := Ok(item.fill.value);
    }

    /** A stale item whose checksum changed: a new fill, fetched after the
        one metadata request already made, then the old files are removed;
        on an error the item and its files are kept. */
    method Replace(sourceId: string, item: CacheItem, remote: Remote, sha: seq<byte> -> string)
      returns (r: Result<Fill, DataError>)
      requires item.fill.Some?
      modifies item, this`disk, this`calls
      ensures var n := NewFetch(sourceId, remote, sha, 1);
        && r == n.result && calls == old(calls) + n.calls
        && item.created == old(item.created)
        && item.fill == (if r.Ok? then Some(r.value) else old(item.fill))
        && disk == (old(disk) + n.written) - (if r.Ok? then Elements(old(item.fill.value.files)) else {})
    {
      var oldFiles := item.fill.value.files;
      r := RefreshItem(sourceId, item, remote, sha, 1);
      if r.Ok? {
        RemoveFiles(oldFiles);
      }
    }

    /** One pass of `Data.run`: collects, in dict order, the unlocked items
        older than `maxAge`, then for each removes its files and drops it,
        until one has no file list: the `TypeError` it raises ends the pass.
        `locked` names the items whose lock a `get` holds. */
    method Sweep(now: int, locked: set<string>)
      requires Valid()
      modifies this
      ensures Valid()
      ensures var gone := Evicted(old(order), old(View()), locked, now, maxAge);
        && cache == old(cache) - Elements(gone)
        && order == Without(old(order), Elements(gone))
        && disk == old(disk) - FilesOf(gone, old(View()))
      ensures calls == old(calls)
    {
      ghost var view0 := View();
      ghost var cache0, order0, disk0 := cache, order, disk;
      var stale := CollectStale(now, locked);
      SweepingStart(order0, view0, locked, now, maxAge, cache0, disk0);
      var j := 0;
      while j < |stale|
        invariant Sweeping(order0, view0, locked, now, maxAge, stale, j, cache0, disk0, cache, order, disk)
        invariant Valid() && calls == old(calls)
      {
        SweepingAt(order0, view0, locked, now, maxAge, stale, j, cache0, disk0, cache, order, disk);
        var item := cache[stale[j]];
        assert item.fill == view0[stale[j]].fill;
        if item.fill.None? {
          SweepingDone(order0, view0, locked, now, maxAge, stale, j, cache0, disk0, cache, order, disk);
          return;
        }
        SweepingNext(order0, view0, locked, now, maxAge, stale, j, cache0, disk0, cache, order, disk);
        Evict(stale[j]);
        j := j + 1;
      }
      SweepingDone(order0, view0, locked, now, maxAge, stale, j, cache0, disk0, cache, order, disk);
    }

    /** One step of the deletion loop of `Data.run`: removes the files of
        the item under `key`, then drops the key. */
    method Evict(key: string)
      requires Valid() && key in cache && cache[key].fill.Some?
      modifies this
      ensures Valid()
      ensures cache == old(cache) - {key}
      ensures order == Without(old(order), {key})
      ensures disk == old(disk) - Elements(old(cache[key].fill.value.files))
      ensures calls == old(calls)
    {
      ConsistentWithout(cache, order, {key});
      RemoveFiles(cache[key].fill.value.files);
      cache := cache - {key};
      order := Without(order, {key});
    }

    /** The first loop of `Data.run`: in dict order, the keys of the items
        that are not locked and older than `maxAge`. */
    method CollectStale(now: int, locked: set<string>) returns (stale: seq<string>)
      requires Valid()
      ensures stale == StaleKeys(order, View(), locked, now, maxAge)
    {
      ghost var view := View();
      var keys := order;
      assert forall k :: k in keys ==> k in view;
      stale := [];
      var i := 0;
      while i < |keys|
        invariant i <= |keys|
        invariant stale == StaleKeys(keys[..i], view, locked, now, maxAge)
      {
        var key := keys[i];
        assert keys[..i + 1] == keys[..i] + [key];
        assert keys[..i + 1][..i] == keys[..i];
        var item := cache[key];
        assert item.State() == view[key];
        if key !in locked && now - item.created > maxAge {
          stale := stale + [key];
        }
        i := i + 1;
      }
      assert keys[..i] == keys;
    }

    /** `Data.purge_cache`: empties the storage directory. */
    method PurgeCache()
      modifies this`disk
      ensures disk == {}
    {
      disk := {};
    }
  }
}
