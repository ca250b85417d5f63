/** Resumable multipart upload: whatever the file does while it is read, and whatever parts the store
    already holds, a reported digest and size describe the object the store assembled. */
module Uploader {
  import opened ObjectStore
  import opened Options
  import opened PartLayout

  datatype UploadError = StaleRemoteParts | ByteCountMismatch | HashedBytesMismatch | OtherError

  datatype UploadResult = Uploaded(sha256: string, size: nat) | Failed(error: UploadError)

  /** The durable row of the task being uploaded, and its abort outbox. */
  class TaskRow {
    var uploadId: string
    var partsMtime: int
    var partsSize: int
    var outbox: set<string>
    /** A willing database fails no call. */
    const willing: bool

    constructor (willing: bool)
      ensures uploadId == "" && partsMtime == partsSize == 0 && outbox == {} && this.willing == willing
    {
      uploadId, partsMtime, partsSize, outbox := "", 0, 0, {};
      this.willing := willing;
    }

    method SaveMultipartProgress(u: string, mtime: int, size: int) returns (ok: bool)
      modifies this`uploadId, this`partsMtime, this`partsSize
      ensures ok ==> uploadId == u && partsMtime == mtime && partsSize == size
      ensures !ok ==> uploadId == old(uploadId) && partsMtime == old(partsMtime) && partsSize == old(partsSize)
      ensures willing ==> ok
    {
      ok := *;
      if willing { ok := true; }
      if ok { uploadId, partsMtime, partsSize := u, mtime, size; }
    }

    method EnqueueMultipartAbort(u: string) returns (ok: bool)
      modifies this`outbox
      ensures outbox == if ok then old(outbox) + {u} else old(outbox)
      ensures willing ==> ok
    {
      ok := *;
      if willing { ok := true; }
      if ok { outbox := outbox + {u}; }
    }

    method DeleteMultipartAbort(u: string) returns (ok: bool)
      modifies this`outbox
      ensures outbox == if ok then old(outbox) - {u} else old(outbox)
      ensures willing ==> ok
    {
      ok := *;
      if willing { ok := true; }
      if ok { outbox := outbox - {u}; }
    }
  }

  // ---- what is assumed and what is promised ----

  /** No byte string the file can show has the MD5 of the part without being that part. */
  ghost predicate NoCollision(file: LocalFile, hashes: Hashes, part: Part) {
    forall b :: file.observable(b) && hashes.md5(b) == hashes.md5(part.bytes) ==> b == part.bytes
  }

  /** The result describes the object the store now publishes. */
  ghost predicate Describes(r: UploadResult, store: Store)
    reads store
  {
    r.Uploaded? ==>
      && store.published.Some?
      && r.sha256 == store.hashes.sha256(store.published.value) && r.size == |store.published.value|
  }

  /** The file holds still, though a read of it may fail. */
  ghost predicate Still(file: LocalFile, size: nat) { file.steady && |file.content| == size }

  /** Moreover nothing fails: every read succeeds, and store and database do what they are asked. */
  ghost predicate Obliging(file: LocalFile, store: Store, row: TaskRow, size: nat) {
    Still(file, size) && file.readable && store.willing && row.willing
  }

  /** The file holds still, every read succeeds, and the store's answers are plain. */
  ghost predicate Calm(file: LocalFile, store: Store, size: nat) {
    Still(file, size) && file.readable && store.plain
  }

  function RangeOf(content: Bytes, k: int, partSize: int): Bytes
    requires partSize > 0
  {
    var r := PartRange(k, |content|, partSize);
    if r.Range? && 0 <= r.offset && r.offset + r.size <= |content| then content[r.offset..r.offset + r.size] else []
  }

  /** Every stored part is inside the layout and holds its range of the content. */
  ghost predicate Faithful(stored: map<int, Part>, content: Bytes, partSize: int)
    requires partSize > 0
  {
    forall k :: k in stored ==>
      1 <= k <= TotalParts(|content|, partSize) && stored[k].bytes == RangeOf(content, k, partSize)
  }

  /** The complete list names parts 1, 2, ..., in order, each with the ETag the store gave it. */
  ghost predicate Ascending(list: seq<CompletePart>) {
    forall i :: 0 <= i < |list| ==> list[i].number == i + 1
  }

  lemma {:induction false} AssembleFrame(before: map<int, Part>, after: map<int, Part>, list: seq<CompletePart>)
    requires forall i :: 0 <= i < |list| ==> list[i].number in before && list[i].number in after
    requires forall i :: 0 <= i < |list| ==> before[list[i].number] == after[list[i].number]
    ensures Assemble(before, list) == Assemble(after, list)
  {
    if list != [] { AssembleFrame(before, after, list[..|list| - 1]); }
  }

  lemma AssembleNext(stored: map<int, Part>, list: seq<CompletePart>, next: CompletePart)
    requires next.number in stored
    ensures Assemble(stored, list + [next]) == Assemble(stored, list) + stored[next.number].bytes
  {
    assert (list + [next])[..|list|] == list;
  }

  lemma RangeIsSlice(content: Bytes, k: nat, partSize: int)
    requires partSize > 0 && 1 <= k <= TotalParts(|content|, partSize)
    ensures RangeOf(content, k, partSize) == content[EndOf(k - 1, |content|, partSize)..EndOf(k, |content|, partSize)]
    ensures EndOf(k - 1, |content|, partSize) <= EndOf(k, |content|, partSize) <= |content|
  {
    PartIsNext(k, |content|, partSize);
  }

  predicate ETagMatches(etag: string, digest: string) { ETagIsComparable(etag) && NormalizeETag(etag) == digest }

  // ---- the two reads of a part that the store already has ----

  /** Bytes that fill the range were seen in the file, and the ETag is theirs. */
  ghost predicate ReadMatches(file: LocalFile, hashes: Hashes, range: Range, etag: string, bytes: Bytes) {
    range.Range? && |bytes| == range.size && file.observable(bytes) && ETagMatches(etag, hashes.md5(bytes))
  }

  /** The file has shown the bytes of a listed part. */
  ghost predicate ReadAgain(file: LocalFile, hashes: Hashes, part: CompletePart, size: nat, partSize: int)
    requires partSize > 0
  {
    exists bytes :: ReadMatches(file, hashes, PartRange(part.number, size, partSize), part.etag, bytes)
  }

  lemma RangeIsRead(content: Bytes, k: nat, partSize: int)
    requires partSize > 0 && 1 <= k <= TotalParts(|content|, partSize)
    ensures var range := PartRange(k, |content|, partSize);
            && range.Range? && 0 <= range.offset && range.offset + range.size <= |content|
            && RangeOf(content, k, partSize) == content[range.offset..range.offset + range.size]
  {
    PartIsNext(k, |content|, partSize);
    RangeIsSlice(content, k, partSize);
  }

  method RangeMatches(file: LocalFile, hashes: Hashes, range: Range, etag: string) returns (ok: bool)
    requires range.Range? && file.Sound()
    ensures ok ==> exists bytes :: ReadMatches(file, hashes, range, etag, bytes)
    ensures file.steady && 0 <= range.offset && range.offset + range.size <= |file.content| ==>
              var matches := ETagMatches(etag, hashes.md5(file.content[range.offset..range.offset + range.size]));
              (ok ==> matches) && (file.readable && matches ==> ok)
  {
    if !ETagIsComparable(etag) { return false; }
    var r := file.ReadRange(range.offset, range.size);
    ok := r.Data? && |r.bytes| == range.size && NormalizeETag(etag) == hashes.md5(r.bytes);
    if ok { assert ReadMatches(file, hashes, range, etag, r.bytes); }
  }

  /** The early check; it feeds no digest and only fails fast. */
  method VerifyResumePartETag(file: LocalFile, hashes: Hashes, size: nat, partSize: int, part: CompletePart)
    returns (ok: bool)
    requires partSize > 0 && file.Sound()
    ensures ok ==> part.number <= TotalParts(size, partSize)
    ensures ok ==> ReadAgain(file, hashes, part, size, partSize)
    ensures Still(file, size) && 1 <= part.number <= TotalParts(size, partSize) ==>
              (ok ==> ETagMatches(part.etag, hashes.md5(RangeOf(file.content, part.number, partSize))))
    ensures Still(file, size) && file.readable && 1 <= part.number <= TotalParts(size, partSize) ==>
              ETagMatches(part.etag, hashes.md5(RangeOf(file.content, part.number, partSize))) ==> ok
  {
    var range := PartRange(part.number, size, partSize);
    if range.Outside? {
      if 1 <= part.number <= TotalParts(size, partSize) { PartIsNext(part.number, size, partSize); }
      return false;
    }
    InsideIsPlanned(part.number, size, partSize);
    ok := RangeMatches(file, hashes, range, part.etag);
    if Still(file, size) && 1 <= part.number { RangeIsRead(file.content, part.number, partSize); }
  }

  /** The read that feeds the digest, checked against the remote ETag over those same bytes. */
  method HashResumePartChecked(file: LocalFile, hashes: Hashes, size: nat, partSize: int, part: nat, etag: string)
    returns (r: Option<Bytes>)
    requires partSize > 0 && file.Sound() && 1 <= part <= TotalParts(size, partSize)
    ensures r.Some? ==> |r.value| == EndOf(part, size, partSize) - EndOf(part - 1, size, partSize)
    ensures r.Some? ==> file.observable(r.value) && ETagMatches(etag, hashes.md5(r.value))
    ensures r.Some? && file.steady && |file.content| == size ==> r.value == RangeOf(file.content, part, partSize)
    ensures file.steady && file.readable && |file.content| == size ==>
              ETagMatches(etag, hashes.md5(RangeOf(file.content, part, partSize))) ==> r.Some?
  {
    PartIsNext(part, size, partSize);
    var range := PartRange(part, size, partSize);
    if range.Outside? { return None; }
    var data := file.ReadRange(range.offset, range.size);
    if data.IoError? || |data.bytes| != range.size { return None; }
    if !ETagIsComparable(etag) { return None; }
    if NormalizeETag(etag) != hashes.md5(data.bytes) { return None; }
    return Some(data.bytes);
  }

  // ---- one part of the ordered loop ----

  datatype Fed = FedPart(bytes: Bytes, etag: string) | FedFails(error: UploadError)

  /** Only upload `u` may change, and in it only part `part`. */
  ghost predicate OnlyPart(before: map<string, map<int, Part>>, after: map<string, map<int, Part>>, u: string,
                           part: int) {
    && u in before && u in after && after == before[u := after[u]]
    && (forall k :: k != part ==> (k in before[u] <==> k in after[u]))
    && (forall k :: k != part && k in before[u] ==> before[u][k] == after[u][k])
  }

  /** The ETags of the parts to skip are those the store holds. */
  ghost predicate Skips(stored: map<int, Part>, remote: map<int, string>) {
    forall k :: k in remote ==> k in stored && stored[k].etag == remote[k]
  }

  /** The ETags of the planned parts are those of the file's ranges. */
  ghost predicate Fresh(file: LocalFile, hashes: Hashes, remote: map<int, string>, partSize: int)
    requires partSize > 0
  {
    forall k :: k in remote && 1 <= k <= TotalParts(|file.content|, partSize) ==>
      ETagMatches(remote[k], hashes.md5(RangeOf(file.content, k, partSize)))
  }

  /** A skipped part: re-read, checked, fed. The bytes read are the bytes stored. */
  method FeedSkippedPart(file: LocalFile, store: Store, u: string, remote: map<int, string>, size: nat, partSize: int,
                         part: nat)
    returns (r: Fed)
    requires partSize > 0 && file.Sound() && store.Honest() && 1 <= part <= TotalParts(size, partSize)
    requires u in store.uploads && Skips(store.uploads[u], remote) && part in remote
    requires NoCollision(file, store.hashes, store.uploads[u][part])
    ensures r.FedPart? ==> store.uploads[u][part] == Part(r.bytes, r.etag)
    ensures r.FedPart? ==> |r.bytes| == EndOf(part, size, partSize) - EndOf(part - 1, size, partSize)
    ensures r.FedPart? && file.steady && |file.content| == size ==> r.bytes == RangeOf(file.content, part, partSize)
    ensures r.FedFails? ==> r.error == StaleRemoteParts
    ensures Calm(file, store, size) && Faithful(store.uploads[u], file.content, partSize) ==> r.FedPart?
    ensures Still(file, size) && file.readable && Fresh(file, store.hashes, remote, partSize) ==> r.FedPart?
  {
    assert store.HonestPart(store.uploads[u][part]);
    var data := HashResumePartChecked(file, store.hashes, size, partSize, part, remote[part]);
    if data.None? { return FedFails(StaleRemoteParts); }
    return FedPart(data.value, remote[part]);
  }

  method ReadPart(file: LocalFile, size: nat, partSize: int, part: nat) returns (data: Read, partBytes: nat)
    requires partSize > 0 && file.Sound() && 1 <= part <= TotalParts(size, partSize)
    ensures partBytes == EndOf(part, size, partSize) - EndOf(part - 1, size, partSize)
    ensures data.Data? && Still(file, size) ==>
              data.bytes == RangeOf(file.content, part, partSize) && |data.bytes| == partBytes
    ensures file.readable ==> data.Data?
  {
    PartIsNext(part, size, partSize);
    var offset := (part - 1) * partSize;
    partBytes := partSize;
    if size - offset < partBytes { partBytes := size - offset; }
    data := file.ReadRange(offset, partBytes);
    if Still(file, size) { RangeIsRead(file.content, part, partSize); }
  }

  lemma StoredIsOnly(before: map<string, map<int, Part>>, after: map<string, map<int, Part>>, u: string, k: int,
                     body: Bytes)
    requires u in before && (after == before || PartStored(before, after, u, k, body))
    ensures OnlyPart(before, after, u, k)
  {
  }

  lemma StoredIsFaithful(before: map<string, map<int, Part>>, after: map<string, map<int, Part>>, u: string, k: nat,
                         body: Bytes, content: Bytes, partSize: int)
    requires partSize > 0 && 1 <= k <= TotalParts(|content|, partSize) && body == RangeOf(content, k, partSize)
    requires u in before && (after == before || PartStored(before, after, u, k, body))
    ensures u in after && (Faithful(before[u], content, partSize) ==> Faithful(after[u], content, partSize))
  {
  }

  /** A missing part: one read feeds both the store and the digest. */
  method FeedNewPart(file: LocalFile, store: Store, u: string, size: nat, partSize: int, part: nat) returns (r: Fed)
    requires partSize > 0 && file.Sound() && store.Honest() && 1 <= part <= TotalParts(size, partSize)
    requires u in store.uploads
    modifies store`uploads, store`puts
    ensures store.Honest() && OnlyPart(old(store.uploads), store.uploads, u, part)
    ensures store.puts == old(store.puts) || store.puts == old(store.puts) + [(u, part)]
    ensures r.FedPart? ==> part in store.uploads[u] && store.uploads[u][part] == Part(r.bytes, r.etag)
    ensures r.FedPart? ==> |r.bytes| == EndOf(part, size, partSize) - EndOf(part - 1, size, partSize)
    ensures r.FedPart? && file.steady && |file.content| == size ==> r.bytes == RangeOf(file.content, part, partSize)
    ensures r.FedFails? ==> r.error != StaleRemoteParts && r.error != HashedBytesMismatch
    ensures Still(file, size) && file.readable && store.willing ==> r.FedPart?
    ensures Still(file, size) && Faithful(old(store.uploads[u]), file.content, partSize) ==>
              Faithful(store.uploads[u], file.content, partSize)
  {
    var data, partBytes := ReadPart(file, size, partSize, part);
    if data.IoError? { return FedFails(OtherError); }
    var answer := store.PutObjectPart(u, part, data.bytes);
    StoredIsOnly(old(store.uploads), store.uploads, u, part, data.bytes);
    if Still(file, size) {
      StoredIsFaithful(old(store.uploads), store.uploads, u, part, data.bytes, file.content, partSize);
    }
    if answer.None? { return FedFails(OtherError); }
    if |data.bytes| != partBytes { return FedFails(ByteCountMismatch); }
    if ETagIsComparable(answer.value) && NormalizeETag(answer.value) != store.hashes.md5(data.bytes) {
      return FedFails(OtherError);
    }
    return FedPart(data.bytes, answer.value);
  }

  // ---- the whole upload ----

  /** The uploads that existed before are as they were. */
  ghost predicate OthersKept(before: map<string, map<int, Part>>, after: map<string, map<int, Part>>, u: string) {
    forall x :: x in before && x != u ==> x in after && after[x] == before[x]
  }

  /** An upload that ended stays ended: whatever is new was never issued before. */
  ghost predicate NoneRevived(before: map<string, map<int, Part>>, after: map<string, map<int, Part>>,
                              issued: set<string>) {
    forall x :: x in after && x !in before ==> x !in issued
  }

  /** A recorded upload that the next attempt on an unchanged file can take up where it stopped. */
  ghost predicate Resumable(store: Store, row: TaskRow, file: LocalFile, partSize: int)
    requires partSize > 0
    reads store, row
  {
    row.uploadId != "" ==>
      && row.uploadId in store.issued && row.partsMtime == file.mtime && row.partsSize == |file.content|
      && (row.uploadId in store.uploads ==> Faithful(store.uploads[row.uploadId], file.content, partSize))
  }

  method VerifyAllParts(file: LocalFile, store: Store, u: string, done: seq<CompletePart>, size: nat, partSize: int)
    returns (ok: bool)
    requires partSize > 0 && file.Sound() && store.Honest() && Completes(store.uploads, u, done)
    ensures ok ==> forall i :: 0 <= i < |done| ==> ReadAgain(file, store.hashes, done[i], size, partSize)
    ensures Calm(file, store, size) && Faithful(store.uploads[u], file.content, partSize) ==> ok
    ensures ok && Still(file, size) ==> Verified(file, store.hashes, done, partSize)
  {
    for i := 0 to |done|
      invariant forall j :: 0 <= j < i ==> ReadAgain(file, store.hashes, done[j], size, partSize)
      invariant Still(file, size) ==> Verified(file, store.hashes, done[..i], partSize)
    {
      assert Lists(store.uploads, u, done[i]);
      assert store.HonestPart(store.uploads[u][done[i].number]);
      ok := VerifyResumePartETag(file, store.hashes, size, partSize, done[i]);
      if !ok { return; }
      if Still(file, size) { VerifiedNext(file, store.hashes, done, i, partSize); }
    }
    assert done[..|done|] == done;
    return true;
  }

  lemma VerifiedNext(file: LocalFile, hashes: Hashes, done: seq<CompletePart>, i: nat, partSize: int)
    requires partSize > 0 && i < |done| && Verified(file, hashes, done[..i], partSize)
    requires 1 <= done[i].number <= TotalParts(|file.content|, partSize) ==>
               ETagMatches(done[i].etag, hashes.md5(RangeOf(file.content, done[i].number, partSize)))
    ensures Verified(file, hashes, done[..i + 1], partSize)
  {
    assert done[..i + 1] == done[..i] + [done[i]];
  }

  /** Reconciles a recorded upload with the store, or starts a new one and persists its ID at once.
      `task` is the upload ID in memory, before and after. */
  method OpenUpload(file: LocalFile, store: Store, row: TaskRow, task: string, mtime: int, size: nat, partSize: int)
    returns (u: string, done: seq<CompletePart>, task': string, error: Option<UploadError>)
    requires partSize > 0 && file.Sound() && store.Honest() && (task == "" || task in store.issued)
    modifies store`uploads, store`issued, row`uploadId, row`partsMtime, row`partsSize
    ensures store.Honest() && OthersKept(old(store.uploads), store.uploads, "")
    ensures store.issued == old(store.issued) || (u !in old(store.issued) && store.issued == old(store.issued) + {u})
    ensures error.None? ==> u != "" && task' == u && Completes(store.uploads, u, done)
    ensures error.None? ==> forall i :: 0 <= i < |done| ==> ReadAgain(file, store.hashes, done[i], size, partSize)
    ensures error.None? && Still(file, size) ==> Verified(file, store.hashes, done, partSize)
    ensures Obliging(file, store, row, size) ==> error.None? || error == Some(StaleRemoteParts)
    ensures error.None? && u == task ==> store.uploads == old(store.uploads) && store.issued == old(store.issued)
    ensures error.None? && u == task && store.plain ==> ListsAll(store.uploads, u, done)
    ensures error.None? && u != task ==> u !in old(store.issued) && store.uploads[u] == map[] && done == []
    ensures error.None? && u != task ==> row.uploadId == u && row.partsMtime == mtime && row.partsSize == size
    ensures error.Some? || u == task ==>
              row.uploadId == old(row.uploadId) && row.partsMtime == old(row.partsMtime)
              && row.partsSize == old(row.partsSize)
    ensures error != Some(HashedBytesMismatch)
    ensures error == Some(StaleRemoteParts) ==> task != "" && task' == task && store.issued == old(store.issued)
    ensures NoneRevived(old(store.uploads), store.uploads, old(store.issued))
    ensures error.None? && u != task && task != "" ==> task !in old(store.uploads)
    ensures error == Some(StaleRemoteParts) ==> task in old(store.uploads)
    ensures error == Some(StaleRemoteParts) && Calm(file, store, size) ==>
              !Faithful(old(store.uploads)[task], file.content, partSize)
  {
    u, done, task', error := task, [], task, None;
    if u != "" {
      var listing := store.ListObjectParts(u);
      match listing {
        case Unavailable => error := Some(OtherError); return;
        case NoSuchUpload => u := "";
        case Parts(parts) =>
          done := parts;
          var ok := VerifyAllParts(file, store, u, done, size, partSize);
          if !ok { error := Some(StaleRemoteParts); return; }
      }
    }
    if u == "" {
      var created := store.NewMultipartUpload();
      if created.None? { error := Some(OtherError); return; }
      u, task' := created.value, created.value;
      var saved := row.SaveMultipartProgress(u, mtime, size);
      if !saved {
        var _ := store.AbortMultipartUpload(u);
        task', error := "", Some(OtherError);
      }
    }
  }

  method IndexDoneParts(done: seq<CompletePart>) returns (remote: map<int, string>)
    ensures forall k :: k in remote ==> CompletePart(k, remote[k]) in done
    ensures forall p :: p in done ==> p.number in remote
  {
    remote := map[];
    for i := 0 to |done|
      invariant forall k :: k in remote ==> CompletePart(k, remote[k]) in done
      invariant forall j :: 0 <= j < i ==> done[j].number in remote
    {
      remote := remote[done[i].number := done[i].etag];
    }
  }

  /** Every listed part is stored under the ETag the list gives it. */
  ghost predicate Listed(stored: map<int, Part>, list: seq<CompletePart>) {
    forall i :: 0 <= i < |list| ==> list[i].number in stored && list[i].etag == stored[list[i].number].etag
  }

  /** Parts 1 to `n` have been fed: the digest's input is what the store would assemble from the list so far. */
  ghost predicate FedInOrder(file: LocalFile, stored: map<int, Part>, list: seq<CompletePart>, fed: Bytes,
                             n: nat, size: nat, partSize: int)
    requires partSize > 0
  {
    && |list| == n && Ascending(list) && Listed(stored, list)
    && fed == Assemble(stored, list) && |fed| == EndOf(n, size, partSize)
    && (file.steady && |file.content| == size ==> fed == file.content[..EndOf(n, size, partSize)])
  }

  lemma ListedKept(before: map<int, Part>, after: map<int, Part>, list: seq<CompletePart>)
    requires Ascending(list) && Listed(before, list)
    requires forall k :: 1 <= k <= |list| && k in before ==> k in after && after[k] == before[k]
    ensures Listed(after, list) && Assemble(after, list) == Assemble(before, list)
  {
    forall i | 0 <= i < |list| ensures list[i].number in after && before[list[i].number] == after[list[i].number] {
      assert list[i].number == i + 1;
    }
    AssembleFrame(before, after, list);
  }

  lemma ListedNext(stored: map<int, Part>, list: seq<CompletePart>, n: nat)
    requires |list| == n && Ascending(list) && Listed(stored, list) && n + 1 in stored
    ensures var list' := list + [CompletePart(n + 1, stored[n + 1].etag)];
            Ascending(list') && Listed(stored, list')
            && Assemble(stored, list') == Assemble(stored, list) + stored[n + 1].bytes
  {
    AssembleNext(stored, list, CompletePart(n + 1, stored[n + 1].etag));
  }

  lemma SliceGrows(content: Bytes, fed: Bytes, bytes: Bytes, n: nat, partSize: int)
    requires partSize > 0 && n < TotalParts(|content|, partSize) && 0 <= EndOf(n, |content|, partSize) <= |content|
    requires fed == content[..EndOf(n, |content|, partSize)] && bytes == RangeOf(content, n + 1, partSize)
    ensures 0 <= EndOf(n + 1, |content|, partSize) <= |content|
            && fed + bytes == content[..EndOf(n + 1, |content|, partSize)]
  {
    RangeIsSlice(content, n + 1, partSize);
  }

  /** Feeding the next part keeps the order law; parts already listed must not have moved. */
  lemma FedNext(file: LocalFile, before: map<int, Part>, after: map<int, Part>, list: seq<CompletePart>, fed: Bytes,
                bytes: Bytes, etag: string, n: nat, size: nat, partSize: int)
    requires partSize > 0 && n < TotalParts(size, partSize) && FedInOrder(file, before, list, fed, n, size, partSize)
    requires forall k :: 1 <= k <= n && k in before ==> k in after && after[k] == before[k]
    requires n + 1 in after && after[n + 1] == Part(bytes, etag)
    requires |bytes| == EndOf(n + 1, size, partSize) - EndOf(n, size, partSize)
    requires file.steady && |file.content| == size ==> bytes == RangeOf(file.content, n + 1, partSize)
    ensures FedInOrder(file, after, list + [CompletePart(n + 1, etag)], fed + bytes, n + 1, size, partSize)
  {
    ListedKept(before, after, list);
    ListedNext(after, list, n);
    if file.steady && |file.content| == size { SliceGrows(file.content, fed, bytes, n, partSize); }
  }

  lemma WholeFileFed(size: nat, partSize: int)
    requires partSize > 0
    ensures EndOf(TotalParts(size, partSize), size, partSize) == size
  {
    LastPartReachesTheEnd(size, partSize);
  }

  /** No part that upload `u` had in `stored` is among the calls made since `before`. */
  ghost predicate NotResent(before: seq<(string, int)>, after: seq<(string, int)>, u: string, stored: map<int, Part>) {
    |before| <= |after| && forall i :: |before| <= i < |after| && after[i].0 == u ==> after[i].1 !in stored
  }

  predicate Unlisted(done: seq<CompletePart>, part: int) { forall p :: p in done ==> p.number != part }

  /** The row is as it was, or names upload `u` and the file version it is read from. */
  ghost predicate RowSaved(id: string, mtime: int, size: int, id0: string, mtime0: int, size0: int, u: string,
                           mtime1: int, size1: int) {
    (id == id0 && mtime == mtime0 && size == size0) || (id == u && mtime == mtime1 && size == size1)
  }

  method FeedPart(file: LocalFile, store: Store, row: TaskRow, u: string, remote: map<int, string>, mtime: int,
                  size: nat, partSize: int, part: nat) returns (r: Fed)
    requires partSize > 0 && file.Sound() && store.Honest() && 1 <= part <= TotalParts(size, partSize)
    requires u in store.uploads && Skips(store.uploads[u], remote)
    requires part in remote ==> NoCollision(file, store.hashes, store.uploads[u][part])
    modifies store`uploads, store`puts, row`uploadId, row`partsMtime, row`partsSize
    ensures store.Honest() && OnlyPart(old(store.uploads), store.uploads, u, part)
    ensures part in remote ==> store.uploads == old(store.uploads) && store.puts == old(store.puts)
    ensures store.puts == old(store.puts) || store.puts == old(store.puts) + [(u, part)]
    ensures RowSaved(row.uploadId, row.partsMtime, row.partsSize, old(row.uploadId), old(row.partsMtime),
                     old(row.partsSize), u, mtime, size)
    ensures r.FedPart? ==> part in store.uploads[u] && store.uploads[u][part] == Part(r.bytes, r.etag)
    ensures r.FedPart? ==> |r.bytes| == EndOf(part, size, partSize) - EndOf(part - 1, size, partSize)
    ensures r.FedPart? && file.steady && |file.content| == size ==> r.bytes == RangeOf(file.content, part, partSize)
    ensures r.FedFails? ==> r.error != HashedBytesMismatch && (r.error == StaleRemoteParts ==> part in remote)
    ensures Obliging(file, store, row, size) && Fresh(file, store.hashes, remote, partSize) ==> r.FedPart?
    ensures Still(file, size) && Faithful(old(store.uploads[u]), file.content, partSize) ==>
              Faithful(store.uploads[u], file.content, partSize)
    ensures Calm(file, store, size) && Faithful(old(store.uploads[u]), file.content, partSize) ==>
              r != FedFails(StaleRemoteParts)
  {
    if part in remote {
      r := FeedSkippedPart(file, store, u, remote, size, partSize, part);
    } else {
      r := FeedNewPart(file, store, u, size, partSize, part);
      if r.FedPart? { var _ := row.SaveMultipartProgress(u, mtime, size); }
    }
  }

  /** While `u` is fed: no other upload moves, the parts to skip stay as they are and are not sent. */
  ghost predicate Feeding(uploads0: map<string, map<int, Part>>, uploads: map<string, map<int, Part>>,
                          puts0: seq<(string, int)>, puts: seq<(string, int)>, u: string, remote: map<int, string>) {
    && u in uploads0 && u in uploads && uploads == uploads0[u := uploads[u]]
    && Skips(uploads0[u], remote) && Skips(uploads[u], remote)
    && (forall k :: k in remote ==> uploads[u][k] == uploads0[u][k])
    && puts0 <= puts
    && (forall i :: |puts0| <= i < |puts| ==> puts[i].0 == u && puts[i].1 !in remote)
  }

  lemma FeedingNext(uploads0: map<string, map<int, Part>>, uploads: map<string, map<int, Part>>,
                    after: map<string, map<int, Part>>,
                    puts0: seq<(string, int)>, puts: seq<(string, int)>, puts': seq<(string, int)>,
                    u: string, remote: map<int, string>, part: int)
    requires Feeding(uploads0, uploads, puts0, puts, u, remote)
    requires OnlyPart(uploads, after, u, part)
    requires part in remote ==> after == uploads && puts' == puts
    requires puts' == puts || puts' == puts + [(u, part)]
    ensures Feeding(uploads0, after, puts0, puts', u, remote)
  {
    assert uploads0[u := uploads[u]][u := after[u]] == uploads0[u := after[u]];
  }

  /** One turn of the ordered loop. */
  method FeedTurn(file: LocalFile, store: Store, row: TaskRow, u: string, remote: map<int, string>, mtime: int,
                  size: nat, partSize: int, part: nat, list: seq<CompletePart>, fed: Bytes,
                  ghost uploads0: map<string, map<int, Part>>, ghost puts0: seq<(string, int)>) returns (r: Fed)
    requires partSize > 0 && file.Sound() && store.Honest() && 1 <= part <= TotalParts(size, partSize)
    requires Feeding(uploads0, store.uploads, puts0, store.puts, u, remote)
    requires forall k :: k in remote ==> NoCollision(file, store.hashes, uploads0[u][k])
    requires FedInOrder(file, store.uploads[u], list, fed, part - 1, size, partSize)
    modifies store`uploads, store`puts, row`uploadId, row`partsMtime, row`partsSize
    ensures store.Honest() && Feeding(uploads0, store.uploads, puts0, store.puts, u, remote)
    ensures RowSaved(row.uploadId, row.partsMtime, row.partsSize, old(row.uploadId), old(row.partsMtime),
                     old(row.partsSize), u, mtime, size)
    ensures r.FedPart? ==> FedInOrder(file, store.uploads[u], list + [CompletePart(part, r.etag)], fed + r.bytes, part,
                                      size, partSize)
    ensures r.FedFails? ==> r.error != HashedBytesMismatch && (r.error == StaleRemoteParts ==> remote != map[])
    ensures Obliging(file, store, row, size) && Fresh(file, store.hashes, remote, partSize) ==> r.FedPart?
    ensures Still(file, size) && Faithful(old(store.uploads[u]), file.content, partSize) ==>
              Faithful(store.uploads[u], file.content, partSize)
    ensures Calm(file, store, size) && Faithful(old(store.uploads[u]), file.content, partSize) ==>
              r != FedFails(StaleRemoteParts)
  {
    ghost var uploads, puts := store.uploads, store.puts;
    r := FeedPart(file, store, row, u, remote, mtime, size, partSize, part);
    FeedingNext(uploads0, uploads, store.uploads, puts0, puts, store.puts, u, remote, part);
    if r.FedPart? {
      FedNext(file, uploads[u], store.uploads[u], list, fed, r.bytes, r.etag, part - 1, size, partSize);
    }
  }

  /** What feeding every part in order leaves behind. */
  method FeedAllParts(file: LocalFile, store: Store, row: TaskRow, u: string, remote: map<int, string>, mtime: int,
                      size: nat, partSize: int)
    returns (fed: Bytes, hashed: nat, list: seq<CompletePart>, error: Option<UploadError>)
    requires partSize > 0 && file.Sound() && store.Honest()
    requires u in store.uploads && Skips(store.uploads[u], remote)
    requires forall k :: k in remote ==> NoCollision(file, store.hashes, store.uploads[u][k])
    modifies store`uploads, store`puts, row`uploadId, row`partsMtime, row`partsSize
    ensures store.Honest() && Feeding(old(store.uploads), store.uploads, old(store.puts), store.puts, u, remote)
    ensures RowSaved(row.uploadId, row.partsMtime, row.partsSize, old(row.uploadId), old(row.partsMtime),
                     old(row.partsSize), u, mtime, size)
    ensures error.None? ==> FedInOrder(file, store.uploads[u], list, fed, TotalParts(size, partSize), size, partSize)
    ensures error.None? ==> hashed == |fed|
    ensures error.Some? ==> error.value != HashedBytesMismatch && (error.value == StaleRemoteParts ==> remote != map[])
    ensures Obliging(file, store, row, size) && Fresh(file, store.hashes, remote, partSize) ==> error.None?
    ensures Still(file, size) && Faithful(old(store.uploads[u]), file.content, partSize) ==>
              Faithful(store.uploads[u], file.content, partSize)
    ensures Calm(file, store, size) && Faithful(old(store.uploads[u]), file.content, partSize) ==>
              error != Some(StaleRemoteParts)
  {
    fed, hashed, list, error := [], 0, [], None;
    for part := 1 to TotalParts(size, partSize) + 1
      invariant store.Honest() && Feeding(old(store.uploads), store.uploads, old(store.puts), store.puts, u, remote)
      invariant RowSaved(row.uploadId, row.partsMtime, row.partsSize, old(row.uploadId), old(row.partsMtime),
                         old(row.partsSize), u, mtime, size)
      invariant FedInOrder(file, store.uploads[u], list, fed, part - 1, size, partSize) && hashed == |fed|
      invariant Still(file, size) && Faithful(old(store.uploads[u]), file.content, partSize) ==>
                  Faithful(store.uploads[u], file.content, partSize)
    {
      var r := FeedTurn(file, store, row, u, remote, mtime, size, partSize, part, list, fed, old(store.uploads),
                        old(store.puts));
      if r.FedFails? { error := Some(r.error); return; }
      fed, hashed, list := fed + r.bytes, hashed + |r.bytes|, list + [CompletePart(part, r.etag)];
    }
  }

  /** The same of a list of parts. */
  ghost predicate Verified(file: LocalFile, hashes: Hashes, done: seq<CompletePart>, partSize: int)
    requires partSize > 0
  {
    forall p :: p in done && 1 <= p.number <= TotalParts(|file.content|, partSize) ==>
      ETagMatches(p.etag, hashes.md5(RangeOf(file.content, p.number, partSize)))
  }

  lemma VerifiedIsFresh(file: LocalFile, hashes: Hashes, done: seq<CompletePart>, remote: map<int, string>,
                        partSize: int)
    requires partSize > 0 && forall k :: k in remote ==> CompletePart(k, remote[k]) in done
    ensures Verified(file, hashes, done, partSize) ==> Fresh(file, hashes, remote, partSize)
  {
    forall k | Verified(file, hashes, done, partSize) && k in remote && 1 <= k <= TotalParts(|file.content|, partSize)
      ensures ETagMatches(remote[k], hashes.md5(RangeOf(file.content, k, partSize)))
    {
      assert CompletePart(k, remote[k]).number == k;
    }
  }

  lemma RemoteIsListed(uploads: map<string, map<int, Part>>, u: string, done: seq<CompletePart>,
                       remote: map<int, string>)
    requires Completes(uploads, u, done)
    requires forall k :: k in remote ==> CompletePart(k, remote[k]) in done
    requires forall p :: p in done ==> p.number in remote
    ensures Skips(uploads[u], remote) && forall k :: k !in remote ==> Unlisted(done, k)
    ensures ListsAll(uploads, u, done) ==> uploads[u].Keys <= remote.Keys
  {
    forall k | k in remote ensures k in uploads[u] && uploads[u][k].etag == remote[k] {
      assert Lists(uploads, u, CompletePart(k, remote[k]));
    }
    forall k | ListsAll(uploads, u, done) && k in uploads[u] ensures k in remote {
      assert CompletePart(k, uploads[u][k].etag).number in remote;
    }
  }

  /** Completes with the parts that were fed; the final count check never fires. */
  method CompleteFed(file: LocalFile, store: Store, u: string, list: seq<CompletePart>, fed: Bytes, hashed: nat,
                     size: nat, partSize: int) returns (result: UploadResult)
    requires partSize > 0 && store.Honest() && u in store.uploads && hashed == |fed|
    requires FedInOrder(file, store.uploads[u], list, fed, TotalParts(size, partSize), size, partSize)
    modifies store`uploads, store`published, store`completed
    ensures store.Honest() && (store.uploads == old(store.uploads) || store.uploads == old(store.uploads) - {u})
    ensures Describes(result, store) && (result.Uploaded? ==> result.size == size)
    ensures result.Uploaded? ==> Ascending(store.completed) && |store.completed| == TotalParts(size, partSize)
    ensures result.Uploaded? && file.steady && |file.content| == size ==> store.published == Some(file.content)
    ensures result.Failed? ==> result.error == OtherError
    ensures store.willing ==> result.Uploaded?
  {
    WholeFileFed(size, partSize);
    assert file.content == file.content[..|file.content|];
    if hashed != size { return Failed(HashedBytesMismatch); }
    var ok := store.CompleteMultipartUpload(u, list);
    if !ok { return Failed(OtherError); }
    return Uploaded(store.hashes.sha256(fed), hashed);
  }

  /** The part of an upload that follows its opening: feed every part in order, then complete. */
  method FeedAndComplete(file: LocalFile, store: Store, row: TaskRow, u: string, done: seq<CompletePart>, mtime: int,
                         size: nat, partSize: int) returns (result: UploadResult)
    requires partSize > 0 && file.Sound() && store.Honest() && Completes(store.uploads, u, done)
    requires forall k :: k in store.uploads[u] ==> NoCollision(file, store.hashes, store.uploads[u][k])
    modifies store`uploads, store`puts, store`published, store`completed, row`uploadId, row`partsMtime, row`partsSize
    ensures store.Honest()
    ensures Describes(result, store) && (result.Uploaded? ==> result.size == size)
    ensures result.Uploaded? ==> Ascending(store.completed) && |store.completed| == TotalParts(size, partSize)
    ensures result.Uploaded? && file.steady && |file.content| == size ==> store.published == Some(file.content)
    ensures result != Failed(HashedBytesMismatch) && (result == Failed(StaleRemoteParts) ==> done != [])
    ensures ListsAll(old(store.uploads), u, done) ==> NotResent(old(store.puts), store.puts, u, old(store.uploads)[u])
    ensures old(store.puts) <= store.puts
    ensures forall i :: |old(store.puts)| <= i < |store.puts| ==>
              store.puts[i].0 == u && Unlisted(done, store.puts[i].1)
    ensures Still(file, size) && Faithful(old(store.uploads)[u], file.content, partSize) ==>
              u in store.uploads ==> Faithful(store.uploads[u], file.content, partSize)
    ensures Calm(file, store, size) && Faithful(old(store.uploads)[u], file.content, partSize) ==>
              result != Failed(StaleRemoteParts)
    ensures OthersKept(old(store.uploads), store.uploads, u) && store.uploads.Keys <= old(store.uploads).Keys
    ensures Obliging(file, store, row, size) && Verified(file, store.hashes, done, partSize) ==> result.Uploaded?
    ensures RowSaved(row.uploadId, row.partsMtime, row.partsSize, old(row.uploadId), old(row.partsMtime),
                     old(row.partsSize), u, mtime, size)
  {
    var remote := IndexDoneParts(done);
    RemoteIsListed(store.uploads, u, done, remote);
    VerifiedIsFresh(file, store.hashes, done, remote, partSize);
    var fed, hashed, list, feeding := FeedAllParts(file, store, row, u, remote, mtime, size, partSize);
    if feeding.Some? { return Failed(feeding.value); }
    result := CompleteFed(file, store, u, list, fed, hashed, size, partSize);
  }

  ghost predicate ListsAll(uploads: map<string, map<int, Part>>, u: string, done: seq<CompletePart>) {
    u in uploads && forall k :: k in uploads[u] ==> CompletePart(k, uploads[u][k].etag) in done
  }

  /** No part of the upload can be mistaken for other bytes the file shows. */
  ghost predicate Distinct(file: LocalFile, store: Store, u: string)
    reads store
  {
    u in store.uploads ==> forall k :: k in store.uploads[u] ==> NoCollision(file, store.hashes, store.uploads[u][k])
  }

  method MultipartUpload(file: LocalFile, store: Store, row: TaskRow, task: string, mtime: int, size: nat,
                         partSize: int)
    returns (result: UploadResult, task': string)
    requires partSize > 0 && file.Sound() && store.Honest()
    requires task == "" || (task == row.uploadId && task in store.issued && Distinct(file, store, task))
    modifies store, row`uploadId, row`partsMtime, row`partsSize
    ensures store.Honest() && old(store.issued) <= store.issued
    // The reported digest and size are those of the assembled object, built from parts 1, 2, ..., in order.
    ensures Describes(result, store)
    ensures result.Uploaded? ==> result.size == size
    ensures result.Uploaded? ==> Ascending(store.completed) && |store.completed| == TotalParts(size, partSize)
    ensures result != Failed(HashedBytesMismatch)
    ensures result.Uploaded? && file.steady && |file.content| == size ==> store.published == Some(file.content)
    // Restarting is only ever asked for by a resumed upload, and nothing new was started for it.
    ensures result == Failed(StaleRemoteParts) ==> task != "" && task' == task && store.issued == old(store.issued)
    ensures |store.issued - old(store.issued)| <= 1
    // The row keeps its upload, or names one started by this call and only once the old one is gone or given up.
    ensures || row.uploadId == old(row.uploadId)
            || (row.uploadId == task' && row.uploadId in store.issued - old(store.issued))
    ensures task != "" && task in store.uploads ==> row.uploadId == task
    ensures NoneRevived(old(store.uploads), store.uploads, old(store.issued))
    // Parts go to the resumed upload or to one started by this call.
    ensures old(store.puts) <= store.puts
    ensures forall i :: |old(store.puts)| <= i < |store.puts| ==>
              store.puts[i].0 == task || store.puts[i].0 !in old(store.issued)
    // Resuming: parts the store already had are not sent again, and an unchanged file is never discarded.
    ensures store.plain && task in old(store.uploads) ==>
              NotResent(old(store.puts), store.puts, task, old(store.uploads)[task])
    ensures Still(file, size) && mtime == file.mtime && old(Resumable(store, row, file, partSize)) ==>
              Resumable(store, row, file, partSize)
    ensures Calm(file, store, size) && mtime == file.mtime && old(Resumable(store, row, file, partSize)) ==>
              result != Failed(StaleRemoteParts)
    // If nothing fails it succeeds, but for stored parts of another version.
    ensures Obliging(file, store, row, size) ==> result.Uploaded? || result == Failed(StaleRemoteParts)
  {
    var u, done, t, opening := OpenUpload(file, store, row, task, mtime, size, partSize);
    task' := t;
    if opening.Some? { return Failed(opening.value), task'; }
    result := FeedAndComplete(file, store, row, u, done, mtime, size, partSize);
  }

  // ---- one call of the uploader ----

  /** The resume gate: every condition must hold before a recorded part may be skipped. */
  function CanResumeParts(partsMtime: int, partsSize: int, mtime: int, size: int, statOk: bool,
                          isMultipart: bool): (ok: bool)
    ensures ok <==> statOk && isMultipart && (partsMtime, partsSize) == (mtime, size) != (0, 0)
  {
    if partsMtime == 0 && partsSize == 0 then false
    else if !statOk then false
    else if (mtime, size) != (partsMtime, partsSize) then false
    else isMultipart
  }

  /** Records the abort before destroying anything: afterwards the upload is on record or gone. */
  method DiscardStaleUpload(store: Store, row: TaskRow, u: string) returns (ok: bool)
    requires store.Honest()
    modifies store`uploads, row`outbox
    ensures store.Honest() && (store.uploads == old(store.uploads) || store.uploads == old(store.uploads) - {u})
    ensures ok ==> u in row.outbox || u !in store.uploads
    ensures !ok ==> store.uploads == old(store.uploads) && row.outbox == old(row.outbox)
    ensures row.outbox - {u} == old(row.outbox) - {u}
    ensures row.willing ==> ok
  {
    var recorded := row.EnqueueMultipartAbort(u);
    if !recorded { return false; }
    var confirmed := store.AbortMultipartUpload(u);
    if !confirmed { return true; }
    var _ := row.DeleteMultipartAbort(u);
    return true;
  }

  /** One read of at most `size` bytes feeds both the store and the digest. */
  method SinglePartUpload(file: LocalFile, store: Store, size: nat) returns (result: UploadResult)
    requires file.Sound() && store.Honest()
    modifies store`published
    ensures store.Honest() && Describes(result, store) && (result.Uploaded? ==> result.size == size)
    ensures result.Uploaded? && file.steady && |file.content| == size ==> store.published == Some(file.content)
    ensures result != Failed(StaleRemoteParts)
    ensures Still(file, size) && file.readable && store.willing ==> result.Uploaded?
  {
    var data := file.ReadRange(0, size);
    if data.IoError? { return Failed(OtherError); }
    var answer := store.PutObject(data.bytes);
    if answer.None? { return Failed(OtherError); }
    if |data.bytes| != size { return Failed(ByteCountMismatch); }
    if ETagIsComparable(answer.value) && NormalizeETag(answer.value) != store.hashes.md5(data.bytes) {
      return Failed(OtherError);
    }
    assert file.content == file.content[0..|file.content|];
    return Uploaded(store.hashes.sha256(data.bytes), size);
  }

  /** One attempt: the resume gate, at most one restart, and one of the two ways to upload. */
  method UploadFile(file: LocalFile, store: Store, row: TaskRow, threshold: nat, partSize: int)
    returns (result: UploadResult)
    requires partSize > 0 && file.Sound() && store.Honest() && (row.uploadId == "" || row.uploadId in store.issued)
    requires Distinct(file, store, row.uploadId)
    modifies store, row
    ensures store.Honest() && old(store.issued) <= store.issued && (row.uploadId == "" || row.uploadId in store.issued)
    // Success describes the published object, and publishes an unchanged file whole.
    ensures Describes(result, store)
    ensures result.Uploaded? && file.steady ==> store.published == Some(file.content)
    // At most one upload is started, and a stale one never surfaces.
    ensures |store.issued - old(store.issued)| <= 1 && result != Failed(StaleRemoteParts)
    // The upload that was on the row is still there, or on record, or gone.
    ensures old(row.uploadId) in store.uploads ==> row.uploadId == old(row.uploadId) || old(row.uploadId) in row.outbox
    // Nothing the recorded upload already holds is sent to it again.
    ensures store.plain && old(row.uploadId) in old(store.uploads) ==>
              NotResent(old(store.puts), store.puts, old(row.uploadId), old(store.uploads)[old(row.uploadId)])
    // An unchanged file leaves a row that resumes, whichever reads or calls failed.
    ensures file.steady && old(Resumable(store, row, file, partSize)) ==> Resumable(store, row, file, partSize)
    // And nothing is discarded unless a read failed, the store held back an answer, or the file is small.
    ensures Calm(file, store, |file.content|) && threshold < |file.content|
            && old(Resumable(store, row, file, partSize)) ==>
              row.outbox == old(row.outbox)
    // An unchanged file is uploaded if nothing fails, whatever the row and the store hold from before.
    ensures Obliging(file, store, row, |file.content|) ==> result.Uploaded? && store.published == Some(file.content)
  {
    var ok, size, mtime := file.Stat();
    if !ok { return Failed(OtherError); }
    var isMultipart := size > threshold;
    var task := row.uploadId;
    if task != "" && !CanResumeParts(row.partsMtime, row.partsSize, mtime, size, true, isMultipart) {
      var discarded := DiscardStaleUpload(store, row, task);
      if !discarded { return Failed(OtherError); }
      task := "";
    }
    if !isMultipart {
      result := SinglePartUpload(file, store, size);
      return;
    }
    result, task := MultipartUpload(file, store, row, task, mtime, size, partSize);
    if result == Failed(StaleRemoteParts) {
      var discarded := DiscardStaleUpload(store, row, task);
      if !discarded { return Failed(OtherError); }
      result, task := MultipartUpload(file, store, row, "", mtime, size, partSize);
    }
  }

  /** No range of the file shares its MD5 with other bytes the file can show. */
  ghost predicate RangesDistinct(file: LocalFile, hashes: Hashes) {
    forall i, j, etag :: 0 <= i <= j <= |file.content| ==> NoCollision(file, hashes, Part(file.content[i..j], etag))
  }

  lemma FaithfulIsDistinct(file: LocalFile, store: Store, row: TaskRow, partSize: int)
    requires partSize > 0 && RangesDistinct(file, store.hashes) && store.Honest()
             && Resumable(store, row, file, partSize)
    ensures Distinct(file, store, row.uploadId)
  {
    if row.uploadId in store.uploads {
      forall k | k in store.uploads[row.uploadId]
        ensures NoCollision(file, store.hashes, store.uploads[row.uploadId][k])
      {
        var part := store.uploads[row.uploadId][k];
        RangeIsSlice(file.content, k, partSize);
        var i, j := EndOf(k - 1, |file.content|, partSize), EndOf(k, |file.content|, partSize);
        assert 0 <= i <= j <= |file.content| && part == Part(file.content[i..j], part.etag);
      }
    }
  }

  /** Attempt after attempt on an unchanged file, each one stopped wherever it may be: the row stays resumable, and
      the attempt that succeeds publishes the file. Failed reads apart, no attempt discards what was stored. */
  method UploadUntilDone(file: LocalFile, store: Store, row: TaskRow, threshold: nat, partSize: int, attempts: nat)
    returns (result: UploadResult)
    requires partSize > 0 && file.Sound() && store.Honest() && RangesDistinct(file, store.hashes)
    requires file.steady && Resumable(store, row, file, partSize)
    modifies store, row
    ensures store.Honest() && Resumable(store, row, file, partSize)
    ensures result.Uploaded? ==> store.published == Some(file.content)
    ensures result.Uploaded? ==> result.sha256 == store.hashes.sha256(file.content) && result.size == |file.content|
    ensures Calm(file, store, |file.content|) && threshold < |file.content| ==> row.outbox == old(row.outbox)
    ensures attempts > 0 && Obliging(file, store, row, |file.content|) ==> result.Uploaded?
  {
    result := Failed(OtherError);
    for i := 0 to attempts
      invariant store.Honest() && Resumable(store, row, file, partSize) && result.Failed?
      invariant i > 0 ==> !Obliging(file, store, row, |file.content|)
      invariant Calm(file, store, |file.content|) && threshold < |file.content| ==> row.outbox == old(row.outbox)
    {
      FaithfulIsDistinct(file, store, row, partSize);
      result := UploadFile(file, store, row, threshold, partSize);
      if result.Uploaded? { return; }
    }
  }
}
