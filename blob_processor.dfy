/**
 * Processing of one blob: skip it when the ledger already has a row for it,
 * otherwise download it, dispatch it to its target and record a DISPATCHED
 * row; a storage failure is caught and leaves no row.
 */
module Processing {
  import opened Common
  import opened Ledger
  import opened Storage
  import opened StorageRouting

  /** The row written for a dispatched blob. */
  function DispatchedRow(containerName: string, blobName: string, blob: Blob, now: int): (e: Envelope)
  {
    Envelope(containerName, blobName, blob.createdAt, Some(now), Dispatched, false)
  }

  class BlobProcessor {
    const storage: BlobStore
    /** BlobDispatcher.dispatch forwards to this proxy's upload. */
    const proxy: BlobContainerClientProxy
    const repository: EnvelopeRepository

    constructor (storage: BlobStore, proxy: BlobContainerClientProxy, repository: EnvelopeRepository)
      ensures this.storage == storage && this.proxy == proxy && this.repository == repository
    {
      this.storage := storage;
      this.proxy := proxy;
      this.repository := repository;
    }

    /**
     * Process `blobName` of `containerName`, dispatching to `target`.
     * `fault` is the failure the upload meets, if any; `now` is the clock.
     */
    method Process(blobName: string, containerName: string, target: TargetStorageAccount,
                   fault: Option<UploadFault>, now: int)
      requires storage.Valid()
      modifies repository, proxy, proxy.cache
      // a blob that already has a row, whatever its status, is never dispatched
      ensures old(repository.Find(blobName, containerName)).Some? ==>
                && repository.rows == old(repository.rows)
                && proxy.uploads == old(proxy.uploads)
                && proxy.cache.calls == old(proxy.cache.calls)
      // a blob that cannot be read is not dispatched and leaves no row
      ensures old(repository.Find(blobName, containerName)).None? && !HasBlob(storage.containers, containerName, blobName) ==>
                && repository.rows == old(repository.rows)
                && proxy.uploads == old(proxy.uploads)
                && proxy.cache.calls == old(proxy.cache.calls)
      // a failed dispatch leaves no row; the cache and the service see what the upload did
      ensures old(repository.Find(blobName, containerName)).None? && HasBlob(storage.containers, containerName, blobName)
              && fault.Some? ==>
                && repository.rows == old(repository.rows)
                && proxy.cache.calls == old(proxy.cache.calls) + TokenCalls(target, containerName)
                     + (if HandleFailure(target, fault.value.error).invalidate then [RemovedFromCache(containerName)] else [])
                && proxy.uploads == old(proxy.uploads)
                     + (if fault.value.stage == BuildingClient then []
                        else [RequestFor(ClientFor(target, containerName, proxy.cache.issuer), blobName,
                                         Current(storage.containers, containerName, blobName).content)])
      // a dispatched blob is uploaded as it is and gets a DISPATCHED row that the next lookup finds
      ensures old(repository.Find(blobName, containerName)).None? && HasBlob(storage.containers, containerName, blobName)
              && fault.None? ==>
                var row := DispatchedRow(containerName, blobName, Current(storage.containers, containerName, blobName), now);
                && repository.rows == old(repository.rows) + [row]
                && repository.Find(blobName, containerName) == Some(row)
                && proxy.cache.calls == old(proxy.cache.calls) + TokenCalls(target, containerName)
                && proxy.uploads == old(proxy.uploads)
                     + [RequestFor(ClientFor(target, containerName, proxy.cache.issuer), blobName,
                                   Current(storage.containers, containerName, blobName).content)]
    {
      var existing := repository.Find(blobName, containerName);
      if existing.Some? {
        return;
      }
      var download := storage.Download(containerName, blobName);
      if download.Err? {
        return;
      }
      var blob := download.value;
      var thrown := proxy.Upload(blobName, blob.content, containerName, target, fault);
      if thrown.Some? {
        return;
      }
      repository.Insert(DispatchedRow(containerName, blobName, blob, now));
    }
  }

  /** The three situations exercised against BlobProcessor. */
  method BlobProcessorScenarios(issuer: (TokenScope, string) -> string, blob: Blob, now: int)
  {
    var storage := new BlobStore(map["bulkscan" := map["new.blob" := [blob]]]);
    var cache := new SasTokenCache(issuer);
    var proxy := new BlobContainerClientProxy(cache);

    // a new blob in a reachable container: a DISPATCHED row for it
    var repository := new EnvelopeRepository();
    var processor := new BlobProcessor(storage, proxy, repository);
    processor.Process("new.blob", "bulkscan", Cft, None, now);
    assert cache.calls == [SasTokenRequested("bulkscan")];
    assert repository.Find("new.blob", "bulkscan").Some?;
    assert repository.Find("new.blob", "bulkscan").value.status == Dispatched;

    // a container that does not exist: the error is swallowed and no row is written
    repository := new EnvelopeRepository();
    processor := new BlobProcessor(storage, proxy, repository);
    processor.Process("new.blob", "bogus", Cft, None, now);
    assert repository.rows == [];
    assert repository.Find("new.blob", "bogus").None?;

    // a REJECTED row already there: nothing is dispatched
    repository := new EnvelopeRepository();
    repository.Insert(Envelope("bulkscan", "new.blob", now, Some(now + 100), Rejected, false));
    processor := new BlobProcessor(storage, proxy, repository);
    ghost var uploadsBefore := proxy.uploads;
    processor.Process("new.blob", "bulkscan", Cft, None, now);
    assert proxy.uploads == uploadsBefore;
  }
}
