# Blob router: a Dafny model of envelope routing

The blob router takes signed zip envelopes from per-jurisdiction source
containers, checks their entry names and signature, and uploads them to one of
three target storage accounts: CFT, CRIME or PCQ. It records every outcome in a
ledger. Rejected blobs are archived in a companion `<container>-rejected`
container. Blobs that come back after being processed and deleted are reported
as duplicates. This project models the decision and bookkeeping logic of that
pipeline and proves its properties:

- `client_proxy.dfy` (module `StorageRouting`): upload routing. It chooses a
  container client for each target account. CRIME uses the injected client.
  CFT and PCQ build a client scoped to the container from a SAS token. The
  upload sends the bytes. On a 4xx response for a token-bearing target it
  invalidates the cached token and rethrows. The SAS token cache is a class
  whose ghost `calls` log records every call made on it. The proxy's ghost
  `uploads` log records the requests that reached the storage service.
- `duplicate_finder.dfy` (module `Duplicates`): the listing, then the ledger
  lookup, then only the envelopes already marked deleted.
- `lease_acquirer.dfy` (module `Leases`): try to acquire the lease, run exactly
  one callback, and release only if the lease was acquired and the caller asked
  for a release.
- `zip_verifiers.dfy` (module `ZipVerification`): the exact entry-name check and
  the signature check. Every signature failure is reported as one kind of
  exception. The cryptography is an uninterpreted function value.
- `storage.dfy` and `blob_mover.dfy` (modules `Storage` and `BlobMovement`):
  storage is a map from container to blob name to versions. The snapshots come
  first and the current version is last. The move snapshots a colliding blob,
  copies the source blob and deletes the source, changing two containers in
  place.
- `blob_processor.dfy` (module `Processing`) and `ledger.dfy` (module `Ledger`):
  per-blob processing. It skips a blob that already has a ledger row. Otherwise
  it downloads the blob, dispatches it and records a DISPATCHED row. A storage
  failure is caught and leaves no row.

The external world is passed in as parameters:

- the storage SDK's failure during an upload (`UploadFault`);
- the lease service's answer (`AcquireAnswer`);
- SHA256withRSA (`Crypto`);
- the token issuer (`issuer`);
- the clock (`now`).

Each component that is specified only by tests has a scenario method
(`ProxyScenarios`, `LeaseAcquirerScenarios`, `MoveScenario`,
`CollisionScenario`, `BlobProcessorScenarios`). These replay the tests'
situations and assert the tests' expectations from the contracts alone.

Two behaviours are worth stating because a reader might expect otherwise:

- The upload sends no request conditions, so nothing stops it from overwriting
  a blob of the same name in the target (`RequestFor` proves `conditions.None?`).
- `process` skips a blob when a ledger row already exists for it. The tests
  show this only for a row that is not deleted; the model skips on a row of any
  status, deleted or not.

BlobProcessor.java is not part of this model, and its tests assert nothing
about deletion of the source blob, a lease or audit events, so the model of
`process` has none of them.

The release after a lease acquired with the release flag false is not asserted
by the test (`LeaseAcquirerTest.java:45`). `IfAcquiredOrElse` follows the
stated contract: release if and only if the lease was acquired and the flag is
true.

## Model

| member | source | states |
|---|---|---|
| `Ledger.FindEnvelope` | src/main/java/uk/gov/hmcts/reform/blobrouter/tasks/processors/DuplicateFinder.java:32-33 | The lookup is empty exactly when no row has that (file name, container). Otherwise it returns a matching row after which no row matches, i.e. the most recent one. |
| `Ledger.FindAfterInsert` | src/integrationTest/java/uk/gov/hmcts/reform/blobrouter/tasks/processors/BlobProcessorTest.java:65-69 | After a row is appended, looking up its own (file name, container) finds that row. Every other lookup is unchanged. |
| `Ledger.EnvelopeRepository.Insert` | src/integrationTest/java/uk/gov/hmcts/reform/blobrouter/tasks/processors/BlobProcessorTest.java:86-93 | Appends exactly the row, and the row is what `Find` then returns for its (file name, container). |
| `ZipVerification.VerifyFileNames` | src/test/java/uk/gov/hmcts/reform/blobrouter/util/ZipVerifiersTest.java:64-97 | Accepts if and only if the name set is exactly {ENVELOPE, SIGNATURE}. Otherwise it fails with InvalidZipArchive carrying the entry-names message; the tests only require the message to contain that text, and the model fixes it to exactly that text. |
| `ZipVerification.TwoNamesAreThePair` | src/test/java/uk/gov/hmcts/reform/blobrouter/util/ZipVerifiersTest.java:64-72 | A two-element set that holds both expected names holds nothing else. |
| `ZipVerification.VerifySignature` | src/test/java/uk/gov/hmcts/reform/blobrouter/util/ZipVerifiersTest.java:115-199 | Succeeds if and only if the signature check reports a match, so there is no false positive. Every failure is DocSignatureFailure with "Zip signature failed verification". The cause is a SignatureException exactly when the signature is malformed. |
| `ZipVerification.VerifyZip` | src/test/java/uk/gov/hmcts/reform/blobrouter/util/ZipVerifiersTest.java:99-113 | Succeeds if and only if the entries are exactly the pair and the payload's signature matches, and then yields the payload entry. A wrong entry set fails with InvalidZipArchive whatever the signature. With the right entries, every failure is a signature failure. |
| `ZipVerification.SignedEnvelopeVerifies` | src/test/java/uk/gov/hmcts/reform/blobrouter/util/ZipVerifiersTest.java:99-104 | An envelope built from a payload and a matching signature verifies and yields the payload. |
| `ZipVerification.OtherKeyRejected` | src/test/java/uk/gov/hmcts/reform/blobrouter/util/ZipVerifiersTest.java:106-113 | An envelope whose signature does not match the key fails with DocSignatureFailure. It carries a SignatureException cause when the signature is malformed. |
| `ZipVerification.ExtraEntryRejected` | src/test/java/uk/gov/hmcts/reform/blobrouter/util/ZipVerifiersTest.java:74-85 | The two names plus any third name are rejected with InvalidZipArchive. |
| `ZipVerification.SignatureEntryReplacedRejected` | src/test/java/uk/gov/hmcts/reform/blobrouter/util/ZipVerifiersTest.java:87-97 | ENVELOPE with any name other than SIGNATURE is rejected with InvalidZipArchive. |
| `Storage.Snapshotted` | src/integrationTest/java/uk/gov/hmcts/reform/blobrouter/services/storage/BlobMoverTest.java:81-95 | A snapshot keeps the blob's current version as an extra listed entry and touches no other container. |
| `Storage.Copied` | src/integrationTest/java/uk/gov/hmcts/reform/blobrouter/services/storage/BlobMoverTest.java:54-57 | A copy succeeds if and only if the source blob and the destination container exist. The destination's current version then becomes the source's, the snapshots already listed under that name are kept, and nothing else changes. |
| `Storage.Deleted` | src/integrationTest/java/uk/gov/hmcts/reform/blobrouter/services/storage/BlobMoverTest.java:48-52 | A delete succeeds if and only if the blob exists, and then removes exactly that name. |
| `Storage.BlobStore.Download` | src/integrationTest/java/uk/gov/hmcts/reform/blobrouter/tasks/processors/BlobProcessorTest.java:71-77 | Returns the current version of an existing blob. A missing container or blob gives a 404 storage exception. |
| `Storage.BlobStore.CreateSnapshot` | src/integrationTest/java/uk/gov/hmcts/reform/blobrouter/services/storage/BlobMoverTest.java:81-95 | The store afterwards is `Snapshotted` of the store before. |
| `Storage.BlobStore.CopyFrom` | src/integrationTest/java/uk/gov/hmcts/reform/blobrouter/services/storage/BlobMoverTest.java:54-57 | The store afterwards is the result of `Copied`. On failure the store is unchanged and the exception is returned. |
| `Storage.BlobStore.Delete` | src/integrationTest/java/uk/gov/hmcts/reform/blobrouter/services/storage/BlobMoverTest.java:48-52 | The store afterwards is the result of `Deleted`. On failure the store is unchanged and the exception is returned. |
| `BlobMovement.MoveSpec` | src/integrationTest/java/uk/gov/hmcts/reform/blobrouter/services/storage/BlobMoverTest.java:31-102 | The move succeeds if and only if the source blob and `<container>-rejected` exist. On success the source no longer lists the name, the rejected container lists it in addition to what it had, and that name gains exactly one entry holding the source's content. Earlier versions in the rejected container are always kept as a prefix. Every other blob of the source and of the rejected container keeps its entries, a failed move leaves the source container unchanged, and no other container is touched. |
| `BlobMovement.MoveIntoFreshName` | src/integrationTest/java/uk/gov/hmcts/reform/blobrouter/services/storage/BlobMoverTest.java:31-59 | Moving into a rejected container that lacked the name leaves exactly one entry under that name. |
| `BlobMovement.MoveOnCollision` | src/integrationTest/java/uk/gov/hmcts/reform/blobrouter/services/storage/BlobMoverTest.java:61-102 | On a name collision the entries under that name are the earlier ones followed by the moved blob: one existing blob plus the move gives two entries. |
| `BlobMovement.BlobMover.MoveToRejectedContainer` | src/integrationTest/java/uk/gov/hmcts/reform/blobrouter/services/storage/BlobMoverTest.java:44-45 | The imperative snapshot, copy, delete sequence ends in exactly the state and exception given by `MoveSpec`. |
| `StorageRouting.SasTokenCache.GetSasToken` | src/main/java/uk/gov/hmcts/reform/blobrouter/services/storage/BlobContainerClientProxy.java:44 | Returns the CFT token for the container and logs one `getSasToken` call. |
| `StorageRouting.SasTokenCache.GetPcqSasToken` | src/main/java/uk/gov/hmcts/reform/blobrouter/services/storage/BlobContainerClientProxy.java:52 | Returns the PCQ token for the container and logs one `getPcqSasToken` call. |
| `StorageRouting.SasTokenCache.RemoveFromCache` | src/main/java/uk/gov/hmcts/reform/blobrouter/services/storage/BlobContainerClientProxy.java:102 | Logs one `removeFromCache` call for the container. |
| `StorageRouting.TokenCalls` | src/main/java/uk/gov/hmcts/reform/blobrouter/services/storage/BlobContainerClientProxy.java:39-60 | Obtaining a client reads the cache if and only if the target is not CRIME. It only reads, and only for the destination container. |
| `StorageRouting.ClientFor` | src/main/java/uk/gov/hmcts/reform/blobrouter/services/storage/BlobContainerClientProxy.java:39-60 | CRIME gets the injected client whatever the container. CFT and PCQ get a client scoped to the destination container, built from their own namespace's token for it. |
| `StorageRouting.RequestFor` | src/main/java/uk/gov/hmcts/reform/blobrouter/services/storage/BlobContainerClientProxy.java:77-88 | The request goes through the given client under the given name. It carries exactly the given bytes, a length equal to their count and a 40-second timeout. Headers, metadata, tier and content MD5 are absent. It has no request conditions, so there is no guard against overwriting. |
| `StorageRouting.HandleFailureAsWritten` | src/main/java/uk/gov/hmcts/reform/blobrouter/services/storage/BlobContainerClientProxy.java:91-104 | As written: CRIME always rethrows without invalidating. For CFT and PCQ, an exception without a response becomes a NullPointerException with no invalidation. With a response, the catch block invalidates exactly on 4xx and rethrows. |
| `StorageRouting.HandleFailure` | src/main/java/uk/gov/hmcts/reform/blobrouter/services/storage/BlobContainerClientProxy.java:99-104 | As intended: the original exception is always rethrown. The token is invalidated if and only if the target is token-bearing and the response is a 4xx. |
| `StorageRouting.NullResponseLosesOriginal` | src/main/java/uk/gov/hmcts/reform/blobrouter/services/storage/BlobContainerClientProxy.java:97-101 | For CFT or PCQ, an exception without a response is lost as written but rethrown as intended. |
| `StorageRouting.AsWrittenAgreesWithResponse` | src/main/java/uk/gov/hmcts/reform/blobrouter/services/storage/BlobContainerClientProxy.java:99-104 | With a response present, or for CRIME, the code as written and the intended handling agree. |
| `StorageRouting.BlobContainerClientProxy.Get` | src/main/java/uk/gov/hmcts/reform/blobrouter/services/storage/BlobContainerClientProxy.java:39-60 | Returns `ClientFor` the target and adds exactly `TokenCalls` to the cache log. |
| `StorageRouting.BlobContainerClientProxy.Upload` | src/main/java/uk/gov/hmcts/reform/blobrouter/services/storage/BlobContainerClientProxy.java:62-106 | A successful upload sends `RequestFor` the chosen client and never calls `removeFromCache`. A failure propagates the same exception. The only extra cache call is one `removeFromCache(destination)`, made exactly when `HandleFailure` invalidates, also when the failure happens while building the client. |
| `StorageRouting.BlobContainerClientProxy.OnFailure` | src/main/java/uk/gov/hmcts/reform/blobrouter/services/storage/BlobContainerClientProxy.java:91-105 | The catch block: one `removeFromCache` when `HandleFailure` says so, then the same exception. |
| `Duplicates.FindIn` | src/main/java/uk/gov/hmcts/reform/blobrouter/tasks/processors/DuplicateFinder.java:27-36 | The result is no longer than the listing. Every reported envelope is marked deleted, belongs to the queried container, names a listed blob and is a ledger row. |
| `Duplicates.FindInAppend` | src/main/java/uk/gov/hmcts/reform/blobrouter/tasks/processors/DuplicateFinder.java:28-35 | The result follows the listing order: the result for a concatenated listing is the concatenation of the results. |
| `Duplicates.FindInSingle` | src/main/java/uk/gov/hmcts/reform/blobrouter/tasks/processors/DuplicateFinder.java:32-34 | A listed blob contributes its ledger envelope if that envelope is marked deleted. A blob with no record, or with a record not marked deleted, contributes nothing. |
| `Duplicates.FindInMembership` | src/main/java/uk/gov/hmcts/reform/blobrouter/tasks/processors/DuplicateFinder.java:32-35 | An envelope is reported if and only if it is marked deleted and is the ledger lookup of some listed blob under the queried container. |
| `Leases.LeaseClient.AcquireLease` | src/test/java/uk/gov/hmcts/reform/blobrouter/services/storage/LeaseAcquirerTest.java:58 | Counts one acquire call, returns the service's answer, and holds the lease if it was granted. |
| `Leases.LeaseClient.ReleaseLease` | src/test/java/uk/gov/hmcts/reform/blobrouter/services/storage/LeaseAcquirerTest.java:86 | Counts one release call, and the lease is no longer held. |
| `Leases.Consumer.Accept` | src/test/java/uk/gov/hmcts/reform/blobrouter/services/storage/LeaseAcquirerTest.java:48 | Records the value the callback was called with. |
| `Leases.EffectsOf` | src/test/java/uk/gov/hmcts/reform/blobrouter/services/storage/LeaseAcquirerTest.java:38-87 | Exactly one callback runs. The success callback runs if and only if the lease was granted. Release happens if and only if the lease was granted and release was asked for, and never without the success branch. |
| `Leases.LeaseAcquirer.IfAcquiredOrElse` | src/test/java/uk/gov/hmcts/reform/blobrouter/services/storage/LeaseAcquirerTest.java:38-87 | When granted, the success callback receives the returned lease id once, the failure callback is never called, and one release happens if it was asked for. When refused, the failure callback receives the error code once, the success callback is never called, and there is no release. There is always exactly one acquire call. |
| `Processing.BlobProcessor.Process` | src/integrationTest/java/uk/gov/hmcts/reform/blobrouter/tasks/processors/BlobProcessorTest.java:59-97 | An existing row of any status means no dispatch, no cache use and no new row. An unreadable blob, such as one in a missing container, is swallowed with no upload, no cache use and no row. A failed upload is swallowed and leaves no row; the cache log and the upload log grow by exactly what the upload did. A successful dispatch reads the target's token, uploads the blob's bytes unchanged and appends a DISPATCHED row, which the next lookup returns. |

## Findings

| source | as written | input that shows it | evidently intended | confidence | as-written member | corrected member |
|---|---|---|---|---|---|---|
| src/main/java/uk/gov/hmcts/reform/blobrouter/services/storage/BlobContainerClientProxy.java:99-101 | For CFT and PCQ, the catch block calls `ex.getResponse().getStatusCode()` without a null check. The log statement two lines above guards exactly that case. | An upload to CFT or PCQ failing with `new BlobStorageException(msg, null, null)`, which has no response. A NullPointerException replaces the storage exception. | Rethrow the original exception without invalidating the token, as for any other non-4xx failure. | medium, not executed | `StorageRouting.HandleFailureAsWritten`, `StorageRouting.NullResponseLosesOriginal` | `StorageRouting.HandleFailure` |

## Left out

- SasTokenCache.java is not part of this model. The cache's map, token expiry, fetching through the token issuer and concurrent duplicate fetches are not modelled. A token is the issuer's token for its (scope, container), and only the calls made on the cache are recorded.
- StorageRouting.Is4xxClientError: treats every status from 400 to 499 as a client error. Spring's `HttpStatus.valueOf` throws an IllegalArgumentException for a code outside its enumeration, and that is not reproduced.
- StorageRouting.BlobContainerClientProxy.Get: the `default` branch (UnknownStorageAccountException) cannot be reached with the closed three-value account type, so it is not modelled. Being a non-HTTP exception, it would not be caught either.
- Every storage failure is a BlobStorageException. Other HttpResponseException subclasses and non-HTTP runtime exceptions from the SDK are not distinguished.
- Logging, upload durations, `System.currentTimeMillis` and the timeout as a real clock are not modelled. The 40-second value is kept as a field of the request.
- Zip byte encoding and decoding (java.util.zip) are not modelled. An archive is a map from entry name to bytes, so duplicate entry names cannot be expressed.
- SHA256withRSA (RSASSA-PKCS1-v1_5 with SHA-256, section 8.2 of RFC 8017) is an uninterpreted function value. Public key decoding (PublicKeyDecoder), InvalidKeyException and NoSuchAlgorithmException are not modelled.
- ZipVerifiers.java is not part of this model. The values of ENVELOPE and SIGNATURE are stand-ins; the model relies only on their being distinct.
- LeaseAcquirer.java is not part of this model. The lease duration, the lease-client provider and exceptions thrown by the callbacks themselves are not modelled.
- BlobMover.java is not part of this model. The SAS URL used for the copy is not modelled, and neither is the service's refusal to delete a source blob that has snapshots. A copy completes synchronously.
- Processing.BlobProcessor.Process: the lease, signature verification with the rejection branch, and deletion of the source blob are not modelled, because BlobProcessor.java is not part of this model and its tests assert nothing about them. Skipping on a row of any status, including a deleted one, is a modelling choice: the tests show the skip only for a row that is not deleted. `BlobDispatcher.dispatch` is modelled as the proxy's upload with the same arguments. The target account is a parameter.
- The audit event log (EventType, EventRecord, EventRecordMapper and the events table) is not modelled, because the processor's tests assert nothing about events.
- EnvelopeService and EnvelopeRepository are not part of this model. A lookup returns the most recently inserted row for (file name, container), and the listing is given in storage order.
- Duplicates.FindIn: the listing is a parameter, so the storage failure that `listBlobs()` raises for a missing container, which propagates out of `findIn`, is not modelled; the model covers only a listing that succeeded.
- Concurrency across workers, lease races and the crash window between the ledger write and source deletion are not modelled.
- Reporting, reconciliation (SummaryReportService), HTTP client wiring (HttpConfiguration, BulkScanProcessorClient), row mappers and the functional-test upload helper are outside the modelled core.
