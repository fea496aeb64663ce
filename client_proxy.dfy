/**
 * Upload routing: a write client per target storage account, chosen by a
 * closed switch, and the upload with invalidation of the cached SAS token
 * when a token-bearing target answers with a client error.
 */
module StorageRouting {
  import opened Common

  datatype TargetStorageAccount = Cft | Crime | Pcq

  /** The two token namespaces of the SAS token cache. */
  datatype TokenScope = CftTokens | PcqTokens

  /** The calls made on the SAS token cache, in order. */
  datatype CacheCall =
    | SasTokenRequested(container: string)
    | PcqSasTokenRequested(container: string)
    | RemovedFromCache(container: string)

  /**
   * The SAS token cache, seen from outside. SasTokenCache.java is not part
   * of this model: the token it hands out is the issuer's token for the
   * (scope, container); `calls` records every call made on it.
   */
  class SasTokenCache {
    const issuer: (TokenScope, string) -> string
    ghost var calls: seq<CacheCall>

    constructor (issuer: (TokenScope, string) -> string)
      ensures this.issuer == issuer && calls == []
    {
      this.issuer := issuer;
      calls := [];
    }

    method GetSasToken(containerName: string) returns (token: string)
      modifies this
      ensures token == issuer(CftTokens, containerName)
      ensures calls == old(calls) + [SasTokenRequested(containerName)]
    {
      token := issuer(CftTokens, containerName);
      calls := calls + [SasTokenRequested(containerName)];
    }

    method GetPcqSasToken(containerName: string) returns (token: string)
      modifies this
      ensures token == issuer(PcqTokens, containerName)
      ensures calls == old(calls) + [PcqSasTokenRequested(containerName)]
    {
      token := issuer(PcqTokens, containerName);
      calls := calls + [PcqSasTokenRequested(containerName)];
    }

    method RemoveFromCache(containerName: string)
      modifies this
      ensures calls == old(calls) + [RemovedFromCache(containerName)]
    {
      calls := calls + [RemovedFromCache(containerName)];
    }
  }

  /** A container client: the injected crime client, or one built from a SAS token for one container. */
  datatype ContainerClient =
    | CrimeClient
    | ScopedClient(scope: TokenScope, sasToken: string, containerName: string)

  datatype RequestConditions = RequestConditions(ifNoneMatch: Option<string>)

  /** One uploadWithResponse call as the storage service receives it. */
  datatype UploadRequest = UploadRequest(
    client: ContainerClient,
    blobName: string,
    data: Bytes,
    length: int,
    headers: Option<map<string, string>>,
    metadata: Option<map<string, string>>,
    tier: Option<string>,
    contentMd5: Option<Bytes>,
    conditions: Option<RequestConditions>,
    timeoutSeconds: nat)

  const UPLOAD_TIMEOUT_SECONDS: nat := 40

  /** Where an upload fails: while the client is obtained (no request sent) or in the upload call itself. */
  datatype FailureStage = BuildingClient | Uploading

  /** A failure of the storage SDK during an upload, as the environment decides it. */
  datatype UploadFault = UploadFault(stage: FailureStage, error: StorageException)

  /** What leaves the catch block of upload. */
  datatype Thrown = Rethrown(original: StorageException) | NullPointerException

  datatype FailureHandling = FailureHandling(invalidate: bool, thrown: Thrown)

  /** The token namespace of a target; the crime account has none. */
  function TokenScopeOf(account: TargetStorageAccount): (scope: Option<TokenScope>)
  {
    match account
    case Cft => Some(CftTokens)
    case Pcq => Some(PcqTokens)
    case Crime => None
  }

  /** The cache calls made while obtaining the client for a target. */
  function TokenCalls(account: TargetStorageAccount, containerName: string): (r: seq<CacheCall>)
    ensures account == Crime <==> r == []
    ensures forall call :: call in r ==> !call.RemovedFromCache? && call.container == containerName
  {
    match account
    case Cft => [SasTokenRequested(containerName)]
    case Pcq => [PcqSasTokenRequested(containerName)]
    case Crime => []
  }

  /** The client used for a target: the crime client regardless of container, otherwise one scoped to the container. */
  function ClientFor(account: TargetStorageAccount, containerName: string, issuer: (TokenScope, string) -> string): (client: ContainerClient)
    ensures client.CrimeClient? <==> TokenScopeOf(account).None?
    ensures client.ScopedClient? ==>
              && client.scope == TokenScopeOf(account).value
              && client.containerName == containerName
              && client.sasToken == issuer(client.scope, containerName)
  {
    match account
    case Cft => ScopedClient(CftTokens, issuer(CftTokens, containerName), containerName)
    case Pcq => ScopedClient(PcqTokens, issuer(PcqTokens, containerName), containerName)
    case Crime => CrimeClient
  }

  /** The request upload sends: the bytes as given, their length, a 40 s timeout and every optional argument null. */
  function RequestFor(client: ContainerClient, blobName: string, contents: Bytes): (req: UploadRequest)
    ensures req.data == contents && req.length == |contents| && req.timeoutSeconds == UPLOAD_TIMEOUT_SECONDS
    ensures req.client == client && req.blobName == blobName
    ensures req.headers.None? && req.metadata.None? && req.tier.None? && req.contentMd5.None?
    ensures req.conditions.None?
  {
    UploadRequest(client, blobName, contents, |contents|, None, None, None, None, None, UPLOAD_TIMEOUT_SECONDS)
  }

  /** Spring's client-error series. */
  predicate Is4xxClientError(statusCode: int)
  {
    400 <= statusCode < 500
  }

  /**
   * The catch block of upload as written: for CFT and PCQ it reads the
   * status of the response without checking that there is one, so an
   * exception without a response turns into a NullPointerException there.
   */
  function HandleFailureAsWritten(account: TargetStorageAccount, e: StorageException): (h: FailureHandling)
    ensures account == Crime ==> h == FailureHandling(false, Rethrown(e))
    ensures account != Crime && e.statusCode.None? ==> h == FailureHandling(false, NullPointerException)
    ensures e.statusCode.Some? ==>
              h == FailureHandling(account != Crime && Is4xxClientError(e.statusCode.value), Rethrown(e))
  {
    if account.Crime? then
      FailureHandling(false, Rethrown(e))
    else
      match e.statusCode
      case None => FailureHandling(false, NullPointerException)
      case Some(code) => FailureHandling(Is4xxClientError(code), Rethrown(e))
  }

  /**
   * The catch block as evidently intended: invalidate the token of a
   * token-bearing target on a 4xx response, then rethrow the original.
   */
  function HandleFailure(account: TargetStorageAccount, e: StorageException): (h: FailureHandling)
    ensures h.thrown == Rethrown(e)
    ensures h.invalidate <==> TokenScopeOf(account).Some? && e.statusCode.Some? && Is4xxClientError(e.statusCode.value)
  {
    var tokenBearing := TokenScopeOf(account).Some?;
    match e.statusCode
    case None => FailureHandling(false, Rethrown(e))
    case Some(code) => FailureHandling(tokenBearing && Is4xxClientError(code), Rethrown(e))
  }

  /** An exception without a response, for CFT or PCQ: the code as written loses it. */
  lemma NullResponseLosesOriginal(account: TargetStorageAccount, e: StorageException)
    requires account != Crime && e.statusCode.None?
    ensures HandleFailureAsWritten(account, e).thrown == NullPointerException
    ensures HandleFailure(account, e).thrown == Rethrown(e)
  {
  }

  /** Whenever a response is present, or the target is crime, the code as written does what was intended. */
  lemma AsWrittenAgreesWithResponse(account: TargetStorageAccount, e: StorageException)
    requires account == Crime || e.statusCode.Some?
    ensures HandleFailureAsWritten(account, e) == HandleFailure(account, e)
  {
  }

  class BlobContainerClientProxy {
    const cache: SasTokenCache
    /** Upload requests that reached the storage service. */
    ghost var uploads: seq<UploadRequest>

    constructor (cache: SasTokenCache)
      ensures this.cache == cache && uploads == []
    {
      this.cache := cache;
      uploads := [];
    }

    method Get(account: TargetStorageAccount, containerName: string) returns (client: ContainerClient)
      modifies cache
      ensures client == ClientFor(account, containerName, cache.issuer)
      ensures cache.calls == old(cache.calls) + TokenCalls(account, containerName)
    {
      match account {
        case Cft =>
          var token := cache.GetSasToken(containerName);
          client := ScopedClient(CftTokens, token, containerName);
        case Crime =>
          client := CrimeClient;
        case Pcq =>
          var token := cache.GetPcqSasToken(containerName);
          client := ScopedClient(PcqTokens, token, containerName);
      }
    }

    /**
     * Upload of `blobContents` as `blobName`. `fault` is the failure the
     * storage SDK raises, if any. Returns the exception that propagates.
     */
    method Upload(blobName: string, blobContents: Bytes, destinationContainer: string,
                  account: TargetStorageAccount, fault: Option<UploadFault>)
      returns (thrown: Option<StorageException>)
      modifies this, cache
      ensures thrown == if fault.Some? then Some(fault.value.error) else None
      ensures cache.calls == old(cache.calls) + TokenCalls(account, destinationContainer)
                             + if fault.Some? && HandleFailure(account, fault.value.error).invalidate
                               then [RemovedFromCache(destinationContainer)] else []
      ensures uploads == old(uploads)
                         + if fault.Some? && fault.value.stage == BuildingClient then []
                           else [RequestFor(ClientFor(account, destinationContainer, cache.issuer), blobName, blobContents)]
    {
      var client := Get(account, destinationContainer);
      if fault.Some? && fault.value.stage == BuildingClient {
        thrown := OnFailure(account, destinationContainer, fault.value.error);
        return;
      }
      uploads := uploads + [RequestFor(client, blobName, blobContents)];
      if fault.Some? {
        thrown := OnFailure(account, destinationContainer, fault.value.error);
      } else {
        thrown := None;
      }
    }

    /** The catch block: conditional invalidation, then the same exception again. */
    method OnFailure(account: TargetStorageAccount, destinationContainer: string, e: StorageException)
      returns (thrown: Option<StorageException>)
      modifies cache
      ensures thrown == Some(e)
      ensures cache.calls == old(cache.calls)
                             + if HandleFailure(account, e).invalidate then [RemovedFromCache(destinationContainer)] else []
    {
      if HandleFailure(account, e).invalidate {
        cache.RemoveFromCache(destinationContainer);
      }
      thrown := Some(e);
    }
  }

  /** The upload situations exercised against BlobContainerClientProxy. */
  method ProxyScenarios(issuer: (TokenScope, string) -> string, blobName: string, blobContent: Bytes, containerName: string)
  {
    // crime: the injected client, the bytes as given, the cache never read
    var cache := new SasTokenCache(issuer);
    var proxy := new BlobContainerClientProxy(cache);
    var thrown := proxy.Upload(blobName, blobContent, containerName, Crime, None);
    assert thrown.None? && cache.calls == [];
    assert proxy.uploads == [RequestFor(CrimeClient, blobName, blobContent)];
    assert proxy.uploads[0].length == |blobContent| && proxy.uploads[0].timeoutSeconds == 40;

    // CFT and PCQ: a token for the container from their own namespace, no removal
    cache := new SasTokenCache(issuer);
    proxy := new BlobContainerClientProxy(cache);
    thrown := proxy.Upload(blobName, blobContent, containerName, Cft, None);
    assert thrown.None? && cache.calls == [SasTokenRequested(containerName)];
    assert proxy.uploads[0].client == ScopedClient(CftTokens, issuer(CftTokens, containerName), containerName);
    thrown := proxy.Upload(blobName, blobContent, containerName, Pcq, None);
    assert thrown.None? && cache.calls == [SasTokenRequested(containerName), PcqSasTokenRequested(containerName)];

    // a 401 while the PCQ client is built: the same exception again, after one removal
    var unauthorized := BlobStorageException(Some(401), None);
    cache := new SasTokenCache(issuer);
    proxy := new BlobContainerClientProxy(cache);
    thrown := proxy.Upload(blobName, blobContent, containerName, Pcq, Some(UploadFault(BuildingClient, unauthorized)));
    assert thrown == Some(unauthorized);
    assert cache.calls == [PcqSasTokenRequested(containerName), RemovedFromCache(containerName)];
    assert proxy.uploads == [];

    // crime: a failure never touches the cache
    cache := new SasTokenCache(issuer);
    proxy := new BlobContainerClientProxy(cache);
    thrown := proxy.Upload(blobName, blobContent, containerName, Crime, Some(UploadFault(BuildingClient, unauthorized)));
    assert thrown == Some(unauthorized) && cache.calls == [];

    // a 5xx for CFT: rethrown, no removal
    var unavailable := BlobStorageException(Some(503), None);
    thrown := proxy.Upload(blobName, blobContent, containerName, Cft, Some(UploadFault(Uploading, unavailable)));
    assert thrown == Some(unavailable) && cache.calls == [SasTokenRequested(containerName)];
  }
}
