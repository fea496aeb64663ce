/** Value types shared by the blob router's components. */
module Common {

  datatype Option<+T> = None | Some(value: T)

  datatype Result<+T, +E> = Ok(value: T) | Err(error: E)

  /** A Java byte[] */
  type Bytes = seq<bv8>

  /** The error codes of the storage service that the router looks at. */
  datatype BlobErrorCode = ContainerNotFound | BlobNotFound | LeaseAlreadyPresent

  /**
   * A BlobStorageException (an HttpResponseException). The status code is
   * None when the exception carries no HTTP response, the error code None
   * when the service gave none.
   */
  datatype StorageException = BlobStorageException(statusCode: Option<int>, errorCode: Option<BlobErrorCode>)

  function NotFound(code: BlobErrorCode): (e: StorageException)
  {
    BlobStorageException(Some(404), Some(code))
  }
}
