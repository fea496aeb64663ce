/**
 * Archival of a rejected blob: it is copied into the companion
 * "<container>-rejected" container, a blob already there under the same
 * name is first snapshotted, and the source blob is deleted only after the
 * copy succeeded.
 */
module BlobMovement {
  import opened Common
  import opened Storage

  const REJECTED_CONTAINER_SUFFIX: string := "-rejected"

  function RejectedContainerName(containerName: string): (name: string)
  {
    containerName + REJECTED_CONTAINER_SUFFIX
  }

  datatype MoveOutcome = MoveOutcome(after: Containers, error: Option<StorageException>)

  /** The state after a move and the exception it raised, if any. */
  function MoveSpec(cs: Containers, blobName: string, containerName: string): (m: MoveOutcome)
    requires WellFormed(cs)
    ensures WellFormed(m.after) && m.after.Keys == cs.Keys
    ensures var rejected := RejectedContainerName(containerName);
            m.error.None? <==> HasBlob(cs, containerName, blobName) && rejected in cs
    // on success the source no longer lists the blob and the rejected container gains it
    ensures m.error.None? ==> Names(m.after, containerName) == Names(cs, containerName) - {blobName}
    ensures var rejected := RejectedContainerName(containerName);
            m.error.None? ==>
              && Names(m.after, rejected) == Names(cs, rejected) + {blobName}
              && Current(m.after, rejected, blobName) == Current(cs, containerName, blobName)
              && EntryCount(m.after, rejected, blobName) == EntryCount(cs, rejected, blobName) + 1
    // whatever the rejected container held under that name is still there
    ensures var rejected := RejectedContainerName(containerName);
            HasBlob(cs, rejected, blobName) ==>
              HasBlob(m.after, rejected, blobName) && cs[rejected][blobName] <= m.after[rejected][blobName]
    // a failed copy leaves the source alone
    ensures m.error.Some? && containerName in cs ==> m.after[containerName] == cs[containerName]
    // every other blob of the source and the rejected container is left as it was
    ensures forall n :: n != blobName && HasBlob(cs, containerName, n) ==>
              HasBlob(m.after, containerName, n) && m.after[containerName][n] == cs[containerName][n]
    ensures var rejected := RejectedContainerName(containerName);
            forall n :: n != blobName && HasBlob(cs, rejected, n) ==>
              HasBlob(m.after, rejected, n) && m.after[rejected][n] == cs[rejected][n]
    // no other container is touched
    ensures forall c :: c in cs && c != containerName && c != RejectedContainerName(containerName) ==> m.after[c] == cs[c]
  {
    var rejected := RejectedContainerName(containerName);
    assert rejected != containerName by { assert |rejected| > |containerName|; }
    var snapped := if HasBlob(cs, rejected, blobName) then Snapshotted(cs, rejected, blobName) else cs;
    match Copied(snapped, containerName, blobName, rejected)
    case Err(e) => MoveOutcome(snapped, Some(e))
    case Ok(copied) =>
      match Deleted(copied, containerName, blobName)
      case Err(e) => MoveOutcome(copied, Some(e))
      case Ok(deleted) => MoveOutcome(deleted, None)
  }

  /** A blob moved into a rejected container that lacked the name is listed there as one entry. */
  lemma MoveIntoFreshName(cs: Containers, blobName: string, containerName: string)
    requires WellFormed(cs)
    requires HasBlob(cs, containerName, blobName) && RejectedContainerName(containerName) in cs
    requires blobName !in cs[RejectedContainerName(containerName)]
    ensures var m := MoveSpec(cs, blobName, containerName);
            m.error.None? && EntryCount(m.after, RejectedContainerName(containerName), blobName) == 1
  {
  }

  /** On a name collision the listing with snapshots shows the earlier blob and the moved one. */
  lemma MoveOnCollision(cs: Containers, blobName: string, containerName: string)
    requires WellFormed(cs)
    requires HasBlob(cs, containerName, blobName)
    requires HasBlob(cs, RejectedContainerName(containerName), blobName)
    ensures var m := MoveSpec(cs, blobName, containerName);
            var rejected := RejectedContainerName(containerName);
            m.error.None? && m.after[rejected][blobName] == cs[rejected][blobName] + [Current(cs, containerName, blobName)]
  {
    var rejected := RejectedContainerName(containerName);
    var m := MoveSpec(cs, blobName, containerName);
    var old_ := cs[rejected][blobName];
    var after := m.after[rejected][blobName];
    assert |after| == |old_| + 1;
    assert after[..|old_|] == old_;
    assert after == after[..|old_|] + [after[|old_|]];
  }

  class BlobMover {
    const storage: BlobStore

    constructor (storage: BlobStore)
      ensures this.storage == storage
    {
      this.storage := storage;
    }

    method MoveToRejectedContainer(blobName: string, containerName: string) returns (error: Option<StorageException>)
      requires storage.Valid()
      modifies storage
      ensures storage.Valid()
      ensures MoveOutcome(storage.containers, error) == MoveSpec(old(storage.containers), blobName, containerName)
    {
      var rejected := RejectedContainerName(containerName);
      var collision := storage.Exists(rejected, blobName);
      if collision {
        storage.CreateSnapshot(rejected, blobName);
      }
      error := storage.CopyFrom(containerName, blobName, rejected);
      if error.None? {
        error := storage.Delete(containerName, blobName);
      }
    }
  }

  /** A plain move: the source is empty afterwards, the rejected container lists the one name. */
  method MoveScenario(content: Blob)
  {
    var initial: Containers := map["sample-container" := map["hello.zip" := [content]], "sample-container-rejected" := map[]];
    assert RejectedContainerName("sample-container") == "sample-container-rejected";
    assert initial["sample-container"].Keys == {"hello.zip"};
    var storage := new BlobStore(initial);
    var mover := new BlobMover(storage);
    var error := mover.MoveToRejectedContainer("hello.zip", "sample-container");
    assert error.None?;
    assert Names(storage.containers, "sample-container") == {};
    assert Names(storage.containers, "sample-container-rejected") == {"hello.zip"};
  }

  /** A move onto an existing name: two entries under that name, the source empty. */
  method CollisionScenario(content: Blob)
  {
    var initial: Containers := map["hello" := map["foo.zip" := [content]], "hello-rejected" := map["foo.zip" := [content]]];
    assert RejectedContainerName("hello") == "hello-rejected";
    assert initial["hello"].Keys == {"foo.zip"};
    var storage := new BlobStore(initial);
    var mover := new BlobMover(storage);
    var error := mover.MoveToRejectedContainer("foo.zip", "hello");
    assert error.None?;
    assert EntryCount(storage.containers, "hello-rejected", "foo.zip") == 2;
    assert Names(storage.containers, "hello") == {};
  }
}
