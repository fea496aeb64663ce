/**
 * Blob storage as the router sees it: containers of named blobs, each name
 * holding its snapshots followed by its current version.
 */
module Storage {
  import opened Common

  datatype Blob = Blob(content: Bytes, createdAt: int)

  /** Snapshots first, the current version last. */
  type Versions = seq<Blob>

  type Containers = map<string, map<string, Versions>>

  /** Every listed name has a current version. */
  ghost predicate WellFormed(cs: Containers)
  {
    forall c :: c in cs ==> forall n :: n in cs[c] ==> cs[c][n] != []
  }

  predicate HasBlob(cs: Containers, container: string, name: string)
  {
    container in cs && name in cs[container]
  }

  function Current(cs: Containers, container: string, name: string): (b: Blob)
    requires WellFormed(cs) && HasBlob(cs, container, name)
  {
    var v := cs[container][name];
    v[|v| - 1]
  }

  /** Names listed in a container (without snapshots). */
  function Names(cs: Containers, container: string): (names: set<string>)
  {
    if container in cs then cs[container].Keys else {}
  }

  /** How many entries named `name` a listing with snapshots shows. */
  function EntryCount(cs: Containers, container: string, name: string): (n: nat)
  {
    if HasBlob(cs, container, name) then |cs[container][name]| else 0
  }

  /** The error the service gives for a missing container or blob. */
  function Missing(cs: Containers, container: string): (e: StorageException)
  {
    if container in cs then NotFound(BlobNotFound) else NotFound(ContainerNotFound)
  }

  /** Snapshot of an existing blob: its current version is kept as a snapshot too. */
  function Snapshotted(cs: Containers, container: string, name: string): (r: Containers)
    requires WellFormed(cs) && HasBlob(cs, container, name)
    ensures WellFormed(r) && r.Keys == cs.Keys
    ensures r[container] == cs[container][name := cs[container][name] + [Current(cs, container, name)]]
    ensures forall c :: c in cs && c != container ==> r[c] == cs[c]
  {
    cs[container := cs[container][name := cs[container][name] + [Current(cs, container, name)]]]
  }

  /**
   * Server-side copy of the current source blob over the destination blob of
   * the same name: the destination's snapshots stay, its current version is
   * replaced (or created). A missing source blob or destination container
   * fails the copy and changes nothing.
   */
  function Copied(cs: Containers, source: string, name: string, destination: string): (r: Result<Containers, StorageException>)
    requires WellFormed(cs)
    ensures r.Ok? <==> HasBlob(cs, source, name) && destination in cs
    ensures r.Ok? ==> WellFormed(r.value) && r.value.Keys == cs.Keys
    ensures r.Ok? ==> HasBlob(r.value, destination, name) && Current(r.value, destination, name) == Current(cs, source, name)
    ensures r.Ok? ==> forall c :: c in cs && c != destination ==> r.value[c] == cs[c]
    ensures r.Ok? ==> r.value[destination] - {name} == cs[destination] - {name}
    ensures r.Ok? && name in cs[destination] ==>
              var before := cs[destination][name];
              var after := r.value[destination][name];
              after[..|after| - 1] == before[..|before| - 1]
  {
    if !HasBlob(cs, source, name) then Err(Missing(cs, source))
    else if destination !in cs then Err(NotFound(ContainerNotFound))
    else
      var kept := if name in cs[destination] then cs[destination][name][..|cs[destination][name]| - 1] else [];
      Ok(cs[destination := cs[destination][name := kept + [Current(cs, source, name)]]])
  }

  /** Deletion of a blob removes its name from the container. */
  function Deleted(cs: Containers, container: string, name: string): (r: Result<Containers, StorageException>)
    requires WellFormed(cs)
    ensures r.Ok? <==> HasBlob(cs, container, name)
    ensures r.Ok? ==> WellFormed(r.value) && r.value.Keys == cs.Keys
    ensures r.Ok? ==> r.value[container] == cs[container] - {name}
    ensures r.Ok? ==> forall c :: c in cs && c != container ==> r.value[c] == cs[c]
  {
    if HasBlob(cs, container, name) then Ok(cs[container := cs[container] - {name}])
    else Err(Missing(cs, container))
  }

  /** A storage account's blob service. */
  class BlobStore {
    var containers: Containers

    ghost predicate Valid()
      reads this
    {
      WellFormed(containers)
    }

    constructor (initial: Containers)
      requires WellFormed(initial)
      ensures Valid() && containers == initial
    {
      containers := initial;
    }

    method Exists(container: string, name: string) returns (b: bool)
      ensures b == HasBlob(containers, container, name)
    {
      b := HasBlob(containers, container, name);
    }

    /** Download of the current version; a missing container or blob is a 404. */
    method Download(container: string, name: string) returns (r: Result<Blob, StorageException>)
      requires Valid()
      ensures r.Ok? <==> HasBlob(containers, container, name)
      ensures r.Ok? ==> r.value == Current(containers, container, name)
      ensures r.Err? ==> r.error.statusCode == Some(404)
    {
      if container !in containers {
        r := Err(NotFound(ContainerNotFound));
      } else if name !in containers[container] {
        r := Err(NotFound(BlobNotFound));
      } else {
        var v := containers[container][name];
        r := Ok(v[|v| - 1]);
      }
    }

    method CreateSnapshot(container: string, name: string)
      requires Valid() && HasBlob(containers, container, name)
      modifies this
      ensures Valid() && containers == Snapshotted(old(containers), container, name)
    {
      containers := Snapshotted(containers, container, name);
    }

    method CopyFrom(source: string, name: string, destination: string) returns (error: Option<StorageException>)
      requires Valid()
      modifies this
      ensures Valid()
      ensures var r := Copied(old(containers), source, name, destination);
              if r.Ok? then containers == r.value && error.None?
              else containers == old(containers) && error == Some(r.error)
    {
      var r := Copied(containers, source, name, destination);
      if r.Ok? {
        containers := r.value;
        error := None;
      } else {
        error := Some(r.error);
      }
    }

    method Delete(container: string, name: string) returns (error: Option<StorageException>)
      requires Valid()
      modifies this
      ensures Valid()
      ensures var r := Deleted(old(containers), container, name);
              if r.Ok? then containers == r.value && error.None?
              else containers == old(containers) && error == Some(r.error)
    {
      var r := Deleted(containers, container, name);
      if r.Ok? {
        containers := r.value;
        error := None;
      } else {
        error := Some(r.error);
      }
    }
  }
}
