/**
 * Duplicate detection: of the blobs listed in a container, the ones whose
 * ledger record says they were already processed and deleted.
 */
module Duplicates {
  import opened Common
  import opened Ledger

  /** The lookup of one listed blob, kept only when its envelope is marked deleted. */
  function Kept(rows: seq<Envelope>, blobName: string, containerName: string): (r: seq<Envelope>)
  {
    match FindEnvelope(rows, blobName, containerName)
    case Some(e) => if e.isDeleted then [e] else []
    case None => []
  }

  /**
   * DuplicateFinder.findIn over the container's listing and the ledger rows.
   * EnvelopeService is not part of this model: its lookup is the ledger's
   * most-recent-row lookup.
   */
  function FindIn(listing: seq<string>, containerName: string, rows: seq<Envelope>): (r: seq<Envelope>)
    ensures |r| <= |listing|
    ensures forall e :: e in r ==> e.isDeleted && e.container == containerName && e.fileName in listing && e in rows
  {
    if listing == [] then []
    else Kept(rows, listing[0], containerName) + FindIn(listing[1..], containerName, rows)
  }

  /** The result keeps the listing order: findIn of a concatenation is the concatenation of the results. */
  lemma {:induction false} FindInAppend(a: seq<string>, b: seq<string>, containerName: string, rows: seq<Envelope>)
    ensures FindIn(a + b, containerName, rows) == FindIn(a, containerName, rows) + FindIn(b, containerName, rows)
  {
    if a == [] {
      assert a + b == b;
    } else {
      assert (a + b)[1..] == a[1..] + b;
      FindInAppend(a[1..], b, containerName, rows);
    }
  }

  /** A single listed blob contributes its envelope exactly when the ledger has one for it and it is deleted. */
  lemma FindInSingle(blobName: string, containerName: string, rows: seq<Envelope>)
    ensures var found := FindEnvelope(rows, blobName, containerName);
            FindIn([blobName], containerName, rows)
              == if found.Some? && found.value.isDeleted then [found.value] else []
  {
    assert [blobName][1..] == [];
  }

  /** An envelope is reported iff it is the ledger's record for some listed blob and is marked deleted. */
  lemma {:induction false} FindInMembership(listing: seq<string>, containerName: string, rows: seq<Envelope>, e: Envelope)
    ensures e in FindIn(listing, containerName, rows) <==>
              e.isDeleted && exists i :: 0 <= i < |listing| && FindEnvelope(rows, listing[i], containerName) == Some(e)
  {
    if listing != [] {
      FindInMembership(listing[1..], containerName, rows, e);
      if e.isDeleted && FindEnvelope(rows, listing[0], containerName) != Some(e) {
        if exists i :: 0 <= i < |listing| && FindEnvelope(rows, listing[i], containerName) == Some(e) {
          var i :| 0 <= i < |listing| && FindEnvelope(rows, listing[i], containerName) == Some(e);
          assert listing[1..][i - 1] == listing[i];
        }
      }
      if exists i :: 0 <= i < |listing| - 1 && FindEnvelope(rows, listing[1..][i], containerName) == Some(e) {
        var i :| 0 <= i < |listing| - 1 && FindEnvelope(rows, listing[1..][i], containerName) == Some(e);
        assert listing[i + 1] == listing[1..][i];
      }
    }
  }
}
