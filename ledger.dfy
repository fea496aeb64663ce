/**
 * The ledger's envelope rows: one per processing outcome, several per
 * (container, file name) over time.
 */
module Ledger {
  import opened Common

  datatype Status = Dispatched | Rejected

  datatype Envelope = Envelope(
    container: string,
    fileName: string,
    fileCreatedAt: int,
    dispatchedAt: Option<int>,
    status: Status,
    isDeleted: bool)

  predicate IsFor(e: Envelope, fileName: string, container: string)
  {
    e.fileName == fileName && e.container == container
  }

  /**
   * The most recent row for (file name, container), if there is one: the
   * last matching row in insertion order.
   */
  function FindEnvelope(rows: seq<Envelope>, fileName: string, container: string): (r: Option<Envelope>)
    ensures r.None? <==> forall i :: 0 <= i < |rows| ==> !IsFor(rows[i], fileName, container)
    ensures r.Some? ==> exists i :: 0 <= i < |rows| && rows[i] == r.value && IsFor(rows[i], fileName, container)
                          && forall j :: i < j < |rows| ==> !IsFor(rows[j], fileName, container)
  {
    if rows == [] then None
    else if IsFor(rows[|rows| - 1], fileName, container) then Some(rows[|rows| - 1])
    else FindEnvelope(rows[..|rows| - 1], fileName, container)
  }

  /** A row appended for (file name, container) is what the next lookup finds; other lookups do not see it. */
  lemma {:induction false} FindAfterInsert(rows: seq<Envelope>, e: Envelope, fileName: string, container: string)
    ensures FindEnvelope(rows + [e], fileName, container)
         == if IsFor(e, fileName, container) then Some(e) else FindEnvelope(rows, fileName, container)
  {
    assert (rows + [e])[..|rows|] == rows;
  }

  /** The envelope table. */
  class EnvelopeRepository {
    var rows: seq<Envelope>

    constructor ()
      ensures rows == []
    {
      rows := [];
    }

    function Find(fileName: string, container: string): (r: Option<Envelope>)
      reads this
    {
      FindEnvelope(rows, fileName, container)
    }

    method Insert(e: Envelope)
      modifies this
      ensures rows == old(rows) + [e]
      ensures Find(e.fileName, e.container) == Some(e)
    {
      rows := rows + [e];
      FindAfterInsert(old(rows), e, e.fileName, e.container);
    }
  }
}
