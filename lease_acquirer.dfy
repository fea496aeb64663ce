/**
 * The lease guard around one blob: try to take the lease, run exactly one
 * of the two callbacks, and release the lease only if it was taken and the
 * caller asked for the release.
 */
module Leases {
  import opened Common

  /** What the storage service answers to acquireLease: a lease id (null from an unstubbed mock), or an exception. */
  datatype AcquireAnswer = Granted(leaseId: Option<string>) | Refused(error: StorageException)

  /** The blob's lease client, as the calls on it are observed. */
  class LeaseClient {
    var heldByUs: bool
    var acquireCalls: nat
    var releaseCalls: nat

    constructor ()
      ensures !heldByUs && acquireCalls == 0 && releaseCalls == 0
    {
      heldByUs := false;
      acquireCalls := 0;
      releaseCalls := 0;
    }

    /** `answer` is the service's decision. */
    method AcquireLease(answer: AcquireAnswer) returns (r: AcquireAnswer)
      modifies this
      ensures r == answer
      ensures acquireCalls == old(acquireCalls) + 1 && releaseCalls == old(releaseCalls)
      ensures heldByUs == (answer.Granted? || old(heldByUs))
    {
      acquireCalls := acquireCalls + 1;
      if answer.Granted? {
        heldByUs := true;
      }
      r := answer;
    }

    method ReleaseLease()
      modifies this
      ensures !heldByUs && releaseCalls == old(releaseCalls) + 1 && acquireCalls == old(acquireCalls)
    {
      heldByUs := false;
      releaseCalls := releaseCalls + 1;
    }
  }

  /** A callback, as the values it was called with. */
  class Consumer<T> {
    var accepted: seq<T>

    constructor ()
      ensures accepted == []
    {
      accepted := [];
    }

    method Accept(x: T)
      modifies this
      ensures accepted == old(accepted) + [x]
    {
      accepted := accepted + [x];
    }
  }

  /** How many calls each party receives from one ifAcquiredOrElse. */
  datatype LeaseEffects = LeaseEffects(successCalls: nat, failureCalls: nat, releaseCalls: nat)

  function EffectsOf(answer: AcquireAnswer, releaseLease: bool): (fx: LeaseEffects)
    ensures fx.successCalls + fx.failureCalls == 1
    ensures fx.successCalls == 1 <==> answer.Granted?
    ensures fx.releaseCalls == 1 <==> answer.Granted? && releaseLease
    ensures fx.releaseCalls <= fx.successCalls
  {
    match answer
    case Granted(_) => LeaseEffects(1, 0, if releaseLease then 1 else 0)
    case Refused(_) => LeaseEffects(0, 1, 0)
  }

  class LeaseAcquirer {
    constructor ()
    {
    }

    method IfAcquiredOrElse(leaseClient: LeaseClient, answer: AcquireAnswer,
                            onSuccess: Consumer<Option<string>>, onFailure: Consumer<Option<BlobErrorCode>>,
                            releaseLease: bool)
      modifies leaseClient, onSuccess, onFailure
      ensures var fx := EffectsOf(answer, releaseLease);
              && |onSuccess.accepted| == |old(onSuccess.accepted)| + fx.successCalls
              && |onFailure.accepted| == |old(onFailure.accepted)| + fx.failureCalls
              && leaseClient.releaseCalls == old(leaseClient.releaseCalls) + fx.releaseCalls
      ensures answer.Granted? ==>
                && onSuccess.accepted == old(onSuccess.accepted) + [answer.leaseId]
                && onFailure.accepted == old(onFailure.accepted)
      ensures answer.Refused? ==>
                && onFailure.accepted == old(onFailure.accepted) + [answer.error.errorCode]
                && onSuccess.accepted == old(onSuccess.accepted)
      ensures leaseClient.acquireCalls == old(leaseClient.acquireCalls) + 1
      ensures leaseClient.heldByUs == if answer.Granted? then !releaseLease else old(leaseClient.heldByUs)
    {
      var r := leaseClient.AcquireLease(answer);
      match r {
        case Granted(leaseId) =>
          onSuccess.Accept(leaseId);
          if releaseLease {
            leaseClient.ReleaseLease();
          }
        case Refused(error) =>
          onFailure.Accept(error.errorCode);
      }
    }
  }

  /** The four situations exercised against LeaseAcquirer. */
  method LeaseAcquirerScenarios(blobStorageException: StorageException)
  {
    var acquirer := new LeaseAcquirer();

    // acquired: the success callback gets the (null) lease id, the failure callback nothing
    var client := new LeaseClient();
    var onSuccess := new Consumer<Option<string>>();
    var onFailure := new Consumer<Option<BlobErrorCode>>();
    acquirer.IfAcquiredOrElse(client, Granted(None), onSuccess, onFailure, false);
    assert onSuccess.accepted == [None] && onFailure.accepted == [];

    // not acquired: the failure callback gets the error code, the success callback nothing
    client := new LeaseClient();
    onSuccess := new Consumer<Option<string>>();
    onFailure := new Consumer<Option<BlobErrorCode>>();
    acquirer.IfAcquiredOrElse(client, Refused(blobStorageException), onSuccess, onFailure, false);
    assert onSuccess.accepted == [] && onFailure.accepted == [blobStorageException.errorCode];

    // not acquired, release asked for: no release
    client := new LeaseClient();
    acquirer.IfAcquiredOrElse(client, Refused(blobStorageException), onSuccess, onFailure, true);
    assert client.releaseCalls == 0;

    // acquired, release asked for: exactly one release
    client := new LeaseClient();
    acquirer.IfAcquiredOrElse(client, Granted(None), onSuccess, onFailure, true);
    assert client.releaseCalls == 1 && !client.heldByUs;
  }
}
