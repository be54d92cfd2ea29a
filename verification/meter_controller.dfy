/**
 * The meter-update hook `useUpdateDongHoNuoc` of
 * src/controllers/dongHoNuocController.js. The hook keeps an error message and
 * a loading flag; its `updateDongHoNuoc` rejects a reading regression on
 * updates, routes id 0 to creation and everything else to an update, and runs
 * the caller's success callback only once the server has accepted the request.
 *
 * The HTTP service is not part of this model: the server's answer is a
 * parameter, and the requests the hook hands to the service are kept in a log.
 */
module MeterController {
  import opened Js

  /** The server's answer to a request. */
  datatype Reply = Accepted | Rejected(message: string)

  /** The meter fields sent with a request (`dongHoData`). */
  datatype MeterPayload = MeterPayload(chisocu: real, chisomoi: real, canhoId: Option<int>)

  /** What the hook asks the service to do. */
  datatype MeterRequest = CreateMeter(data: MeterPayload) | UpdateMeter(id: Option<int>, data: MeterPayload)

  /** The message of the error thrown for a reading regression. */
  const RegressionMessage: string := "Chỉ số mới không thể nhỏ hơn chỉ số cũ"

  /** The regression guard: creations are exempt, updates must not lower the reading. */
  predicate PassesGuard(id: Option<int>, data: MeterPayload) {
    id == Some(0) || !(data.chisomoi < data.chisocu)
  }

  /** The mutation function: id 0 means create, any other id (or null) means update. */
  function Dispatch(id: Option<int>, data: MeterPayload): (r: MeterRequest)
    ensures r.CreateMeter? <==> id == Some(0)
    ensures r.data == data
    ensures r.UpdateMeter? ==> r.id == id
  {
    if id == Some(0) then CreateMeter(data) else UpdateMeter(id, data)
  }

  class UpdateDongHoNuocHook {
    var error: Option<string>
    var isLoading: bool
    /** The requests handed to the service, oldest first. */
    var sent: seq<MeterRequest>

    constructor()
      ensures error == None && !isLoading && sent == []
    {
      error := None;
      isLoading := false;
      sent := [];
    }

    /**
     * `updateDongHoNuoc(id, dongHoData, onSuccess)`. `reply` is what the server
     * answers if the request is sent; `hasOnSuccess` says whether a callback was
     * passed, and `onSuccessRan` whether it was called.
     */
    method UpdateDongHoNuoc(id: Option<int>, data: MeterPayload, reply: Reply, hasOnSuccess: bool)
      returns (ok: bool, onSuccessRan: bool)
      modifies this
      // The `finally` clause: loading always ends.
      ensures !isLoading
      ensures ok <==> PassesGuard(id, data) && reply.Accepted?
      ensures onSuccessRan <==> ok && hasOnSuccess
      // A regression is refused before anything reaches the service.
      ensures sent == old(sent) + (if PassesGuard(id, data) then [Dispatch(id, data)] else [])
      ensures ok ==> error == None
      ensures !PassesGuard(id, data) ==> error == Some(RegressionMessage)
      ensures PassesGuard(id, data) && reply.Rejected? ==> error == Some(reply.message)
    {
      isLoading := true;
      error := None;
      if id != Some(0) && data.chisomoi < data.chisocu {
        error := Some(RegressionMessage);
        isLoading := false;
        return false, false;
      }
      sent := sent + [Dispatch(id, data)];
      match reply {
        case Rejected(message) =>
          error := Some(message);
          ok, onSuccessRan := false, false;
        case Accepted =>
          onSuccessRan := hasOnSuccess;
          ok := true;
      }
      isLoading := false;
    }
  }

  /**
   * The guard is not strict: an update that leaves the reading unchanged passes,
   * which is what lets an invoice advance the old reading to the new one.
   */
  lemma UnchangedReadingPasses(id: Option<int>, reading: real, canhoId: Option<int>)
    ensures PassesGuard(id, MeterPayload(reading, reading, canhoId))
  {
  }

  /**
   * The guard only rejects updates that lower the reading, and every such
   * update is rejected.
   */
  lemma GuardRejectsExactlyRegressions(id: Option<int>, data: MeterPayload)
    requires id != Some(0)
    ensures PassesGuard(id, data) <==> data.chisocu <= data.chisomoi
  {
  }

  /** A creation is never refused by the guard, however the readings compare. */
  lemma CreationBypassesGuard(data: MeterPayload)
    ensures PassesGuard(Some(0), data)
    ensures Dispatch(Some(0), data) == CreateMeter(data)
  {
  }
}
