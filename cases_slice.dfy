/**
 * The cases slice of src/store/slices/casesSlice.ts: its state, one method
 * per reducer case, and the dispatch of every action its thunks produce.
 */
module CasesSlice {
  import opened Wrappers
  import opened Types
  import opened ListOps

  const FetchCasesFailedMessage: string := "Failed to fetch cases"

  /**
   * The actions the slice's thunks settle into. The pending stages of
   * create, update and delete have no case in the slice and leave the state
   * unchanged, so they are not listed.
   */
  datatype CasesAction =
    | FetchCasesPending
    | FetchCasesSettled(result: Settled<seq<Case>>)
    | CreateCaseSettled(created: Settled<Option<Case>>)
    | UpdateCaseSettled(updated: Settled<Option<Case>>)
    | DeleteCaseSettled(deleted: Settled<string>)
    | AssignCaseSettled
    | UnassignCaseSettled
    | SearchCasesPending
    | SearchCasesSettled(found: Settled<seq<Case>>)
    | ClearErrorAction

  class CasesState {
    var cases: seq<Case>
    var isLoading: bool
    var error: Option<string>

    /** `initialState`. */
    constructor ()
      ensures cases == [] && !isLoading && error == None
    {
      cases := [];
      isLoading := false;
      error := None;
    }

    /** `clearError`. */
    method ClearError()
      modifies this
      ensures error == None && cases == old(cases) && isLoading == old(isLoading)
    {
      error := None;
    }

    /** `fetchCases.pending`. */
    method FetchCasesPending()
      modifies this
      ensures isLoading && error == None && cases == old(cases)
    {
      isLoading := true;
      error := None;
    }

    /** `fetchCases.fulfilled`. */
    method FetchCasesFulfilled(payload: seq<Case>)
      modifies this
      ensures cases == payload && !isLoading && error == old(error)
    {
      cases := payload;
      isLoading := false;
    }

    /** `fetchCases.rejected`: the message, or "Failed to fetch cases". */
    method FetchCasesRejected(message: string)
      modifies this
      ensures !isLoading && error == Some(MessageOr(message, FetchCasesFailedMessage))
      ensures cases == old(cases)
    {
      isLoading := false;
      error := Some(if message == "" then FetchCasesFailedMessage else message);
    }

    /** `createCase.fulfilled`: a non-null case is put in front (`unshift`). */
    method CreateCaseFulfilled(payload: Option<Case>)
      modifies this
      ensures payload.Some? ==> |cases| == |old(cases)| + 1 && cases[0] == payload.value && cases[1..] == old(cases)
      ensures payload.None? ==> cases == old(cases)
      ensures isLoading == old(isLoading) && error == old(error)
    {
      if payload.Some? {
        cases := [payload.value] + cases;
      }
    }

    /** `updateCase.fulfilled`: `findIndex` by id, then assignment at that index. */
    method UpdateCaseFulfilled(payload: Option<Case>)
      modifies this
      ensures cases == if payload.Some? then ReplaceFirstById(old(cases), CaseKey, payload.value) else old(cases)
      ensures isLoading == old(isLoading) && error == old(error)
    {
      if payload.Some? {
        var index := IndexOfId(cases, CaseKey, payload.value.id);
        if index != -1 {
          cases := cases[index := payload.value];
        }
      }
    }

    /** `deleteCase.fulfilled`: keep the cases whose id differs. */
    method DeleteCaseFulfilled(id: string)
      modifies this
      ensures cases == RemoveById(old(cases), CaseKey, id)
      ensures isLoading == old(isLoading) && error == old(error)
    {
      cases := RemoveById(cases, CaseKey, id);
    }

    /**
     * The slice reducer: the cases above; every other action (the pending and
     * rejected forms of create/update/delete, assignment, and every stage of
     * `searchCases`) leaves the state unchanged.
     */
    method Dispatch(action: CasesAction)
      modifies this
      ensures action.SearchCasesPending? || action.SearchCasesSettled? ||
              action.AssignCaseSettled? || action.UnassignCaseSettled? ==>
        cases == old(cases) && isLoading == old(isLoading) && error == old(error)
      ensures action.CreateCaseSettled? && action.created.Rejected? ==>
        cases == old(cases) && isLoading == old(isLoading) && error == old(error)
      ensures action.UpdateCaseSettled? && action.updated.Rejected? ==>
        cases == old(cases) && isLoading == old(isLoading) && error == old(error)
      ensures action.DeleteCaseSettled? && action.deleted.Rejected? ==>
        cases == old(cases) && isLoading == old(isLoading) && error == old(error)
      ensures action.FetchCasesPending? ==> cases == old(cases) && isLoading && error == None
      ensures action.ClearErrorAction? ==> cases == old(cases) && isLoading == old(isLoading) && error == None
      ensures action.CreateCaseSettled? && action.created.Fulfilled? && action.created.payload.Some? ==>
        cases == [action.created.payload.value] + old(cases)
      ensures action.UpdateCaseSettled? && action.updated.Fulfilled? && action.updated.payload.Some? ==>
        cases == ReplaceFirstById(old(cases), CaseKey, action.updated.payload.value)
      ensures action.DeleteCaseSettled? && action.deleted.Fulfilled? ==>
        cases == RemoveById(old(cases), CaseKey, action.deleted.payload)
      ensures (action.CreateCaseSettled? && action.created.Fulfilled? && action.created.payload.None?) ||
              (action.UpdateCaseSettled? && action.updated.Fulfilled? && action.updated.payload.None?) ==>
        cases == old(cases)
      ensures action.CreateCaseSettled? || action.UpdateCaseSettled? || action.DeleteCaseSettled? ==>
        isLoading == old(isLoading) && error == old(error)
      ensures action.FetchCasesSettled? && action.result.Fulfilled? ==>
        cases == action.result.payload && !isLoading && error == old(error)
      ensures action.FetchCasesSettled? && action.result.Rejected? ==>
        cases == old(cases) && !isLoading
        && error == Some(MessageOr(action.result.message, FetchCasesFailedMessage))
    {
      match action
      case FetchCasesPending => FetchCasesPending();
      case FetchCasesSettled(Fulfilled(p)) => FetchCasesFulfilled(p);
      case FetchCasesSettled(Rejected(m)) => FetchCasesRejected(m);
      case CreateCaseSettled(Fulfilled(c)) => CreateCaseFulfilled(c);
      case UpdateCaseSettled(Fulfilled(c)) => UpdateCaseFulfilled(c);
      case DeleteCaseSettled(Fulfilled(id)) => DeleteCaseFulfilled(id);
      case ClearErrorAction => ClearError();
      case _ =>
    }
  }

  /** The `deleteCase` payload creator: the id, unless the service failed. */
  function DeleteCase(id: string, error: Option<ServiceError>): (r: Settled<string>)
    ensures error.None? <==> r == Fulfilled(id)
    ensures error.Some? ==> r == Rejected(error.value.message)
  {
    match error
    case Some(e) => Rejected(e.message)
    case None => Fulfilled(id)
  }
}
