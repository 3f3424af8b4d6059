/**
 * The documents slice of src/store/slices/documentsSlice.ts. Its two fetch
 * thunks, `fetchDocuments` and `fetchDocumentsByCase`, are handled by the
 * same three reducer cases.
 */
module DocumentsSlice {
  import opened Wrappers
  import opened Types
  import opened ListOps

  const FetchDocumentsFailedMessage: string := "Failed to fetch documents"

  datatype DocumentsAction =
    | FetchDocumentsPending
    | FetchDocumentsSettled(result: Settled<seq<Document>>)
    | FetchDocumentsByCasePending(caseId: string)
    | FetchDocumentsByCaseSettled(caseId: string, byCase: Settled<seq<Document>>)
    | UploadDocumentSettled(uploaded: Settled<Option<Document>>)
    | UpdateDocumentSettled(updated: Settled<Option<Document>>)
    | DeleteDocumentSettled(deleted: Settled<string>)
    | ClearErrorAction
    | ClearDocumentsAction

  class DocumentsState {
    var documents: seq<Document>
    var isLoading: bool
    var error: Option<string>

    /** `initialState`. */
    constructor ()
      ensures documents == [] && !isLoading && error == None
    {
      documents := [];
      isLoading := false;
      error := None;
    }

    /** `clearError`: only the error changes. */
    method ClearError()
      modifies this
      ensures error == None && documents == old(documents) && isLoading == old(isLoading)
    {
      error := None;
    }

    /** `clearDocuments`: only the list changes. */
    method ClearDocuments()
      modifies this
      ensures documents == [] && isLoading == old(isLoading) && error == old(error)
    {
      documents := [];
    }

    /** The pending case of both fetch thunks. */
    method FetchPending()
      modifies this
      ensures isLoading && error == None && documents == old(documents)
    {
      isLoading := true;
      error := None;
    }

    /** The fulfilled case of both fetch thunks. */
    method FetchFulfilled(payload: seq<Document>)
      modifies this
      ensures documents == payload && !isLoading && error == old(error)
    {
      documents := payload;
      isLoading := false;
    }

    /** The rejected case of both fetch thunks: the message, or "Failed to fetch documents". */
    method FetchRejected(message: string)
      modifies this
      ensures !isLoading && error == Some(MessageOr(message, FetchDocumentsFailedMessage))
      ensures documents == old(documents)
    {
      isLoading := false;
      error := Some(if message == "" then FetchDocumentsFailedMessage else message);
    }

    /** `uploadDocument.fulfilled`: a non-null document is put in front. */
    method UploadDocumentFulfilled(payload: Option<Document>)
      modifies this
      ensures payload.Some? ==> |documents| == |old(documents)| + 1 && documents[0] == payload.value
                                && documents[1..] == old(documents)
      ensures payload.None? ==> documents == old(documents)
      ensures isLoading == old(isLoading) && error == old(error)
    {
      if payload.Some? {
        documents := [payload.value] + documents;
      }
    }

    /** `updateDocument.fulfilled`: `findIndex` by id, then assignment at that index. */
    method UpdateDocumentFulfilled(payload: Option<Document>)
      modifies this
      ensures documents == if payload.Some? then ReplaceFirstById(old(documents), DocumentKey, payload.value)
                           else old(documents)
      ensures isLoading == old(isLoading) && error == old(error)
    {
      if payload.Some? {
        var index := IndexOfId(documents, DocumentKey, payload.value.id);
        if index != -1 {
          documents := documents[index := payload.value];
        }
      }
    }

    /** `deleteDocument.fulfilled`: keep the documents whose id differs. */
    method DeleteDocumentFulfilled(id: string)
      modifies this
      ensures documents == RemoveById(old(documents), DocumentKey, id)
      ensures isLoading == old(isLoading) && error == old(error)
    {
      documents := RemoveById(documents, DocumentKey, id);
    }

    /** The slice reducer; the two fetch thunks have the same effect at every stage. */
    method Dispatch(action: DocumentsAction)
      modifies this
      ensures action.FetchDocumentsPending? || action.FetchDocumentsByCasePending? ==>
        documents == old(documents) && isLoading && error == None
      ensures action.FetchDocumentsSettled? && action.result.Fulfilled? ==>
        documents == action.result.payload && !isLoading && error == old(error)
      ensures action.FetchDocumentsByCaseSettled? && action.byCase.Fulfilled? ==>
        documents == action.byCase.payload && !isLoading && error == old(error)
      ensures action.FetchDocumentsSettled? && action.result.Rejected? ==>
        documents == old(documents) && !isLoading
        && error == Some(MessageOr(action.result.message, FetchDocumentsFailedMessage))
      ensures action.FetchDocumentsByCaseSettled? && action.byCase.Rejected? ==>
        documents == old(documents) && !isLoading
        && error == Some(MessageOr(action.byCase.message, FetchDocumentsFailedMessage))
      ensures action.UploadDocumentSettled? && action.uploaded.Fulfilled? && action.uploaded.payload.Some? ==>
        documents == [action.uploaded.payload.value] + old(documents)
      ensures action.UpdateDocumentSettled? && action.updated.Fulfilled? && action.updated.payload.Some? ==>
        documents == ReplaceFirstById(old(documents), DocumentKey, action.updated.payload.value)
      ensures action.DeleteDocumentSettled? && action.deleted.Fulfilled? ==>
        documents == RemoveById(old(documents), DocumentKey, action.deleted.payload)
      ensures (action.UploadDocumentSettled? && action.uploaded.Fulfilled? && action.uploaded.payload.None?) ||
              (action.UpdateDocumentSettled? && action.updated.Fulfilled? && action.updated.payload.None?) ==>
        documents == old(documents)
      ensures action.UploadDocumentSettled? || action.UpdateDocumentSettled? || action.DeleteDocumentSettled? ==>
        isLoading == old(isLoading) && error == old(error)
      ensures (action.UploadDocumentSettled? && action.uploaded.Rejected?) ||
              (action.UpdateDocumentSettled? && action.updated.Rejected?) ||
              (action.DeleteDocumentSettled? && action.deleted.Rejected?) ==>
        documents == old(documents) && isLoading == old(isLoading) && error == old(error)
      ensures action.ClearErrorAction? ==> documents == old(documents) && isLoading == old(isLoading) && error == None
      ensures action.ClearDocumentsAction? ==> documents == [] && isLoading == old(isLoading) && error == old(error)
    {
      match action
      case FetchDocumentsPending => FetchPending();
      case FetchDocumentsByCasePending(_) => FetchPending();
      case FetchDocumentsSettled(Fulfilled(p)) => FetchFulfilled(p);
      case FetchDocumentsSettled(Rejected(m)) => FetchRejected(m);
      case FetchDocumentsByCaseSettled(_, Fulfilled(p)) => FetchFulfilled(p);
      case FetchDocumentsByCaseSettled(_, Rejected(m)) => FetchRejected(m);
      case UploadDocumentSettled(Fulfilled(d)) => UploadDocumentFulfilled(d);
      case UpdateDocumentSettled(Fulfilled(d)) => UpdateDocumentFulfilled(d);
      case DeleteDocumentSettled(Fulfilled(id)) => DeleteDocumentFulfilled(id);
      case ClearErrorAction => ClearError();
      case ClearDocumentsAction => ClearDocuments();
      case _ =>
    }
  }
}
