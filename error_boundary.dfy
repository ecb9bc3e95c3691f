/** The error boundary around a user's gallery page: it stores the error a
    descendant threw and shows the not-found view only for an API 404. */
module ErrorBoundary {
  import opened Js

  /** What a descendant can throw: an `ApiError` with its HTTP status code, or a plain `Error`. */
  datatype ThrownError = ApiError(code: int, message: string) | PlainError(message: string)

  /** The component state `{ error }`; `None` is `null`. */
  datatype BoundaryState = BoundaryState(error: Option<ThrownError>)

  datatype View = NotFound | Children

  const NOT_FOUND_CODE := 404

  /** `getDerivedStateFromError`: the new state holds the thrown value itself. */
  function GetDerivedStateFromError(error: ThrownError): (s: BoundaryState)
    ensures s.error == Some(error)
  {
    BoundaryState(Some(error))
  }

  /** `render`: the not-found view exactly for an `ApiError` whose code is 404. */
  function RenderView(s: BoundaryState): (v: View)
    ensures v == NotFound <==> s.error.Some? && s.error.value.ApiError? && s.error.value.code == NOT_FOUND_CODE
    ensures v == Children <==> !(s.error.Some? && s.error.value.ApiError? && s.error.value.code == NOT_FOUND_CODE)
  {
    match s.error
    case Some(ApiError(code, _)) => if code == NOT_FOUND_CODE then NotFound else Children
    case _ => Children
  }

  /** Any other code, and any plain error, fall through to the children. */
  lemma OtherErrorsRenderChildren(code: int, message: string)
    requires code != NOT_FOUND_CODE
    ensures RenderView(GetDerivedStateFromError(ApiError(code, message))) == Children
    ensures RenderView(GetDerivedStateFromError(PlainError(message))) == Children
  {
  }

  class UserGalleryPageErrorBoundary {
    var state: BoundaryState

    /** The boundary starts with no error. */
    constructor ()
      ensures state.error == None
      ensures Render() == Children
    {
      state := BoundaryState(None);
    }

    /** A descendant threw `error`: React replaces the state with the derived one. */
    method CatchError(error: ThrownError)
      modifies this
      ensures state == GetDerivedStateFromError(error)
      ensures Render() == NotFound <==> error.ApiError? && error.code == NOT_FOUND_CODE
    {
      state := GetDerivedStateFromError(error);
    }

    function Render(): View
      reads this
    {
      RenderView(state)
    }
  }
}
