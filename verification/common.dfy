/** Outcome types shared by every layer of the backend model. */
module Common {

  datatype Option<+T> = None | Some(value: T)

  /** Why a request or a store operation was refused. */
  datatype Error =
    | NotAuthenticated            // no authenticated user behind the request
    | NotFound                    // absent, or outside the caller's visible queryset
    | PermissionDenied            // visible, but the object permission says no
    | MethodNotAllowed            // the viewset does not offer this action
    | Invalid(field: string)      // a request field failed validation
    | Conflict(constraint: string) // a database constraint (unique, not null, foreign key) failed

  datatype Result<+T> = Ok(value: T) | Err(error: Error)

  function Min(a: int, b: int): int { if a <= b then a else b }
}
