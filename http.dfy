/** The HTTP vocabulary shared by the permission classes, the serializers and the views. */
module Http {

  /** The request methods the API receives. */
  datatype Method = GET | HEAD | OPTIONS | POST | PUT | PATCH | DELETE

  /** The framework's SAFE_METHODS: the methods that only read. */
  predicate IsSafe(m: Method) {
    m == GET || m == HEAD || m == OPTIONS
  }

  /** An optional value: a request field that may be absent, a lookup that may find nothing. */
  datatype Option<+T> = None | Some(value: T)

  /** The exceptions the core raises; the framework renders each one as a single status code. */
  datatype Error =
    | NotFound                        // 404: a path object or a user is absent
    | ValidationError(field: string)  // 400: a field constraint, named by its field
    | PermissionDenied                // 403 (401 for a caller with no credentials)
    | MethodNotAllowed                // 405
    | NoResponse                      // 500: the view returned no response object

  /** The outcome of an operation that either yields a value or raises one of the errors above. */
  datatype Result<+T> = Ok(value: T) | Err(error: Error)

  /** A response a view builds itself: its status code and its serialized body. */
  datatype Response = Response(status: nat, data: map<string, string>)

  const StatusOk: nat := 200
  const StatusNoContent: nat := 204
  const StatusBadRequest: nat := 400
  const StatusMethodNotAllowed: nat := 405
}
