/**
  The request dispatch every handler file repeats, as one specification parameterised by a
  resource descriptor. A handler decodes the body or reads the path id, runs its guards with
  early returns, calls its backend at most once and writes exactly one response. `Trace` records
  that call and that response; the handler methods of module `Handlers` are proved against the
  trace functions here.

  Collaborators whose code is not part of this model stay uninterpreted: what gin's
  `ShouldBindJSON`, `Param`, `Query` and the page/limit helpers make of the request is an input
  (`Request`), the backend's answers and `uuid.Validate` are function parameters, and the three
  ways of writing a response (`handleResponse`, `handleGrpcErrWithDescription`, `c.JSON`) are
  recorded with their arguments, never interpreted.
*/
module Dispatch {
  import opened Wrappers
  import opened Validations
  import opened Resources

  const StatusOK := 200
  const StatusCreated := 201
  const StatusBadRequest := 400

  const ReadBodyFailure := "error while reading request body"
  const PageFailure := "error while parsing page"
  const LimitFailure := "error while parsing limit"
  const NameInvalid := "full name is not valid"
  const PasswordInvalid := "password is not valid"
  const PhoneInvalid := "phone number starts with +998..."

  /** A decoded JSON body: the identity fields the validators read (empty when the message type
      has none) and the rest of the message. */
  datatype Body = Body(fullName: string, password: string, phone: string, rest: string)

  /** What gin and the query helpers report about one inbound request. */
  datatype Request = Request(
    bound: Result<Body>,  // c.ShouldBindJSON(&body)
    id: string,           // c.Param("id")
    search: string,       // c.Query("search"), empty when absent
    page: Result<int>,    // ParsePageQueryParam(c)
    limit: Result<int>)   // ParseLimitQueryParam(c)

  /** A backend response message, kept opaque. */
  datatype Entity = Entity(json: string)

  /** One remote call, with the request message the handler builds for it. */
  datatype BackendCall =
    | CreateCall(resource: Resource, body: Body)
    | GetByIdCall(resource: Resource, id: string)
    | UpdateCall(resource: Resource, body: Body)
    | DeleteCall(resource: Resource, id: string)
    | GetAllCall(resource: Resource, offset: int, limit: int, search: Option<string>)

  datatype Reply = Answer(entity: Entity) | RpcError(text: string)

  /** The Go error values a handler passes on. */
  datatype GoError = BindError(text: string) | ValidationError(text: string) | BackendError(text: string)

  /** The data argument of `handleResponse` or `c.JSON`. */
  datatype Data =
    | EntityData(entity: Entity)  // the backend response
    | ErrorText(text: string)     // err.Error()
    | ErrorValue(err: GoError)    // the error value itself
    | Text(text: string)          // a constant string

  /** The one response a handler writes. */
  datatype Response =
    | HandleResponse(message: string, status: int, data: Data)
    | GrpcErrWithDescription(err: Option<GoError>, description: string)
    | Json(status: int, data: Data)

  datatype Trace = Trace(call: Option<BackendCall>, response: Response)

  datatype Op = Create | GetById | Update | Delete | GetAll

  /** Whether the resource's handler file defines the operation. */
  predicate Supports(d: Descriptor, op: Op)
  {
    match op
    case Create => true
    case GetById => true
    case Update => d.update.Some?
    case Delete => d.delete.Some?
    case GetAll => d.list.Some?
  }

  // ---------------------------------------------------------------------------------------
  // Guards
  // ---------------------------------------------------------------------------------------

  datatype Rejection = Rejection(error: string, description: string)

  /** The validator chain of the administrator handlers: name, then password, then phone; the
      first failure wins. */
  function FirstInvalid(b: Body): (r: Option<Rejection>)
    ensures r.None? <==> IdentityValid(b)
    ensures r.Some? ==> (r.value.description == NameInvalid <==> ' ' !in b.fullName)
    ensures r.Some? ==> r.value.description != PhoneInvalid
  {
    match ValidateFullName(b.fullName)
    case Fail(e) => Some(Rejection(e, NameInvalid))
    case Pass =>
      match ValidatePassword(b.password)
      case Fail(e) => Some(Rejection(e, PasswordInvalid))
      case Pass =>
        match ValidatePhone(b.phone)
        case Fail(e) => Some(Rejection(e, PhoneInvalid))
        case Pass => None
  }

  function IdentityCheck(d: Descriptor, b: Body): Option<Rejection>
  {
    if d.validatesIdentity then FirstInvalid(b) else None
  }

  /** The page window the list handlers send: `(page - 1) * limit`. */
  function Offset(page: int, limit: int): (r: int)
    ensures page == 1 ==> r == 0
    ensures limit > 0 ==> (r >= 0 <==> page >= 1)
  {
    (page - 1) * limit
  }

  // ---------------------------------------------------------------------------------------
  // One trace function per operation
  // ---------------------------------------------------------------------------------------

  function CreateSuccessResponse(s: CreateSuccess, e: Entity): Response
  {
    match s
    case RawCreated => Json(StatusCreated, EntityData(e))
    case CreatedEnvelope(m) => HandleResponse(m, StatusCreated, EntityData(e))
    case NilErrorDescription(desc) => GrpcErrWithDescription(None, desc)
  }

  function CreateTrace(d: Descriptor, req: Request, answer: BackendCall -> Reply): (t: Trace)
    ensures t.call.Some? <==> req.bound.Success? && (d.validatesIdentity ==> IdentityValid(req.bound.value))
    ensures t.call.Some? ==> t.call.value == CreateCall(d.resource, req.bound.value)
    ensures t.call.None? ==> IsErrorResponse(t.response)
  {
    match req.bound
    case Failure(e) => Trace(None, GrpcErrWithDescription(Some(BindError(e)), d.create.bindFailure))
    case Success(b) =>
      match IdentityCheck(d, b)
      case Some(rej) => Trace(None, GrpcErrWithDescription(Some(ValidationError(rej.error)), rej.description))
      case None =>
        var call := CreateCall(d.resource, b);
        match answer(call)
        case RpcError(t) => Trace(Some(call), GrpcErrWithDescription(Some(BackendError(t)), d.create.backendFailure))
        case Answer(e) => Trace(Some(call), CreateSuccessResponse(d.create.success, e))
  }

  function GetByIdTrace(d: Descriptor, req: Request, answer: BackendCall -> Reply,
                        validateUuid: string -> Outcome): (t: Trace)
    ensures t.call.Some? <==> validateUuid(req.id) == Pass
    ensures t.call.Some? ==> t.call.value == GetByIdCall(d.resource, req.id)
    ensures t.call.None? ==> IsErrorResponse(t.response)
  {
    match validateUuid(req.id)
    case Fail(t) => Trace(None, HandleResponse(d.getById.invalidId, StatusBadRequest, ErrorText(t)))
    case Pass =>
      var call := GetByIdCall(d.resource, req.id);
      match answer(call)
      case RpcError(t) => Trace(Some(call), HandleResponse(d.getById.backendFailure, StatusBadRequest, ErrorText(t)))
      case Answer(e) => Trace(Some(call), HandleResponse(d.getById.success, StatusOK, EntityData(e)))
  }

  function UpdateTrace(d: Descriptor, req: Request, answer: BackendCall -> Reply): (t: Trace)
    requires d.update.Some?
    ensures t.call.Some? <==> req.bound.Success? && (d.validatesIdentity ==> IdentityValid(req.bound.value))
    ensures t.call.Some? ==> t.call.value == UpdateCall(d.resource, req.bound.value)
    ensures t.call.None? ==> IsErrorResponse(t.response)
  {
    match req.bound
    case Failure(e) => Trace(None, HandleResponse(ReadBodyFailure, StatusBadRequest, ErrorValue(BindError(e))))
    case Success(b) =>
      match IdentityCheck(d, b)
      case Some(rej) => Trace(None, GrpcErrWithDescription(Some(ValidationError(rej.error)), rej.description))
      case None =>
        var call := UpdateCall(d.resource, b);
        match answer(call)
        case RpcError(t) => Trace(Some(call), HandleResponse(d.update.value.backendFailure, StatusBadRequest, ErrorText(t)))
        case Answer(e) => Trace(Some(call), HandleResponse(d.update.value.success, StatusOK, EntityData(e)))
  }

  function DeleteSuccessData(k: DeleteData, e: Entity): Data
  {
    match k
    case ReplyData => EntityData(e)
    case ConstantText(t) => Text(t)
  }

  function DeleteTrace(d: Descriptor, req: Request, answer: BackendCall -> Reply,
                       validateUuid: string -> Outcome): (t: Trace)
    requires d.delete.Some?
    ensures t.call.Some? <==> validateUuid(req.id) == Pass
    ensures t.call.Some? ==> t.call.value == DeleteCall(d.resource, req.id)
    ensures t.call.None? ==> IsErrorResponse(t.response)
  {
    var spec := d.delete.value;
    match validateUuid(req.id)
    case Fail(t) => Trace(None, HandleResponse(spec.invalidId, StatusBadRequest, ErrorText(t)))
    case Pass =>
      var call := DeleteCall(d.resource, req.id);
      match answer(call)
      case RpcError(t) => Trace(Some(call), HandleResponse(spec.backendFailure, StatusBadRequest, ErrorText(t)))
      case Answer(e) => Trace(Some(call), HandleResponse(spec.success, StatusOK, DeleteSuccessData(spec.data, e)))
  }

  function ListSearch(spec: ListSpec, search: string): Option<string>
  {
    if spec.forwardsSearch then Some(search) else None
  }

  function GetAllTrace(d: Descriptor, req: Request, answer: BackendCall -> Reply): (t: Trace)
    requires d.list.Some?
    ensures t.call.Some? <==> req.page.Success? && req.limit.Success?
    ensures t.call.Some? ==>
              t.call.value
              == GetAllCall(d.resource, (req.page.value - 1) * req.limit.value, req.limit.value,
                            if d.list.value.forwardsSearch then Some(req.search) else None)
    ensures t.call.None? ==> IsErrorResponse(t.response)
  {
    var spec := d.list.value;
    match req.page
    case Failure(e) => Trace(None, HandleResponse(PageFailure, StatusBadRequest, ErrorText(e)))
    case Success(page) =>
      match req.limit
      case Failure(e) => Trace(None, HandleResponse(LimitFailure, StatusBadRequest, ErrorText(e)))
      case Success(limit) =>
        var call := GetAllCall(d.resource, Offset(page, limit), limit, ListSearch(spec, req.search));
        match answer(call)
        case RpcError(t) => Trace(Some(call), HandleResponse(spec.backendFailure, StatusBadRequest, ErrorText(t)))
        case Answer(e) => Trace(Some(call), HandleResponse(spec.success, StatusOK, EntityData(e)))
  }

  /** The generic dispatcher: one operation of one resource on one request. */
  function Handle(d: Descriptor, op: Op, req: Request, answer: BackendCall -> Reply,
                  validateUuid: string -> Outcome): (t: Trace)
    requires Supports(d, op)
    ensures t.call.Some? ==> t.call.value.resource == d.resource
  {
    match op
    case Create => CreateTrace(d, req, answer)
    case GetById => GetByIdTrace(d, req, answer, validateUuid)
    case Update => UpdateTrace(d, req, answer)
    case Delete => DeleteTrace(d, req, answer, validateUuid)
    case GetAll => GetAllTrace(d, req, answer)
  }

  // ---------------------------------------------------------------------------------------
  // Reference definitions: what must hold for the backend to be called, and with what
  // ---------------------------------------------------------------------------------------

  /** What the validator chain really enforces: a space in the name and 8 to 30 password bytes. */
  predicate IdentityValid(b: Body)
  {
    ' ' in b.fullName && 8 <= ByteLen(b.password) <= 30
  }

  /** Every guard of the operation passes. */
  predicate GuardsPass(d: Descriptor, op: Op, req: Request, validateUuid: string -> Outcome)
  {
    match op
    case Create => req.bound.Success? && (d.validatesIdentity ==> IdentityValid(req.bound.value))
    case Update => req.bound.Success? && (d.validatesIdentity ==> IdentityValid(req.bound.value))
    case GetById => validateUuid(req.id) == Pass
    case Delete => validateUuid(req.id) == Pass
    case GetAll => req.page.Success? && req.limit.Success?
  }

  /** The backend request the operation sends once its guards pass. */
  predicate IsIntendedCall(d: Descriptor, op: Op, req: Request, c: BackendCall)
    requires Supports(d, op)
  {
    match op
    case Create => req.bound.Success? && c == CreateCall(d.resource, req.bound.value)
    case Update => req.bound.Success? && c == UpdateCall(d.resource, req.bound.value)
    case GetById => c == GetByIdCall(d.resource, req.id)
    case Delete => c == DeleteCall(d.resource, req.id)
    case GetAll =>
      && req.page.Success? && req.limit.Success?
      && c.GetAllCall? && c.resource == d.resource
      && c.offset == (req.page.value - 1) * req.limit.value
      && c.limit == req.limit.value
      && c.search == (if d.list.value.forwardsSearch then Some(req.search) else None)
  }

  /** A response that reports a failure: a 400 through `handleResponse`, or a non-nil error
      through `handleGrpcErrWithDescription`. */
  predicate IsErrorResponse(r: Response)
  {
    (r.HandleResponse? && r.status == StatusBadRequest) || (r.GrpcErrWithDescription? && r.err.Some?)
  }

  // ---------------------------------------------------------------------------------------
  // Theorems
  // ---------------------------------------------------------------------------------------

  /** No backend call unless every guard passed, and always one when they all pass. */
  lemma NoCallUnlessGuardsPass(d: Descriptor, op: Op, req: Request, answer: BackendCall -> Reply,
                               validateUuid: string -> Outcome)
    requires Supports(d, op)
    ensures Handle(d, op, req, answer, validateUuid).call.Some? <==> GuardsPass(d, op, req, validateUuid)
  {
  }

  /** The call that is made is the intended one: the right kind, the resource's backend, the
      decoded body or path id, and for lists the page window and (where forwarded) the search. */
  lemma CallIsIntended(d: Descriptor, op: Op, req: Request, answer: BackendCall -> Reply,
                       validateUuid: string -> Outcome)
    requires Supports(d, op)
    ensures var t := Handle(d, op, req, answer, validateUuid);
            t.call.Some? ==> IsIntendedCall(d, op, req, t.call.value)
  {
  }

  /** A response reports an error exactly when a guard failed or the backend failed. */
  lemma ErrorIffFailure(d: Descriptor, op: Op, req: Request, answer: BackendCall -> Reply,
                        validateUuid: string -> Outcome)
    requires Supports(d, op)
    ensures var t := Handle(d, op, req, answer, validateUuid);
            IsErrorResponse(t.response) <==> (t.call.None? || answer(t.call.value).RpcError?)
  {
  }

  /** A decode failure ends Create and Update before any validator or backend call. */
  lemma DecodeFailureStops(d: Descriptor, req: Request, answer: BackendCall -> Reply, e: string)
    requires req.bound == Failure(e)
    ensures CreateTrace(d, req, answer)
            == Trace(None, GrpcErrWithDescription(Some(BindError(e)), d.create.bindFailure))
    ensures d.update.Some? ==>
              UpdateTrace(d, req, answer)
              == Trace(None, HandleResponse(ReadBodyFailure, StatusBadRequest, ErrorValue(BindError(e))))
  {
  }

  /** The validator chain runs name, then password, then phone, and reports the first failure:
      a name without a space is reported whatever the password, a bad password is reported only
      once the name passed, and the phone never fails. */
  lemma ValidatorChainOrder(b: Body)
    ensures ' ' !in b.fullName ==> FirstInvalid(b) == Some(Rejection(FullNameError, NameInvalid))
    ensures ' ' in b.fullName && b.password == ""
            ==> FirstInvalid(b) == Some(Rejection(BlankPasswordError, PasswordInvalid))
    ensures ' ' in b.fullName && b.password != "" && !(8 <= ByteLen(b.password) <= 30)
            ==> FirstInvalid(b) == Some(Rejection(PasswordLengthError, PasswordInvalid))
    ensures FirstInvalid(b) != Some(Rejection(PhoneError, PhoneInvalid))
  {
  }

  /** An id `uuid.Validate` rejects gets a 400 carrying the validator's error text, and no call. */
  lemma InvalidIdRejected(d: Descriptor, req: Request, answer: BackendCall -> Reply,
                          validateUuid: string -> Outcome, t: string)
    requires validateUuid(req.id) == Fail(t)
    ensures GetByIdTrace(d, req, answer, validateUuid)
            == Trace(None, HandleResponse(d.getById.invalidId, StatusBadRequest, ErrorText(t)))
    ensures d.delete.Some? ==>
              DeleteTrace(d, req, answer, validateUuid)
              == Trace(None, HandleResponse(d.delete.value.invalidId, StatusBadRequest, ErrorText(t)))
  {
  }

  /** The string form of a UUID in section 3 of RFC 4122: 8-4-4-4-12 hexadecimal digits. */
  predicate IsHexDigit(c: char)
  {
    ('0' <= c <= '9') || ('a' <= c <= 'f') || ('A' <= c <= 'F')
  }

  predicate IsCanonicalUuid(s: string)
  {
    && |s| == 36
    && forall i :: 0 <= i < 36 ==>
         if i == 8 || i == 13 || i == 18 || i == 23 then s[i] == '-' else IsHexDigit(s[i])
  }

  /** What is known of `uuid.Validate`: it accepts the canonical string form. */
  ghost predicate AcceptsCanonical(validateUuid: string -> Outcome)
  {
    forall s :: IsCanonicalUuid(s) ==> validateUuid(s) == Pass
  }

  /** A canonical id always reaches the backend, exactly once, with that id. */
  lemma CanonicalIdReachesBackend(d: Descriptor, req: Request, answer: BackendCall -> Reply,
                                  validateUuid: string -> Outcome)
    requires AcceptsCanonical(validateUuid) && IsCanonicalUuid(req.id)
    ensures GetByIdTrace(d, req, answer, validateUuid).call == Some(GetByIdCall(d.resource, req.id))
    ensures d.delete.Some? ==> DeleteTrace(d, req, answer, validateUuid).call == Some(DeleteCall(d.resource, req.id))
  {
  }

  /** A backend failure after the guards: a 400 with the error text (Create instead passes the
      error on to `handleGrpcErrWithDescription`). */
  lemma BackendFailureResponse(d: Descriptor, op: Op, req: Request, answer: BackendCall -> Reply,
                               validateUuid: string -> Outcome, c: BackendCall, t: string)
    requires Supports(d, op)
    requires Handle(d, op, req, answer, validateUuid).call == Some(c) && answer(c) == RpcError(t)
    ensures var r := Handle(d, op, req, answer, validateUuid).response;
            match op
            case Create => r == GrpcErrWithDescription(Some(BackendError(t)), d.create.backendFailure)
            case GetById => r == HandleResponse(d.getById.backendFailure, StatusBadRequest, ErrorText(t))
            case Update => r == HandleResponse(d.update.value.backendFailure, StatusBadRequest, ErrorText(t))
            case Delete => r == HandleResponse(d.delete.value.backendFailure, StatusBadRequest, ErrorText(t))
            case GetAll => r == HandleResponse(d.list.value.backendFailure, StatusBadRequest, ErrorText(t))
  {
  }

  /** A backend success: Create answers as its descriptor says; the others answer 200 with the
      backend response, except a Delete whose descriptor names a constant text. */
  lemma BackendSuccessResponse(d: Descriptor, op: Op, req: Request, answer: BackendCall -> Reply,
                               validateUuid: string -> Outcome, c: BackendCall, e: Entity)
    requires Supports(d, op)
    requires Handle(d, op, req, answer, validateUuid).call == Some(c) && answer(c) == Answer(e)
    ensures var r := Handle(d, op, req, answer, validateUuid).response;
            match op
            case Create => r == CreateSuccessResponse(d.create.success, e)
            case GetById => r == HandleResponse(d.getById.success, StatusOK, EntityData(e))
            case Update => r == HandleResponse(d.update.value.success, StatusOK, EntityData(e))
            case Delete => r == HandleResponse(d.delete.value.success, StatusOK, DeleteSuccessData(d.delete.value.data, e))
            case GetAll => r == HandleResponse(d.list.value.success, StatusOK, EntityData(e))
  {
  }

  /** Page is parsed before limit: a page failure is reported whatever the limit. */
  lemma PageParsedBeforeLimit(d: Descriptor, req: Request, answer: BackendCall -> Reply)
    requires d.list.Some?
    ensures req.page.Failure?
            ==> GetAllTrace(d, req, answer) == Trace(None, HandleResponse(PageFailure, StatusBadRequest, ErrorText(req.page.error)))
    ensures req.page.Success? && req.limit.Failure?
            ==> GetAllTrace(d, req, answer) == Trace(None, HandleResponse(LimitFailure, StatusBadRequest, ErrorText(req.limit.error)))
  {
  }

  /** For a page of at least 1 and a positive limit, the offset is a non-negative multiple of
      the limit from which the page is recovered, and consecutive pages are adjacent windows. */
  lemma OffsetWindow(page: int, limit: int)
    requires page >= 1 && limit > 0
    ensures Offset(page, limit) >= 0
    ensures Offset(page, limit) % limit == 0
    ensures Offset(page, limit) / limit + 1 == page
    ensures Offset(page + 1, limit) == Offset(page, limit) + limit
    ensures Offset(1, limit) == 0
  {
    var k := page - 1;
    assert Offset(page, limit) == k * limit;
    assert k * limit >= 0 by {
      assert k >= 0;
    }
    assert (k * limit) / limit == k && (k * limit) % limit == 0 by {
      DivisionOfMultiple(k, limit);
    }
  }

  /** Division recovers the factor of a multiple: the difference between the factor and the
      quotient times the limit is the remainder, which lies in [0, limit). */
  lemma DivisionOfMultiple(k: nat, limit: int)
    requires limit > 0
    ensures (k * limit) / limit == k && (k * limit) % limit == 0
  {
    var n := k * limit;
    var q, r := n / limit, n % limit;
    assert limit * (k - q) == r;
    SmallMultipleIsZero(k - q, limit);
  }

  /** The only multiple of a positive limit in [0, limit) is zero. */
  lemma SmallMultipleIsZero(m: int, limit: int)
    requires limit > 0 && 0 <= limit * m < limit
    ensures m == 0
  {
    if m != 0 {
      if m > 0 {
        MultipleBeyondLimit(m - 1, limit);
      } else {
        MultipleBeyondLimit(-m - 1, limit);
      }
    }
  }

  lemma MultipleBeyondLimit(j: nat, limit: int)
    requires limit > 0
    ensures limit * (j + 1) >= limit && limit * (-(j + 1)) <= -limit
  {
  }

  /** On unbounded integers a page of 0 gives a negative offset: no handler clamps the page. */
  lemma OffsetExamples()
    ensures Offset(1, 10) == 0
    ensures Offset(3, 20) == 40
    ensures Offset(0, 10) == -10
  {
  }
}
