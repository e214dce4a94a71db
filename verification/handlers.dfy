/**
  The handlers as the source runs them: straight-line guards with early returns, at most one
  remote call on the resource's gRPC client, and one response written into gin's context. One
  generic handler per operation serves every resource through its descriptor; each method is
  proved to record exactly the call and the response of the matching trace function of module
  `Dispatch`.
*/
module Handlers {
  import opened Wrappers
  import opened Validations
  import opened Resources
  import opened Dispatch

  /** The calls a trace makes: none or one. */
  function CallsOf(t: Trace): (s: seq<BackendCall>)
    ensures |s| <= 1
    ensures |s| == 1 <==> t.call.Some?
  {
    if t.call.Some? then [t.call.value] else []
  }

  /** A gRPC client of the backend services. Every invocation is recorded; what the services
      answer is not part of this model and is fixed by `answer`, which is left arbitrary. */
  class Backend {
    const answer: BackendCall -> Reply
    var calls: seq<BackendCall>

    constructor (answer: BackendCall -> Reply)
      ensures this.answer == answer && calls == []
    {
      this.answer := answer;
      calls := [];
    }

    method Invoke(call: BackendCall) returns (reply: Reply)
      modifies this
      ensures calls == old(calls) + [call]
      ensures reply == answer(call)
    {
      calls := calls + [call];
      reply := answer(call);
    }
  }

  /** gin's context for one request: what the request carries, and the responses written. */
  class Context {
    const request: Request
    var written: seq<Response>

    constructor (request: Request)
      ensures this.request == request && written == []
    {
      this.request := request;
      written := [];
    }

    method ShouldBindJSON() returns (r: Result<Body>)
      ensures r == request.bound
    {
      r := request.bound;
    }

    method Param() returns (id: string)
      ensures id == request.id
    {
      id := request.id;
    }

    method Query() returns (search: string)
      ensures search == request.search
    {
      search := request.search;
    }

    method ParsePageQueryParam() returns (page: Result<int>)
      ensures page == request.page
    {
      page := request.page;
    }

    method ParseLimitQueryParam() returns (limit: Result<int>)
      ensures limit == request.limit
    {
      limit := request.limit;
    }

    /** `handleResponse`, `handleGrpcErrWithDescription` or `c.JSON`. */
    method Write(r: Response)
      modifies this
      ensures written == old(written) + [r]
    {
      written := written + [r];
    }
  }

  /** The gateway's handler: its gRPC client and `uuid.Validate`, which is supplied from
      outside this model. */
  class Handler {
    const backend: Backend
    const validateUuid: string -> Outcome

    constructor (backend: Backend, validateUuid: string -> Outcome)
      ensures this.backend == backend && this.validateUuid == validateUuid
    {
      this.backend := backend;
      this.validateUuid := validateUuid;
    }

    method Create(d: Descriptor, c: Context)
      modifies backend, c
      ensures backend.calls == old(backend.calls) + CallsOf(CreateTrace(d, c.request, backend.answer))
      ensures c.written == old(c.written) + [CreateTrace(d, c.request, backend.answer).response]
    {
      var bound := c.ShouldBindJSON();
      if bound.Failure? {
        c.Write(GrpcErrWithDescription(Some(BindError(bound.error)), d.create.bindFailure));
        return;
      }
      var body := bound.value;
      var rejection := IdentityCheck(d, body);
      if rejection.Some? {
        c.Write(GrpcErrWithDescription(Some(ValidationError(rejection.value.error)), rejection.value.description));
        return;
      }
      var reply := backend.Invoke(CreateCall(d.resource, body));
      if reply.RpcError? {
        c.Write(GrpcErrWithDescription(Some(BackendError(reply.text)), d.create.backendFailure));
        return;
      }
      c.Write(CreateSuccessResponse(d.create.success, reply.entity));
    }

    method GetById(d: Descriptor, c: Context)
      modifies backend, c
      ensures backend.calls
              == old(backend.calls) + CallsOf(GetByIdTrace(d, c.request, backend.answer, validateUuid))
      ensures c.written
              == old(c.written) + [GetByIdTrace(d, c.request, backend.answer, validateUuid).response]
    {
      var id := c.Param();
      var valid := validateUuid(id);
      if valid.Fail? {
        c.Write(HandleResponse(d.getById.invalidId, StatusBadRequest, ErrorText(valid.error)));
        return;
      }
      var reply := backend.Invoke(GetByIdCall(d.resource, id));
      if reply.RpcError? {
        c.Write(HandleResponse(d.getById.backendFailure, StatusBadRequest, ErrorText(reply.text)));
        return;
      }
      c.Write(HandleResponse(d.getById.success, StatusOK, EntityData(reply.entity)));
    }

    method Update(d: Descriptor, c: Context)
      requires d.update.Some?
      modifies backend, c
      ensures backend.calls == old(backend.calls) + CallsOf(UpdateTrace(d, c.request, backend.answer))
      ensures c.written == old(c.written) + [UpdateTrace(d, c.request, backend.answer).response]
    {
      var bound := c.ShouldBindJSON();
      if bound.Failure? {
        c.Write(HandleResponse(ReadBodyFailure, StatusBadRequest, ErrorValue(BindError(bound.error))));
        return;
      }
      var body := bound.value;
      var rejection := IdentityCheck(d, body);
      if rejection.Some? {
        c.Write(GrpcErrWithDescription(Some(ValidationError(rejection.value.error)), rejection.value.description));
        return;
      }
      var reply := backend.Invoke(UpdateCall(d.resource, body));
      if reply.RpcError? {
        c.Write(HandleResponse(d.update.value.backendFailure, StatusBadRequest, ErrorText(reply.text)));
        return;
      }
      c.Write(HandleResponse(d.update.value.success, StatusOK, EntityData(reply.entity)));
    }

    method Delete(d: Descriptor, c: Context)
      requires d.delete.Some?
      modifies backend, c
      ensures backend.calls
              == old(backend.calls) + CallsOf(DeleteTrace(d, c.request, backend.answer, validateUuid))
      ensures c.written
              == old(c.written) + [DeleteTrace(d, c.request, backend.answer, validateUuid).response]
    {
      var spec := d.delete.value;
      var id := c.Param();
      var valid := validateUuid(id);
      if valid.Fail? {
        c.Write(HandleResponse(spec.invalidId, StatusBadRequest, ErrorText(valid.error)));
        return;
      }
      var reply := backend.Invoke(DeleteCall(d.resource, id));
      if reply.RpcError? {
        c.Write(HandleResponse(spec.backendFailure, StatusBadRequest, ErrorText(reply.text)));
        return;
      }
      c.Write(HandleResponse(spec.success, StatusOK, DeleteSuccessData(spec.data, reply.entity)));
    }

    method GetAll(d: Descriptor, c: Context)
      requires d.list.Some?
      modifies backend, c
      ensures backend.calls == old(backend.calls) + CallsOf(GetAllTrace(d, c.request, backend.answer))
      ensures c.written == old(c.written) + [GetAllTrace(d, c.request, backend.answer).response]
    {
      var spec := d.list.value;
      var search := c.Query();
      var page := c.ParsePageQueryParam();
      if page.Failure? {
        c.Write(HandleResponse(PageFailure, StatusBadRequest, ErrorText(page.error)));
        return;
      }
      var limit := c.ParseLimitQueryParam();
      if limit.Failure? {
        c.Write(HandleResponse(LimitFailure, StatusBadRequest, ErrorText(limit.error)));
        return;
      }
      var call := GetAllCall(d.resource, (page.value - 1) * limit.value, limit.value,
                             if spec.forwardsSearch then Some(search) else None);
      var reply := backend.Invoke(call);
      if reply.RpcError? {
        c.Write(HandleResponse(spec.backendFailure, StatusBadRequest, ErrorText(reply.text)));
        return;
      }
      c.Write(HandleResponse(spec.success, StatusOK, EntityData(reply.entity)));
    }

    /** Serves one request on a fresh context: the backend is called at most once, only when
        every guard passes, and exactly one response is written. */
    method Serve(d: Descriptor, op: Op, c: Context)
      requires Supports(d, op)
      requires c.written == []
      modifies backend, c
      ensures |backend.calls| <= |old(backend.calls)| + 1
      ensures |backend.calls| == |old(backend.calls)| + 1 <==> GuardsPass(d, op, c.request, validateUuid)
      ensures backend.calls == old(backend.calls) + CallsOf(Handle(d, op, c.request, backend.answer, validateUuid))
      ensures c.written == [Handle(d, op, c.request, backend.answer, validateUuid).response]
    {
      NoCallUnlessGuardsPass(d, op, c.request, backend.answer, validateUuid);
      match op
      case Create => Create(d, c);
      case GetById => GetById(d, c);
      case Update => Update(d, c);
      case Delete => Delete(d, c);
      case GetAll => GetAll(d, c);
    }
  }

  /** One request end to end, on a fresh gRPC client and a fresh context: the backend sees at
      most one call, only when every guard passes, and that call is the one the operation means
      to make; exactly one response is written, and it reports an error exactly when a guard or
      the backend failed. */
  method ServeRequest(d: Descriptor, op: Op, request: Request, answer: BackendCall -> Reply,
                      validateUuid: string -> Outcome)
    returns (calls: seq<BackendCall>, written: seq<Response>)
    requires Supports(d, op)
    ensures |calls| <= 1 && |written| == 1
    ensures |calls| == 1 <==> GuardsPass(d, op, request, validateUuid)
    ensures |calls| == 1 ==> IsIntendedCall(d, op, request, calls[0])
    ensures IsErrorResponse(written[0]) <==> (calls == [] || answer(calls[0]).RpcError?)
    ensures written == [Handle(d, op, request, answer, validateUuid).response]
  {
    var backend := new Backend(answer);
    var handler := new Handler(backend, validateUuid);
    var c := new Context(request);
    handler.Serve(d, op, c);
    CallIsIntended(d, op, request, answer, validateUuid);
    ErrorIffFailure(d, op, request, answer, validateUuid);
    calls := backend.calls;
    written := c.written;
  }
}
