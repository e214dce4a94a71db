/**
  What each handler file does, stated on the generic dispatcher through that file's descriptor:
  the operations it defines, whether Create and Update validate the body, how Create and Delete
  answer on success, and whether the list forwards the `search` query.
*/
module HandlerFiles {
  import opened Wrappers
  import opened Resources
  import opened Dispatch

  /** The operations a descriptor provides. */
  function Operations(d: Descriptor): set<Op>
  {
    {Create, GetById}
    + (if d.update.Some? then {Update} else {})
    + (if d.delete.Some? then {Delete} else {})
    + (if d.list.Some? then {GetAll} else {})
  }

  /** Create and Update hand every decoded body to the backend unchecked. */
  predicate SkipsValidation(d: Descriptor, req: Request, answer: BackendCall -> Reply)
  {
    req.bound.Success? ==>
      && CreateTrace(d, req, answer).call == Some(CreateCall(d.resource, req.bound.value))
      && (d.update.Some? ==> UpdateTrace(d, req, answer).call == Some(UpdateCall(d.resource, req.bound.value)))
  }

  /** Create and Update reach the backend exactly for bodies the validator chain accepts. */
  predicate ValidatesBeforeCall(d: Descriptor, req: Request, answer: BackendCall -> Reply)
  {
    req.bound.Success? ==>
      && (CreateTrace(d, req, answer).call.Some? <==> IdentityValid(req.bound.value))
      && (d.update.Some? ==> (UpdateTrace(d, req, answer).call.Some? <==> IdentityValid(req.bound.value)))
  }

  /** When the trace's call is answered with `e`, the response is `r`. */
  predicate SucceedsWith(t: Trace, answer: BackendCall -> Reply, e: Entity, r: Response)
  {
    t.call.Some? && answer(t.call.value) == Answer(e) ==> t.response == r
  }

  /** The search the list sends once page and limit parsed. */
  predicate ListSends(d: Descriptor, req: Request, answer: BackendCall -> Reply, search: Option<string>)
    requires d.list.Some?
  {
    req.page.Success? && req.limit.Success? ==>
      GetAllTrace(d, req, answer).call
      == Some(GetAllCall(d.resource, Offset(req.page.value, req.limit.value), req.limit.value, search))
  }

  lemma SuperAdminsFile(d: Descriptor, req: Request, answer: BackendCall -> Reply,
                        validateUuid: string -> Outcome, e: Entity)
    requires d == Describe(SuperAdmins)
    ensures Operations(d) == {Create, GetById, Update, Delete, GetAll}
    ensures ValidatesBeforeCall(d, req, answer)
    ensures SucceedsWith(CreateTrace(d, req, answer), answer, e, Json(StatusCreated, EntityData(e)))
    ensures SucceedsWith(DeleteTrace(d, req, answer, validateUuid), answer, e,
                         HandleResponse("superAdminId deleted successfully", StatusOK, EntityData(e)))
    ensures ListSends(d, req, answer, Some(req.search))
  {
  }

  lemma AdminsFile(d: Descriptor, req: Request, answer: BackendCall -> Reply,
                   validateUuid: string -> Outcome, e: Entity)
    requires d == Describe(Admins)
    ensures Operations(d) == {Create, GetById, Update, Delete, GetAll}
    ensures ValidatesBeforeCall(d, req, answer)
    ensures SucceedsWith(CreateTrace(d, req, answer), answer, e,
                         HandleResponse("Adminstrator is created", StatusCreated, EntityData(e)))
    ensures SucceedsWith(DeleteTrace(d, req, answer, validateUuid), answer, e,
                         HandleResponse("Admin deleted successfully", StatusOK, EntityData(e)))
    ensures ListSends(d, req, answer, Some(req.search))
  {
  }

  lemma SupportTeachersFile(d: Descriptor, req: Request, answer: BackendCall -> Reply,
                            validateUuid: string -> Outcome, e: Entity)
    requires d == Describe(SupportTeachers)
    ensures Operations(d) == {Create, GetById, Update, Delete, GetAll}
    ensures SkipsValidation(d, req, answer)
    ensures SucceedsWith(CreateTrace(d, req, answer), answer, e,
                         GrpcErrWithDescription(None, "Support teacher created successfully"))
    ensures SucceedsWith(DeleteTrace(d, req, answer, validateUuid), answer, e,
                         HandleResponse("Support teacher deleted successfully", StatusOK, EntityData(e)))
    ensures ListSends(d, req, answer, Some(req.search))
  {
  }

  lemma AttendancesFile(d: Descriptor, req: Request, answer: BackendCall -> Reply,
                        validateUuid: string -> Outcome, e: Entity)
    requires d == Describe(Attendances)
    ensures Operations(d) == {Create, GetById, Update, Delete, GetAll}
    ensures SkipsValidation(d, req, answer)
    ensures SucceedsWith(CreateTrace(d, req, answer), answer, e,
                         GrpcErrWithDescription(None, "Attendance created successfully"))
    ensures SucceedsWith(DeleteTrace(d, req, answer, validateUuid), answer, e,
                         HandleResponse("Attendance deleted successfully", StatusOK,
                                        Text("Attendance deleted successfully")))
    ensures ListSends(d, req, answer, None)
  {
  }

  lemma SchedulesFile(d: Descriptor, req: Request, answer: BackendCall -> Reply,
                      validateUuid: string -> Outcome, e: Entity)
    requires d == Describe(Schedules)
    ensures Operations(d) == {Create, GetById, Update, Delete, GetAll}
    ensures SkipsValidation(d, req, answer)
    ensures SucceedsWith(CreateTrace(d, req, answer), answer, e,
                         GrpcErrWithDescription(None, "Schedule created successfully"))
    ensures SucceedsWith(DeleteTrace(d, req, answer, validateUuid), answer, e,
                         HandleResponse("Schedule deleted successfully", StatusOK, EntityData(e)))
    ensures ListSends(d, req, answer, None)
  {
  }

  lemma ManagersFile(d: Descriptor, req: Request, answer: BackendCall -> Reply,
                     validateUuid: string -> Outcome, e: Entity)
    requires d == Describe(Managers)
    ensures Operations(d) == {Create, GetById, Update, Delete, GetAll}
    ensures SkipsValidation(d, req, answer)
    ensures SucceedsWith(CreateTrace(d, req, answer), answer, e,
                         GrpcErrWithDescription(None, "Manager created successfully"))
    ensures SucceedsWith(DeleteTrace(d, req, answer, validateUuid), answer, e,
                         HandleResponse("Manager deleted successfully", StatusOK,
                                        Text("Manager deleted successfully")))
    ensures ListSends(d, req, answer, Some(req.search))
  {
  }

  lemma StudentsFile(d: Descriptor, req: Request, answer: BackendCall -> Reply,
                     validateUuid: string -> Outcome, e: Entity)
    requires d == Describe(Students)
    ensures Operations(d) == {Create, GetById, Update, Delete, GetAll}
    ensures SkipsValidation(d, req, answer)
    ensures SucceedsWith(CreateTrace(d, req, answer), answer, e,
                         GrpcErrWithDescription(None, "Student created successfully"))
    ensures SucceedsWith(DeleteTrace(d, req, answer, validateUuid), answer, e,
                         HandleResponse("Student deleted successfully", StatusOK, EntityData(e)))
    ensures ListSends(d, req, answer, Some(req.search))
  {
  }

  lemma TeachersFile(d: Descriptor, req: Request, answer: BackendCall -> Reply,
                     validateUuid: string -> Outcome, e: Entity)
    requires d == Describe(Teachers)
    ensures Operations(d) == {Create, GetById, Update, Delete, GetAll}
    ensures SkipsValidation(d, req, answer)
    ensures SucceedsWith(CreateTrace(d, req, answer), answer, e,
                         GrpcErrWithDescription(None, "Teacher created successfully"))
    ensures SucceedsWith(DeleteTrace(d, req, answer, validateUuid), answer, e,
                         HandleResponse("Teacher deleted successfully", StatusOK, EntityData(e)))
    ensures ListSends(d, req, answer, Some(req.search))
  {
  }

  lemma BranchesFile(d: Descriptor, req: Request, answer: BackendCall -> Reply,
                     validateUuid: string -> Outcome, e: Entity)
    requires d == Describe(Branches)
    ensures Operations(d) == {Create, GetById, Update, Delete, GetAll}
    ensures SkipsValidation(d, req, answer)
    ensures SucceedsWith(CreateTrace(d, req, answer), answer, e,
                         HandleResponse("Branch created successfully", StatusCreated, EntityData(e)))
    ensures SucceedsWith(DeleteTrace(d, req, answer, validateUuid), answer, e,
                         HandleResponse("Branch deleted successfully", StatusOK,
                                        Text("Branch deleted successfully")))
    ensures ListSends(d, req, answer, Some(req.search))
  {
  }

  lemma EventsFile(d: Descriptor, req: Request, answer: BackendCall -> Reply,
                   validateUuid: string -> Outcome, e: Entity)
    requires d == Describe(Events)
    ensures Operations(d) == {Create, GetById, Update, Delete, GetAll}
    ensures SkipsValidation(d, req, answer)
    ensures SucceedsWith(CreateTrace(d, req, answer), answer, e,
                         GrpcErrWithDescription(None, "Event created successfully"))
    ensures SucceedsWith(DeleteTrace(d, req, answer, validateUuid), answer, e,
                         HandleResponse("Event deleted successfully", StatusOK, EntityData(e)))
    ensures ListSends(d, req, answer, Some(req.search))
  {
  }

  lemma GroupsFile(d: Descriptor, req: Request, answer: BackendCall -> Reply,
                   validateUuid: string -> Outcome, e: Entity)
    requires d == Describe(Groups)
    ensures Operations(d) == {Create, GetById, Update, Delete, GetAll}
    ensures SkipsValidation(d, req, answer)
    ensures SucceedsWith(CreateTrace(d, req, answer), answer, e,
                         GrpcErrWithDescription(None, "Group created successfully"))
    ensures SucceedsWith(DeleteTrace(d, req, answer, validateUuid), answer, e,
                         HandleResponse("Group deleted successfully", StatusOK, EntityData(e)))
    ensures ListSends(d, req, answer, Some(req.search))
  {
  }

  lemma TasksFile(d: Descriptor, req: Request, answer: BackendCall -> Reply,
                  validateUuid: string -> Outcome, e: Entity)
    requires d == Describe(Tasks)
    ensures Operations(d) == {Create, GetById, Update, Delete, GetAll}
    ensures SkipsValidation(d, req, answer)
    ensures SucceedsWith(CreateTrace(d, req, answer), answer, e,
                         GrpcErrWithDescription(None, "Task created successfully"))
    ensures SucceedsWith(DeleteTrace(d, req, answer, validateUuid), answer, e,
                         HandleResponse("Task deleted successfully", StatusOK, EntityData(e)))
    ensures ListSends(d, req, answer, None)
  {
  }

  /** The lessons file has no Delete handler. */
  lemma LessonsFile(d: Descriptor, req: Request, answer: BackendCall -> Reply, e: Entity)
    requires d == Describe(Lessons)
    ensures Operations(d) == {Create, GetById, Update, GetAll}
    ensures SkipsValidation(d, req, answer)
    ensures SucceedsWith(CreateTrace(d, req, answer), answer, e,
                         GrpcErrWithDescription(None, "Lesson created successfully"))
    ensures ListSends(d, req, answer, None)
  {
  }

  /** The join-events file has Create, GetById and Delete only. */
  lemma JoinEventsFile(d: Descriptor, req: Request, answer: BackendCall -> Reply,
                       validateUuid: string -> Outcome, e: Entity)
    requires d == Describe(JoinEvents)
    ensures Operations(d) == {Create, GetById, Delete}
    ensures SkipsValidation(d, req, answer)
    ensures SucceedsWith(CreateTrace(d, req, answer), answer, e,
                         GrpcErrWithDescription(None, "EvenJoin created successfully"))
    ensures SucceedsWith(GetByIdTrace(d, req, answer, validateUuid), answer, e,
                         HandleResponse("Join event got successfully", StatusOK, EntityData(e)))
    ensures SucceedsWith(DeleteTrace(d, req, answer, validateUuid), answer, e,
                         HandleResponse("Join event deleted successfully", StatusOK, EntityData(e)))
  {
  }

  /** Only the two administrator files validate identity fields. */
  lemma OnlyAdministratorsValidate(r: Resource)
    ensures Describe(r).validatesIdentity <==> r == SuperAdmins || r == Admins
  {
    match r
    case SuperAdmins =>
    case Admins =>
    case SupportTeachers =>
    case Attendances =>
    case Schedules =>
    case Managers =>
    case Students =>
    case Teachers =>
    case Branches =>
    case Events =>
    case Groups =>
    case Tasks =>
    case Lessons =>
    case JoinEvents =>
  }
}
