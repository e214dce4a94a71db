/**
  The fourteen resource families the gateway serves and, for each, a descriptor of what its
  handler file does: which operations it has, whether it validates identity fields, whether its
  list forwards the `search` query, how Create and Delete answer on success, and the fixed
  messages each handler writes.
*/
module Resources {
  import opened Wrappers

  datatype Resource =
    | SuperAdmins | Admins | SupportTeachers | Attendances | Schedules | Managers | Students
    | Teachers | Branches | Events | Groups | Tasks | Lessons | JoinEvents

  /** How a successful Create answers. */
  datatype CreateSuccess =
    | RawCreated                        // c.JSON(201, resp): the backend response, no envelope
    | CreatedEnvelope(message: string)  // handleResponse(message, 201, resp)
    | NilErrorDescription(description: string)
                                        // handleGrpcErrWithDescription(nil, description); resp dropped

  /** What a successful Delete sends as data. */
  datatype DeleteData = ReplyData | ConstantText(text: string)

  datatype CreateSpec = CreateSpec(bindFailure: string, backendFailure: string, success: CreateSuccess)
  datatype GetByIdSpec = GetByIdSpec(invalidId: string, backendFailure: string, success: string)
  datatype UpdateSpec = UpdateSpec(backendFailure: string, success: string)
  datatype DeleteSpec = DeleteSpec(invalidId: string, backendFailure: string, success: string, data: DeleteData)
  datatype ListSpec = ListSpec(forwardsSearch: bool, backendFailure: string, success: string)

  /** Create and GetById exist for every resource; the other operations only where the handler
      file defines them. */
  datatype Descriptor = Descriptor(
    resource: Resource,
    validatesIdentity: bool,
    create: CreateSpec,
    getById: GetByIdSpec,
    update: Option<UpdateSpec>,
    delete: Option<DeleteSpec>,
    list: Option<ListSpec>)

  /** The descriptor of each handler file: its operations, whether it validates, and the
      messages it writes. */
  function Describe(r: Resource): (d: Descriptor)
    ensures d.resource == r
    ensures d.validatesIdentity <==> r == SuperAdmins || r == Admins
    ensures d.update.None? <==> r == JoinEvents
    ensures d.delete.None? <==> r == Lessons
    ensures d.list.None? <==> r == JoinEvents
    ensures d.list.Some? ==>
              (d.list.value.forwardsSearch <==> !(r == Attendances || r == Schedules || r == Tasks || r == Lessons))
  {
    Descriptor(r, r == SuperAdmins || r == Admins,
      CreateOf(r), GetByIdOf(r), UpdateOf(r), DeleteOf(r), ListOf(r))
  }

  /** What each Create handler writes. */
  function CreateOf(r: Resource): CreateSpec
  {
    match r
    case SuperAdmins =>
      CreateSpec("error while creating an order", "error while creating superAdmin", RawCreated)
    case Admins =>
      CreateSpec("error while creating an admin",
        "error while creating an admin", CreatedEnvelope("Adminstrator is created"))
    case SupportTeachers =>
      CreateSpec("error while creating a supportTeacher",
        "error while creating a support teacher",
        NilErrorDescription("Support teacher created successfully"))
    case Attendances =>
      CreateSpec("error while creating a attendance",
        "error while creating a attendance",
        NilErrorDescription("Attendance created successfully"))
    case Schedules =>
      CreateSpec("error while creating a schedule",
        "error while creating a schedule", NilErrorDescription("Schedule created successfully"))
    case Managers =>
      CreateSpec("error while creating a manager",
        "error while creating a manager", NilErrorDescription("Manager created successfully"))
    case Students =>
      CreateSpec("error while creating a student",
        "error while creating a student", NilErrorDescription("Student created successfully"))
    case Teachers =>
      CreateSpec("error while creating a teacher",
        "error while creating a teacher", NilErrorDescription("Teacher created successfully"))
    case Branches =>
      CreateSpec("error while creating a branch",
        "error while creating a branch", CreatedEnvelope("Branch created successfully"))
    case Events =>
      CreateSpec("error while creating an event",
        "error while creating an event", NilErrorDescription("Event created successfully"))
    case Groups =>
      CreateSpec("error while creating a group",
        "error while creating a group", NilErrorDescription("Group created successfully"))
    case Tasks =>
      CreateSpec("error while creating a task",
        "error while creating a task", NilErrorDescription("Task created successfully"))
    case Lessons =>
      CreateSpec("error while creating a lesson",
        "error while creating a lesson", NilErrorDescription("Lesson created successfully"))
    case JoinEvents =>
      CreateSpec("error while creating a evenJoin",
        "error while creating a evenJoin", NilErrorDescription("EvenJoin created successfully"))
  }

  /** What each GetById handler writes. */
  function GetByIdOf(r: Resource): GetByIdSpec
  {
    match r
    case SuperAdmins =>
      GetByIdSpec("error while validating super-admin",
        "error while getting superAdmin", "superAdmin got successfully")
    case Admins =>
      GetByIdSpec("error while validating admin",
        "error while getting admin", "Admin got successfully")
    case SupportTeachers =>
      GetByIdSpec("error while validating support teacher id",
        "error while getting supportTeacher", "Support teacher got successfully")
    case Attendances =>
      GetByIdSpec("error while validating attendance id",
        "error while getting attendance", "Attendance got successfully")
    case Schedules =>
      GetByIdSpec("error while validating schedule id",
        "error while getting schedule", "Schedule got successfully")
    case Managers =>
      GetByIdSpec("error while validating manager id",
        "error while getting manager", "Manager got successfully")
    case Students =>
      GetByIdSpec("error while validating student id",
        "error while getting student", "Student got successfully")
    case Teachers =>
      GetByIdSpec("error while validating teacher id",
        "error while getting teacher", "Teacher got successfully")
    case Branches =>
      GetByIdSpec("error while validating branch",
        "error while getting branch", "Branch got successfully")
    case Events =>
      GetByIdSpec("error while validating admin",
        "error while getting event", "Event got successfully")
    case Groups =>
      GetByIdSpec("error while validating group id",
        "error while getting group", "Group got successfully")
    case Tasks =>
      GetByIdSpec("error while validating schedule id",
        "error while getting task", "Task got successfully")
    case Lessons =>
      GetByIdSpec("error while validating lesson id",
        "error while getting lesson", "Lesson got successfully")
    case JoinEvents =>
      GetByIdSpec("error while validating join event id",
        "error while getting joinevent", "Join event got successfully")
  }

  /** Every file but the join-events one has an Update handler. */
  function UpdateOf(r: Resource): (u: Option<UpdateSpec>)
    ensures u.None? <==> r == JoinEvents
  {
    match r
    case SuperAdmins =>
      Some(UpdateSpec("error while updating superAdmin", "superAdmin updated successfully"))
    case Admins =>
      Some(UpdateSpec("error while updating an admin", "Admin updated successfully"))
    case SupportTeachers =>
      Some(UpdateSpec("error while updating a support teacher",
        "Support teacher updated successfully"))
    case Attendances =>
      Some(UpdateSpec("error while updating a attendance", "attendance updated successfully"))
    case Schedules =>
      Some(UpdateSpec("error while updating a schedule", "Schedule updated successfully"))
    case Managers =>
      Some(UpdateSpec("error while updating a manager", "Manager updated successfully"))
    case Students =>
      Some(UpdateSpec("error while updating a student", "Student updated successfully"))
    case Teachers =>
      Some(UpdateSpec("error while updating a teacher", "Teacher updated successfully"))
    case Branches =>
      Some(UpdateSpec("error while updating a branch", "Branch updated successfully"))
    case Events =>
      Some(UpdateSpec("error while updating an event", "Event updated successfully"))
    case Groups =>
      Some(UpdateSpec("error while updating a group", "Group updated successfully"))
    case Tasks =>
      Some(UpdateSpec("error while updating a task", "Task updated successfully"))
    case Lessons =>
      Some(UpdateSpec("error while updating a lesson", "Lesson updated successfully"))
    case JoinEvents =>
      None
  }

  /** Every file but the lessons one has a Delete handler; three answer with a constant text. */
  function DeleteOf(r: Resource): (x: Option<DeleteSpec>)
    ensures x.None? <==> r == Lessons
  {
    match r
    case SuperAdmins =>
      Some(DeleteSpec("error while validating super-admin id",
        "error while deleting an superAdmin", "superAdminId deleted successfully", ReplyData))
    case Admins =>
      Some(DeleteSpec("error while validating admin id",
        "error while deleting an admin", "Admin deleted successfully", ReplyData))
    case SupportTeachers =>
      Some(DeleteSpec("error while validating support teacher id",
        "error while deleting a support teacher", "Support teacher deleted successfully",
        ReplyData))
    case Attendances =>
      Some(DeleteSpec("error while validating attendance id",
        "error while deleting a attendance", "Attendance deleted successfully",
        ConstantText("Attendance deleted successfully")))
    case Schedules =>
      Some(DeleteSpec("error while validating schedule id",
        "error while deleting a schedule", "Schedule deleted successfully", ReplyData))
    case Managers =>
      Some(DeleteSpec("error while validating manager id",
        "error while deleting a manager", "Manager deleted successfully",
        ConstantText("Manager deleted successfully")))
    case Students =>
      Some(DeleteSpec("error while validating manager id",
        "error while deleting a student", "Student deleted successfully", ReplyData))
    case Teachers =>
      Some(DeleteSpec("error while validating teacher id",
        "error while deleting a teacher", "Teacher deleted successfully", ReplyData))
    case Branches =>
      Some(DeleteSpec("error while validating branch id",
        "error while deleting an branch", "Branch deleted successfully",
        ConstantText("Branch deleted successfully")))
    case Events =>
      Some(DeleteSpec("error while validating event id",
        "error while deleting an event", "Event deleted successfully", ReplyData))
    case Groups =>
      Some(DeleteSpec("error while validating group id",
        "error while deleting a group", "Group deleted successfully", ReplyData))
    case Tasks =>
      Some(DeleteSpec("error while validating task id",
        "error while deleting a task", "Task deleted successfully", ReplyData))
    case Lessons =>
      None
    case JoinEvents =>
      Some(DeleteSpec("error while validating join event id",
        "error while deleting a join event", "Join event deleted successfully", ReplyData))
  }

  /** Every file but the join-events one has a list handler; four of them send no search. */
  function ListOf(r: Resource): (l: Option<ListSpec>)
    ensures l.None? <==> r == JoinEvents
    ensures l.Some? ==>
              (l.value.forwardsSearch <==> !(r == Attendances || r == Schedules || r == Tasks || r == Lessons))
  {
    match r
    case SuperAdmins =>
      Some(ListSpec(true, "error while getting all superAdmins", "superAdmins got successfully"))
    case Admins =>
      Some(ListSpec(true, "error while getting all admins", "Admins got successfully"))
    case SupportTeachers =>
      Some(ListSpec(true,
        "error while getting all support teachers", "Support teachers got successfully"))
    case Attendances =>
      Some(ListSpec(false, "error while getting all attendances", "Attendances got successfully"))
    case Schedules =>
      Some(ListSpec(false, "error while getting all schedules", "Schedules got successfully"))
    case Managers =>
      Some(ListSpec(true, "error while getting all managers", "Managers got successfully"))
    case Students =>
      Some(ListSpec(true, "error while getting all students", "Students got successfully"))
    case Teachers =>
      Some(ListSpec(true, "error while getting all teachers", "Teachers got successfully"))
    case Branches =>
      Some(ListSpec(true, "error while getting all branches", "Branches got successfully"))
    case Events =>
      Some(ListSpec(true, "error while getting all events", "Events got successfully"))
    case Groups =>
      Some(ListSpec(true, "error while getting all groups", "Groups got successfully"))
    case Tasks =>
      Some(ListSpec(false, "error while getting all tasks", "Tasks got successfully"))
    case Lessons =>
      Some(ListSpec(false, "error while getting all lessons", "Lessons got successfully"))
    case JoinEvents =>
      None
  }
}
