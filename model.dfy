/** The platform's entities, as far as the modelled code uses them: users,
    proposals, resumes and tasks. Dates, the payment amount and the enum
    bodies the entities refer to are opaque values. */
module Model {
  import opened Wrappers

  /** The user's role; only whether it is the administrator role is used. */
  datatype Role = AdminRole | OtherRole(name: string)

  datatype User = User(
    id: int,
    username: string,
    firstName: string,
    lastName: string,
    email: string,
    rating: int,
    role: Role,
    password: string)

  predicate IsAdmin(u: User) {
    u.role.AdminRole?
  }

  /** A freelancer's proposal for a task. */
  datatype Proposal = Proposal(id: int, freelancer: User, taskId: int)

  /** A stored resume file, linked to its owner. */
  datatype Resume = Resume(filename: string, content: seq<bv8>, owner: User)

  /** A `LocalDateTime` value. */
  datatype DateTime = DateTime(instant: int)

  /** The `Double` payment amount, as an opaque value. */
  datatype Payment = Payment(raw: int)

  /** Enum constants, by name. */
  datatype TaskStatus = TaskStatus(name: string)
  datatype TaskType = TaskType(name: string)

  const Unassigned: TaskStatus := TaskStatus("UNASSIGNED")

  /** The task's solution, by identity only. */
  datatype Solution = Solution(id: int)

  /** A task. The customer is mandatory; the freelancer, the assignment and
      submission dates and the solution are nullable and None until set. */
  datatype Task = Task(
    customer: User,
    freelancer: Option<User>,
    title: string,
    problem: string,
    deadline: DateTime,
    status: TaskStatus,
    taskType: TaskType,
    payment: Payment,
    assignedDate: Option<DateTime>,
    submittedDate: Option<DateTime>,
    postedDate: Option<DateTime>,
    solution: Option<Solution>)

  /** The six-argument constructor; `now` is the clock reading it takes. */
  function NewTask(customer: User, title: string, problem: string, deadline: DateTime,
                   payment: Payment, taskType: TaskType, now: DateTime): (t: Task)
    ensures t.status == Unassigned
    ensures t.customer == customer && t.title == title && t.problem == problem
    ensures t.deadline == deadline && t.payment == payment && t.taskType == taskType
    ensures t.freelancer.None? && t.assignedDate.None? && t.submittedDate.None? && t.solution.None?
    ensures t.postedDate == Some(now)
  {
    Task(customer, None, title, problem, deadline, Unassigned, taskType, payment,
         None, None, Some(now), None)
  }

  /** Java's string conversion of a nullable date: "null" when absent. */
  function DateText(d: Option<DateTime>, showDate: DateTime -> string): string {
    match d
    case None => "null"
    case Some(v) => showDate(v)
  }

  /** The text of `toString` after the freelancer's username; `showDate` and
      `showPayment` are `LocalDateTime.toString` and `Double.toString`. */
  function TaskTail(t: Task, showDate: DateTime -> string, showPayment: Payment -> string): string {
    ", title='" + t.title + "'" +
    ", problem='" + t.problem + "'" +
    ", deadline=" + showDate(t.deadline) +
    ", status=" + t.status.name +
    ", payment=" + showPayment(t.payment) +
    ", assignedDate=" + DateText(t.assignedDate, showDate) +
    ", submittedDate=" + DateText(t.submittedDate, showDate) +
    ", postedDate=" + DateText(t.postedDate, showDate) +
    "}"
  }

  /** Dereferencing a null freelancer. */
  datatype NullPointer = NullFreelancer

  /** `toString` as written: it reads `freelancer.getUsername()` and so throws
      when the task has no freelancer. */
  function ToString(t: Task, showDate: DateTime -> string, showPayment: Payment -> string): (r: Result<string, NullPointer>)
    ensures r.Ok? <==> t.freelancer.Some?
    ensures r.Ok? ==> exists tail :: (r.value == "Task{customer=" + t.customer.username +
      ", freelancer=" + t.freelancer.value.username + tail)
  {
    match t.freelancer
    case None => Err(NullFreelancer)
    case Some(f) =>
      var tail := TaskTail(t, showDate, showPayment);
      assert ("Task{customer=" + t.customer.username + ", freelancer=" + f.username) + tail ==
        "Task{customer=" + t.customer.username + ", freelancer=" + f.username + tail;
      Ok("Task{customer=" + t.customer.username + ", freelancer=" + f.username + tail)
  }

  /** A freshly constructed task cannot be printed. */
  lemma ToStringFailsOnNewTask(customer: User, title: string, problem: string, deadline: DateTime,
                               payment: Payment, taskType: TaskType, now: DateTime,
                               showDate: DateTime -> string, showPayment: Payment -> string)
    ensures ToString(NewTask(customer, title, problem, deadline, payment, taskType, now), showDate, showPayment)
      == Err(NullFreelancer)
  {
  }

  /** `toString` with the freelancer written as "null" when absent, as Java's
      string concatenation does for the other nullable fields. */
  function ToStringNullSafe(t: Task, showDate: DateTime -> string, showPayment: Payment -> string): (r: string)
    ensures t.freelancer.Some? ==> ToString(t, showDate, showPayment) == Ok(r)
    ensures t.freelancer.None? ==>
      r == "Task{customer=" + t.customer.username + ", freelancer=null" + TaskTail(t, showDate, showPayment)
  {
    var name := if t.freelancer.Some? then t.freelancer.value.username else "null";
    "Task{customer=" + t.customer.username + ", freelancer=" + name + TaskTail(t, showDate, showPayment)
  }
}
