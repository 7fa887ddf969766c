/** How the platform's task entity meets the notification service's reader:
    a task change event's payload is the task's JSON, in which the mandatory
    customer and the optional freelancer are nested user objects. */
module TaskPayload {
  import opened Wrappers
  import opened Json
  import opened Model
  import opened TaskChangesConsumer

  /** `payload` carries task `t` the way a field-preserving serialization
      does: the title as a string, and the freelancer as JSON null when unset
      or as an object holding its username when set. Other fields are free. */
  predicate Carries(t: Task, payload: JsonNode) {
    && payload.JObject?
    && "title" in payload.fields && payload.fields["title"] == JString(t.title)
    && "freelancer" in payload.fields
    && match t.freelancer
       case None => payload.fields["freelancer"] == JNull
       case Some(u) =>
         payload.fields["freelancer"].JObject?
         && "username" in payload.fields["freelancer"].fields
         && payload.fields["freelancer"].fields["username"] == JString(u.username)
  }

  /** The username the consumer should see for a task: "" when unassigned. */
  function ExpectedUsername(t: Task): string {
    match t.freelancer
    case None => ""
    case Some(u) => u.username
  }

  /** Producer to consumer: the reader recovers the task's title and its
      freelancer's username (or "") from any payload that carries the task. */
  lemma ExtractRecoversTask(t: Task, payload: JsonNode)
    requires Carries(t, payload)
    ensures ExtractFields(payload) == Ok(TaskFields(t.title, ExpectedUsername(t)))
  {
  }

  /** A newly constructed task travels with a null freelancer and reads back
      with an empty username. */
  lemma NewTaskReadsUnassigned(customer: User, title: string, problem: string, deadline: DateTime,
                               payment: Payment, taskType: TaskType, now: DateTime, payload: JsonNode)
    requires Carries(NewTask(customer, title, problem, deadline, payment, taskType, now), payload)
    ensures ExtractFields(payload) == Ok(TaskFields(title, ""))
  {
    ExtractRecoversTask(NewTask(customer, title, problem, deadline, payment, taskType, now), payload);
  }
}
