/** The notification service's listener for task change events: it classifies
    the record's topic, extracts the task title and the assigned freelancer's
    username from the JSON payload, installs the strategy built for the topic
    on the notification sender and asks the sender to send the e-mail.

    The topics factory, the strategies and the sender's own behaviour are not
    part of this model: a strategy, a subject and a body are recorded as the
    factory call that built them, and the sender as the log of calls it took. */
module TaskChangesConsumer {
  import opened Wrappers
  import opened Json
  import opened TaskTopics

  /** A broker record: the topic it arrived on and its raw JSON text. */
  datatype ConsumerRecord = ConsumerRecord(topic: string, value: string)

  /** What makes consumeChange throw; nothing is caught, so each ends the call. */
  datatype ConsumeError =
    | UnknownTopic(name: string)   // IllegalArgumentException from TaskTopicsTypes.valueOf
    | MalformedPayload             // JsonProcessingException from readTree
    | MissingTitle                 // NullPointerException: get("title") is null
    | MissingFreelancer            // NullPointerException: get("freelancer") is null
    | MissingFreelancerUsername    // NullPointerException: get("username") is null

  /** `topicsFactory.createStrategy(topic)`. */
  datatype SendEmailStrategy = StrategyFor(topic: TaskTopic)

  /** `topicsFactory.createSubject(topic)`. */
  datatype Subject = SubjectFor(topic: TaskTopic)

  /** `topicsFactory.createBody(topic, title, freelancerUsername)`. */
  datatype Body = BodyFor(topic: TaskTopic, title: string, freelancerUsername: string)

  /** One `sendEmail(payload, recipient, subject, body)` call, with the
      strategy the sender held when it was made. */
  datatype SendEmailCall = SendEmailCall(
    strategy: Option<SendEmailStrategy>,
    payload: string,
    recipient: Option<string>,
    subject: Subject,
    body: Body)

  /** The task title: `get("title").asText()`. A JSON null title reads as "null". */
  function Title(payload: JsonNode): (r: Result<string, ConsumeError>)
    ensures r.Ok? <==> payload.JObject? && "title" in payload.fields
    ensures r.Ok? ==> r.value == AsText(payload.fields["title"])
    ensures r.Err? ==> r.error == MissingTitle
  {
    match Get(payload, "title")
    case None => Err(MissingTitle)
    case Some(title) => Ok(AsText(title))
  }

  /** The freelancer's username. It stays "" when `get("freelancer").asText()`
      is "null", and is otherwise `get("freelancer").get("username").asText()`. */
  function FreelancerUsername(payload: JsonNode): (r: Result<string, ConsumeError>)
    // the key must be present
    ensures Get(payload, "freelancer").None? ==> r == Err(MissingFreelancer)
    // JSON null and the string "null" both mean: no freelancer
    ensures Get(payload, "freelancer") == Some(JNull) ==> r == Ok("")
    ensures Get(payload, "freelancer") == Some(JString("null")) ==> r == Ok("")
    // an object gives the text of its username field, which must be present
    ensures Get(payload, "freelancer").Some? && Get(payload, "freelancer").value.JObject? ==>
      var fields := Get(payload, "freelancer").value.fields;
      r == if "username" in fields then Ok(AsText(fields["username"])) else Err(MissingFreelancerUsername)
    // any other value has no username field to read
    ensures Get(payload, "freelancer").Some? ==>
      var f := Get(payload, "freelancer").value;
      !f.JObject? && f != JNull && f != JString("null") ==> r == Err(MissingFreelancerUsername)
  {
    match Get(payload, "freelancer")
    case None => Err(MissingFreelancer)
    case Some(freelancer) =>
      AsTextNullIff(freelancer);
      if AsText(freelancer) == "null" then Ok("")
      else
        match Get(freelancer, "username")
        case None => Err(MissingFreelancerUsername)
        case Some(username) => Ok(AsText(username))
  }

  /** Everything consumeChange needs from the payload, read in the source's
      order: the title first, then the freelancer. */
  datatype TaskFields = TaskFields(title: string, freelancerUsername: string)

  function ExtractFields(payload: JsonNode): (r: Result<TaskFields, ConsumeError>)
    ensures Title(payload).Err? ==> r == Err(MissingTitle)
    ensures Title(payload).Ok? && FreelancerUsername(payload).Err? ==> r == Err(FreelancerUsername(payload).error)
    ensures r.Ok? <==> Title(payload).Ok? && FreelancerUsername(payload).Ok?
    ensures r.Ok? ==> r.value.title == Title(payload).value
    ensures r.Ok? ==> r.value.freelancerUsername == FreelancerUsername(payload).value
  {
    match Title(payload)
    case Err(e) => Err(e)
    case Ok(title) =>
      match FreelancerUsername(payload)
      case Err(e) => Err(e)
      case Ok(name) => Ok(TaskFields(title, name))
  }

  /** The one call consumeChange makes on the sender for a record, or the
      reason it throws first. `readTree` is Jackson's parser, None on malformed
      text. */
  function Plan(record: ConsumerRecord, readTree: string -> Option<JsonNode>): (r: Result<SendEmailCall, ConsumeError>)
    // classification comes first, then parsing, then field extraction
    ensures Classify(record.topic).None? ==> r == Err(UnknownTopic(record.topic))
    ensures Classify(record.topic).Some? && readTree(record.value).None? ==> r == Err(MalformedPayload)
    ensures Classify(record.topic).Some? && readTree(record.value).Some? ==>
      (r.Err? <==> ExtractFields(readTree(record.value).value).Err?)
    ensures Classify(record.topic).Some? && readTree(record.value).Some? && r.Err? ==>
      r.error == ExtractFields(readTree(record.value).value).error
    // strategy, subject and body are all built for the classified topic
    ensures r.Ok? ==> Classify(record.topic) == Some(r.value.body.topic)
    ensures r.Ok? ==> r.value.strategy == Some(StrategyFor(r.value.body.topic))
    ensures r.Ok? ==> r.value.subject == SubjectFor(r.value.body.topic)
    // the raw payload is passed on unchanged, with a null recipient
    ensures r.Ok? ==> r.value.payload == record.value && r.value.recipient.None?
    // the body is built from the extracted title and username
    ensures r.Ok? ==> readTree(record.value).Some?
    ensures r.Ok? ==>
      ExtractFields(readTree(record.value).value) == Ok(TaskFields(r.value.body.title, r.value.body.freelancerUsername))
  {
    match Classify(record.topic)
    case None => Err(UnknownTopic(record.topic))
    case Some(topic) =>
      match readTree(record.value)
      case None => Err(MalformedPayload)
      case Some(payload) =>
        match ExtractFields(payload)
        case Err(e) => Err(e)
        case Ok(fields) =>
          Ok(SendEmailCall(
            Some(StrategyFor(topic)),
            record.value,
            None,
            SubjectFor(topic),
            BodyFor(topic, fields.title, fields.freelancerUsername)))
  }

  /** The notification sender: a current-strategy field and the log of the
      sendEmail calls it received. */
  class NotificationSender {
    var strategy: Option<SendEmailStrategy>
    var sent: seq<SendEmailCall>

    constructor ()
      ensures strategy.None? && sent == []
    {
      strategy := None;
      sent := [];
    }

    method SetStrategy(s: SendEmailStrategy)
      modifies this
      ensures strategy == Some(s) && sent == old(sent)
    {
      strategy := Some(s);
    }

    method SendEmail(payload: string, recipient: Option<string>, subject: Subject, body: Body)
      modifies this
      ensures strategy == old(strategy)
      ensures sent == old(sent) + [SendEmailCall(strategy, payload, recipient, subject, body)]
    {
      sent := sent + [SendEmailCall(strategy, payload, recipient, subject, body)];
    }
  }

  class TaskChangesConsumer {
    const readTree: string -> Option<JsonNode>
    const sender: NotificationSender

    constructor (readTree: string -> Option<JsonNode>, sender: NotificationSender)
      ensures this.readTree == readTree && this.sender == sender
    {
      this.readTree := readTree;
      this.sender := sender;
    }

    /** consumeChange: on success the sender holds the topic's strategy and has
        received exactly the planned call; on failure it is untouched. */
    method ConsumeChange(record: ConsumerRecord) returns (r: Result<(), ConsumeError>)
      modifies sender
      ensures Plan(record, readTree).Err? ==>
        r == Err(Plan(record, readTree).error) && unchanged(sender)
      ensures Plan(record, readTree).Ok? ==>
        r == Ok(()) &&
        sender.strategy == Plan(record, readTree).value.strategy &&
        sender.sent == old(sender.sent) + [Plan(record, readTree).value]
    {
      var taskJson := record.value;
      var topicType := Classify(record.topic);
      if topicType.None? {
        return Err(UnknownTopic(record.topic));
      }
      var tree := readTree(taskJson);
      if tree.None? {
        return Err(MalformedPayload);
      }
      var titleNode := Get(tree.value, "title");
      if titleNode.None? {
        return Err(MissingTitle);
      }
      var taskTitle := AsText(titleNode.value);
      var freelancerUsername := "";
      var freelancer := Get(tree.value, "freelancer");
      if freelancer.None? {
        return Err(MissingFreelancer);
      }
      if AsText(freelancer.value) != "null" {
        var username := Get(freelancer.value, "username");
        if username.None? {
          return Err(MissingFreelancerUsername);
        }
        freelancerUsername := AsText(username.value);
      }
      var sendEmailStrategy := StrategyFor(topicType.value);
      sender.SetStrategy(sendEmailStrategy);
      sender.SendEmail(
        taskJson,
        None,
        SubjectFor(topicType.value),
        BodyFor(topicType.value, taskTitle, freelancerUsername));
      r := Ok(());
    }
  }
}

module TaskChangesConsumerProperties {
  import opened Wrappers
  import opened Json
  import opened TaskTopics
  import opened TaskTopicsProperties
  import opened TaskChangesConsumer

  /** The topic name's letter case does not change what is sent. */
  lemma PlanIgnoresTopicCase(s: string, s': string, value: string, readTree: string -> Option<JsonNode>)
    requires SameUpperCase(s, s')
    ensures Plan(ConsumerRecord(s, value), readTree).Ok? ==>
      Plan(ConsumerRecord(s, value), readTree) == Plan(ConsumerRecord(s', value), readTree)
    ensures Plan(ConsumerRecord(s, value), readTree).Ok? <==> Plan(ConsumerRecord(s', value), readTree).Ok?
  {
    ClassifyIgnoresCase(s, s');
  }

  /** An assigned task: the body names the task and its freelancer. */
  lemma FreelancerAssignedScenario(raw: string, readTree: string -> Option<JsonNode>)
    requires readTree(raw) == Some(JObject(map[
      "title" := JString("Fix bug"),
      "freelancer" := JObject(map["username" := JString("alice"), "email" := JString("a@x.com")])]))
    ensures Plan(ConsumerRecord("freelancer_assigned", raw), readTree) == Ok(SendEmailCall(
      Some(StrategyFor(FreelancerAssigned)), raw, None,
      SubjectFor(FreelancerAssigned), BodyFor(FreelancerAssigned, "Fix bug", "alice")))
  {
    ClassifyWireName(FreelancerAssigned);
    var freelancer := JObject(map["username" := JString("alice"), "email" := JString("a@x.com")]);
    var payload := readTree(raw).value;
    assert Get(payload, "title") == Some(JString("Fix bug"));
    assert Get(payload, "freelancer") == Some(freelancer);
    assert Get(freelancer, "username") == Some(JString("alice"));
    assert ExtractFields(payload) == Ok(TaskFields("Fix bug", "alice"));
  }

  /** A posted task has a null freelancer: the body gets an empty username. */
  lemma TaskPostedScenario(raw: string, readTree: string -> Option<JsonNode>)
    requires readTree(raw) == Some(JObject(map["title" := JString("New task"), "freelancer" := JNull]))
    ensures Plan(ConsumerRecord("task_posted", raw), readTree) == Ok(SendEmailCall(
      Some(StrategyFor(TaskPosted)), raw, None,
      SubjectFor(TaskPosted), BodyFor(TaskPosted, "New task", "")))
  {
    ClassifyWireName(TaskPosted);
  }

  /** An unknown topic name fails before the payload is read. */
  lemma UnknownTopicScenario(raw: string, readTree: string -> Option<JsonNode>)
    ensures Plan(ConsumerRecord("TASK_POSTED_X", raw), readTree) == Err(UnknownTopic("TASK_POSTED_X"))
  {
    ClassifyRejectsExtendedName();
  }

  /** A payload without the freelancer key fails: there is no default. */
  lemma MissingFreelancerScenario(raw: string, readTree: string -> Option<JsonNode>)
    requires readTree(raw) == Some(JObject(map["title" := JString("New task")]))
    ensures Plan(ConsumerRecord("task_posted", raw), readTree) == Err(MissingFreelancer)
  {
    ClassifyWireName(TaskPosted);
    var payload := readTree(raw).value;
    assert Get(payload, "title") == Some(JString("New task"));
    assert "freelancer" !in payload.fields;
    assert ExtractFields(payload) == Err(MissingFreelancer);
  }

  /** A redelivered record is sent again, with the same content. */
  method Redeliver(consumer: TaskChangesConsumer, record: ConsumerRecord)
    requires Plan(record, consumer.readTree).Ok?
    modifies consumer.sender
    ensures var call := Plan(record, consumer.readTree).value;
      consumer.sender.sent == old(consumer.sender.sent) + [call, call]
  {
    var first := consumer.ConsumeChange(record);
    var second := consumer.ConsumeChange(record);
  }
}
