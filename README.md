# Freelance platform change notifications — Dafny model

The repository is a freelance marketplace (the platform) that publishes
change events about its entities to a broker, and a notification service
that listens to the task change topics and e-mails the parties concerned.
This project models four pieces of that system and proves their contracts:

- **The task change listener** (`TaskChangesConsumer.consumeChange`): the
  broker topic name is upper-cased and looked up in the closed set of five
  task topics; the task title and the freelancer's username are read from
  the parsed JSON payload with Jackson's `get`/`asText` conventions (a null
  node reads as `"null"`, so a freelancer that is JSON null or the string
  `"null"` counts as absent and the username stays `""`); the strategy built
  for the topic is installed on the notification sender, which is then asked
  to send the raw payload with a null recipient and the topic's subject and
  body. Nothing is caught: an unknown topic, a malformed payload or a missing
  key ends the call before anything is sent.
- **The user service** (`UserService`): an id-to-user store with a
  username-then-email uniqueness check on `save`, not-found rules on the
  lookups and on `update`, a resume store, and the user change stream. Each
  successful `save`, `update` and `deleteById` publishes exactly one event,
  and the class invariant says the store is always what replaying the
  published events over the initial contents gives.
- **The proposal controller** (`ProposalController`): the id check (400),
  then the access check (403: admin, or the proposal's own freelancer), then
  a single service call (204 / 201), and 404 when the service finds or
  deletes nothing.
- **The task entity** (`Task`): a new task is `UNASSIGNED` with no
  freelancer; `toString` dereferences the freelancer and so fails on every
  unassigned task. A bridge module shows that the listener recovers the
  title and the freelancer's username (or `""`) from any payload that
  carries a task.

Files: `wrappers.dfy` (Option, Result), `json.dfy` (Jackson tree nodes),
`task_topics.dfy` (topic enum and classification), `task_changes_consumer.dfy`
(listener, sender call log), `model.dfy` (entities), `task_payload.dfy`
(task-to-payload bridge), `user_service.dfy`, `proposal_controller.dfy`.

Collaborators whose code is not part of this model are represented as
follows: the JSON parser is a function parameter `readTree` (None for
malformed text); `TopicsFactory.createStrategy/createSubject/createBody` are
recorded as the values `StrategyFor(t)`, `SubjectFor(t)`,
`BodyFor(t, title, username)`; the notification sender is a class holding
the current strategy and the log of `sendEmail` calls; the password encoder
is a function parameter; the change producer is the `events` sequence; the
proposal service's answers (`found`, `deleted`, `savedId`) are parameters of
the controller functions, its calls a returned list.

Three behaviours of the listener are kept as the code has them: failures
propagate uncaught, a missing `title` or `freelancer` key is a failure, and
the string `"null"` stands for no freelancer.

## Model

| member | source | states |
|---|---|---|
| TaskTopics.Classify | NotificationService/src/main/java/notificationService/consumers/TaskChangesConsumer.java:36-37 | a topic name is accepted iff its upper case is one of the five enum constant names, and then maps to the topic of that exact name |
| TaskTopics.ValueOf | NotificationService/src/main/java/notificationService/consumers/TaskChangesConsumer.java:37 | `valueOf` succeeds exactly on the five constant names and returns the constant of that name |
| TaskTopicsProperties.SubscribedAreWireNames | NotificationService/src/main/java/notificationService/consumers/TaskChangesConsumer.java:31-32 | the subscribed names are exactly the five topics' wire names, one per topic |
| TaskTopicsProperties.UpperWireName | NotificationService/src/main/java/notificationService/consumers/TaskChangesConsumer.java:31-37 | upper-casing each subscribed name gives its enum constant name |
| TaskTopicsProperties.ClassifyWireName | NotificationService/src/main/java/notificationService/consumers/TaskChangesConsumer.java:31-37 | every subscribed name classifies onto its own topic |
| TaskTopicsProperties.ClassifyIgnoresCase | NotificationService/src/main/java/notificationService/consumers/TaskChangesConsumer.java:37 | two names that differ only in letter case classify the same |
| TaskTopicsProperties.ClassifyAnyCasing | NotificationService/src/main/java/notificationService/consumers/TaskChangesConsumer.java:37 | any casing of a subscribed name maps to that topic |
| TaskTopicsProperties.ClassifyRejectsExtendedName | NotificationService/src/main/java/notificationService/consumers/TaskChangesConsumer.java:37 | `TASK_POSTED_X` is rejected: no prefix match |
| Json.Get | NotificationService/src/main/java/notificationService/consumers/TaskChangesConsumer.java:38-43 | `get(name)` yields a child exactly for an object holding that key, else Java null |
| Json.AsTextNullIff | NotificationService/src/main/java/notificationService/consumers/TaskChangesConsumer.java:42 | `asText()` is `"null"` exactly for JSON null and the string `"null"` |
| TaskChangesConsumer.Title | NotificationService/src/main/java/notificationService/consumers/TaskChangesConsumer.java:38 | the title is the `asText` of the payload's `title` field; a missing key fails |
| TaskChangesConsumer.FreelancerUsername | NotificationService/src/main/java/notificationService/consumers/TaskChangesConsumer.java:39-43 | `""` for a null or `"null"` freelancer; the text of `username` for an object; failure for a missing key, a missing username or any other value |
| TaskChangesConsumer.ExtractFields | NotificationService/src/main/java/notificationService/consumers/TaskChangesConsumer.java:38-43 | title read first, then the freelancer; succeeds iff both succeed, with their values |
| TaskChangesConsumer.Plan | NotificationService/src/main/java/notificationService/consumers/TaskChangesConsumer.java:33-54 | failure order topic, parse, fields; on success strategy, subject and body are for the classified topic, the raw payload is passed unchanged with a null recipient, and the body holds the extracted title and username |
| TaskChangesConsumer.NotificationSender.SetStrategy | NotificationService/src/main/java/notificationService/consumers/TaskChangesConsumer.java:48 | installs the strategy and sends nothing |
| TaskChangesConsumer.NotificationSender.SendEmail | NotificationService/src/main/java/notificationService/consumers/TaskChangesConsumer.java:49-54 | records one call with the strategy held at that moment |
| TaskChangesConsumer.TaskChangesConsumer.ConsumeChange | NotificationService/src/main/java/notificationService/consumers/TaskChangesConsumer.java:33-55 | on failure the sender is untouched; on success its strategy is the topic's and exactly the planned call is appended |
| TaskChangesConsumerProperties.PlanIgnoresTopicCase | NotificationService/src/main/java/notificationService/consumers/TaskChangesConsumer.java:36-37 | the topic's letter case does not change what is sent |
| TaskChangesConsumerProperties.FreelancerAssignedScenario | NotificationService/src/main/java/notificationService/consumers/TaskChangesConsumer.java:36-54 | an assigned task produces the body with its title and the freelancer's username |
| TaskChangesConsumerProperties.TaskPostedScenario | NotificationService/src/main/java/notificationService/consumers/TaskChangesConsumer.java:39-42 | a null freelancer gives an empty username in the body |
| TaskChangesConsumerProperties.UnknownTopicScenario | NotificationService/src/main/java/notificationService/consumers/TaskChangesConsumer.java:37 | an unknown topic fails before the payload is read |
| TaskChangesConsumerProperties.MissingFreelancerScenario | NotificationService/src/main/java/notificationService/consumers/TaskChangesConsumer.java:42 | a payload without the `freelancer` key fails |
| TaskChangesConsumerProperties.Redeliver | NotificationService/src/main/java/notificationService/consumers/TaskChangesConsumer.java:33-54 | consuming a record twice sends twice, with identical content |
| TaskPayload.ExtractRecoversTask | FreelancePlatform/src/main/java/freelanceplatform/model/Task.java:19-25 | from any payload carrying a task, the listener reads its title and its freelancer's username, or `""` when unassigned |
| TaskPayload.NewTaskReadsUnassigned | FreelancePlatform/src/main/java/freelanceplatform/model/Task.java:61-70 | a new task's payload reads back with its title and an empty username |
| Model.NewTask | FreelancePlatform/src/main/java/freelanceplatform/model/Task.java:61-70 | a new task is `UNASSIGNED`, stores the six arguments as given, has no freelancer, assignment or submission date or solution, and is posted now |
| Model.ToString | FreelancePlatform/src/main/java/freelanceplatform/model/Task.java:72-86 | defined iff the task has a freelancer; then starts with the customer's and the freelancer's usernames |
| Model.ToStringFailsOnNewTask | FreelancePlatform/src/main/java/freelanceplatform/model/Task.java:61-76 | `toString` fails on every freshly constructed task |
| Model.ToStringNullSafe | FreelancePlatform/src/main/java/freelanceplatform/model/Task.java:73-76 | total; agrees with `toString` whenever that is defined and writes `null` for an absent freelancer |
| Services.EncodePassword | FreelancePlatform/src/main/java/freelanceplatform/services/UserService.java:124 | only the password changes, to its encoding |
| Services.Apply | FreelancePlatform/src/main/java/freelanceplatform/services/UserService.java:125-126 | a created or updated user is stored under its id, a deleted one removed, every other id untouched |
| Services.ReplaySnoc | FreelancePlatform/src/main/java/freelanceplatform/services/UserService.java:126 | replaying one more event applies it to the replayed store |
| Services.StoringUnusedUsernameKeepsUnique | FreelancePlatform/src/main/java/freelanceplatform/services/UserService.java:118-125 | storing a user whose username passed the `save` check keeps usernames unique; `Save` ensures it through this lemma |
| Services.UserService.constructor | FreelancePlatform/src/main/java/freelanceplatform/services/UserService.java:46-54 | starts from the given stores with no events published |
| Services.UserService.FindById | FreelancePlatform/src/main/java/freelanceplatform/services/UserService.java:63-69 | a present id gives a non-empty Optional with the user of that id; an absent one NotFound |
| Services.UserService.FindByUsername | FreelancePlatform/src/main/java/freelanceplatform/services/UserService.java:77-83 | a stored user with that username, or NotFound exactly when there is none |
| Services.UserService.FindFreelancerByProposalId | FreelancePlatform/src/main/java/freelanceplatform/services/UserService.java:91-97 | the proposal's freelancer, or NotFound for an unknown proposal |
| Services.UserService.Exists | FreelancePlatform/src/main/java/freelanceplatform/services/UserService.java:173-177 | true iff the id is stored |
| Services.UserService.Save | FreelancePlatform/src/main/java/freelanceplatform/services/UserService.java:115-129 | a taken username, then a taken email, is a ValidationException with nothing changed; otherwise the encoded user is stored and one UserCreated event published, and unique usernames stay unique |
| Services.UserService.Update | FreelancePlatform/src/main/java/freelanceplatform/services/UserService.java:138-149 | an unknown id is NotFound with nothing changed; otherwise one UserUpdated event and the encoded user stored, with no uniqueness check |
| Services.UserService.DeleteById | FreelancePlatform/src/main/java/freelanceplatform/services/UserService.java:157-166 | true iff the user existed; then removed with one UserDeleted event carrying it; else nothing changes |
| Services.UserService.SaveResume | FreelancePlatform/src/main/java/freelanceplatform/services/UserService.java:186-197 | empty content or filename is a ValidationException storing nothing; otherwise one resume linked to the user is stored |
| Services.UserService.GetUsersResume | FreelancePlatform/src/main/java/freelanceplatform/services/UserService.java:205-211 | a stored resume of that user's id, or NotFound exactly when there is none |
| Controllers.HasUserAccess | FreelancePlatform/src/main/java/freelanceplatform/controllers/ProposalController.java:129-132 | true iff the principal is an admin or is the proposal's freelancer (a null freelancer id never matches) |
| Controllers.HasCreationAccess | FreelancePlatform/src/main/java/freelanceplatform/controllers/ProposalController.java:141-144 | the same rule for a proposal being created |
| Controllers.FindById | FreelancePlatform/src/main/java/freelanceplatform/controllers/ProposalController.java:47-51 | 404 iff the service finds nothing, else 200 with the mapped DTO |
| Controllers.Update | FreelancePlatform/src/main/java/freelanceplatform/controllers/ProposalController.java:74-84 | a null body id throws; 400 iff the ids differ; 403 iff they match without access; the service is called, once, iff the answer is 204 |
| Controllers.Save | FreelancePlatform/src/main/java/freelanceplatform/controllers/ProposalController.java:95-106 | 403 iff no access, with nothing saved; otherwise one save and 201 at the new id |
| Controllers.Delete | FreelancePlatform/src/main/java/freelanceplatform/controllers/ProposalController.java:116-120 | 204 iff the service reports a deletion, else 404 |
| Controllers.UpdateChecksIdBeforeAccess | FreelancePlatform/src/main/java/freelanceplatform/controllers/ProposalController.java:77-78 | a mismatched id gives 400 for every principal, with no service call |
| Controllers.UpdateCallsServiceIffAllowed | FreelancePlatform/src/main/java/freelanceplatform/controllers/ProposalController.java:77-83 | the update call happens exactly when ids match and access holds, never more than once |

## Left out

- Kafka transport, the listener's threading, consumer groups, acknowledgement and redelivery, and all logging: broker and framework concerns.
- Jackson's text parsing: `readTree` is a parameter; malformed text is its None. JSON numbers are integers only; floating-point nodes and duplicate keys are not modelled.
- `TopicsFactory`, the strategies, `NotificationSender.sendEmail`'s own work (recipient lookup, e-mail sending, its failures) and `EmailSenderService`: their code is not part of this model, so their results are recorded symbolically and no subject or body text is invented.
- TaskTopics.UpperChar: upper-cases only the characters whose root-locale upper case is ASCII (a-z, the dotless i, the long s, the sharp s and the Latin ligatures); every other character is kept as it is, so `UpperCase` differs from `String.toUpperCase` on names holding, say, accented, Greek or Cyrillic letters. This cannot change `valueOf`'s outcome, since every constant name is ASCII and no other character upper-cases to ASCII. A Turkish default locale (where `i` upper-cases to a dotted capital I) is not modelled.
- The commented-out customer username extraction in the listener: it is not code.
- Null arguments rejected by `Objects.requireNonNull` and null entity fields other than the freelancer and the optional dates: model values are never null.
- `UserService.findAll` and `ProposalController.findAll`: they return every stored row in the repository's order, which the repository code (not part of this model) decides.
- Services.UserService.Save: the id is the user's own; identifier generation by the persistence layer is not modelled. `User.encodePassword` is assumed to replace the password with the encoder's output.
- Services.UserService.FindByUsername: returns some stored user with that username; several users can share one, because `update` stores a user without a uniqueness check, and the repository's behaviour when several rows match (a derived query returning `Optional` would throw) is not modelled.
- Services.UserService.GetUsersResume: returns some matching resume; the repository's behaviour when several rows match is not modelled.
- Transactions, caching and rollback when publishing fails after a store write; `PasswordEncoder`, `Mapper` and `ChangesProducer` are parameters or the event log.
- Controllers: `@PreAuthorize` role checks, the principal cast and the building of the `Location` URI (the model keeps only the new id).
- Model: Lombok's generated constructors, accessors, `equals`/`hashCode`, and the entity id; `LocalDateTime.now()` is the parameter `now`; `Double` payment and date rendering are renderer parameters.
- Model.ToString: its contract fixes the text up to the freelancer's username; the rest of the text is given by `TaskTail`.
- The DTOs' own source is not part of this model; `ProposalDto` takes its shape (id, freelancer id, task id) from `ProposalReadUpdate`.

## Findings

| source | as written | input that shows it | evidently intended | confidence | as-written member | corrected member |
|---|---|---|---|---|---|---|
| FreelancePlatform/src/main/java/freelanceplatform/model/Task.java:73-76 | `toString` calls `freelancer.getUsername()` unconditionally | any task made by the six-argument constructor, whose freelancer is null | print `null` for an absent freelancer, as the concatenation already does for the other nullable fields | not executed; high | Model.ToStringFailsOnNewTask | Model.ToStringNullSafe |
