/** The closed set of task change topics the notification service listens to,
    and the classification of a broker topic name onto it:
    `TaskTopicsTypes.valueOf(topic.toUpperCase())`. */
module TaskTopics {
  import opened Wrappers

  datatype TaskTopic =
    | TaskPosted
    | FreelancerAssigned
    | TaskAccepted
    | FreelancerRemoved
    | TaskSendOnReview

  /** The topic names the listener subscribes to. */
  function WireName(t: TaskTopic): string {
    match t
    case TaskPosted => "task_posted"
    case FreelancerAssigned => "freelancer_assigned"
    case TaskAccepted => "task_accepted"
    case FreelancerRemoved => "freelancer_removed"
    case TaskSendOnReview => "task_send_on_review"
  }

  /** The enum constant names of TaskTopicsTypes. */
  function ConstantName(t: TaskTopic): string {
    match t
    case TaskPosted => "TASK_POSTED"
    case FreelancerAssigned => "FREELANCER_ASSIGNED"
    case TaskAccepted => "TASK_ACCEPTED"
    case FreelancerRemoved => "FREELANCER_REMOVED"
    case TaskSendOnReview => "TASK_SEND_ON_REVIEW"
  }

  const SubscribedTopics: seq<string> :=
    ["task_posted", "freelancer_assigned", "task_accepted", "freelancer_removed", "task_send_on_review"]

  /** Upper case of one character as `String.toUpperCase` produces it, for
      the characters whose upper case is made of ASCII letters: ASCII
      lower-case letters, and beyond ASCII the dotless i, the long s, the
      sharp s and the Latin ligatures. Every other character is kept as it is. */
  function UpperChar(c: char): string {
    if 'a' <= c <= 'z' then [(c as int - 32) as char]
    else if c < '\U{0080}' then [c]
    else if c == '\U{0131}' then "I"      // dotless i
    else if c == '\U{017F}' then "S"      // long s
    else if c == '\U{00DF}' then "SS"     // sharp s
    else if c == '\U{FB00}' then "FF"
    else if c == '\U{FB01}' then "FI"
    else if c == '\U{FB02}' then "FL"
    else if c == '\U{FB03}' then "FFI"
    else if c == '\U{FB04}' then "FFL"
    else if c == '\U{FB05}' || c == '\U{FB06}' then "ST"
    else [c]
  }

  function UpperCase(s: string): string {
    if s == [] then [] else UpperChar(s[0]) + UpperCase(s[1..])
  }

  /** `Enum.valueOf`: the constant whose name is exactly `name`. */
  function ValueOf(name: string): (r: Option<TaskTopic>)
    ensures r.Some? <==> exists t: TaskTopic :: ConstantName(t) == name
    ensures r.Some? ==> ConstantName(r.value) == name
  {
    if name == "TASK_POSTED" then assert ConstantName(TaskPosted) == name; Some(TaskPosted)
    else if name == "FREELANCER_ASSIGNED" then assert ConstantName(FreelancerAssigned) == name; Some(FreelancerAssigned)
    else if name == "TASK_ACCEPTED" then assert ConstantName(TaskAccepted) == name; Some(TaskAccepted)
    else if name == "FREELANCER_REMOVED" then assert ConstantName(FreelancerRemoved) == name; Some(FreelancerRemoved)
    else if name == "TASK_SEND_ON_REVIEW" then assert ConstantName(TaskSendOnReview) == name; Some(TaskSendOnReview)
    else None
  }

  /** Classification of a broker topic name; None stands for the
      IllegalArgumentException thrown by `valueOf`. */
  function Classify(topic: string): (r: Option<TaskTopic>)
    ensures r.Some? <==> exists t: TaskTopic :: UpperCase(topic) == ConstantName(t)
    ensures r.Some? ==> UpperCase(topic) == ConstantName(r.value)
  {
    var r := ValueOf(UpperCase(topic));
    assert r.None? ==> forall t: TaskTopic :: UpperCase(topic) != ConstantName(t);
    r
  }
}

module TaskTopicsProperties {
  import opened Wrappers
  import opened TaskTopics

  /** Upper case of an ASCII lower-case letter or any other ASCII character. */
  function AsciiUp(c: char): char {
    if 'a' <= c <= 'z' then (c as int - 32) as char else c
  }

  predicate IsAsciiName(s: string) {
    forall i | 0 <= i < |s| :: s[i] < '\U{0080}'
  }

  /** On ASCII names, upper-casing works character by character and keeps
      the length. */
  lemma {:induction false} UpperCaseAscii(s: string)
    requires IsAsciiName(s)
    ensures |UpperCase(s)| == |s|
    ensures forall i | 0 <= i < |s| :: UpperCase(s)[i] == AsciiUp(s[i])
  {
    if s != [] {
      assert IsAsciiName(s[1..]) by {
        forall i | 0 <= i < |s[1..]| ensures s[1..][i] < '\U{0080}' {
          assert s[1..][i] == s[i + 1];
        }
      }
      UpperCaseAscii(s[1..]);
      assert UpperChar(s[0]) == [AsciiUp(s[0])];
    }
  }

  lemma UpperOf(w: string, c: string)
    requires IsAsciiName(w) && |c| == |w|
    requires forall i | 0 <= i < |w| :: c[i] == AsciiUp(w[i])
    ensures UpperCase(w) == c
  {
    UpperCaseAscii(w);
  }

  // One topic at a time: the solver handles each name on its own.
  lemma UpperTaskPosted() ensures UpperCase("task_posted") == "TASK_POSTED" { UpperOf("task_posted", "TASK_POSTED"); }
  lemma UpperFreelancerAssigned() ensures UpperCase("freelancer_assigned") == "FREELANCER_ASSIGNED" { UpperOf("freelancer_assigned", "FREELANCER_ASSIGNED"); }
  lemma UpperTaskAccepted() ensures UpperCase("task_accepted") == "TASK_ACCEPTED" { UpperOf("task_accepted", "TASK_ACCEPTED"); }
  lemma UpperFreelancerRemoved() ensures UpperCase("freelancer_removed") == "FREELANCER_REMOVED" { UpperOf("freelancer_removed", "FREELANCER_REMOVED"); }
  lemma UpperTaskSendOnReview() ensures UpperCase("task_send_on_review") == "TASK_SEND_ON_REVIEW" { UpperOf("task_send_on_review", "TASK_SEND_ON_REVIEW"); }

  /** Upper-casing a subscribed wire name gives its enum constant name. */
  lemma UpperWireName(t: TaskTopic)
    ensures UpperCase(WireName(t)) == ConstantName(t)
  {
    match t
    case TaskPosted => UpperTaskPosted();
    case FreelancerAssigned => UpperFreelancerAssigned();
    case TaskAccepted => UpperTaskAccepted();
    case FreelancerRemoved => UpperFreelancerRemoved();
    case TaskSendOnReview => UpperTaskSendOnReview();
  }

  /** Every subscribed name is classified onto its own topic. */
  lemma ClassifyWireName(t: TaskTopic)
    ensures Classify(WireName(t)) == Some(t)
  {
    UpperWireName(t);
  }

  /** Two names whose characters have the same upper cases, position by
      position: they differ only in letter case. */
  predicate SameUpperCase(s: string, s': string) {
    |s| == |s'| && forall i | 0 <= i < |s| :: UpperChar(s[i]) == UpperChar(s'[i])
  }

  lemma {:induction false} SameUpperCaseUpper(s: string, s': string)
    requires SameUpperCase(s, s')
    ensures UpperCase(s) == UpperCase(s')
  {
    if s != [] {
      assert SameUpperCase(s[1..], s'[1..]) by {
        forall i | 0 <= i < |s| - 1 ensures UpperChar(s[1..][i]) == UpperChar(s'[1..][i]) {
          assert s[1..][i] == s[i + 1] && s'[1..][i] == s'[i + 1];
        }
      }
      SameUpperCaseUpper(s[1..], s'[1..]);
      assert UpperChar(s[0]) == UpperChar(s'[0]);
    }
  }

  /** Classification ignores letter case. */
  lemma ClassifyIgnoresCase(s: string, s': string)
    requires SameUpperCase(s, s')
    ensures Classify(s) == Classify(s')
  {
    SameUpperCaseUpper(s, s');
  }

  /** Any casing of a subscribed name ("Task_Posted", "TASK_POSTED", ...) is
      classified onto that topic. */
  lemma ClassifyAnyCasing(t: TaskTopic, s: string)
    requires SameUpperCase(s, WireName(t))
    ensures Classify(s) == Some(t)
  {
    ClassifyIgnoresCase(s, WireName(t));
    ClassifyWireName(t);
  }

  /** The subscribed topic names are exactly the five wire names. */
  lemma SubscribedAreWireNames()
    ensures forall t: TaskTopic :: WireName(t) in SubscribedTopics
    ensures forall i | 0 <= i < |SubscribedTopics| :: exists t: TaskTopic :: WireName(t) == SubscribedTopics[i]
    ensures forall t: TaskTopic, u: TaskTopic :: WireName(t) == WireName(u) ==> t == u
  {
    assert WireName(TaskPosted) == SubscribedTopics[0];
    assert WireName(FreelancerAssigned) == SubscribedTopics[1];
    assert WireName(TaskAccepted) == SubscribedTopics[2];
    assert WireName(FreelancerRemoved) == SubscribedTopics[3];
    assert WireName(TaskSendOnReview) == SubscribedTopics[4];
  }

  /** A name that merely extends a subscribed one is rejected: no prefix match. */
  lemma ClassifyRejectsExtendedName()
    ensures Classify("TASK_POSTED_X") == None
  {
    assert ValueOf("TASK_POSTED_X") == None;
    assert UpperCase("TASK_POSTED_X") == "TASK_POSTED_X" by {
      UpperOf("TASK_POSTED_X", "TASK_POSTED_X");
    }
  }
}
