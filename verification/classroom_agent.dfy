/**
 * The classroom agent (backend/agents/classroom_agent.py), which only
 * simulates delivery. The clock reading it stamps ids with is a parameter:
 * `timestamp` is the `%Y%m%d%H%M%S` text of `datetime.now()`.
 */
module ClassroomAgent {
  import opened Wrappers
  import opened Text
  import opened Json

  /** `DeliveryOutput`. */
  datatype Delivery = Delivery(
    deliveryStatus: string,
    platform: string,
    mode: string,
    message: string,
    assignmentId: Option<string>,
    classroomUrl: Option<string>)

  function OptionalStr(s: Option<string>): Json {
    match s
    case None => JNull
    case Some(v) => JStr(v)
  }

  /** `DeliveryOutput.model_dump()`. */
  function DeliveryJson(d: Delivery): (j: Json)
    ensures j.JObj? && |j.fields| == 6
  {
    JObj([
      Field("delivery_status", JStr(d.deliveryStatus)),
      Field("platform", JStr(d.platform)),
      Field("mode", JStr(d.mode)),
      Field("message", JStr(d.message)),
      Field("assignment_id", OptionalStr(d.assignmentId)),
      Field("classroom_url", OptionalStr(d.classroomUrl))
    ])
  }

  function AssignmentId(timestamp: string): string {
    "demo_assignment_" + timestamp
  }

  function ClassroomUrl(timestamp: string): string {
    "https://classroom.google.com/c/demo_" + timestamp + "/a/" + AssignmentId(timestamp)
  }

  /** The start of every assignment message: which quiz, and how many questions. */
  function AssignmentPrefix(quizTitle: string, questionCount: nat): string {
    "Quiz '" + quizTitle + "' with " + NatToString(questionCount) + " questions"
  }

  /** The sentence added when a form link goes with the assignment. */
  const FormNote: string := " Form URL attached."

  /** The message without the form note; it ends in ")." where the note ends in "d.". */
  function AssignmentHead(quizTitle: string, questionCount: nat, className: string): (head: string)
    ensures head == AssignmentPrefix(quizTitle, questionCount) + " successfully assigned to " + className + " (Demo Mode)."
    ensures StartsWith(head, AssignmentPrefix(quizTitle, questionCount))
    ensures !EndsWith(head, FormNote)
  {
    var tail := " successfully assigned to " + className + " (Demo Mode).";
    var prefix := AssignmentPrefix(quizTitle, questionCount);
    assert tail[|tail| - 2] == ')';
    NotEndsWith(prefix + tail, FormNote, 2);
    prefix + tail
  }

  /**
   * `assign_to_classroom(title, questions, form_url, class_name)`: always
   * reports an assignment in demo mode; the message mentions the form exactly
   * when a (non-empty) form URL was given.
   */
  function AssignToClassroom(
    quizTitle: string, questionCount: nat, formUrl: Option<string>, className: string, timestamp: string)
    : (d: Delivery)
    ensures d.deliveryStatus == "assigned" && d.platform == "Google Classroom" && d.mode == "demo"
    ensures d.assignmentId == Some(AssignmentId(timestamp))
    ensures d.classroomUrl == Some(ClassroomUrl(timestamp))
    ensures EndsWith(d.classroomUrl.value, d.assignmentId.value)
    ensures StartsWith(d.message, AssignmentPrefix(quizTitle, questionCount))
    ensures d.message == AssignmentHead(quizTitle, questionCount, className)
                         + (if formUrl.Some? && formUrl.value != "" then FormNote else "")
    ensures EndsWith(d.message, FormNote) <==> formUrl.Some? && formUrl.value != ""
  {
    var head := AssignmentHead(quizTitle, questionCount, className);
    var message := if formUrl.Some? && formUrl.value != "" then head + FormNote else head;
    EndsWithAppend(head, FormNote);
    StartsWithAppend(head, FormNote, AssignmentPrefix(quizTitle, questionCount));
    var url := ClassroomUrl(timestamp);
    EndsWithAppend("https://classroom.google.com/c/demo_" + timestamp + "/a/", AssignmentId(timestamp));
    Delivery("assigned", "Google Classroom", "demo", message, Some(AssignmentId(timestamp)), Some(url))
  }

  /** The message names the class: two assignments of the same quiz that differ in class differ in message. */
  lemma AssignmentMessageDeterminesClass(
    quizTitle: string, questionCount: nat, formUrl: Option<string>, class1: string, class2: string, t1: string, t2: string)
    requires AssignToClassroom(quizTitle, questionCount, formUrl, class1, t1).message
             == AssignToClassroom(quizTitle, questionCount, formUrl, class2, t2).message
    ensures class1 == class2
  {
    var note := if formUrl.Some? && formUrl.value != "" then FormNote else "";
    var head := AssignmentPrefix(quizTitle, questionCount) + " successfully assigned to ";
    SameFrameSameMiddle(head, class1, class2, " (Demo Mode).", note);
  }

  datatype ClassInfo = ClassInfo(id: string, name: string, students: nat)

  /** `get_classroom_status()`: a fixed, disconnected demo listing. */
  datatype ClassroomStatus = ClassroomStatus(connected: bool, mode: string, classes: seq<ClassInfo>, message: string)

  function GetClassroomStatus(): (s: ClassroomStatus)
    ensures !s.connected && s.mode == "demo" && |s.classes| == 3
    ensures forall i :: 0 <= i < |s.classes| ==> s.classes[i].id == "demo_class_" + NatToString(i + 1) && s.classes[i].students > 0
    ensures forall i, j :: 0 <= i < j < |s.classes| ==> s.classes[i].id != s.classes[j].id
  {
    ClassroomStatus(
      false, "demo",
      [ClassInfo("demo_class_1", "Physics 101", 25),
       ClassInfo("demo_class_2", "Chemistry 201", 30),
       ClassInfo("demo_class_3", "Biology 101", 22)],
      "Running in Demo Mode. Connect Google Classroom for live integration.")
  }

  datatype Notification = Notification(
    sent: bool, mode: string, recipients: int, className: string, assignmentId: string, message: string)

  /** The prefix of a notification message, up to the class name. */
  function NotificationHead(studentCount: int): string {
    "Notification simulated for " + IntToString(studentCount) + " students in "
  }

  const DemoSuffix: string := " (Demo Mode)"

  /** `simulate_notification(assignment_id, class_name, student_count)`. */
  function SimulateNotification(assignmentId: string, className: string, studentCount: int): (n: Notification)
    ensures n.sent && n.mode == "demo"
    ensures n.recipients == studentCount && n.className == className && n.assignmentId == assignmentId
    ensures n.message == NotificationHead(studentCount) + className + DemoSuffix
    ensures Contains(n.message, className)
  {
    var message := NotificationHead(studentCount) + className + DemoSuffix;
    assert className <= message[|NotificationHead(studentCount)|..];
    Notification(true, "demo", studentCount, className, assignmentId, message)
  }

  /** The default of `student_count` when the caller leaves it out. */
  const DefaultStudentCount: int := 25

  /** `simulate_notification(assignment_id, class_name)`: the default count of 25 students. */
  function SimulateNotificationDefault(assignmentId: string, className: string): (n: Notification)
    ensures n.sent && n.mode == "demo" && n.recipients == 25
    ensures n.className == className && n.assignmentId == assignmentId
    ensures n.message == NotificationHead(25) + className + DemoSuffix
  {
    SimulateNotification(assignmentId, className, DefaultStudentCount)
  }

  /** The default message counts "25 students". */
  lemma DefaultNotificationHead()
    ensures NotificationHead(DefaultStudentCount) == "Notification simulated for 25 students in "
  {
    assert NatToString(2) == "2";
    assert NatToString(25) == NatToString(2) + [DigitChar(5)];
    assert IntToString(25) == "25";
  }

  /** For one class, the message alone tells how many students were notified. */
  lemma NotificationMessageDeterminesCount(assignmentId: string, className: string, k1: int, k2: int)
    requires SimulateNotification(assignmentId, className, k1).message == SimulateNotification(assignmentId, className, k2).message
    ensures k1 == k2
  {
    var pre := "Notification simulated for ";
    var m1 := SimulateNotification(assignmentId, className, k1).message;
    var m2 := SimulateNotification(assignmentId, className, k2).message;
    var tail := " students in " + className + DemoSuffix;
    assert m1 == pre + IntToString(k1) + tail;
    assert m2 == pre + IntToString(k2) + tail;
    assert |IntToString(k1)| == |IntToString(k2)|;
    assert m1[|pre|..|pre| + |IntToString(k1)|] == IntToString(k1);
    assert m2[|pre|..|pre| + |IntToString(k2)|] == IntToString(k2);
    IntToStringInjective(k1, k2);
  }

  /** The status listing, every assignment and every notification all report demo mode. */
  lemma DemoModeEverywhere(
    quizTitle: string, questionCount: nat, formUrl: Option<string>, className: string, timestamp: string,
    assignmentId: string, studentCount: int)
    ensures !GetClassroomStatus().connected
    ensures GetClassroomStatus().mode == AssignToClassroom(quizTitle, questionCount, formUrl, className, timestamp).mode
    ensures AssignToClassroom(quizTitle, questionCount, formUrl, className, timestamp).mode
            == SimulateNotification(assignmentId, className, studentCount).mode == "demo"
  {
  }
}
