/** config/tasks.py: the e-mail `send_notification` asks the mail transport to
    deliver to one subscriber of an updated course. Queueing the task and
    delivering the mail are outside the model; the message itself is a
    record. */
module Tasks {

  /** The process-wide settings the message reads. */
  datatype Settings = Settings(emailHostUser: string)

  /** The arguments `send_mail` receives. */
  datatype Mail = Mail(subject: string, message: string, fromEmail: string, recipientList: seq<string>)

  const BodyHead: string := "Hi!\n\nCourse "
  const BodyTail: string := " has been updated."

  /** The notification for `email` about the course titled `courseTitle`:
      fixed subject, templated body, the configured sender, one recipient. */
  function NotificationMail(settings: Settings, courseTitle: string, email: string): (m: Mail)
    ensures m.subject == "Course Updated"
    ensures m.message == "Hi!\n\nCourse " + courseTitle + " has been updated."
    ensures m.fromEmail == settings.emailHostUser
    ensures |m.recipientList| == 1 && m.recipientList[0] == email
  {
    Mail("Course Updated", BodyHead + courseTitle + BodyTail, settings.emailHostUser, [email])
  }

  /** Reads the course title back out of a notification body. */
  function TitleOf(message: string): string
    requires |message| >= |BodyHead| + |BodyTail|
  {
    message[|BodyHead|..|message| - |BodyTail|]
  }

  /** The body carries the title whole: it can be read back. */
  lemma TitleRoundTrip(settings: Settings, courseTitle: string, email: string)
    ensures var m := NotificationMail(settings, courseTitle, email);
            |m.message| >= |BodyHead| + |BodyTail| && TitleOf(m.message) == courseTitle
  {
  }

  /** Distinct course titles give distinct bodies. */
  lemma DistinctTitlesDistinctBodies(settings: Settings, t1: string, t2: string, e1: string, e2: string)
    requires t1 != t2
    ensures NotificationMail(settings, t1, e1).message != NotificationMail(settings, t2, e2).message
  {
    TitleRoundTrip(settings, t1, e1);
    TitleRoundTrip(settings, t2, e2);
  }
}
