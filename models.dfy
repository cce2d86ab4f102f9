/** The records of courses/models.py (Course, Lesson, Payment, Subscription,
    and the User they point at), the in-memory store that holds them keyed by
    primary key, the referential integrity the foreign keys give that store,
    the `__str__` renderings and the `Meta.ordering` default listings. */
module Models {
  import opened Strings
  import opened Sorting

  type UserId = nat
  type CourseId = nat
  type LessonId = nat
  type PaymentId = nat
  type SubscriptionId = nat

  /** A nullable column or foreign key (`null=True`). */
  datatype Option<T> = None | Some(value: T)

  /** What rendering a record can raise: reading an attribute through a
      foreign key that is NULL (Python's AttributeError on None). */
  datatype RenderError = NoneHasNoAttribute(field: string)

  datatype Result<T> = Ok(value: T) | Err(error: RenderError)

  /** The user model; only the unique e-mail is used by the core. */
  datatype User = User(email: string)

  /** `updatedAt` is a timestamp, kept as an opaque ordered integer. */
  datatype Course = Course(
    name: string,
    preview: Option<string>,
    description: string,
    owner: Option<UserId>,
    updatedAt: Option<int>)

  /** A lesson's `course` is not nullable: every lesson names one course. */
  datatype Lesson = Lesson(
    name: string,
    preview: Option<string>,
    description: string,
    videoUrl: Option<string>,
    course: CourseId,
    owner: Option<UserId>)

  /** `amount` is a PositiveIntegerField, which admits 0; `datePaid` is the
      creation timestamp, kept as an opaque ordered integer. */
  datatype Payment = Payment(
    user: Option<UserId>,
    datePaid: int,
    lesson: Option<LessonId>,
    course: Option<CourseId>,
    amount: nat,
    paymentType: string,
    paymentId: Option<string>)

  datatype Subscription = Subscription(course: CourseId, user: Option<UserId>)

  /** The database: one table per model, keyed by primary key. */
  datatype Store = Store(
    users: map<UserId, User>,
    courses: map<CourseId, Course>,
    lessons: map<LessonId, Lesson>,
    payments: map<PaymentId, Payment>,
    subscriptions: map<SubscriptionId, Subscription>)

  /** A nullable foreign key is NULL or names a row that exists. */
  predicate RefOk(ref: Option<nat>, keys: set<nat>)
  {
    ref.None? || ref.value in keys
  }

  predicate CourseRefsOk(s: Store, c: Course)
  {
    RefOk(c.owner, s.users.Keys)
  }

  predicate LessonRefsOk(s: Store, l: Lesson)
  {
    l.course in s.courses && RefOk(l.owner, s.users.Keys)
  }

  predicate PaymentRefsOk(s: Store, p: Payment)
  {
    RefOk(p.user, s.users.Keys) && RefOk(p.lesson, s.lessons.Keys) && RefOk(p.course, s.courses.Keys)
  }

  predicate SubscriptionRefsOk(s: Store, sub: Subscription)
  {
    sub.course in s.courses && RefOk(sub.user, s.users.Keys)
  }

  /** User e-mails are unique (the `unique=True` on User.email). */
  predicate EmailsUnique(users: map<UserId, User>)
  {
    forall u, v :: u in users && v in users && u != v ==> users[u].email != users[v].email
  }

  /** What the foreign keys and the unique e-mail guarantee of every row. */
  predicate Valid(s: Store)
  {
    && EmailsUnique(s.users)
    && (forall c :: c in s.courses ==> CourseRefsOk(s, s.courses[c]))
    && (forall l :: l in s.lessons ==> LessonRefsOk(s, s.lessons[l]))
    && (forall p :: p in s.payments ==> PaymentRefsOk(s, s.payments[p]))
    && (forall b :: b in s.subscriptions ==> SubscriptionRefsOk(s, s.subscriptions[b]))
  }

  /** Course.__str__: the course's name. */
  function CourseStr(c: Course): (r: string)
    ensures r == c.name
  {
    c.name
  }

  /** Lesson.__str__: the lesson's name. */
  function LessonStr(l: Lesson): (r: string)
    ensures r == l.name
  {
    l.name
  }

  /** The two sentence forms Payment.__str__ produces; `target` is "Lesson"
      or "Course". */
  function PaymentSentence(email: string, amount: nat, target: string, name: string, paymentType: string): string
  {
    email + " paid " + NatToString(amount) + " for " + target + " \"" + name + "\" via " + paymentType
  }

  /** Payment.__str__. The user's e-mail is read first in both forms, so a
      NULL user fails either way; a set lesson selects the Lesson form even
      when a course is set too; with neither set, reading the course's name
      fails. */
  function PaymentStr(s: Store, p: Payment): (r: Result<string>)
    requires PaymentRefsOk(s, p)
    ensures r.Ok? <==> p.user.Some? && (p.lesson.Some? || p.course.Some?)
    ensures p.user.None? ==> r == Err(NoneHasNoAttribute("user"))
    ensures p.user.Some? && p.lesson.None? && p.course.None? ==> r == Err(NoneHasNoAttribute("course"))
  {
    if p.user.None? then Err(NoneHasNoAttribute("user"))
    else
      var email := s.users[p.user.value].email;
      if p.lesson.Some? then
        Ok(PaymentSentence(email, p.amount, "Lesson", s.lessons[p.lesson.value].name, p.paymentType))
      else if p.course.None? then Err(NoneHasNoAttribute("course"))
      else
        Ok(PaymentSentence(email, p.amount, "Course", s.courses[p.course.value].name, p.paymentType))
  }

  /** A payment with a lesson renders in the Lesson form, naming that lesson,
      and whatever course it also carries makes no difference. */
  lemma PaymentStrLessonWins(s: Store, p: Payment, other: Option<CourseId>)
    requires PaymentRefsOk(s, p) && RefOk(other, s.courses.Keys)
    requires p.user.Some? && p.lesson.Some?
    ensures PaymentStr(s, p) == PaymentStr(s, p.(course := other))
    ensures PaymentStr(s, p) == Ok(PaymentSentence(s.users[p.user.value].email, p.amount, "Lesson",
                                                   s.lessons[p.lesson.value].name, p.paymentType))
  {
  }

  /** Without a lesson, a payment with a course renders in the Course form. */
  lemma PaymentStrCourseForm(s: Store, p: Payment)
    requires PaymentRefsOk(s, p)
    requires p.user.Some? && p.lesson.None? && p.course.Some?
    ensures PaymentStr(s, p) == Ok(PaymentSentence(s.users[p.user.value].email, p.amount, "Course",
                                                   s.courses[p.course.value].name, p.paymentType))
  {
  }

  /** Each rendered sentence starts with the payer's e-mail, then " paid ",
      then the amount in decimal, which reads back as the amount, and ends
      with " via " and the payment type. */
  lemma {:induction false} PaymentSentenceParts(email: string, amount: nat, target: string, name: string, paymentType: string)
    ensures var r := PaymentSentence(email, amount, target, name, paymentType);
            var digits := NatToString(amount);
            && email + " paid " <= r
            && r[|email| + 6..|email| + 6 + |digits|] == digits
            && ParseDigits(r[|email| + 6..|email| + 6 + |digits|]) == amount
            && r[|r| - |paymentType|..] == paymentType
            && r[|r| - |paymentType| - 5..|r| - |paymentType|] == " via "
  {
    var digits := NatToString(amount);
    var head := email + " paid ";
    var tail := " for " + target + " \"" + name + "\" via " + paymentType;
    var r := PaymentSentence(email, amount, target, name, paymentType);
    assert r == head + digits + tail;
    assert r[|head|..|head| + |digits|] == digits;
    ParseNatToString(amount);
    assert r[|r| - |paymentType|..] == paymentType;
  }

  /** Subscription.__str__: "<user's e-mail> subscribed to <course's name>";
      a NULL user fails. */
  function SubscriptionStr(s: Store, sub: Subscription): (r: Result<string>)
    requires SubscriptionRefsOk(s, sub)
    ensures r.Ok? <==> sub.user.Some?
    ensures sub.user.None? ==> r == Err(NoneHasNoAttribute("user"))
  {
    if sub.user.None? then Err(NoneHasNoAttribute("user"))
    else Ok(s.users[sub.user.value].email + " subscribed to " + s.courses[sub.course].name)
  }

  /** A rendered subscription starts with the subscriber's e-mail and ends
      with the course's name, joined by " subscribed to ". */
  lemma SubscriptionStrParts(s: Store, sub: Subscription)
    requires SubscriptionRefsOk(s, sub) && sub.user.Some?
    ensures var r := SubscriptionStr(s, sub).value;
            var email := s.users[sub.user.value].email;
            var name := s.courses[sub.course].name;
            && email + " subscribed to " <= r
            && |r| == |email| + 15 + |name|
            && r[|email| + 15..] == name
  {
  }

  function DatePaid(p: Payment): int { p.datePaid }

  /** Course.Meta.ordering = ('name',): the same courses, ascending by name. */
  function CourseListing(rows: seq<Course>): (r: seq<Course>)
    ensures multiset(r) == multiset(rows)
    ensures forall i, j :: 0 <= i < j < |r| ==> TextLe(r[i].name, r[j].name)
  {
    SortByText(rows, CourseStr)
  }

  /** Lesson.Meta.ordering = ('name',): the same lessons, ascending by name. */
  function LessonListing(rows: seq<Lesson>): (r: seq<Lesson>)
    ensures multiset(r) == multiset(rows)
    ensures forall i, j :: 0 <= i < j < |r| ==> TextLe(r[i].name, r[j].name)
  {
    SortByText(rows, LessonStr)
  }

  /** Payment.Meta.ordering = ('-date_paid',): the same payments, newest
      first. */
  function PaymentListing(rows: seq<Payment>): (r: seq<Payment>)
    ensures multiset(r) == multiset(rows)
    ensures forall i, j :: 0 <= i < j < |r| ==> r[i].datePaid >= r[j].datePaid
  {
    SortByIntDesc(rows, DatePaid)
  }
}
