/** Deleting a row under the `on_delete=CASCADE` foreign keys of
    courses/models.py. Every foreign key in the schema cascades:
      Lesson.course, Payment.course, Subscription.course  -> Course
      Payment.lesson                                      -> Lesson
      Course.owner, Lesson.owner, Payment.user,
      Subscription.user                                   -> User
    so deleting a row removes every row that references a removed row, and
    nothing else. Each delete returns the filtered store. */
module Cascade {
  import opened Models

  /** Restricts a table to the keys whose rows satisfy `keep`. */
  function Filter<K(!new), V>(m: map<K, V>, keep: V -> bool): (r: map<K, V>)
    ensures forall k :: k in r <==> k in m && keep(m[k])
    ensures forall k :: k in r ==> r[k] == m[k]
  {
    map k | k in m && keep(m[k]) :: m[k]
  }

  /** A nullable foreign key that points into `gone`. */
  predicate PointsInto(ref: Option<nat>, gone: set<nat>)
  {
    ref.Some? && ref.value in gone
  }

  /** The lessons of course `cid`. */
  function LessonsOf(s: Store, cid: CourseId): (r: set<LessonId>)
    ensures forall l :: l in r <==> l in s.lessons && s.lessons[l].course == cid
  {
    set l | l in s.lessons && s.lessons[l].course == cid
  }

  /** Deleting lesson `lid`: the lesson goes, with exactly the payments for
      it; courses, users, subscriptions and every other lesson and payment
      stay as they were. */
  function DeleteLesson(s: Store, lid: LessonId): (r: Store)
    ensures r.users == s.users && r.courses == s.courses && r.subscriptions == s.subscriptions
    ensures r.lessons.Keys == s.lessons.Keys - {lid}
    ensures forall l :: l in r.lessons ==> r.lessons[l] == s.lessons[l]
    ensures forall p :: p in r.payments <==> p in s.payments && s.payments[p].lesson != Some(lid)
    ensures forall p :: p in r.payments ==> r.payments[p] == s.payments[p]
    ensures Valid(s) ==> Valid(r)
  {
    s.(lessons := s.lessons - {lid},
       payments := Filter(s.payments, (p: Payment) => p.lesson != Some(lid)))
  }

  /** Deleting course `cid`: the course goes, with its lessons, the payments
      for it or for one of its lessons, and its subscriptions; users and all
      other rows stay as they were. */
  function DeleteCourse(s: Store, cid: CourseId): (r: Store)
    ensures r.users == s.users
    ensures r.courses.Keys == s.courses.Keys - {cid}
    ensures forall c :: c in r.courses ==> r.courses[c] == s.courses[c]
    ensures forall l :: l in r.lessons <==> l in s.lessons && s.lessons[l].course != cid
    ensures forall l :: l in r.lessons ==> r.lessons[l] == s.lessons[l]
    ensures forall p :: p in r.payments <==>
              (p in s.payments && s.payments[p].course != Some(cid)
               && !PointsInto(s.payments[p].lesson, LessonsOf(s, cid)))
    ensures forall p :: p in r.payments ==> r.payments[p] == s.payments[p]
    ensures forall b :: b in r.subscriptions <==> b in s.subscriptions && s.subscriptions[b].course != cid
    ensures forall b :: b in r.subscriptions ==> r.subscriptions[b] == s.subscriptions[b]
    ensures Valid(s) ==> Valid(r)
  {
    var gone := LessonsOf(s, cid);
    s.(courses := s.courses - {cid},
       lessons := Filter(s.lessons, (l: Lesson) => l.course != cid),
       payments := Filter(s.payments, (p: Payment) => p.course != Some(cid) && !PointsInto(p.lesson, gone)),
       subscriptions := Filter(s.subscriptions, (b: Subscription) => b.course != cid))
  }

  /** The courses user `uid` owns. */
  function CoursesOwnedBy(s: Store, uid: UserId): (r: set<CourseId>)
    ensures forall c :: c in r <==> c in s.courses && s.courses[c].owner == Some(uid)
  {
    set c | c in s.courses && s.courses[c].owner == Some(uid)
  }

  /** The lessons a deletion of user `uid` removes: those they own and those
      of a course they own. */
  function LessonsGoneWithUser(s: Store, uid: UserId): (r: set<LessonId>)
    ensures forall l :: l in r <==>
              (l in s.lessons && (s.lessons[l].owner == Some(uid) || s.lessons[l].course in CoursesOwnedBy(s, uid)))
  {
    var courses := CoursesOwnedBy(s, uid);
    set l | l in s.lessons && (s.lessons[l].owner == Some(uid) || s.lessons[l].course in courses)
  }

  /** Deleting user `uid`: the user goes, with the courses and lessons they
      own, their payments and subscriptions, and everything the removed
      courses and lessons cascade to; every other row stays as it was. */
  function DeleteUser(s: Store, uid: UserId): (r: Store)
    ensures r.users.Keys == s.users.Keys - {uid}
    ensures forall u :: u in r.users ==> r.users[u] == s.users[u]
    ensures forall c :: c in r.courses <==> c in s.courses && s.courses[c].owner != Some(uid)
    ensures forall c :: c in r.courses ==> r.courses[c] == s.courses[c]
    ensures forall l :: l in r.lessons <==>
              (l in s.lessons && s.lessons[l].owner != Some(uid) && s.lessons[l].course !in CoursesOwnedBy(s, uid))
    ensures forall l :: l in r.lessons ==> r.lessons[l] == s.lessons[l]
    ensures forall p :: p in r.payments <==>
              (p in s.payments && s.payments[p].user != Some(uid)
               && !PointsInto(s.payments[p].lesson, LessonsGoneWithUser(s, uid))
               && !PointsInto(s.payments[p].course, CoursesOwnedBy(s, uid)))
    ensures forall p :: p in r.payments ==> r.payments[p] == s.payments[p]
    ensures forall b :: b in r.subscriptions <==>
              (b in s.subscriptions && s.subscriptions[b].user != Some(uid)
               && s.subscriptions[b].course !in CoursesOwnedBy(s, uid))
    ensures forall b :: b in r.subscriptions ==> r.subscriptions[b] == s.subscriptions[b]
  {
    var courses := CoursesOwnedBy(s, uid);
    var lessons := LessonsGoneWithUser(s, uid);
    Store(
      s.users - {uid},
      Filter(s.courses, (c: Course) => c.owner != Some(uid)),
      Filter(s.lessons, (l: Lesson) => l.owner != Some(uid) && l.course !in courses),
      Filter(s.payments, (p: Payment) => p.user != Some(uid) && !PointsInto(p.lesson, lessons)
                                         && !PointsInto(p.course, courses)),
      Filter(s.subscriptions, (b: Subscription) => b.user != Some(uid) && b.course !in courses))
  }

  /** Deleting a user keeps every foreign key pointing at a row that exists:
      the cascade reaches every row that referenced a removed one. */
  lemma DeleteUserKeepsValid(s: Store, uid: UserId)
    requires Valid(s)
    ensures Valid(DeleteUser(s, uid))
  {
    var r := DeleteUser(s, uid);
    var courses := CoursesOwnedBy(s, uid);
    var lessons := LessonsGoneWithUser(s, uid);
    forall c | c in r.courses
      ensures CourseRefsOk(r, r.courses[c])
    {
      assert CourseRefsOk(s, s.courses[c]);
    }
    forall l | l in r.lessons
      ensures LessonRefsOk(r, r.lessons[l])
    {
      assert LessonRefsOk(s, s.lessons[l]);
      assert s.lessons[l].course !in courses;
    }
    forall p | p in r.payments
      ensures PaymentRefsOk(r, r.payments[p])
    {
      var pay := s.payments[p];
      assert PaymentRefsOk(s, pay);
      if pay.lesson.Some? {
        assert pay.lesson.value !in lessons;
        assert pay.lesson.value in r.lessons;
      }
      if pay.course.Some? {
        assert pay.course.value in r.courses;
      }
    }
    forall b | b in r.subscriptions
      ensures SubscriptionRefsOk(r, r.subscriptions[b])
    {
      assert SubscriptionRefsOk(s, s.subscriptions[b]);
    }
  }

  /** After a course is deleted no lesson, payment or subscription refers to
      it any more. */
  lemma DeleteCourseLeavesNoReference(s: Store, cid: CourseId)
    ensures var r := DeleteCourse(s, cid);
            && (forall l :: l in r.lessons ==> r.lessons[l].course != cid)
            && (forall p :: p in r.payments ==> r.payments[p].course != Some(cid))
            && (forall b :: b in r.subscriptions ==> r.subscriptions[b].course != cid)
  {
  }

  /** Deleting a course a second time changes nothing. */
  lemma DeleteCourseIdempotent(s: Store, cid: CourseId)
    ensures DeleteCourse(DeleteCourse(s, cid), cid) == DeleteCourse(s, cid)
  {
  }

  /** Deleting a user removes at least what deleting any course they own
      removes. */
  lemma DeleteUserCoversOwnedCourse(s: Store, uid: UserId, cid: CourseId)
    requires cid in s.courses && s.courses[cid].owner == Some(uid)
    ensures var byUser := DeleteUser(s, uid);
            var byCourse := DeleteCourse(s, cid);
            && byUser.courses.Keys <= byCourse.courses.Keys
            && byUser.lessons.Keys <= byCourse.lessons.Keys
            && byUser.payments.Keys <= byCourse.payments.Keys
            && byUser.subscriptions.Keys <= byCourse.subscriptions.Keys
  {
  }
}
