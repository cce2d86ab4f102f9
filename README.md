# Course platform core, modelled in Dafny

This project models the logic of a small Django/DRF online-course backend. Users
create courses and lessons, pay for them and subscribe to them, and receive an
e-mail when a course changes. Most of that repository is framework
declaration. The parts with behaviour of their own are modelled here:

- the records of `courses/models.py` (Course, Lesson, Payment, Subscription and
  the User they point at), held in an in-memory store keyed by primary key, with
  - the referential integrity the foreign keys guarantee (`Models.Valid`),
  - the `__str__` renderings,
  - the `Meta.ordering` default listings,
  - deletion under the `on_delete=CASCADE` graph (module `Cascade`);
- the payment-status rule and the payment-intent request of `courses/services.py`;
- the video URL validator of `courses/validators.py`;
- the notification e-mail that `config/tasks.py` composes.

All four source files are expression code: single f-strings, one comparison,
one membership test, declarative foreign keys. So the model is datatypes,
functions and lemmas throughout. A delete is a function from a store to the
filtered store.

Modules:

| module | file | what |
|---|---|---|
| `Strings` | strings.dfy | decimal rendering of an int (as `str(int)` / an f-string does it), substring containment (`in` on `str`), code-point lexicographic order |
| `Sorting` | sorting.dfy | insertion sort ascending by a text key and descending by an integer key |
| `Models` | models.dfy | records, store, validity, `__str__`, default orderings |
| `Cascade` | cascade.dfy | deleting a lesson, a course or a user |
| `Services` | services.dfy | the payment-status rule and the payment-intent request |
| `Validators` | validators.dfy | `validate_url` |
| `Tasks` | tasks.dfy | the notification message |

Things the model deliberately makes explicit:

- A NULL foreign key read inside `__str__` raises `AttributeError` in Python.
  `PaymentStr` and `SubscriptionStr` therefore return a `Result`.
- `Payment.amount` is a `PositiveIntegerField`, which accepts 0. It is a `nat`,
  not a positive integer.
- The code does not enforce "exactly one of course and lesson". A payment may
  carry both, in which case the Lesson form wins, or neither, in which case
  rendering fails.
- Timestamps (`date_paid`, `updated_at`) are opaque ordered integers.

## Model

| member | source | states |
|---|---|---|
| `Strings.NatToString` | courses/models.py:79-80 | the amount in a payment's rendering is at least one digit, digits only, with no leading zero unless the amount is 0 |
| `Strings.ParseNatToString` | courses/models.py:79-80 | reading the rendered digits back gives the amount: the rendering loses nothing |
| `Strings.NatToStringInjective` | courses/models.py:79-80 | distinct amounts render as distinct digit strings |
| `Strings.ContainsIff` | courses/validators.py:7 | the `in` test on strings holds exactly when the pattern occurs contiguously at some position of the text |
| `Strings.ContainsExtended` | courses/validators.py:7 | an occurrence survives any text placed before and after the value |
| `Strings.ShortNeverContains` | courses/validators.py:7 | a text shorter than the pattern never contains it |
| `Strings.TextLeTotal` | courses/models.py:27 | any two names are comparable in the name order used by `ordering = ('name',)` |
| `Strings.TextLeTransitive` | courses/models.py:27 | the name order is transitive, so a listing sorted pairwise is well defined |
| `Sorting.SortByText` | courses/models.py:27 | a listing by a text key holds the same rows, every earlier key at most every later key |
| `Sorting.SortByIntDesc` | courses/models.py:85 | a listing by a descending integer key holds the same rows, every earlier key at least every later key |
| `Models.CourseStr` | courses/models.py:21-22 | a course renders as its name |
| `Models.LessonStr` | courses/models.py:46-47 | a lesson renders as its name |
| `Models.PaymentStr` | courses/models.py:77-80 | rendering a payment succeeds exactly when the user is set and a lesson or a course is set; a NULL user fails on `user` and, with no lesson, a NULL course fails on `course` |
| `Models.PaymentStrLessonWins` | courses/models.py:78-79 | a payment with a lesson renders as `<email> paid <amount> for Lesson "<lesson name>" via <type>`, whatever course it also carries |
| `Models.PaymentStrCourseForm` | courses/models.py:80 | a payment without a lesson but with a course renders as `<email> paid <amount> for Course "<course name>" via <type>` |
| `Models.PaymentSentenceParts` | courses/models.py:79-80 | a payment sentence starts with the payer's e-mail and " paid ", carries the amount in decimal right after (and it reads back as the amount), and ends with " via " and the payment type |
| `Models.SubscriptionStr` | courses/models.py:99-100 | rendering a subscription succeeds exactly when its user is set; a NULL user fails on `user` |
| `Models.SubscriptionStrParts` | courses/models.py:100 | a rendered subscription is the subscriber's e-mail, " subscribed to ", then the course name, and nothing else |
| `Models.CourseListing` | courses/models.py:27 | the default course listing holds exactly the given courses, ascending by name |
| `Models.LessonListing` | courses/models.py:52 | the default lesson listing holds exactly the given lessons, ascending by name |
| `Models.PaymentListing` | courses/models.py:85 | the default payment listing holds exactly the given payments, newest `date_paid` first |
| `Cascade.DeleteLesson` | courses/models.py:66-67 | deleting a lesson removes it and exactly the payments that reference it; users, courses, subscriptions, other lessons and other payments are unchanged; a valid store stays valid |
| `Cascade.DeleteCourse` | courses/models.py:39-94 | deleting a course removes it and exactly the lessons of it, the payments for it or for one of its lessons, and its subscriptions; everything else is unchanged; a valid store stays valid |
| `Cascade.DeleteUser` | courses/models.py:15-97 | deleting a user removes them, the courses and lessons they own, the lessons of their courses, every payment that is theirs or is for a removed course or lesson, and every subscription that is theirs or is to a removed course; everything else is unchanged |
| `Cascade.DeleteUserKeepsValid` | courses/models.py:15-97 | after deleting a user every remaining foreign key still names an existing row: the cascade reaches everything that referenced a removed row |
| `Cascade.DeleteCourseLeavesNoReference` | courses/models.py:39-94 | after deleting a course no lesson, payment or subscription references it |
| `Cascade.DeleteCourseIdempotent` | courses/models.py:39-94 | deleting the same course twice leaves the same store as deleting it once |
| `Cascade.DeleteUserCoversOwnedCourse` | courses/models.py:15-17 | deleting a user removes at least every row that deleting one of their courses removes |
| `Services.PaymentRequest` | courses/services.py:7-11 | the intent request carries the amount unchanged, currency "usd" and automatic payment methods enabled |
| `Services.CreatePayment` | courses/services.py:5-12 | `create_payment` returns, unchanged, the id the processor answers to that request |
| `Services.StatusText` | courses/services.py:20-22 | the status is always one of the two strings "paid" and "unprocessed" |
| `Services.PaymentStatus` | courses/services.py:20-22 | as written: 'paid' exactly when the requested amount minus the received amount is positive |
| `Services.RetrievePayment` | courses/services.py:15-22 | `retrieve_payment` answers "paid" or "unprocessed", and "paid" exactly when the processor reports less received than requested |
| `Services.FullReceiptIsUnprocessed` | courses/services.py:20-22 | receiving the full amount, or more, reports 'unprocessed' |
| `Services.StatusDependsOnlyOnDifference` | courses/services.py:20 | two lookups with the same outstanding difference report the same status |
| `Services.UnprocessedStaysUnprocessed` | courses/services.py:20 | for a fixed amount, once 'unprocessed' at some received amount, it stays 'unprocessed' for every larger received amount |
| `Services.IntendedStatus` | courses/services.py:20-22 | the intended rule: 'paid' exactly when the received amount reaches the requested amount |
| `Services.PaymentStatusIsInverted` | courses/services.py:20-22 | on every input the rule as written answers the opposite of the intended rule |
| `Services.InversionWitness` | courses/services.py:20-22 | with amount 500 the rule as written says 'paid' when nothing is received and 'unprocessed' when all 500 are; the intended rule says the reverse |
| `Services.IntendedRetrievePayment` | courses/services.py:15-22 | with the intended rule, the lookup answers "paid" exactly when the received amount reaches the requested amount |
| `Services.IntendedCreateThenRetrieve` | courses/services.py:5-22 | with the intended rule, retrieving by the id `create_payment` returned reads "unprocessed" while the processor reports nothing received for it, and "paid" once it reports the full amount |
| `Services.AsWrittenCreateThenRetrieve` | courses/services.py:5-22 | with the rule as written, the same create-then-retrieve sequence reads "paid" before anything is received and "unprocessed" after full receipt |
| `Validators.ValidateUrl` | courses/validators.py:3-8 | a value passes exactly when "youtube.com" occurs in it contiguously; otherwise the error carries the fixed message "This content cannot be added!" |
| `Validators.AcceptedUnderExtension` | courses/validators.py:7 | if a value passes, so does any text placed around it |
| `Validators.ShortValueRejected` | courses/validators.py:7-8 | every value shorter than 11 characters is rejected with the fixed message |
| `Validators.MarkerInQueryAccepted` | courses/validators.py:7 | the check does not look at the host: "x.com/?youtube.com" passes |
| `Validators.UpperCaseRejected` | courses/validators.py:7-8 | the check is case-sensitive: "YOUTUBE.COM" is rejected |
| `Tasks.NotificationMail` | config/tasks.py:11-16 | the subject is always "Course Updated", the body is "Hi!\n\nCourse <title> has been updated.", the sender is the configured host address whatever the arguments, and the recipient list is exactly the given address |
| `Tasks.TitleRoundTrip` | config/tasks.py:13 | the course title can be read back whole from the body |
| `Tasks.DistinctTitlesDistinctBodies` | config/tasks.py:13 | distinct course titles give distinct bodies |

## Left out

- The payment processor's calls (`PaymentIntent.create`, `PaymentIntent.retrieve`) and the `stripe.api_key` assignment. These are network calls and a global. The processor is a function parameter returning a response with `id`, `amount` and `amount_received`, and its failures are not modelled.
- `send_mail` and the `@shared_task` queueing. These are mail transport and an asynchronous queue. Only the message record is modelled, and `settings.EMAIL_HOST_USER` is a `Settings` parameter.
- Access control by role and ownership, the `updated_at` debounce and the fan-out of one notification per subscriber. courses/views.py sets no `permission_classes`, and no file modelled here (courses/models.py, courses/services.py, courses/validators.py, config/tasks.py) reads or writes `updated_at` or calls `send_notification`.
- Views, URL routing, serializers and the migration. They are framework wiring and schema history. `validate_url` is not attached to any serializer, so it is modelled on its own.
- Field length limits (`max_length`), the integer range of `PositiveIntegerField` (0 to 2147483647 on the databases Django supports; `amount` is an unbounded `nat` here), image fields and `auto_now_add`. These are enforced, or not, by the database and the form layer. `date_paid` is an ordinary integer field of the record.
- Models.CourseListing: compares names by code point. The database's collation, which decides the real order, is not modelled. The order of rows with equal names is not stated: the database leaves it unspecified, and the contract promises only order and permutation (the insertion sort happens to keep equal rows in their incoming order, which is not proved).
- Models.LessonListing: the same collation caveat as for courses.
- Models.PaymentListing: the order of rows with equal `date_paid` is not stated, as for courses; the database leaves it unspecified.
- Cascade.DeleteUser: validity of the resulting store is proved in the separate lemma `Cascade.DeleteUserKeepsValid` rather than in its own contract.
- The user model beyond its unique e-mail (`users/models.py:15`, part of `Models.Valid`). The `role` that courses/tests.py:38 passes is not declared in users/models.py.

## Findings

| source | as written | input that shows it | evidently intended | confidence | as-written member | corrected member |
|---|---|---|---|---|---|---|
| courses/services.py:20-22 | returns 'paid' when `amount - amount_received > 0`, i.e. when less than the requested amount has been received | an intent for 500 with 500 received reads 'unprocessed'; one with 0 received reads 'paid' | 'paid' once the received amount reaches the requested amount | high (not executed) | `Services.PaymentStatus` with `Services.AsWrittenCreateThenRetrieve` | `Services.IntendedStatus` with `Services.IntendedCreateThenRetrieve` |

`Services.RetrievePayment` keeps the rule as written, because it models what the
code does. The corrected rule is proved separately and used by
`Services.IntendedRetrievePayment`. `Services.PaymentStatusIsInverted` shows that
the two rules disagree on every input.
