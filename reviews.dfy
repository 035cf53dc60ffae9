/** Reviews and feedback (apps/reviews/models.py): the rating and target
    constraints of a review, the shop's reply and the helpful counter, and
    the handling of a feedback ticket by an admin. */
module Reviews {
  import opened Common
  import opened Stamps

  // ---------------------------------------------------------------------------
  // reviews

  /** One row of the `reviews` table. */
  datatype ReviewRow = ReviewRow(
    id: nat,
    user: UserId,
    order: Option<OrderId>,
    dish: Option<DishId>,
    rating: int,
    content: Option<string>,
    images: Option<seq<string>>,
    isAnonymous: bool,
    replyContent: Option<string>,
    replyTime: Option<DateTime>,
    isVisible: bool,
    helpfulCount: int,
    createdTime: DateTime)

  /** The rating validators (1 to 5) and the `chk_review_target` constraint
      (an order or a dish); the counter starts at zero and only grows. */
  ghost predicate ReviewValid(r: ReviewRow) {
    1 <= r.rating <= 5 && (r.order.Some? || r.dish.Some?) && r.helpfulCount >= 0
  }

  /** `reply(content)`: the reply and its time are set; only those two
      columns are saved. */
  function Replied(r: ReviewRow, content: Option<string>, now: DateTime): (q: ReviewRow)
    ensures q.replyContent == content && q.replyTime == Some(now)
    ensures q.(replyContent := r.replyContent, replyTime := r.replyTime) == r
    ensures ReviewValid(r) ==> ReviewValid(q)
  {
    r.(replyContent := content, replyTime := Some(now))
  }

  /** A second reply replaces the first. */
  lemma ReplyReplaces(r: ReviewRow, c1: Option<string>, t1: DateTime, c2: Option<string>, t2: DateTime)
    ensures Replied(Replied(r, c1, t1), c2, t2) == Replied(r, c2, t2)
  {
  }

  /** `add_helpful()`: one more helpful vote; only that column is saved. */
  function WithHelpful(r: ReviewRow): (q: ReviewRow)
    ensures q.helpfulCount == r.helpfulCount + 1
    ensures q.(helpfulCount := r.helpfulCount) == r
    ensures ReviewValid(r) ==> ReviewValid(q)
  {
    r.(helpfulCount := r.helpfulCount + 1)
  }

  /** `n` helpful votes in a row. */
  function HelpfulTimes(r: ReviewRow, n: nat): ReviewRow {
    if n == 0 then r else WithHelpful(HelpfulTimes(r, n - 1))
  }

  /** `n` votes add exactly `n` and touch nothing else. */
  lemma {:induction false} HelpfulTimesAdds(r: ReviewRow, n: nat)
    ensures HelpfulTimes(r, n).helpfulCount == r.helpfulCount + n
    ensures HelpfulTimes(r, n).(helpfulCount := r.helpfulCount) == r
  {
    if n > 0 {
      HelpfulTimesAdds(r, n - 1);
    }
  }

  class Review {
    var id: nat
    var user: UserId
    var order: Option<OrderId>
    var dish: Option<DishId>
    var rating: int
    var content: Option<string>
    var images: Option<seq<string>>
    var isAnonymous: bool
    var replyContent: Option<string>
    var replyTime: Option<DateTime>
    var isVisible: bool
    var helpfulCount: int
    var createdTime: DateTime

    function Row(): ReviewRow
      reads this
    {
      ReviewRow(id, user, order, dish, rating, content, images, isAnonymous, replyContent, replyTime, isVisible,
                helpfulCount, createdTime)
    }

    ghost predicate Valid()
      reads this
    {
      ReviewValid(Row())
    }

    /** `Review.objects.create(...)` with the defaults: not anonymous unless
        asked, visible, no reply, no votes. */
    constructor (id: nat, user: UserId, order: Option<OrderId>, dish: Option<DishId>, rating: int,
                 content: Option<string>, images: Option<seq<string>>, isAnonymous: bool, now: DateTime)
      requires 1 <= rating <= 5 && (order.Some? || dish.Some?)
      ensures Valid()
      ensures Row() == ReviewRow(id, user, order, dish, rating, content, images, isAnonymous, None, None, true, 0, now)
    {
      this.id, this.user, this.order, this.dish, this.rating := id, user, order, dish, rating;
      this.content, this.images, this.isAnonymous := content, images, isAnonymous;
      replyContent, replyTime, isVisible, helpfulCount, createdTime := None, None, true, 0, now;
    }

    method Reply(content: Option<string>, now: DateTime)
      requires Valid()
      modifies this
      ensures Valid() && Row() == Replied(old(Row()), content, now)
    {
      replyContent := content;
      replyTime := Some(now);
    }

    method AddHelpful()
      requires Valid()
      modifies this
      ensures Valid() && Row() == WithHelpful(old(Row()))
    {
      helpfulCount := helpfulCount + 1;
    }
  }

  // ---------------------------------------------------------------------------
  // feedback

  datatype FeedbackType = Suggestion | Complaint | BugReport | FeatureRequest | OtherFeedback

  datatype FeedbackStatus = FeedbackPending | FeedbackProcessing | FeedbackCompleted | FeedbackClosed

  datatype Priority = Low | Medium | High | Urgent

  /** One row of the `feedbacks` table. */
  datatype FeedbackRow = FeedbackRow(
    id: nat,
    user: UserId,
    kind: FeedbackType,
    title: string,
    content: string,
    contactInfo: Option<string>,
    status: FeedbackStatus,
    priority: Priority,
    adminReply: Option<string>,
    admin: Option<UserId>,
    replyTime: Option<DateTime>,
    createdTime: DateTime)

  /** A ticket someone is working on has an admin, and a completed one also
      has the admin's reply and its time. */
  predicate FeedbackConsistent(f: FeedbackRow) {
    (f.status == FeedbackProcessing ==> f.admin.Some?) &&
    (f.status == FeedbackCompleted ==> f.admin.Some? && f.adminReply.Some? && f.replyTime.Some?)
  }

  /** The row `Feedback.objects.create` starts from: pending, medium
      priority, nobody assigned, no reply. */
  function NewFeedback(id: nat, user: UserId, kind: FeedbackType, title: string, content: string,
                       contactInfo: Option<string>, now: DateTime): (f: FeedbackRow)
    ensures f.status == FeedbackPending && f.priority == Medium
    ensures f.admin.None? && f.adminReply.None? && f.replyTime.None?
    ensures FeedbackConsistent(f)
  {
    FeedbackRow(id, user, kind, title, content, contactInfo, FeedbackPending, Medium, None, None, None, now)
  }

  /** `assign_to_admin(admin_user)`: processing, by that admin, from any status. */
  function Assigned(f: FeedbackRow, admin: UserId): (g: FeedbackRow)
    ensures g.status == FeedbackProcessing && g.admin == Some(admin)
    ensures g.(status := f.status, admin := f.admin) == f
    ensures FeedbackConsistent(g)
  {
    f.(admin := Some(admin), status := FeedbackProcessing)
  }

  /** `reply(content, admin_user)`: completed, with the reply, the admin who
      gave it and the time. */
  function Answered(f: FeedbackRow, content: string, admin: UserId, now: DateTime): (g: FeedbackRow)
    ensures g.status == FeedbackCompleted && g.adminReply == Some(content) && g.admin == Some(admin)
    ensures g.replyTime == Some(now)
    ensures g.(status := f.status, adminReply := f.adminReply, admin := f.admin, replyTime := f.replyTime) == f
    ensures FeedbackConsistent(g)
  {
    f.(adminReply := Some(content), admin := Some(admin), replyTime := Some(now), status := FeedbackCompleted)
  }

  /** `close()`: closed, from any status, with nothing else changed. */
  function Closed(f: FeedbackRow): (g: FeedbackRow)
    ensures g.status == FeedbackClosed && g.(status := f.status) == f
    ensures FeedbackConsistent(f) ==> FeedbackConsistent(g)
  {
    f.(status := FeedbackClosed)
  }

  /** The three things an admin can do to a ticket. */
  datatype FeedbackAction = Assign(admin: UserId) | Answer(reply: string, replier: UserId, time: DateTime) | CloseTicket

  function Apply(f: FeedbackRow, a: FeedbackAction): FeedbackRow {
    match a
    case Assign(admin) => Assigned(f, admin)
    case Answer(reply, replier, time) => Answered(f, reply, replier, time)
    case CloseTicket => Closed(f)
  }

  /** The status each action leaves behind. */
  function StatusAfter(a: FeedbackAction): FeedbackStatus {
    match a
    case Assign(_) => FeedbackProcessing
    case Answer(_, _, _) => FeedbackCompleted
    case CloseTicket => FeedbackClosed
  }

  /** A ticket after a series of actions, the first applied first. */
  function Handled(f: FeedbackRow, actions: seq<FeedbackAction>): FeedbackRow {
    if actions == [] then f else Apply(Handled(f, actions[..|actions| - 1]), actions[|actions| - 1])
  }

  /** Whatever the admins do, a ticket stays consistent, keeps its author,
      text and creation time, and its status is the one the last action sets. */
  lemma {:induction false} HandledConsistent(f: FeedbackRow, actions: seq<FeedbackAction>)
    requires FeedbackConsistent(f)
    ensures FeedbackConsistent(Handled(f, actions))
    ensures var g := Handled(f, actions);
      g.user == f.user && g.title == f.title && g.content == f.content && g.createdTime == f.createdTime
    ensures actions != [] ==> Handled(f, actions).status == StatusAfter(actions[|actions| - 1])
  {
    if actions != [] {
      HandledConsistent(f, actions[..|actions| - 1]);
    }
  }

  /** Closing twice is closing once. */
  lemma CloseIdempotent(f: FeedbackRow)
    ensures Closed(Closed(f)) == Closed(f)
  {
  }

  class Feedback {
    var id: nat
    var user: UserId
    var kind: FeedbackType
    var title: string
    var content: string
    var contactInfo: Option<string>
    var status: FeedbackStatus
    var priority: Priority
    var adminReply: Option<string>
    var admin: Option<UserId>
    var replyTime: Option<DateTime>
    var createdTime: DateTime

    function Row(): FeedbackRow
      reads this
    {
      FeedbackRow(id, user, kind, title, content, contactInfo, status, priority, adminReply, admin, replyTime,
                  createdTime)
    }

    ghost predicate Valid()
      reads this
    {
      FeedbackConsistent(Row())
    }

    constructor (id: nat, user: UserId, kind: FeedbackType, title: string, content: string,
                 contactInfo: Option<string>, now: DateTime)
      ensures Valid() && Row() == NewFeedback(id, user, kind, title, content, contactInfo, now)
    {
      this.id, this.user, this.kind, this.title, this.content, this.contactInfo := id, user, kind, title, content, contactInfo;
      status, priority, adminReply, admin, replyTime, createdTime := FeedbackPending, Medium, None, None, None, now;
    }

    method AssignToAdmin(adminUser: UserId)
      requires Valid()
      modifies this
      ensures Valid() && Row() == Assigned(old(Row()), adminUser)
    {
      admin := Some(adminUser);
      status := FeedbackProcessing;
    }

    method Reply(reply: string, adminUser: UserId, now: DateTime)
      requires Valid()
      modifies this
      ensures Valid() && Row() == Answered(old(Row()), reply, adminUser, now)
    {
      adminReply := Some(reply);
      admin := Some(adminUser);
      replyTime := Some(now);
      status := FeedbackCompleted;
    }

    method Close()
      requires Valid()
      modifies this
      ensures Valid() && Row() == Closed(old(Row()))
    {
      status := FeedbackClosed;
    }
  }
}
