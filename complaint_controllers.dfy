/**
 * The complaint handlers: create, list all (admin), list mine, the admin
 * status update with its notification, owner-or-admin deletion, and the
 * seven-day trend series.
 */
module ComplaintControllers {
  import opened Js
  import opened ComplaintSchema
  import opened Db
  import opened AuthMiddleware
  import opened Mailer

  // ---------------------------------------------------------------- create

  /** The body of `POST /api/complaints`. */
  datatype ComplaintBody = ComplaintBody(
    title: Option<string>,
    description: Option<string>,
    location: Option<string>,
    category: Option<string>,
    image: Option<string>)

  /** 201 with the stored complaint, or 500 when the schema rejects it or the owner does not cast. */
  datatype CreateResult = Created(id: Id, complaint: Complaint) | CreateFailed

  /** The fields `createComplaint` passes to `Complaint.create`: the body, the caller as owner, and status "Pending". */
  function CreationFields(actor: Principal, body: ComplaintBody): (f: Fields)
    ensures !Fails(f, StatusNotInEnum) && !Fails(f, UserRequired)
    ensures f.user == Some(actor.id)
    ensures f.title == body.title && f.description == body.description && f.location == body.location
    ensures f.category == body.category && f.image == body.image
  {
    Fields(body.title, body.description, body.location, body.category, Some("Pending"), body.image, Some(actor.id))
  }

  method CreateComplaint(store: Store, actor: Principal, body: ComplaintBody, now: Day) returns (r: CreateResult)
    modifies store
    ensures store.users == old(store.users)
    ensures !Castable(actor.id) || Create(CreationFields(actor, body), now).Invalid? ==>
      r == CreateFailed && store.complaints == old(store.complaints)
    ensures Castable(actor.id) && Create(CreationFields(actor, body), now).Ok? ==>
      && r.Created?
      && r.complaint == Create(CreationFields(actor, body), now).value
      && r.id !in old(store.complaints)
      && store.complaints == old(store.complaints)[r.id := r.complaint]
    ensures r.Created? ==>
      && r.complaint.owner == Some(actor.id)
      && r.complaint.status == "Pending"
      && r.complaint.statusHistory == []
      && r.complaint.createdAt == now
      && Conforms(r.complaint)
  {
    var made := Create(CreationFields(actor, body), now);
    if !Castable(actor.id) || made.Invalid? {
      return CreateFailed;
    }
    var id := store.InsertComplaint(made.value);
    r := Created(id, made.value);
  }

  // ---------------------------------------------------------------- listing

  /** `populate('user', 'name email')`. */
  datatype OwnerView = OwnerView(name: Option<string>, email: Option<string>)

  datatype Listed = Listed(complaint: Complaint, owner: Option<OwnerView>)

  datatype ListResult = ListForbidden | Listing(items: map<Id, Listed>)

  /** The owner reference resolved to the owner's name and email; null when it names no stored user. */
  function Populate(owner: Option<Id>, users: map<Id, User>): Option<OwnerView>
  {
    if owner.Some? && owner.value in users then Some(OwnerView(users[owner.value].name, users[owner.value].email)) else None
  }

  /** `GET /api/complaints`: 403 for a non-admin, otherwise every complaint with its owner resolved. */
  function GetAllComplaints(actor: Principal, complaints: map<Id, Complaint>, users: map<Id, User>): (r: ListResult)
    ensures r.ListForbidden? <==> !IsAdmin(actor)
    ensures r.Listing? ==> r.items.Keys == complaints.Keys
    ensures r.Listing? ==> forall id :: id in r.items ==>
      r.items[id].complaint == complaints[id] && r.items[id].owner == Populate(complaints[id].owner, users)
  {
    if !IsAdmin(actor) then ListForbidden
    else Listing(map id | id in complaints :: Listed(complaints[id], Populate(complaints[id].owner, users)))
  }

  /** 200 with the caller's complaints, or 500 when the caller's id does not cast. */
  datatype MineResult = MineFailed | Mine(items: map<Id, Complaint>)

  /** `GET /api/complaints/my`: exactly the complaints whose owner is the caller. */
  function GetMyComplaints(actor: Principal, complaints: map<Id, Complaint>): (r: MineResult)
    ensures r.MineFailed? <==> !Castable(actor.id)
    ensures r.Mine? ==> forall id :: id in r.items <==> id in complaints && complaints[id].owner == Some(actor.id)
    ensures r.Mine? ==> forall id :: id in r.items ==> r.items[id] == complaints[id]
  {
    if !Castable(actor.id) then MineFailed
    else Mine(map id | id in complaints && complaints[id].owner == Some(actor.id) :: complaints[id])
  }

  /** A complaint just created by `actor` shows up in `actor`'s list, and nobody else's list changes. */
  lemma CreateThenMine(complaints: map<Id, Complaint>, id: Id, c: Complaint, actor: Principal, other: Principal)
    requires id !in complaints && c.owner == Some(actor.id) && Castable(actor.id)
    requires other.id != actor.id
    ensures GetMyComplaints(actor, complaints[id := c]) == Mine(GetMyComplaints(actor, complaints).items[id := c])
    ensures GetMyComplaints(other, complaints[id := c]) == GetMyComplaints(other, complaints)
  {
    var after := complaints[id := c];
    assert GetMyComplaints(actor, after).items.Keys == GetMyComplaints(actor, complaints).items.Keys + {id};
    if Castable(other.id) {
      assert GetMyComplaints(other, after).items.Keys == GetMyComplaints(other, complaints).items.Keys;
    }
  }

  // ---------------------------------------------------------------- status update

  /** The body of `PATCH /api/complaints/:id`. */
  datatype StatusBody = StatusBody(status: Option<string>, comment: Option<string>)

  datatype UpdateResult = UpdateForbidden | UpdateNotFound | UpdateFailed | StatusUpdated(message: string, emailSent: bool)

  const UpdatedMessage := "Status updated and comment added."

  /**
   * The record `findByIdAndUpdate` writes: a missing owner is repaired to
   * the acting admin, the status is the requested one when it is truthy
   * (and is not checked against the enumeration), and one history entry is
   * pushed.
   */
  function ApplyStatusUpdate(c: Complaint, actor: Principal, body: StatusBody, now: Day): (r: Complaint)
    ensures |r.statusHistory| == |c.statusHistory| + 1
    ensures r.statusHistory[..|c.statusHistory|] == c.statusHistory
    ensures r.status == (if Truthy(body.status) then body.status.value else c.status)
    ensures r.statusHistory[|c.statusHistory|] == HistoryEntry(
      r.status,
      now,
      if Truthy(actor.name) then actor.name else actor.email,
      if Truthy(body.comment) then body.comment.value else "")
    ensures r.owner == (if c.owner.Some? then c.owner else Some(actor.id))
    ensures r == c.(status := r.status, statusHistory := r.statusHistory, owner := r.owner)
  {
    var owner := if c.owner.None? then Some(actor.id) else c.owner;
    var status := OrDefault(body.status, c.status);
    var entry := HistoryEntry(status, now, OrElse(actor.name, actor.email), OrDefault(body.comment, ""));
    c.(status := status, statusHistory := c.statusHistory + [entry], owner := owner)
  }

  /** The populated owner when it has an email to write to. */
  function Recipient(owner: Option<Id>, users: map<Id, User>): (r: Option<User>)
    ensures r.Some? <==> owner.Some? && owner.value in users && Truthy(users[owner.value].email)
    ensures r.Some? ==> r.value == users[owner.value] && Truthy(r.value.email)
    ensures r.Some? ==> Populate(owner, users).Some? && Populate(owner, users).value.email == r.value.email
  {
    if owner.Some? && owner.value in users && Truthy(users[owner.value].email) then Some(users[owner.value]) else None
  }

  /** The comment as the message shows it: `comment || 'No comment.'`. */
  function CommentText(comment: Option<string>): string
  {
    OrDefault(comment, "No comment.")
  }

  /** The plain-text body of the notification. */
  function StatusText(name: string, title: string, status: string, note: string): (t: string)
    ensures |t| > 0 && |t| >= |note| && t[|t| - |note|..] == note
    ensures Contains(t, title) && Contains(t, status)
  {
    var head := "Hello " + name + ",\n\nThe status of your complaint \"";
    ContainsPieces6(head, title, "\" is now \"", status, "\".\n\nAdmin Comment: ", note);
    head + title + "\" is now \"" + status + "\".\n\nAdmin Comment: " + note
  }

  /** The HTML body of the notification. */
  function StatusHtml(name: string, title: string, status: string, note: string): (h: string)
    ensures |h| > 0
    ensures Contains(h, title) && Contains(h, status) && Contains(h, note)
  {
    var head := "<p>Hello " + name + ",</p>\n               <p>The status of your complaint \"<b>";
    ContainsPieces7(head, title, "</b>\" is now <b>", status,
                    "</b>.</p>\n               <p><b>Admin Comment:</b> ", note, "</p>");
    head + title + "</b>\" is now <b>" + status + "</b>.</p>\n               <p><b>Admin Comment:</b> " + note + "</p>"
  }

  /** The notification `updateComplaintStatus` sends to the owner. */
  function StatusMail(owner: User, c: Complaint, comment: Option<string>): (r: MailRequest)
    ensures r.to == owner.email
    ensures r.subject == Some("Your Complaint Status Has Changed")
    ensures Truthy(r.text) && Truthy(r.html)
    ensures var t := r.text.value; |t| >= |CommentText(comment)| && t[|t| - |CommentText(comment)|..] == CommentText(comment)
    ensures Contains(r.text.value, c.title) && Contains(r.text.value, c.status)
    ensures Contains(r.html.value, c.title) && Contains(r.html.value, c.status) && Contains(r.html.value, CommentText(comment))
  {
    var note := CommentText(comment);
    var text := StatusText(Show(owner.name), c.title, c.status, note);
    var html := StatusHtml(Show(owner.name), c.title, c.status, note);
    var r := MailRequest(owner.email, Some("Your Complaint Status Has Changed"), Some(text), Some(html));
    assert r.text.value == text && r.html.value == html;
    r
  }

  /**
   * `PATCH /api/complaints/:id`. The second result is the `sendEmail` call,
   * if one was made. The write is committed before the notification, and a
   * failed notification only shows in `emailSent`.
   */
  method UpdateComplaintStatus(store: Store, actor: Principal, id: Id, body: StatusBody, now: Day,
                               env: MailEnv, script: seq<Outcome>)
    returns (r: UpdateResult, mail: Option<SendReport>)
    requires |script| >= MaxRetries
    modifies store
    ensures store.users == old(store.users)
    ensures !IsAdmin(actor) ==>
      r == UpdateForbidden && mail == None && store.complaints == old(store.complaints)
    ensures IsAdmin(actor) && id !in old(store.complaints) ==>
      r == UpdateNotFound && mail == None && store.complaints == old(store.complaints)
    ensures IsAdmin(actor) && id in old(store.complaints) && !Castable(ApplyStatusUpdate(old(store.complaints)[id], actor, body, now).owner.value) ==>
      r == UpdateFailed && mail == None && store.complaints == old(store.complaints)
    ensures IsAdmin(actor) && id in old(store.complaints) && Castable(ApplyStatusUpdate(old(store.complaints)[id], actor, body, now).owner.value) ==>
      var updated := ApplyStatusUpdate(old(store.complaints)[id], actor, body, now);
      var to := Recipient(updated.owner, store.users);
      && store.complaints == old(store.complaints)[id := updated]
      && r.StatusUpdated? && r.message == UpdatedMessage
      && (mail.Some? <==> to.Some?)
      && (to.Some? && !Configured(env) ==> mail == Some(NotConfigured))
      && (to.Some? && Configured(env) ==>
            mail == Some(Dispatched(BuildOptions(env, StatusMail(to.value, updated, body.comment)), RetrySpec(script, MaxRetries))))
      && (r.emailSent <==> to.Some? && Configured(env) && exists k :: 0 <= k < MaxRetries && script[k].Sent?)
  {
    if !IsAdmin(actor) {
      return UpdateForbidden, None;
    }
    if id !in store.complaints {
      return UpdateNotFound, None;
    }
    var updated := ApplyStatusUpdate(store.complaints[id], actor, body, now);
    if !Castable(updated.owner.value) {
      return UpdateFailed, None;
    }
    store.ReplaceComplaint(id, updated);
    var emailSent := false;
    mail := None;
    var to := Recipient(updated.owner, store.users);
    if to.Some? {
      var ok, report := SendEmail(env, StatusMail(to.value, updated, body.comment), script);
      emailSent := ok;
      mail := Some(report);
    }
    r := StatusUpdated(UpdatedMessage, emailSent);
  }

  /** The built-in administrator cannot repair an ownerless complaint: the write with "admin-id" as owner fails to cast. */
  lemma BuiltInAdminRepairFails(c: Complaint, body: StatusBody, now: Day)
    requires c.owner.None?
    ensures !Castable(ApplyStatusUpdate(c, AdminPrincipal, body, now).owner.value)
  {
  }

  /** The status update leaves the result outside the enumeration whenever the requested status is: it is written unvalidated. */
  lemma UpdateSkipsEnumCheck(c: Complaint, actor: Principal, comment: Option<string>, now: Day)
    ensures ApplyStatusUpdate(c, actor, StatusBody(Some("Closed"), comment), now).status !in StatusValues
  {
  }

  // ---------------------------------------------------------------- delete

  datatype DeleteResult = DeleteNotFound | DeleteForbidden | Deleted | DeleteFailed

  function Lookup(complaints: map<Id, Complaint>, id: Id): Option<Complaint>
  {
    if id in complaints then Some(complaints[id]) else None
  }

  /**
   * The decision of `deleteComplaint` on the complaint it found. The owner is
   * compared before the role is looked at, so a complaint without an owner
   * throws (500) whoever asks.
   */
  function DeleteVerdict(stored: Option<Complaint>, actor: Principal): (r: DeleteResult)
    ensures stored.None? <==> r == DeleteNotFound
    ensures stored.Some? && stored.value.owner.None? ==> r == DeleteFailed
    ensures stored.Some? && stored.value.owner.Some? ==>
      && (r == Deleted <==> stored.value.owner.value == actor.id || IsAdmin(actor))
      && (r != Deleted ==> r == DeleteForbidden)
  {
    if stored.None? then DeleteNotFound
    else if stored.value.owner.None? then DeleteFailed
    else
      var isOwner := stored.value.owner.value == actor.id;
      var isAdmin := IsAdmin(actor);
      if !isOwner && !isAdmin then DeleteForbidden else Deleted
  }

  /** As written, not even an admin can delete a complaint that has no owner. */
  lemma OwnerlessUndeletable(c: Complaint, actor: Principal)
    requires c.owner.None? && IsAdmin(actor)
    ensures DeleteVerdict(Some(c), actor) == DeleteFailed
  {
  }

  /** The owner-or-admin rule with the role checked first, so that an admin can delete any complaint. */
  function IntendedDeleteVerdict(stored: Option<Complaint>, actor: Principal): (r: DeleteResult)
    ensures stored.None? <==> r == DeleteNotFound
    ensures stored.Some? ==>
      && (r == Deleted <==> IsAdmin(actor) || stored.value.owner == Some(actor.id))
      && (r != Deleted ==> r == DeleteForbidden)
    ensures stored.Some? && stored.value.owner.Some? ==> r == DeleteVerdict(stored, actor)
  {
    if stored.None? then DeleteNotFound
    else if IsAdmin(actor) || stored.value.owner == Some(actor.id) then Deleted
    else DeleteForbidden
  }

  /** `DELETE /api/complaints/:id`: the complaint is removed exactly when the verdict is Deleted. */
  method DeleteComplaint(store: Store, actor: Principal, id: Id) returns (r: DeleteResult)
    modifies store
    ensures r == DeleteVerdict(Lookup(old(store.complaints), id), actor)
    ensures store.users == old(store.users)
    ensures r == Deleted ==> store.complaints == old(store.complaints) - {id}
    ensures r != Deleted ==> store.complaints == old(store.complaints)
  {
    if id !in store.complaints {
      return DeleteNotFound;
    }
    var c := store.complaints[id];
    if c.owner.None? {
      return DeleteFailed;
    }
    var isOwner := c.owner.value == actor.id;
    var isAdmin := IsAdmin(actor);
    if !isOwner && !isAdmin {
      return DeleteForbidden;
    }
    store.RemoveComplaint(id);
    r := Deleted;
  }

  // ---------------------------------------------------------------- trends

  /** One row of the aggregation, and one row of the response. */
  datatype DayCount = DayCount(day: Day, count: nat)

  const Window := 7

  /** `trends.find(t => t._id === day)`: the first row for `day`, if any. */
  function Find(rows: seq<DayCount>, day: Day): (r: Option<DayCount>)
    ensures r.Some? ==> exists i :: 0 <= i < |rows| && rows[i] == r.value && r.value.day == day
                                    && forall j :: 0 <= j < i ==> rows[j].day != day
    ensures r.None? <==> forall i :: 0 <= i < |rows| ==> rows[i].day != day
  {
    if rows == [] then None
    else if rows[0].day == day then Some(rows[0])
    else
      var rest := Find(rows[1..], day);
      assert rest.Some? ==> exists i :: 0 <= i < |rows| && rows[i] == rest.value && rest.value.day == day
                                        && forall j :: 0 <= j < i ==> rows[j].day != day by {
        if rest.Some? {
          var k :| 0 <= k < |rows[1..]| && rows[1..][k] == rest.value && rest.value.day == day
                   && forall j :: 0 <= j < k ==> rows[1..][j].day != day;
          assert rows[k + 1] == rest.value;
          forall j | 0 <= j < k + 1 ensures rows[j].day != day {
            if j > 0 { assert rows[j] == rows[1..][j - 1]; }
          }
        }
      }
      assert rest.None? ==> forall i :: 0 <= i < |rows| ==> rows[i].day != day by {
        if rest.None? {
          forall i | 0 <= i < |rows| ensures rows[i].day != day {
            if i > 0 { assert rows[i] == rows[1..][i - 1]; }
          }
        }
      }
      rest
  }

  /** `found ? found.count : 0`. */
  function CountFor(rows: seq<DayCount>, day: Day): nat
  {
    if Find(rows, day).Some? then Find(rows, day).value.count else 0
  }

  /** The gap-fill loop: seven consecutive days ending today, each with its aggregated count or 0. */
  method ComplaintTrends(rows: seq<DayCount>, today: Day) returns (result: seq<DayCount>)
    ensures |result| == Window
    ensures forall k :: 0 <= k < Window ==>
      result[k] == DayCount(today - (Window - 1) + k, CountFor(rows, today - (Window - 1) + k))
  {
    result := [];
    var i := Window - 1;
    while i >= 0
      invariant -1 <= i <= Window - 1
      invariant |result| == Window - 1 - i
      invariant forall k :: 0 <= k < |result| ==>
        result[k] == DayCount(today - (Window - 1) + k, CountFor(rows, today - (Window - 1) + k))
    {
      var day := today - i;
      var found := Find(rows, day);
      result := result + [DayCount(day, if found.Some? then found.value.count else 0)];
      i := i - 1;
    }
  }

  /** The complaints created on `day`. */
  function CreatedOn(complaints: map<Id, Complaint>, day: Day): set<Id>
  {
    set id | id in complaints && complaints[id].createdAt == day
  }

  /**
   * `rows` is what the `$match`/`$group` pipeline returns for the complaints
   * created since `since`: one row per day that has complaints, carrying
   * how many there are.
   */
  ghost predicate IsDailyAggregate(rows: seq<DayCount>, complaints: map<Id, Complaint>, since: Day)
  {
    && (forall i :: 0 <= i < |rows| ==> rows[i].day >= since && rows[i].count == |CreatedOn(complaints, rows[i].day)|)
    && (forall id :: id in complaints && complaints[id].createdAt >= since ==>
          exists i :: 0 <= i < |rows| && rows[i].day == complaints[id].createdAt)
  }

  /** Over an aggregation of the store, each day of the window reports how many complaints were created that day. */
  lemma TrendCountsMatchStore(rows: seq<DayCount>, complaints: map<Id, Complaint>, today: Day, day: Day)
    requires IsDailyAggregate(rows, complaints, today - (Window - 1))
    requires today - (Window - 1) <= day <= today
    ensures CountFor(rows, day) == |CreatedOn(complaints, day)|
  {
    var found := Find(rows, day);
    if found.None? {
      assert CreatedOn(complaints, day) == {};
    } else {
      var i :| 0 <= i < |rows| && rows[i] == found.value && found.value.day == day;
    }
  }

  /** An empty store gives seven zero rows. */
  lemma EmptyStoreTrends(rows: seq<DayCount>, today: Day, day: Day)
    requires IsDailyAggregate(rows, map[], today - (Window - 1))
    requires today - (Window - 1) <= day <= today
    ensures CountFor(rows, day) == 0
  {
    TrendCountsMatchStore(rows, map[], today, day);
    assert CreatedOn(map[], day) == {};
  }
}
