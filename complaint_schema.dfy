/**
 * The Complaint document: its fields, the two enumerations, the defaults
 * the schema fills in and the validators that run when a complaint is
 * created.
 */
module ComplaintSchema {
  import opened Js

  /** An ObjectId, compared through its string form. */
  type Id = string

  /** A point in time, at the resolution of whole days. */
  type Day = int

  const StatusValues: set<string> := {"Pending", "In Progress", "Resolved", "Rejected"}
  const DefaultStatus := "Pending"

  const CategoryValues: set<string> := {"Water", "Road", "Electricity", "Sanitation", "Other"}
  const DefaultCategory := "Other"

  /** One element of `statusHistory`. */
  datatype HistoryEntry = HistoryEntry(status: string, date: Day, changedBy: Option<string>, comment: string)

  /**
   * A stored complaint. `owner` is the `user` reference; it is optional here
   * because records written before it was required may lack it, and `status`
   * is a plain string because the status update writes it without validation.
   */
  datatype Complaint = Complaint(
    title: string,
    description: string,
    location: Option<string>,
    category: string,
    status: string,
    image: string,
    owner: Option<Id>,
    statusHistory: seq<HistoryEntry>,
    createdAt: Day)

  /** The fields handed to `Complaint.create`; any of them may be undefined. */
  datatype Fields = Fields(
    title: Option<string>,
    description: Option<string>,
    location: Option<string>,
    category: Option<string>,
    status: Option<string>,
    image: Option<string>,
    user: Option<Id>)

  /** The validators of the schema. */
  datatype Violation = TitleRequired | DescriptionRequired | CategoryNotInEnum | StatusNotInEnum | UserRequired

  datatype Result<T> = Ok(value: T) | Invalid(violations: set<Violation>)

  /** Whether validator `v` rejects `f` (the title is checked after the trim setter has run). */
  predicate Fails(f: Fields, v: Violation)
  {
    match v
    case TitleRequired => f.title.None? || Trim(f.title.value) == ""
    case DescriptionRequired => !Truthy(f.description)
    case CategoryNotInEnum => f.category.Some? && f.category.value !in CategoryValues
    case StatusNotInEnum => f.status.Some? && f.status.value !in StatusValues
    case UserRequired => f.user.None?
  }

  /** A record as the schema admits it at creation time. */
  predicate Conforms(c: Complaint)
  {
    && c.title != "" && Trim(c.title) == c.title
    && c.description != ""
    && c.category in CategoryValues
    && c.status in StatusValues
    && c.owner.Some?
  }

  const AllValidators: set<Violation> := {TitleRequired, DescriptionRequired, CategoryNotInEnum, StatusNotInEnum, UserRequired}

  function Violations(f: Fields): set<Violation>
  {
    set v | v in AllValidators && Fails(f, v)
  }

  lemma ViolationsExact(f: Fields)
    ensures forall v :: v in Violations(f) <==> Fails(f, v)
  {
    forall v ensures v in AllValidators {
      match v
      case TitleRequired =>
      case DescriptionRequired =>
      case CategoryNotInEnum =>
      case StatusNotInEnum =>
      case UserRequired =>
    }
  }

  /**
   * `Complaint.create(f)` at time `now`: the defaults are applied, the title
   * is trimmed, and the document is stored only if no validator fails; a
   * rejection names exactly the validators that failed.
   */
  function Create(f: Fields, now: Day): (r: Result<Complaint>)
    ensures r.Ok? <==> forall v: Violation :: !Fails(f, v)
    ensures r.Invalid? ==> r.violations != {} && forall v :: v in r.violations <==> Fails(f, v)
    ensures r.Ok? ==> Conforms(r.value)
    ensures r.Ok? ==>
      && f.title.Some?
      && r.value.title == Trim(f.title.value)
      && Some(r.value.description) == f.description
      && r.value.location == f.location
      && r.value.category == (if f.category.Some? then f.category.value else DefaultCategory)
      && r.value.status == (if f.status.Some? then f.status.value else DefaultStatus)
      && r.value.image == (if f.image.Some? then f.image.value else "")
      && r.value.owner == f.user
      && r.value.statusHistory == []
      && r.value.createdAt == now
  {
    ViolationsExact(f);
    var violations := Violations(f);
    if violations != {} then
      Invalid(violations)
    else
      assert !Fails(f, TitleRequired) && !Fails(f, DescriptionRequired);
      assert !Fails(f, CategoryNotInEnum) && !Fails(f, StatusNotInEnum) && !Fails(f, UserRequired);
      var title := Trim(f.title.value);
      TrimIdempotent(f.title.value);
      Ok(Complaint(
        title,
        f.description.value,
        f.location,
        if f.category.Some? then f.category.value else DefaultCategory,
        if f.status.Some? then f.status.value else DefaultStatus,
        if f.image.Some? then f.image.value else "",
        f.user,
        [],
        now))
  }
}
