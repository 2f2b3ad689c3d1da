/** The admin user-edit form (src/components/admin/user-edit-form.tsx): the
    `userEditSchema` validator with its messages, and the values the form is
    prefilled with. The email format test is the parameter `isEmail`. */
module UserEditForm {
  import opened Basics
  import opened Users

  /** The raw form values: the status select may still be empty. */
  datatype UserEditInput = UserEditInput(
    id: string,
    name: string,
    email: string,
    subscriptionStatus: Option<string>,
    isAdmin: Option<bool>)

  /** `UserEditFormData`: the values once the schema accepts them. */
  datatype UserEditFormData = UserEditFormData(
    id: string,
    name: string,
    email: string,
    subscriptionStatus: SubscriptionStatus,
    isAdmin: Option<bool>)

  const StatusNames: seq<string> := ["Active", "Inactive", "Trial", "Expired"]

  const NameMessage: string := "Name must be at least 2 characters."
  const EmailMessage: string := "Invalid email address."
  const StatusRequiredMessage: string := "Subscription status is required."

  /** The enum member a status string names, if any. */
  function ParseStatus(s: string): (r: Option<SubscriptionStatus>)
    ensures r.Some? <==> s in StatusNames
  {
    if s == "Active" then Some(Active)
    else if s == "Inactive" then Some(Inactive)
    else if s == "Trial" then Some(Trial)
    else if s == "Expired" then Some(Expired)
    else None
  }

  /** The literal a status is written as; parsing it gives the status back. */
  function StatusName(st: SubscriptionStatus): (r: string)
    ensures r in StatusNames
    ensures ParseStatus(r) == Some(st)
  {
    match st
    case Active => "Active"
    case Inactive => "Inactive"
    case Trial => "Trial"
    case Expired => "Expired"
  }

  /** Parsing and naming are inverse on the four literals. */
  lemma ParseStatusInverse(s: string)
    requires ParseStatus(s).Some?
    ensures StatusName(ParseStatus(s).value) == s
  {
  }

  function StatusIssues(status: Option<string>): seq<Issue> {
    if status.None? then [Issue("subscriptionStatus", StatusRequiredMessage)]
    else if ParseStatus(status.value).None? then
      [Issue("subscriptionStatus", InvalidEnumMessage(StatusNames, status.value))]
    else []
  }

  /** Every issue the schema reports, in the order of its keys. */
  function UserIssues(input: UserEditInput, isEmail: string -> bool): seq<Issue> {
    (if |input.name| < 2 then [Issue("name", NameMessage)] else [])
    + (if !isEmail(input.email) then [Issue("email", EmailMessage)] else [])
    + StatusIssues(input.subscriptionStatus)
  }

  /** `userEditSchema.parse`: accepted exactly when the name has two or more
      characters, the email passes the format test and a known status is
      chosen; each failing field reports its own message. */
  function ValidateUser(input: UserEditInput, isEmail: string -> bool): (r: Result<UserEditFormData, seq<Issue>>)
    ensures r.Ok? <==>
      |input.name| >= 2 && isEmail(input.email)
      && input.subscriptionStatus.Some? && input.subscriptionStatus.value in StatusNames
    ensures r.Ok? ==>
      && r.value.id == input.id && r.value.name == input.name && r.value.email == input.email
      && StatusName(r.value.subscriptionStatus) == input.subscriptionStatus.value
      && r.value.isAdmin == input.isAdmin
    ensures r.Err? ==>
      && r.error != []
      && (Issue("name", NameMessage) in r.error <==> |input.name| < 2)
      && (Issue("email", EmailMessage) in r.error <==> !isEmail(input.email))
      && (Issue("subscriptionStatus", StatusRequiredMessage) in r.error <==> input.subscriptionStatus.None?)
  {
    var issues := UserIssues(input, isEmail);
    if issues == [] then
      var st := ParseStatus(input.subscriptionStatus.value).value;
      ParseStatusInverse(input.subscriptionStatus.value);
      Ok(UserEditFormData(input.id, input.name, input.email, st, input.isAdmin))
    else
      Err(issues)
  }

  /** `defaultValues`: the user's own fields; a missing admin flag shows as off. */
  function Defaults(u: User): UserEditInput {
    UserEditInput(u.id, u.name, u.email, Some(StatusName(u.subscriptionStatus)), Some(u.isAdmin == Some(true)))
  }

  /** Submitting the prefilled form of a user that meets the constraints is
      accepted and yields that user's id, fields and status, with the admin
      flag defaulting to false. */
  lemma DefaultsValidate(u: User, isEmail: string -> bool)
    requires |u.name| >= 2 && isEmail(u.email)
    ensures ValidateUser(Defaults(u), isEmail)
         == Ok(UserEditFormData(u.id, u.name, u.email, u.subscriptionStatus, Some(u.isAdmin.GetOr(false))))
  {
    var input := Defaults(u);
    assert StatusIssues(input.subscriptionStatus) == [];
    assert UserIssues(input, isEmail) == [];
    assert u.isAdmin.GetOr(false) == (u.isAdmin == Some(true));
  }
}
