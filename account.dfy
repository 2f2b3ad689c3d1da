/** The account settings page (src/app/account/page.tsx): the ordered tier
    list and the highest-tier test that hides "Upgrade Plan", the notification
    switches with their toast text, the profile edit dialog, and the avatar
    initials. */
module Account {
  import opened Basics

  // ---------------------------------------------------------------------------
  // Subscription tiers
  // ---------------------------------------------------------------------------

  /** The tiers, lowest first. */
  const SubscriptionTiers: seq<string> := ["Trial", "Starter", "Professional", "Ultimate"]

  /** `s.indexOf(x)`: the first position of x, or -1 when x is absent. */
  function IndexOf(s: seq<string>, x: string): (r: int)
    ensures -1 <= r < |s|
    ensures r == -1 <==> x !in s
    ensures r >= 0 ==> s[r] == x && forall j :: 0 <= j < r ==> s[j] != x
  {
    if s == [] then -1
    else if s[0] == x then 0
    else
      var k := IndexOf(s[1..], x);
      assert s == [s[0]] + s[1..];
      if k == -1 then -1 else k + 1
  }

  /** `isHighestTier`: the plan sits at the last index of the tier list. */
  predicate IsHighestTier(plan: string) {
    IndexOf(SubscriptionTiers, plan) == |SubscriptionTiers| - 1
  }

  /** "Upgrade Plan" is offered unless the plan is the highest tier. */
  predicate UpgradeShown(plan: string) {
    !IsHighestTier(plan)
  }

  /** Only "Ultimate" is the highest tier; any other name, including one not
      in the list, still offers the upgrade. */
  lemma HighestTierIff(plan: string)
    ensures IsHighestTier(plan) <==> plan == "Ultimate"
    ensures plan !in SubscriptionTiers ==> UpgradeShown(plan)
  {
    var k := IndexOf(SubscriptionTiers, plan);
    if plan == "Ultimate" {
      assert forall j :: 0 <= j < 3 ==> SubscriptionTiers[j] != plan;
    }
  }

  // ---------------------------------------------------------------------------
  // Account record and notification preferences
  // ---------------------------------------------------------------------------

  datatype Subscription = Subscription(plan: string, expiryDate: string)

  datatype Preferences = Preferences(email: bool, push: bool)

  datatype PreferenceKind = Email | Push

  datatype AccountUser = AccountUser(
    name: string,
    email: string,
    avatarUrl: string,
    subscription: Subscription,
    notificationPreferences: Preferences)

  /** `{ ...prefs, [type]: checked }`: exactly the chosen switch takes the
      new value, the other keeps its own. */
  function SetPreference(p: Preferences, kind: PreferenceKind, checked: bool): (r: Preferences)
    ensures kind == Email ==> r.email == checked && r.push == p.push
    ensures kind == Push ==> r.push == checked && r.email == p.email
  {
    match kind
    case Email => p.(email := checked)
    case Push => p.(push := checked)
  }

  /** Switching a preference back to its previous value restores it. */
  lemma SetPreferenceUndo(p: Preferences, kind: PreferenceKind, checked: bool)
    ensures SetPreference(SetPreference(p, kind, checked), kind,
              if kind == Email then p.email else p.push) == p
  {
  }

  function KindName(kind: PreferenceKind): string {
    match kind
    case Email => "email"
    case Push => "push"
  }

  /** `s.charAt(0).toUpperCase() + s.slice(1)`: only the first character changes. */
  function Capitalise(s: string): (r: string)
    ensures |r| == |s|
    ensures s != [] ==> r[0] == UpperChar(s[0]) && r[1..] == s[1..]
  {
    if s == [] then [] else [UpperChar(s[0])] + s[1..]
  }

  /** The description of the "Preferences Updated" toast. */
  function PreferenceToast(kind: PreferenceKind, checked: bool): string {
    Capitalise(KindName(kind)) + " notifications " + (if checked then "enabled" else "disabled") + "."
  }

  /** The two capitalised switch names. */
  lemma CapitalisedKindNames()
    ensures Capitalise(KindName(Email)) == "Email"
    ensures Capitalise(KindName(Push)) == "Push"
  {
    assert UpperChar('e') == 'E' && UpperChar('p') == 'P';
    assert Capitalise("email") == [UpperChar('e')] + "mail";
    assert Capitalise("push") == [UpperChar('p')] + "ush";
  }

  lemma EmailOnToast()
    ensures PreferenceToast(Email, true) == "Email notifications enabled."
  {
    CapitalisedKindNames();
  }

  lemma EmailOffToast()
    ensures PreferenceToast(Email, false) == "Email notifications disabled."
  {
    CapitalisedKindNames();
  }

  lemma PushOnToast()
    ensures PreferenceToast(Push, true) == "Push notifications enabled."
  {
    CapitalisedKindNames();
  }

  lemma PushOffToast()
    ensures PreferenceToast(Push, false) == "Push notifications disabled."
  {
    CapitalisedKindNames();
  }

  /** The four toast texts, one per switch and new value. */
  lemma PreferenceToastTexts()
    ensures PreferenceToast(Email, true) == "Email notifications enabled."
    ensures PreferenceToast(Email, false) == "Email notifications disabled."
    ensures PreferenceToast(Push, true) == "Push notifications enabled."
    ensures PreferenceToast(Push, false) == "Push notifications disabled."
  {
    EmailOnToast();
    EmailOffToast();
    PushOnToast();
    PushOffToast();
  }

  // ---------------------------------------------------------------------------
  // Avatar initials
  // ---------------------------------------------------------------------------

  /** `s.split(' ')`: the pieces between single spaces; consecutive, leading
      or trailing spaces give empty pieces. */
  function Split(s: string): (r: seq<string>)
    ensures |r| >= 1
    ensures forall i, j :: 0 <= i < |r| && 0 <= j < |r[i]| ==> r[i][j] != ' '
  {
    if s == [] then [[]]
    else
      var rest := Split(s[1..]);
      if s[0] == ' ' then [[]] + rest
      else [[s[0]] + rest[0]] + rest[1..]
  }

  /** `parts.join(' ')`. */
  function Join(parts: seq<string>): string
    requires |parts| >= 1
  {
    if |parts| == 1 then parts[0] else parts[0] + " " + Join(parts[1..])
  }

  /** Joining the pieces with single spaces gives the string back. */
  lemma {:induction false} SplitJoin(s: string)
    ensures Join(Split(s)) == s
  {
    if s != [] {
      SplitJoin(s[1..]);
      var rest := Split(s[1..]);
      if s[0] == ' ' {
        assert ([[]] + rest)[1..] == rest;
        assert s == [' '] + s[1..];
      } else if |rest| == 1 {
        assert s == [s[0]] + s[1..];
      } else {
        assert Join(rest) == rest[0] + " " + Join(rest[1..]);
        assert ([[s[0]] + rest[0]] + rest[1..])[1..] == rest[1..];
        assert s == [s[0]] + s[1..];
      }
    }
  }

  /** `map(n => n[0]).join('')`: the first character of every piece; an empty
      piece gives undefined, which joins as nothing. */
  function FirstChars(parts: seq<string>): string {
    if parts == [] then []
    else (if parts[0] != [] then [parts[0][0]] else []) + FirstChars(parts[1..])
  }

  /** The avatar fallback text. */
  function Initials(name: string): string {
    FirstChars(Split(name))
  }

  /** Reference definition: the characters that start a word, i.e. a
      non-space at the front or right after a space. */
  function WordStarts(s: string, atStart: bool): string {
    if s == [] then []
    else (if s[0] != ' ' && atStart then [s[0]] else []) + WordStarts(s[1..], s[0] == ' ')
  }

  lemma {:induction false} FirstCharsSplit(s: string)
    ensures FirstChars(Split(s)) == WordStarts(s, true)
    ensures FirstChars(Split(s)[1..]) == WordStarts(s, false)
  {
    if s != [] {
      FirstCharsSplit(s[1..]);
      var rest := Split(s[1..]);
      if s[0] == ' ' {
        assert ([[]] + rest)[1..] == rest;
      } else {
        var parts := [[s[0]] + rest[0]] + rest[1..];
        assert parts[1..] == rest[1..];
      }
    }
  }

  /** The initials are exactly the word-starting characters of the name. */
  lemma InitialsAreWordStarts(name: string)
    ensures Initials(name) == WordStarts(name, true)
  {
    FirstCharsSplit(name);
  }

  /** The browser's constraint validation of the profile form: the `required`
      name box must not be empty, and the `required` box of type "email"
      must be non-empty and a well-formed address (the parameter `isEmail`). */
  predicate ProfileFormAccepts(name: string, email: string, isEmail: string -> bool) {
    name != "" && email != "" && isEmail(email)
  }

  // ---------------------------------------------------------------------------
  // Page state
  // ---------------------------------------------------------------------------

  class AccountPage {
    var user: AccountUser
    var isEditModalOpen: bool
    var editedName: string
    var editedEmail: string

    /** The page with its initial user; the edit buffers start from it. */
    constructor (initial: AccountUser)
      ensures user == initial && !isEditModalOpen
      ensures editedName == initial.name && editedEmail == initial.email
    {
      user := initial;
      isEditModalOpen := false;
      editedName := initial.name;
      editedEmail := initial.email;
    }

    /** `handleNotificationChange`: one switch changes, nothing else; the
        toast text is returned. */
    method HandleNotificationChange(kind: PreferenceKind, checked: bool) returns (toast: string)
      modifies this
      ensures user == old(user).(notificationPreferences := SetPreference(old(user).notificationPreferences, kind, checked))
      ensures toast == PreferenceToast(kind, checked)
      ensures isEditModalOpen == old(isEditModalOpen)
      ensures editedName == old(editedName) && editedEmail == old(editedEmail)
    {
      user := user.(notificationPreferences := SetPreference(user.notificationPreferences, kind, checked));
      toast := PreferenceToast(kind, checked);
    }

    method SetEditedName(value: string)
      modifies this
      ensures editedName == value
      ensures user == old(user) && editedEmail == old(editedEmail) && isEditModalOpen == old(isEditModalOpen)
    {
      editedName := value;
    }

    method SetEditedEmail(value: string)
      modifies this
      ensures editedEmail == value
      ensures user == old(user) && editedName == old(editedName) && isEditModalOpen == old(isEditModalOpen)
    {
      editedEmail := value;
    }

    /** The dialog's `onOpenChange`. */
    method SetEditModalOpen(open: bool)
      modifies this
      ensures isEditModalOpen == open
      ensures user == old(user) && editedName == old(editedName) && editedEmail == old(editedEmail)
    {
      isEditModalOpen := open;
    }

    /** `handleProfileUpdate`: name and email take the edited values, the
        subscription and preferences stay, the dialog closes. The form's
        submit event reaches it only once the browser's own checks pass. */
    method HandleProfileUpdate(isEmail: string -> bool)
      requires ProfileFormAccepts(editedName, editedEmail, isEmail)
      modifies this
      ensures ProfileFormAccepts(user.name, user.email, isEmail)
      ensures user.name == old(editedName) && user.email == old(editedEmail)
      ensures user.avatarUrl == old(user).avatarUrl && user.subscription == old(user).subscription
      ensures user.notificationPreferences == old(user).notificationPreferences
      ensures !isEditModalOpen
      ensures editedName == old(editedName) && editedEmail == old(editedEmail)
    {
      user := user.(name := editedName, email := editedEmail);
      isEditModalOpen := false;
    }

    /** Pressing "Save changes": the browser blocks the submit while a
        box fails its check, leaving everything as it was and the dialog
        open; otherwise the submit handler runs. */
    method SubmitProfileForm(isEmail: string -> bool) returns (submitted: bool)
      modifies this
      ensures submitted <==> ProfileFormAccepts(old(editedName), old(editedEmail), isEmail)
      ensures !submitted ==> user == old(user) && isEditModalOpen == old(isEditModalOpen)
      ensures submitted ==> user == old(user).(name := old(editedName), email := old(editedEmail)) && !isEditModalOpen
      ensures ProfileFormAccepts(old(user).name, old(user).email, isEmail) ==> ProfileFormAccepts(user.name, user.email, isEmail)
      ensures editedName == old(editedName) && editedEmail == old(editedEmail)
    {
      submitted := ProfileFormAccepts(editedName, editedEmail, isEmail);
      if submitted {
        HandleProfileUpdate(isEmail);
      }
    }

    /** `handleOpenEditModal`: the buffers are reset from the stored user, so
        edits left from an earlier, cancelled dialog are discarded. */
    method HandleOpenEditModal()
      modifies this
      ensures editedName == user.name && editedEmail == user.email && isEditModalOpen
      ensures user == old(user)
    {
      editedName := user.name;
      editedEmail := user.email;
      isEditModalOpen := true;
    }
  }
}
