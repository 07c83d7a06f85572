/** The profile page (src/pages/Profile.tsx): the user being viewed and
    edited, the picked picture, the editing and saving flags, and the
    browser's `user` storage slot they are loaded from and saved to; and
    the dashboard each role goes back to. */
module Profile {
  import opened Wrappers
  import opened Types
  import Directory
  import Home
  import Auth

  /** `handleBackToDashboard` on the role string of the user (a user read
      back from storage may carry any string): each of the six roles goes to
      `'/' + role`, any other string to `/home`, and no user to `''`. */
  function BackToDashboardPath(role: Option<string>): (path: string)
    ensures role.None? <==> path == ""
    ensures role.Some? && ParseRole(role.value).Some? ==> path == "/" + role.value
    ensures role.Some? && ParseRole(role.value).None? <==> path == "/home"
  {
    if role.None? then ""
    else
      match ParseRole(role.value)
      case Some(Farmer) => "/farmer"
      case Some(Transporter) => "/transporter"
      case Some(Warehouse) => "/warehouse"
      case Some(Retailer) => "/retailer"
      case Some(Consumer) => "/consumer"
      case Some(Admin) => "/admin"
      case None => "/home"
  }

  /** The three pages that map roles to paths disagree on the retailer: the
      dashboard sends it to `/profile`, the sign-in page to `/consumer`, and
      the profile page to `/retailer`. They agree on the producer-side
      roles and on the consumer. */
  lemma RetailerPathsDisagree()
    ensures Home.RolePath(Retailer) == "/profile"
    ensures Auth.RolePath("retailer") == "/consumer"
    ensures BackToDashboardPath(Some("retailer")) == "/retailer"
    ensures forall r :: r in {Farmer, Transporter, Warehouse, Consumer} ==>
      Home.RolePath(r) == Auth.RolePath(RoleName(r)) == BackToDashboardPath(Some(RoleName(r))) == "/" + RoleName(r)
  {
    forall r | r in {Farmer, Transporter, Warehouse, Consumer}
      ensures Home.RolePath(r) == Auth.RolePath(RoleName(r)) == BackToDashboardPath(Some(RoleName(r))) == "/" + RoleName(r)
    {
      RoleNameRoundTrip(r);
    }
  }

  /** The user fields the edit form has inputs for. */
  datatype Field = Name | Email | Company | Location

  /** The value of an editable field ('' for a missing optional one). */
  function FieldValue(u: User, f: Field): string
  {
    match f
    case Name => u.name
    case Email => u.email
    case Company => u.company.GetOr("")
    case Location => u.location.GetOr("")
  }

  /** `{...prev, [name]: value}`: only the named field changes. */
  function WithField(u: User, f: Field, value: string): (r: User)
    ensures FieldValue(r, f) == value
    ensures forall g :: g != f ==> FieldValue(r, g) == FieldValue(u, g)
    ensures r.id == u.id && r.role == u.role && r.password == u.password && r.avatar == u.avatar
    ensures f.Company? ==> r.company == Some(value)
    ensures f.Location? ==> r.location == Some(value)
  {
    match f
    case Name => u.(name := value)
    case Email => u.(email := value)
    case Company => u.(company := Some(value))
    case Location => u.(location := Some(value))
  }

  class ProfilePage {
    var user: Option<User>
    var image: Option<string>
    var isEditing: bool
    var isSaving: bool
    /** The `user` storage slot. */
    var storedUser: Option<User>
    /** The user captured by the armed save timer's closure, if a save is
        pending. */
    var pending: Option<User>

    constructor (stored: Option<User>)
      ensures user == None && image == None && !isEditing && !isSaving && storedUser == stored
      ensures pending == None
    {
      user := None;
      image := None;
      isEditing := false;
      isSaving := false;
      storedUser := stored;
      pending := None;
    }

    /** The mount effect: a stored user is preferred; only when none is
        stored is the current user of the directory used. */
    method Mount()
      modifies this
      ensures user == if old(storedUser).Some? then old(storedUser) else Some(Directory.GetCurrentUser())
      ensures image == old(image) && isEditing == old(isEditing) && isSaving == old(isSaving)
      ensures storedUser == old(storedUser)
      ensures pending == old(pending)
    {
      if storedUser.Some? {
        user := storedUser;
      } else {
        user := Some(Directory.GetCurrentUser());
      }
    }

    method StartEditing()
      modifies this
      ensures isEditing
      ensures user == old(user) && image == old(image) && isSaving == old(isSaving) && storedUser == old(storedUser)
      ensures pending == old(pending)
    {
      isEditing := true;
    }

    method CancelEditing()
      modifies this
      ensures !isEditing
      ensures user == old(user) && image == old(image) && isSaving == old(isSaving) && storedUser == old(storedUser)
      ensures pending == old(pending)
    {
      isEditing := false;
    }

    /** `handleInputChange` (the inputs exist only once a user is shown). */
    method InputChange(f: Field, value: string)
      requires user.Some?
      modifies this
      ensures user == Some(WithField(old(user).value, f, value))
      ensures image == old(image) && isEditing == old(isEditing) && isSaving == old(isSaving)
      ensures storedUser == old(storedUser)
      ensures pending == old(pending)
    {
      user := Some(WithField(user.value, f, value));
    }

    /** `handleImageUpload` once the picture has been read (`data`, None
        when no file was chosen): the picture and the user's avatar become
        the same data string and nothing else changes. */
    method ImageUpload(data: Option<string>)
      requires user.Some?
      modifies this
      ensures data.None? ==> user == old(user) && image == old(image)
      ensures data.Some? ==> image == data && user == Some(old(user).value.(avatar := data))
      ensures isEditing == old(isEditing) && isSaving == old(isSaving) && storedUser == old(storedUser)
      ensures pending == old(pending)
    {
      if data.Some? {
        image := data;
        user := Some(user.value.(avatar := data));
      }
    }

    /** `handleSave`, first half: the saving flag is raised and the timer is
        armed with the user shown now (its closure's copy). The button is
        rendered only once a user is shown. */
    method Save()
      requires user.Some?
      modifies this
      ensures isSaving && pending == old(user)
      ensures user == old(user) && image == old(image) && isEditing == old(isEditing)
      ensures storedUser == old(storedUser)
    {
      isSaving := true;
      pending := user;
    }

    /** `handleSave`, when its timer fires: the user captured when Save was
        clicked is written to the storage slot, even if the shown user was
        edited since, and both flags are cleared. */
    method SaveTimerFired()
      requires pending.Some?
      modifies this
      ensures storedUser == old(pending) && pending == None
      ensures user == old(user) && image == old(image)
      ensures !isEditing && !isSaving
    {
      storedUser := pending;
      pending := None;
      isEditing := false;
      isSaving := false;
    }

    /** `handleBackToDashboard`. */
    method BackToDashboard() returns (path: string)
      ensures path == BackToDashboardPath(if user.Some? then Some(RoleName(user.value.role)) else None)
      ensures user.Some? ==> path == "/" + RoleName(user.value.role)
      ensures user.None? ==> path == ""
    {
      if user.Some? {
        RoleNameRoundTrip(user.value.role);
        path := BackToDashboardPath(Some(RoleName(user.value.role)));
      } else {
        path := "";
      }
    }

    /** `handleLogout`: the storage slot is cleared and the page goes to
        `/auth`. */
    method Logout() returns (path: string)
      modifies this
      ensures storedUser == None && path == "/auth"
      ensures user == old(user) && image == old(image) && isEditing == old(isEditing) && isSaving == old(isSaving)
      ensures pending == old(pending)
    {
      storedUser := None;
      path := "/auth";
    }
  }

  /** A saved profile is what the next visit shows. */
  method SaveThenRevisit(u: User, f: Field, value: string) returns (shown: User)
    ensures shown == WithField(u, f, value)
  {
    var page := new ProfilePage(Some(u));
    page.Mount();
    page.InputChange(f, value);
    page.Save();
    page.SaveTimerFired();
    var next := new ProfilePage(page.storedUser);
    next.Mount();
    shown := next.user.value;
  }

  /** An edit typed while a save is pending is shown but not stored: the
      timer writes the user as it was when Save was clicked. */
  method EditWhileSaving(u: User, first: string, second: string) returns (stored: User, shown: User)
    ensures stored == WithField(u, Name, first)
    ensures shown == WithField(WithField(u, Name, first), Name, second)
    ensures FieldValue(stored, Name) == first && FieldValue(shown, Name) == second
  {
    var page := new ProfilePage(Some(u));
    page.Mount();
    page.StartEditing();
    page.InputChange(Name, first);
    page.Save();
    page.InputChange(Name, second);
    page.SaveTimerFired();
    stored := page.storedUser.value;
    shown := page.user.value;
  }
}
