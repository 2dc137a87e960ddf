/** The profile page: it looks up the signed-in member by the stored email,
    fills in missing defaults, and keeps an editable copy of the record that
    can be cancelled or saved. */
module Profile {
  import opened Shared

  /** A member record as the member store returns it. Role, status and the
      timestamps may be absent; the remaining properties (KYC submissions,
      loans, occupation, ...) are carried in `details` and never inspected. */
  datatype Member = Member(id: string, name: string, email: string, phone: string, password: string,
                           role: Option<string>, status: Option<string>,
                           createdAt: Option<string>, updatedAt: Option<string>,
                           details: map<string, string>)

  const DefaultRole := "Member"
  const DefaultStatus := "active"
  const SaveAlert := "Terjadi kesalahan saat menyimpan profil. Silakan coba lagi."

  /** JavaScript truthiness of an optional string property. */
  predicate Present(o: Option<string>)
  {
    o.Some? && o.value != ""
  }

  /** `x || fallback` for an optional string property. */
  function Or(o: Option<string>, fallback: string): string
  {
    if Present(o) then o.value else fallback
  }

  /** `members.find(m => m.email === email)`: the first member with that email. */
  function FindByEmail(members: seq<Member>, email: string): (r: Option<Member>)
    ensures r.None? <==> forall i :: 0 <= i < |members| ==> members[i].email != email
    ensures r.Some? ==> exists i :: 0 <= i < |members| && members[i] == r.value && members[i].email == email
                                    && forall j :: 0 <= j < i ==> members[j].email != email
    decreases |members|
  {
    if members == [] then None
    else if members[0].email == email then Some(members[0])
    else
      var r := FindByEmail(members[1..], email);
      assert forall i :: 1 <= i < |members| ==> members[1..][i - 1] == members[i];
      r
  }

  /** The record the page keeps: role, status and creation time get their
      defaults when falsy, the update time is `now`, and every other
      property is copied unchanged. */
  function WithDefaults(found: Member, now: string): (m: Member)
    ensures Present(found.role) ==> m.role == found.role
    ensures !Present(found.role) ==> m.role == Some(DefaultRole)
    ensures Present(found.status) ==> m.status == found.status
    ensures !Present(found.status) ==> m.status == Some(DefaultStatus)
    ensures Present(found.createdAt) ==> m.createdAt == found.createdAt
    ensures !Present(found.createdAt) ==> m.createdAt == Some(now)
    ensures m.updatedAt == Some(now)
    ensures m == found.(role := m.role, status := m.status, createdAt := m.createdAt, updatedAt := m.updatedAt)
  {
    found.(role := Some(Or(found.role, DefaultRole)),
           status := Some(Or(found.status, DefaultStatus)),
           createdAt := Some(Or(found.createdAt, now)),
           updatedAt := Some(now))
  }

  /** Filling defaults twice only moves the update time: the role, status and
      creation time chosen the first time are kept. */
  lemma DefaultsStable(found: Member, first: string, second: string)
    requires first != ""
    ensures WithDefaults(WithDefaults(found, first), second) == WithDefaults(found, first).(updatedAt := Some(second))
  {
  }

  /** The requests the page sends: the read of the whole collection and the
      full replacement of one member. */
  datatype ProfileRequest = GetMembers | PutMember(id: string, body: Member)

  class ProfilePage {
    /** The email kept in local storage by the sign-in page. */
    const userEmail: string
    var user: Option<Member>
    var editableUser: Option<Member>
    var isSaving: bool
    var saveSuccess: bool
    /** The requests sent so far, in order. */
    var requests: seq<ProfileRequest>
    /** The alert dialogs shown so far, in order. */
    var alerts: seq<string>

    /** Both copies are loaded or neither is, and the editable copy differs
        from the loaded one in its name at most. */
    ghost predicate Valid()
      reads this
    {
      && (user.Some? <==> editableUser.Some?)
      && (user.Some? ==> editableUser.value == user.value.(name := editableUser.value.name))
    }

    constructor (userEmail: string)
      ensures Valid() && this.userEmail == userEmail
      ensures user == None && editableUser == None && !isSaving && !saveSuccess
      ensures requests == [] && alerts == []
    {
      this.userEmail := userEmail;
      user, editableUser := None, None;
      isSaving, saveSuccess := false, false;
      requests, alerts := [], [];
    }

    /** The effect run on mount: with a stored email, fetch every member and
        keep the one with that email. `response` is the fetch's outcome and
        `now` the current ISO time. */
    method Load(response: Response<seq<Member>>, now: string)
      requires Valid()
      modifies this`user, this`editableUser, this`requests
      ensures Valid()
      ensures requests == if userEmail == "" then old(requests) else old(requests) + [GetMembers]
      ensures var found := if userEmail != "" && response.Ok? then FindByEmail(response.body, userEmail) else None;
              && (found.Some? ==> user == Some(WithDefaults(found.value, now)) && editableUser == user)
              && (found.None? ==> user == old(user) && editableUser == old(editableUser))
    {
      if userEmail != "" {
        requests := requests + [GetMembers];
        match response {
          case Ok(members) =>
            var found := FindByEmail(members, userEmail);
            if found.Some? {
              var userData := WithDefaults(found.value, now);
              user := Some(userData);
              editableUser := Some(userData);
            }
          case _ =>
        }
      }
    }

    /** Typing in the name input, which is shown only once a member is loaded. */
    method EditName(name: string)
      requires Valid() && editableUser.Some?
      modifies this`editableUser
      ensures Valid()
      ensures editableUser == Some(old(editableUser).value.(name := name))
    {
      editableUser := Some(editableUser.value.(name := name));
    }

    /** "Cancel", shown only once a member is loaded: drop the edits. */
    method Cancel()
      requires Valid() && user.Some?
      modifies this`editableUser
      ensures Valid() && editableUser == user
    {
      editableUser := user;
    }

    /** The save handler: replace the member with the editable copy stamped
        with `now`; `response` is the outcome of that request. */
    method Save(response: Response<Member>, now: string)
      requires Valid()
      modifies this`user, this`editableUser, this`isSaving, this`saveSuccess, this`requests, this`alerts
      ensures Valid()
      ensures old(editableUser).None? ==>
                user == old(user) && editableUser == old(editableUser) && isSaving == old(isSaving)
                && saveSuccess == old(saveSuccess) && requests == old(requests) && alerts == old(alerts)
      ensures old(editableUser).Some? ==>
                !isSaving
                && requests == old(requests) + [PutMember(old(editableUser).value.id, old(editableUser).value.(updatedAt := Some(now)))]
      ensures old(editableUser).Some? && response.Ok? ==>
                user == Some(response.body) && editableUser == Some(response.body)
                && saveSuccess && alerts == old(alerts)
      ensures old(editableUser).Some? && !response.Ok? ==>
                user == old(user) && editableUser == old(editableUser)
                && !saveSuccess && alerts == old(alerts) + [SaveAlert]
    {
      if editableUser.None? {
        return;
      }
      isSaving := true;
      saveSuccess := false;
      var edited := editableUser.value;
      requests := requests + [PutMember(edited.id, edited.(updatedAt := Some(now)))];
      match response {
        case Ok(updatedUser) =>
          user := Some(updatedUser);
          editableUser := Some(updatedUser);
          saveSuccess := true;
        case _ =>
          alerts := alerts + [SaveAlert];
      }
      isSaving := false;
    }
  }
}
