/** Staff accounts: registration refuses an e-mail that is already taken,
    and an update keeps every old value the request leaves out or sends falsy. */
module Users {
  import opened Common

  datatype Role = Admin | Architect | HR | Accountant | Intern | Manager

  /** The role as the string the request layer compares. */
  function RoleName(r: Role): (s: string)
    ensures s != ""
  {
    match r
    case Admin => "Admin"
    case Architect => "Architect"
    case HR => "HR"
    case Accountant => "Accountant"
    case Intern => "Intern"
    case Manager => "Manager"
  }

  datatype ContactInfo = ContactInfo(phone: Option<string>, address: Option<string>)

  /** Both parts are optional in the schema; payroll falls back when they are absent. */
  datatype SalaryDetails = SalaryDetails(basicSalary: Option<int>, allowances: Option<int>)

  /** A stored user. `password` stands for the stored (hashed) value. */
  datatype User = User(
    name: string,
    email: string,
    password: string,
    role: Role,
    contactInfo: ContactInfo,
    salaryDetails: SalaryDetails,
    joiningDate: Time,
    isActive: bool)

  /** The authenticated caller of a handler (`req.user`). */
  datatype Actor = Actor(id: Id, role: Role)

  /** A user as sent back to a client: every field but the password. */
  datatype UserView = UserView(
    id: Id,
    name: string,
    email: string,
    role: Role,
    contactInfo: ContactInfo,
    salaryDetails: SalaryDetails,
    joiningDate: Time,
    isActive: bool)

  /** The reply to a registration: id, name, e-mail and role only. */
  datatype Registered = Registered(id: Id, name: string, email: string, role: Role)

  function View(id: Id, u: User): (v: UserView)
    ensures v.id == id && v.name == u.name && v.email == u.email && v.role == u.role
    ensures v.isActive == u.isActive && v.salaryDetails == u.salaryDetails
  {
    UserView(id, u.name, u.email, u.role, u.contactInfo, u.salaryDetails, u.joiningDate, u.isActive)
  }

  datatype Registration = Registration(
    name: string,
    email: string,
    password: string,
    role: Option<Role>,
    contactInfo: Option<ContactInfo>,
    salaryDetails: Option<SalaryDetails>,
    joiningDate: Option<Time>)

  datatype UserPatch = UserPatch(
    name: Option<string>,
    email: Option<string>,
    role: Option<Role>,
    contactInfo: Option<ContactInfo>,
    salaryDetails: Option<SalaryDetails>,
    isActive: Option<bool>,
    password: Option<string>)

  predicate EmailTaken(users: map<Id, User>, email: string) {
    exists id :: id in users && users[id].email == email
  }

  /** No two accounts share an e-mail (the unique index on `email`). */
  predicate UniqueEmails(users: map<Id, User>) {
    forall a, b :: a in users && b in users && a != b ==> users[a].email != users[b].email
  }

  /** The schema's required strings; Mongoose rejects an empty one. */
  predicate HasRequiredFields(u: User) {
    u.name != "" && u.email != "" && u.password != ""
  }

  /** The field merge of updateUser: `||` fallbacks for the five profile
      fields, `!== undefined` for isActive, a truthy check for the password. */
  function MergeUser(u: User, patch: UserPatch): User {
    u.(name := OrElse(patch.name, u.name),
       email := OrElse(patch.email, u.email),
       role := patch.role.GetOr(u.role),
       contactInfo := patch.contactInfo.GetOr(u.contactInfo),
       salaryDetails := patch.salaryDetails.GetOr(u.salaryDetails),
       isActive := patch.isActive.GetOr(u.isActive),
       password := if Truthy(patch.password) then patch.password.value else u.password)
  }

  /** What the merge keeps and what it replaces, field by field. */
  lemma MergeUserFields(u: User, patch: UserPatch)
    ensures var m := MergeUser(u, patch);
      && (patch.name.None? || patch.name == Some("") ==> m.name == u.name)
      && (patch.name.Some? && patch.name.value != "" ==> m.name == patch.name.value)
      && (patch.email.Some? && patch.email.value != "" ==> m.email == patch.email.value)
      && (patch.email.None? || patch.email == Some("") ==> m.email == u.email)
      && (patch.role.Some? ==> m.role == patch.role.value)
      && (patch.role.None? ==> m.role == u.role)
      && (patch.contactInfo.Some? ==> m.contactInfo == patch.contactInfo.value)
      && (patch.contactInfo.None? ==> m.contactInfo == u.contactInfo)
      && (patch.salaryDetails.Some? ==> m.salaryDetails == patch.salaryDetails.value)
      && (patch.salaryDetails.None? ==> m.salaryDetails == u.salaryDetails)
      && (patch.isActive.Some? ==> m.isActive == patch.isActive.value)
      && (patch.isActive.None? ==> m.isActive == u.isActive)
      && (patch.password.Some? && patch.password.value != "" ==> m.password == patch.password.value)
      && (patch.password.None? || patch.password == Some("") ==> m.password == u.password)
      && m.joiningDate == u.joiningDate
  {
  }

  /** The merge never empties a required field that was filled. */
  lemma MergeKeepsRequiredFields(u: User, patch: UserPatch)
    requires HasRequiredFields(u)
    ensures HasRequiredFields(MergeUser(u, patch))
  {
  }

  class UserDb {
    var users: map<Id, User>

    ghost predicate Valid()
      reads this
    {
      UniqueEmails(users)
    }

    constructor ()
      ensures Valid() && users == map[]
    {
      users := map[];
    }

    /** registerUser: a taken e-mail is a 400 and creates nothing; a missing
        required field fails the schema (500); otherwise the account is stored
        with the schema defaults. */
    method RegisterUser(newId: Id, reg: Registration, now: Time) returns (r: Result<Registered>)
      requires Valid() && newId !in users
      modifies this
      ensures Valid()
      ensures EmailTaken(old(users), reg.email) ==>
        r == Err(Failure(400, "User already exists")) && users == old(users)
      ensures !EmailTaken(old(users), reg.email) && (reg.name == "" || reg.email == "" || reg.password == "") ==>
        r.IsStatus(500) && users == old(users)
      ensures !EmailTaken(old(users), reg.email) && reg.name != "" && reg.email != "" && reg.password != "" ==>
        && r == Ok(Registered(newId, reg.name, reg.email, reg.role.GetOr(Intern)))
        && users == old(users)[newId := User(reg.name, reg.email, reg.password, reg.role.GetOr(Intern),
                                             reg.contactInfo.GetOr(ContactInfo(None, None)),
                                             reg.salaryDetails.GetOr(SalaryDetails(None, None)),
                                             reg.joiningDate.GetOr(now), true)]
    {
      if EmailTaken(users, reg.email) {
        return Err(Failure(400, "User already exists"));
      }
      if reg.name == "" || reg.email == "" || reg.password == "" {
        return Err(Failure(500, "User validation failed"));
      }
      var user := User(reg.name, reg.email, reg.password, reg.role.GetOr(Intern),
                       reg.contactInfo.GetOr(ContactInfo(None, None)),
                       reg.salaryDetails.GetOr(SalaryDetails(None, None)),
                       reg.joiningDate.GetOr(now), true);
      assert forall a :: a in users ==> users[a].email != user.email;
      users := users[newId := user];
      r := Ok(Registered(newId, user.name, user.email, user.role));
    }

    /** updateUser: merge the request into the stored user and save. The save
        first validates the required fields (500), then writes, and an e-mail
        another account holds violates the unique index (500). */
    method UpdateUser(id: Id, patch: UserPatch) returns (r: Result<UserView>)
      requires Valid()
      modifies this
      ensures Valid()
      ensures id !in old(users) ==> r == Err(Failure(404, "User not found")) && users == old(users)
      ensures id in old(users) && !HasRequiredFields(MergeUser(old(users)[id], patch)) ==>
        r.IsStatus(500) && users == old(users)
      ensures id in old(users) && EmailTaken(old(users) - {id}, MergeUser(old(users)[id], patch).email) ==>
        r.IsStatus(500) && users == old(users)
      ensures (id in old(users) && HasRequiredFields(MergeUser(old(users)[id], patch))
               && !EmailTaken(old(users) - {id}, MergeUser(old(users)[id], patch).email)) ==>
        && users == old(users)[id := MergeUser(old(users)[id], patch)]
        && r == Ok(View(id, users[id]))
      ensures (id in old(users) && HasRequiredFields(old(users)[id])
               && !EmailTaken(old(users) - {id}, MergeUser(old(users)[id], patch).email)) ==> r.Ok?
    {
      if id !in users {
        return Err(Failure(404, "User not found"));
      }
      var user := users[id];
      user := user.(name := OrElse(patch.name, user.name));
      user := user.(email := OrElse(patch.email, user.email));
      user := user.(role := patch.role.GetOr(user.role));
      user := user.(contactInfo := patch.contactInfo.GetOr(user.contactInfo));
      user := user.(salaryDetails := patch.salaryDetails.GetOr(user.salaryDetails));
      user := user.(isActive := if patch.isActive.Some? then patch.isActive.value else user.isActive);
      if Truthy(patch.password) {
        user := user.(password := patch.password.value);
      }
      if HasRequiredFields(users[id]) {
        MergeKeepsRequiredFields(users[id], patch);
      }
      if !HasRequiredFields(user) {
        return Err(Failure(500, "User validation failed"));
      }
      if EmailTaken(users - {id}, user.email) {
        return Err(Failure(500, "Duplicate key error on email"));
      }
      forall a | a in users && a != id
        ensures users[a].email != user.email
      {
        assert a in users - {id};
      }
      users := users[id := user];
      r := Ok(View(id, user));
    }
  }
}
