/**
 * The user administration endpoints. `createUser` validates the request, links a
 * supplier-role user to a new or an existing supplier and stores an active user with
 * a hashed password (the default password when none is given); `updateUser` writes only
 * the columns the request supplies and keeps the role/supplier link consistent;
 * `softDeleteUser` clears `is_active`; `resetUserPassword` stores the hash of the new or
 * the default password; `listUsers` returns at most 200 active users, newest first.
 * The password hash is a parameter standing for bcrypt.
 */
module Users {
  import opened Common
  import opened Text
  import opened Tables

  const SupplierRole := "supplier"
  const FallbackPassword := "123456789"
  const ListCap := 200

  /** `process.env.DEFAULT_USER_PASSWORD || '123456789'`. */
  function DefaultPassword(env: Option<string>): (r: string)
    ensures r != ""
    ensures Blank(env) ==> r == FallbackPassword
    ensures !Blank(env) ==> r == env.value
  {
    if Blank(env) then FallbackPassword else env.value
  }

  /** `given || DEFAULT_PASSWORD`: the password that gets hashed, never empty. */
  function PasswordOr(given: Option<string>, env: Option<string>): (r: string)
    ensures r != ""
    ensures Blank(given) ==> r == DefaultPassword(env)
    ensures !Blank(given) ==> r == given.value
  {
    if Blank(given) then DefaultPassword(env) else given.value
  }

  datatype UserError =
    | NameRequired
    | EmailRequired
    | RoleRequired
    | EmailTaken
    | BadRole
    | SupplierNotFound
    | SupplierRequired
    | SupplierIdRequired
    | NotASupplier

  /** The users and suppliers tables with their AUTO_INCREMENT counters. */
  datatype People = People(users: map<int, User>, nextUserId: int, suppliers: map<int, Supplier>, nextSupplierId: int)

  function PeopleOf(db: Database): People
    reads db`users, db`nextUserId, db`suppliers, db`nextSupplierId
  {
    People(db.users, db.nextUserId, db.suppliers, db.nextSupplierId)
  }

  ghost predicate PeopleIds(p: People)
  {
    IdsBelow(p.users, p.nextUserId) && IdsBelow(p.suppliers, p.nextSupplierId)
  }

  /**
   * The role/supplier link rule: a user has a supplier exactly when its role is
   * `supplier`, and that supplier exists.
   */
  predicate LinkOk(u: User, suppliers: map<int, Supplier>)
  {
    (u.role == SupplierRole <==> u.supplierId.Some?)
    && (u.supplierId.Some? ==> u.supplierId.value in suppliers)
  }

  predicate LinkedWell(users: map<int, User>, suppliers: map<int, Supplier>)
  {
    forall k :: k in users ==> LinkOk(users[k], suppliers)
  }

  /** No two users share an email. */
  predicate EmailsUnique(users: map<int, User>)
  {
    forall j, k :: j in users && k in users && users[j].email == users[k].email ==> j == k
  }

  // ---------------------------------------------------------------- createUser

  /** The `supplier_new` object of a request. */
  datatype NewSupplier = NewSupplier(
    name: Option<string>, phone: Option<string>, email: Option<string>, address: Option<string>, picName: Option<string>)

  /** The body of a create request; every field may be missing. */
  datatype NewUser = NewUser(
    name: Option<string>,
    email: Option<string>,
    phone: Option<string>,
    role: Option<string>,
    supplierId: Option<int>,
    password: Option<string>,
    supplierNew: Option<NewSupplier>)

  /** Some user, active or not, already has this email. */
  predicate EmailInUse(users: map<int, User>, email: string)
  {
    exists k :: k in users && users[k].email == email
  }

  /** `supplier_new && supplier_new.name`. */
  predicate NamesNewSupplier(req: NewUser)
  {
    req.supplierNew.Some? && !Blank(req.supplierNew.value.name)
  }

  /** A truthy `supplier_id`: present and not 0. */
  predicate GivesSupplierId(id: Option<int>)
  {
    id.Some? && id.value != 0
  }

  /** The first check of `createUser` that fails, if any. */
  function CreateUserError(users: map<int, User>, suppliers: map<int, Supplier>, roles: set<string>, req: NewUser)
    : (r: Option<UserError>)
    ensures Blank(req.name) ==> r == Some(NameRequired)
    ensures !Blank(req.name) && Blank(req.email) ==> r == Some(EmailRequired)
    ensures !Blank(req.name) && !Blank(req.email) && Blank(req.role) ==> r == Some(RoleRequired)
    ensures !Blank(req.name) && !Blank(req.email) && !Blank(req.role) && EmailInUse(users, req.email.value)
      ==> r == Some(EmailTaken)
    ensures (!Blank(req.name) && !Blank(req.email) && !Blank(req.role) && !EmailInUse(users, req.email.value)
      && req.role.value !in roles) ==> r == Some(BadRole)
    ensures r.None? <==>
      && !Blank(req.name) && !Blank(req.email) && !Blank(req.role)
      && !EmailInUse(users, req.email.value) && req.role.value in roles
      && (req.role.value == SupplierRole ==>
        NamesNewSupplier(req) || (GivesSupplierId(req.supplierId) && req.supplierId.value in suppliers))
    ensures r == Some(SupplierRequired) <==>
      && !Blank(req.name) && !Blank(req.email) && req.role == Some(SupplierRole) && SupplierRole in roles
      && !EmailInUse(users, req.email.value) && !NamesNewSupplier(req) && !GivesSupplierId(req.supplierId)
  {
    if Blank(req.name) then Some(NameRequired)
    else if Blank(req.email) then Some(EmailRequired)
    else if Blank(req.role) then Some(RoleRequired)
    else if EmailInUse(users, req.email.value) then Some(EmailTaken)
    else if req.role.value !in roles then Some(BadRole)
    else if req.role.value != SupplierRole || NamesNewSupplier(req) then None
    else if !GivesSupplierId(req.supplierId) then Some(SupplierRequired)
    else if req.supplierId.value !in suppliers then Some(SupplierNotFound)
    else None
  }

  /** The supplier row `supplier_new` inserts; empty optional fields are stored as NULL. */
  function SupplierRow(s: NewSupplier): (r: Supplier)
    requires !Blank(s.name)
    ensures r.name == s.name.value && r.phone == OrNull(s.phone) && r.email == OrNull(s.email)
    ensures r.address == OrNull(s.address) && r.picName == OrNull(s.picName)
  {
    Supplier(s.name.value, OrNull(s.phone), OrNull(s.email), OrNull(s.address), OrNull(s.picName))
  }

  /** `createUser`: the tables afterwards, the new user's id and its `supplier_id`. */
  function CreateUserSpec(p: People, roles: set<string>, req: NewUser, env: Option<string>, hash: string -> string)
    : (r: Result<(People, int, Option<int>), UserError>)
    ensures r.Err? <==> CreateUserError(p.users, p.suppliers, roles, req).Some?
    ensures r.Err? ==> r.error == CreateUserError(p.users, p.suppliers, roles, req).value
  {
    match CreateUserError(p.users, p.suppliers, roles, req)
    case Some(e) => Err(e)
    case None =>
      var role := req.role.value;
      var createsSupplier := role == SupplierRole && NamesNewSupplier(req);
      var suppliers := if createsSupplier then p.suppliers[p.nextSupplierId := SupplierRow(req.supplierNew.value)] else p.suppliers;
      var nextSupplierId := if createsSupplier then p.nextSupplierId + 1 else p.nextSupplierId;
      var supplierId := if role != SupplierRole then None else if createsSupplier then Some(p.nextSupplierId) else req.supplierId;
      var u := User(req.name.value, req.email.value, OrNull(req.phone), role, supplierId, hash(PasswordOr(req.password, env)), true);
      Ok((People(p.users[p.nextUserId := u], p.nextUserId + 1, suppliers, nextSupplierId), p.nextUserId, supplierId))
  }

  /**
   * A created user is new, active, carries the request's name and email and the hash
   * of the given or default password; a supplier-role user is linked to an existing or
   * a freshly inserted supplier, any other user to none; nothing else changes.
   */
  lemma CreateUserRecords(p: People, roles: set<string>, req: NewUser, env: Option<string>, hash: string -> string)
    requires PeopleIds(p)
    requires CreateUserSpec(p, roles, req, env, hash).Ok?
    ensures var (q, id, sid) := CreateUserSpec(p, roles, req, env, hash).value;
      && PeopleIds(q)
      && id == p.nextUserId && id !in p.users && id in q.users
      && q.users == p.users[id := q.users[id]]
      && q.users[id].isActive && q.users[id].name == req.name.value && q.users[id].email == req.email.value
      && q.users[id].role == req.role.value && q.users[id].supplierId == sid
      && q.users[id].passwordHash == hash(PasswordOr(req.password, env))
      && (req.role.value != SupplierRole ==> sid.None? && q.suppliers == p.suppliers)
      && (req.role.value == SupplierRole ==> sid.Some? && sid.value in q.suppliers)
      && (req.role.value == SupplierRole && NamesNewSupplier(req) ==>
        sid == Some(p.nextSupplierId) && sid.value !in p.suppliers
        && q.suppliers == p.suppliers[sid.value := SupplierRow(req.supplierNew.value)])
      && (req.role.value == SupplierRole && !NamesNewSupplier(req) ==>
        sid == req.supplierId && sid.value in p.suppliers && q.suppliers == p.suppliers)
  {
  }

  /** `createUser` keeps every user's supplier link valid and every email unique. */
  lemma CreateUserKeepsInvariants(p: People, roles: set<string>, req: NewUser, env: Option<string>, hash: string -> string)
    requires PeopleIds(p) && LinkedWell(p.users, p.suppliers) && EmailsUnique(p.users)
    requires CreateUserSpec(p, roles, req, env, hash).Ok?
    ensures var q := CreateUserSpec(p, roles, req, env, hash).value.0;
      LinkedWell(q.users, q.suppliers) && EmailsUnique(q.users)
  {
    var (q, id, sid) := CreateUserSpec(p, roles, req, env, hash).value;
    CreateUserRecords(p, roles, req, env, hash);
    assert p.suppliers.Keys <= q.suppliers.Keys;
    forall k | k in q.users
      ensures LinkOk(q.users[k], q.suppliers)
    {
      if k != id {
        assert LinkOk(p.users[k], p.suppliers);
      }
    }
  }

  /** `createUser`: the checks in the handler's order, then the inserts of one transaction. */
  method CreateUser(db: Database, req: NewUser, env: Option<string>, hash: string -> string)
    returns (r: Result<(int, Option<int>), UserError>)
    requires db.Valid()
    modifies db`users, db`nextUserId, db`suppliers, db`nextSupplierId
    ensures db.Valid()
    ensures var spec := CreateUserSpec(old(PeopleOf(db)), db.roles, req, env, hash);
      && (r.Err? <==> spec.Err?)
      && (r.Err? ==> r.error == spec.error && PeopleOf(db) == old(PeopleOf(db)))
      && (r.Ok? ==> PeopleOf(db) == spec.value.0 && r.value == (spec.value.1, spec.value.2))
  {
    var check := FirstCreateUserError(db.users, db.suppliers, db.roles, req);
    if check.Some? {
      return Err(check.value);
    }
    var p := PeopleOf(db);
    var suppliers, nextSupplierId := p.suppliers, p.nextSupplierId;
    var supplierId: Option<int> := None;
    if req.role.value == SupplierRole {
      if NamesNewSupplier(req) {
        supplierId := Some(nextSupplierId);
        suppliers := suppliers[nextSupplierId := SupplierRow(req.supplierNew.value)];
        nextSupplierId := nextSupplierId + 1;
      } else {
        supplierId := req.supplierId;
      }
    }
    var id := p.nextUserId;
    var u := User(req.name.value, req.email.value, OrNull(req.phone), req.role.value, supplierId,
      hash(PasswordOr(req.password, env)), true);
    var q := People(p.users[id := u], id + 1, suppliers, nextSupplierId);
    assert q == CreateUserSpec(p, db.roles, req, env, hash).value.0;
    CreateUserRecords(p, db.roles, req, env, hash);
    CommitPeople(db, q);
    r := Ok((id, supplierId));
  }

  /** Writes the users and suppliers tables of one committed transaction. */
  method CommitPeople(db: Database, q: People)
    requires db.Valid() && PeopleIds(q)
    modifies db`users, db`nextUserId, db`suppliers, db`nextSupplierId
    ensures db.Valid() && PeopleOf(db) == q
  {
    db.users, db.nextUserId, db.suppliers, db.nextSupplierId := q.users, q.nextUserId, q.suppliers, q.nextSupplierId;
  }

  /** The checks of `createUser`, in the handler's order, before any insert. */
  method FirstCreateUserError(users: map<int, User>, suppliers: map<int, Supplier>, roles: set<string>, req: NewUser)
    returns (err: Option<UserError>)
    ensures err == CreateUserError(users, suppliers, roles, req)
  {
    if Blank(req.name) {
      return Some(NameRequired);
    }
    if Blank(req.email) {
      return Some(EmailRequired);
    }
    if Blank(req.role) {
      return Some(RoleRequired);
    }
    var email, role := req.email.value, req.role.value;
    if EmailInUse(users, email) {
      return Some(EmailTaken);
    }
    if role !in roles {
      return Some(BadRole);
    }
    err := None;
    if role == SupplierRole && !NamesNewSupplier(req) {
      if !GivesSupplierId(req.supplierId) {
        err := Some(SupplierRequired);
      } else if req.supplierId.value !in suppliers {
        err := Some(SupplierNotFound);
      }
    }
  }

  // ---------------------------------------------------------------- updateUser

  /** The body of an update request: `Absent` is `undefined`, `Given(None)` is `null`. */
  datatype UserPatch = UserPatch(name: Field<string>, phone: Field<Option<string>>, role: Field<string>, supplierId: Field<Option<int>>)

  /** The first check of `updateUser` that fails, if any. */
  function UpdateUserError(users: map<int, User>, suppliers: map<int, Supplier>, roles: set<string>, id: int, f: UserPatch)
    : (r: Option<UserError>)
    ensures r == Some(BadRole) <==> f.role.Given? && f.role.v !in roles
    ensures r == Some(SupplierIdRequired) <==>
      f.role == Given(SupplierRole) && SupplierRole in roles && !(f.supplierId.Given? && GivesSupplierId(f.supplierId.v))
    ensures r == Some(NotASupplier) <==>
      f.role.Absent? && f.supplierId.Given? && (id !in users || users[id].role != SupplierRole)
    ensures r.None? <==>
      if f.role.Given? then
        f.role.v in roles
        && (f.role.v == SupplierRole ==> f.supplierId.Given? && GivesSupplierId(f.supplierId.v) && f.supplierId.v.value in suppliers)
      else
        f.supplierId.Given? ==>
          id in users && users[id].role == SupplierRole && f.supplierId.v.Some? && f.supplierId.v.value in suppliers
  {
    match f.role
    case Given(role) =>
      if role !in roles then Some(BadRole)
      else if role != SupplierRole then None
      else if !(f.supplierId.Given? && GivesSupplierId(f.supplierId.v)) then Some(SupplierIdRequired)
      else if f.supplierId.v.value !in suppliers then Some(SupplierNotFound)
      else None
    case Absent =>
      match f.supplierId
      case Absent => None
      case Given(sid) =>
        if id !in users || users[id].role != SupplierRole then Some(NotASupplier)
        else if sid.None? || sid.value !in suppliers then Some(SupplierNotFound)
        else None
  }

  /**
   * The user after the update: each supplied column replaces the stored one; a new role
   * other than `supplier` clears the supplier link; email, password and `is_active`
   * are never touched.
   */
  function PatchUser(u: User, f: UserPatch): (r: User)
    ensures r.name == f.name.Apply(u.name) && r.phone == f.phone.Apply(u.phone) && r.role == f.role.Apply(u.role)
    ensures r.email == u.email && r.passwordHash == u.passwordHash && r.isActive == u.isActive
    ensures f.role.Given? && f.role.v != SupplierRole ==> r.supplierId.None?
    ensures !(f.role.Given? && f.role.v != SupplierRole) ==> r.supplierId == f.supplierId.Apply(u.supplierId)
  {
    var link := if f.role.Given? && f.role.v != SupplierRole then None else f.supplierId.Apply(u.supplierId);
    User(f.name.Apply(u.name), u.email, f.phone.Apply(u.phone), f.role.Apply(u.role), link, u.passwordHash, u.isActive)
  }

  /** What `updateUser` answers when its checks pass. */
  datatype UpdateResult = NothingToUpdate | Written(affected: nat)

  /** `updateUser`: the answer and the users table afterwards. */
  function UpdateUserSpec(users: map<int, User>, suppliers: map<int, Supplier>, roles: set<string>, id: int, f: UserPatch)
    : (r: Result<(UpdateResult, map<int, User>), UserError>)
    ensures r.Err? <==> UpdateUserError(users, suppliers, roles, id, f).Some?
    ensures r.Ok? && f == UserPatch(Absent, Absent, Absent, Absent) ==> r.value == (NothingToUpdate, users)
    ensures r.Ok? && r.value.0 == NothingToUpdate ==> f == UserPatch(Absent, Absent, Absent, Absent)
    ensures r.Ok? && r.value.0.Written? ==> (r.value.0.affected == 1 <==> id in users) && r.value.0.affected <= 1
    ensures r.Ok? ==> r.value.1.Keys == users.Keys
    ensures r.Ok? ==> forall k :: k in users && k != id ==> r.value.1[k] == users[k]
    ensures r.Ok? && id in users ==> r.value.1[id] == PatchUser(users[id], f)
  {
    if UpdateUserError(users, suppliers, roles, id, f).Some? then Err(UpdateUserError(users, suppliers, roles, id, f).value)
    else if f == UserPatch(Absent, Absent, Absent, Absent) then Ok((NothingToUpdate, users))
    else if id in users then Ok((Written(1), users[id := PatchUser(users[id], f)]))
    else Ok((Written(0), users))
  }

  /** `updateUser` keeps every user's supplier link valid and every email unique. */
  lemma UpdateUserKeepsInvariants(users: map<int, User>, suppliers: map<int, Supplier>, roles: set<string>, id: int, f: UserPatch)
    requires LinkedWell(users, suppliers) && EmailsUnique(users)
    requires UpdateUserSpec(users, suppliers, roles, id, f).Ok?
    ensures var users' := UpdateUserSpec(users, suppliers, roles, id, f).value.1;
      LinkedWell(users', suppliers) && EmailsUnique(users')
  {
    var users' := UpdateUserSpec(users, suppliers, roles, id, f).value.1;
    if id in users {
      assert LinkOk(users[id], suppliers);
      assert LinkOk(users'[id], suppliers);
    }
    assert forall k :: k in users' ==> users'[k].email == users[k].email;
  }

  /** One `col=?` assignment of the UPDATE statement. */
  datatype Assignment = SetName(name: string) | SetPhone(phone: Option<string>) | SetRole(role: string) | SetSupplier(supplierId: Option<int>)

  function Assign(u: User, a: Assignment): User
  {
    match a
    case SetName(n) => u.(name := n)
    case SetPhone(p) => u.(phone := p)
    case SetRole(r) => u.(role := r)
    case SetSupplier(s) => u.(supplierId := s)
  }

  /** The row after `SET a1, a2, …`, applied left to right. */
  function AssignAll(u: User, assignments: seq<Assignment>): User
    decreases |assignments|
  {
    if assignments == [] then u else AssignAll(Assign(u, assignments[0]), assignments[1..])
  }

  /**
   * The checks and the `fields` list of `updateUser`: one assignment per supplied column,
   * in the handler's order. The list is empty exactly when nothing was supplied, and
   * applied to a user it gives the patched user.
   */
  method BuildAssignments(users: map<int, User>, suppliers: map<int, Supplier>, roles: set<string>, id: int, f: UserPatch)
    returns (r: Result<seq<Assignment>, UserError>)
    ensures r.Err? <==> UpdateUserError(users, suppliers, roles, id, f).Some?
    ensures r.Err? ==> r.error == UpdateUserError(users, suppliers, roles, id, f).value
    ensures r.Ok? ==> (r.value == [] <==> f == UserPatch(Absent, Absent, Absent, Absent))
    ensures r.Ok? ==> forall u :: AssignAll(u, r.value) == PatchUser(u, f)
  {
    var fields: seq<Assignment> := [];
    if f.name.Given? {
      fields := fields + [SetName(f.name.v)];
    }
    if f.phone.Given? {
      fields := fields + [SetPhone(f.phone.v)];
    }
    if f.role.Given? {
      var role := f.role.v;
      if role !in roles {
        return Err(BadRole);
      }
      fields := fields + [SetRole(role)];
      if role == SupplierRole {
        if !(f.supplierId.Given? && GivesSupplierId(f.supplierId.v)) {
          return Err(SupplierIdRequired);
        }
        var sid := f.supplierId.v.value;
        if sid !in suppliers {
          return Err(SupplierNotFound);
        }
        fields := fields + [SetSupplier(Some(sid))];
      } else {
        fields := fields + [SetSupplier(None)];
      }
    } else if f.supplierId.Given? {
      if id !in users || users[id].role != SupplierRole {
        return Err(NotASupplier);
      }
      var sid := f.supplierId.v;
      if sid.None? || sid.value !in suppliers {
        return Err(SupplierNotFound);
      }
      fields := fields + [SetSupplier(sid)];
    }
    assert fields == NameOps(f) + PhoneOps(f) + LinkOps(f);
    forall u: User
      ensures AssignAll(u, fields) == PatchUser(u, f)
    {
      AssignAllPatches(u, f);
    }
    r := Ok(fields);
  }

  /** The assignments `updateUser` pushes for the name, for the phone, and for role and supplier. */
  function NameOps(f: UserPatch): seq<Assignment>
  {
    if f.name.Given? then [SetName(f.name.v)] else []
  }

  function PhoneOps(f: UserPatch): seq<Assignment>
  {
    if f.phone.Given? then [SetPhone(f.phone.v)] else []
  }

  function LinkOps(f: UserPatch): seq<Assignment>
  {
    if f.role.Given? then [SetRole(f.role.v), SetSupplier(if f.role.v == SupplierRole && f.supplierId.Given? then f.supplierId.v else None)]
    else if f.supplierId.Given? then [SetSupplier(f.supplierId.v)]
    else []
  }

  lemma AssignAllShort(u: User, ops: seq<Assignment>)
    requires |ops| <= 2
    ensures |ops| == 0 ==> AssignAll(u, ops) == u
    ensures |ops| == 1 ==> AssignAll(u, ops) == Assign(u, ops[0])
    ensures |ops| == 2 ==> AssignAll(u, ops) == Assign(Assign(u, ops[0]), ops[1])
  {
    if |ops| == 2 {
      var u1 := Assign(u, ops[0]);
      assert AssignAll(u, ops) == AssignAll(u1, ops[1..]);
      assert ops[1..][0] == ops[1] && ops[1..][1..] == [];
      assert AssignAll(u1, ops[1..]) == AssignAll(Assign(u1, ops[1]), []);
    } else if |ops| == 1 {
      assert ops[1..] == [];
    }
  }

  /** Applying the assignments `updateUser` pushes gives the patched user. */
  lemma AssignAllPatches(u: User, f: UserPatch)
    requires f.role == Given(SupplierRole) ==> f.supplierId.Given?
    ensures AssignAll(u, NameOps(f) + PhoneOps(f) + LinkOps(f)) == PatchUser(u, f)
  {
    AssignAllConcat(u, NameOps(f) + PhoneOps(f), LinkOps(f));
    AssignAllConcat(u, NameOps(f), PhoneOps(f));
    AssignAllShort(u, NameOps(f));
    var u1 := AssignAll(u, NameOps(f));
    AssignAllShort(u1, PhoneOps(f));
    var u2 := AssignAll(u1, PhoneOps(f));
    AssignAllShort(u2, LinkOps(f));
  }

  lemma {:induction false} AssignAllConcat(u: User, xs: seq<Assignment>, ys: seq<Assignment>)
    ensures AssignAll(u, xs + ys) == AssignAll(AssignAll(u, xs), ys)
    decreases |xs|
  {
    if xs == [] {
      assert xs + ys == ys;
    } else {
      assert (xs + ys)[1..] == xs[1..] + ys;
      AssignAllConcat(Assign(u, xs[0]), xs[1..], ys);
    }
  }

  /** `updateUser`: the UPDATE runs only when there is at least one assignment. */
  method UpdateUser(db: Database, id: int, f: UserPatch) returns (r: Result<UpdateResult, UserError>)
    requires db.Valid()
    modifies db`users
    ensures db.Valid()
    ensures var spec := UpdateUserSpec(old(db.users), db.suppliers, db.roles, id, f);
      && (spec.Err? ==> r == Err(spec.error) && db.users == old(db.users))
      && (spec.Ok? ==> r == Ok(spec.value.0) && db.users == spec.value.1)
  {
    var fields := BuildAssignments(db.users, db.suppliers, db.roles, id, f);
    if fields.Err? {
      return Err(fields.error);
    }
    if |fields.value| == 0 {
      return Ok(NothingToUpdate);
    }
    if id !in db.users {
      return Ok(Written(0));
    }
    db.users := db.users[id := AssignAll(db.users[id], fields.value)];
    r := Ok(Written(1));
  }

  // ---------------------------------------------------------------- softDeleteUser, resetUserPassword

  /** `UPDATE users SET is_active=0 WHERE id=?`: the row stays, only the flag changes. */
  function SoftDeleted(users: map<int, User>, id: int): (r: map<int, User>)
    ensures r.Keys == users.Keys
    ensures id in r ==> r[id] == users[id].(isActive := false)
    ensures forall k :: k in r && k != id ==> r[k] == users[k]
  {
    if id in users then users[id := users[id].(isActive := false)] else users
  }

  /** `softDeleteUser`: `affectedRows` is 1 when the user exists (`updated_at` always changes). */
  method SoftDeleteUser(db: Database, id: int) returns (affected: nat)
    requires db.Valid()
    modifies db`users
    ensures db.Valid()
    ensures db.users == SoftDeleted(old(db.users), id)
    ensures affected == if id in old(db.users) then 1 else 0
  {
    if id in db.users {
      db.users := db.users[id := db.users[id].(isActive := false)];
      affected := 1;
    } else {
      affected := 0;
    }
  }

  /** A soft delete keeps every supplier link valid and every email unique. */
  lemma SoftDeleteKeepsInvariants(users: map<int, User>, suppliers: map<int, Supplier>, id: int)
    requires LinkedWell(users, suppliers) && EmailsUnique(users)
    ensures LinkedWell(SoftDeleted(users, id), suppliers) && EmailsUnique(SoftDeleted(users, id))
  {
    var r := SoftDeleted(users, id);
    forall k | k in r
      ensures LinkOk(r[k], suppliers) && r[k].email == users[k].email
    {
      assert LinkOk(users[k], suppliers);
    }
  }

  /** `resetUserPassword`: stores the hash of `new_password || DEFAULT_PASSWORD`. */
  method ResetUserPassword(db: Database, id: int, newPassword: Option<string>, env: Option<string>, hash: string -> string)
    returns (affected: nat)
    requires db.Valid()
    modifies db`users
    ensures db.Valid()
    ensures id in old(db.users) ==> (affected == 1
      && db.users == old(db.users)[id := old(db.users)[id].(passwordHash := hash(PasswordOr(newPassword, env)))])
    ensures id !in old(db.users) ==> affected == 0 && db.users == old(db.users)
  {
    var pass := if Blank(newPassword) then DefaultPassword(env) else newPassword.value;
    if id in db.users {
      db.users := db.users[id := db.users[id].(passwordHash := hash(pass))];
      affected := 1;
    } else {
      affected := 0;
    }
  }

  // ---------------------------------------------------------------- listUsers

  /** A row of `listUsers`: the user, its role name and its supplier's name (LEFT JOIN). */
  datatype UserView = UserView(
    id: int, name: string, email: string, phone: Option<string>, isActive: bool,
    supplierId: Option<int>, role: string, supplierName: Option<string>)

  function ViewOf(id: int, u: User, suppliers: map<int, Supplier>): (r: UserView)
    ensures r.id == id && r.name == u.name && r.email == u.email && r.role == u.role && r.isActive == u.isActive
    ensures r.supplierName.Some? <==> u.supplierId.Some? && u.supplierId.value in suppliers
  {
    var supplierName := if u.supplierId.Some? && u.supplierId.value in suppliers then Some(suppliers[u.supplierId.value].name) else None;
    UserView(id, u.name, u.email, u.phone, u.isActive, u.supplierId, u.role, supplierName)
  }

  /**
   * The WHERE clause for the trimmed `search` and `role`: active, a role the roles table
   * knows (the inner JOIN), the search text inside the name or the email, and the role.
   */
  predicate Selected(u: User, roles: set<string>, search: string, role: string)
  {
    && u.isActive && u.role in roles
    && (search == "" || Contains(u.name, search) || Contains(u.email, search))
    && (role == "" || u.role == role)
  }

  /** The selected users with ids from `hi` down to 1: newest first. */
  function Selection(users: map<int, User>, suppliers: map<int, Supplier>, roles: set<string>, search: string, role: string, hi: int)
    : (r: seq<UserView>)
    ensures forall i :: 0 <= i < |r| ==> (
      && 1 <= r[i].id <= hi && r[i].id in users
      && Selected(users[r[i].id], roles, search, role)
      && r[i] == ViewOf(r[i].id, users[r[i].id], suppliers))
    ensures forall i, j :: 0 <= i < j < |r| ==> r[i].id > r[j].id
    decreases hi
  {
    if hi < 1 then []
    else
      var rest := Selection(users, suppliers, roles, search, role, hi - 1);
      if hi in users && Selected(users[hi], roles, search, role) then
        var all := [ViewOf(hi, users[hi], suppliers)] + rest;
        assert forall i :: 1 <= i < |all| ==> all[i] == rest[i - 1];
        all
      else rest
  }

  /** The selection up to `hi` is user `hi`'s row, when selected, followed by the selection below it. */
  lemma SelectionStep(users: map<int, User>, suppliers: map<int, Supplier>, roles: set<string>, search: string, role: string, hi: int)
    requires hi >= 1
    ensures Selection(users, suppliers, roles, search, role, hi)
      == (if hi in users && Selected(users[hi], roles, search, role) then [ViewOf(hi, users[hi], suppliers)] else [])
        + Selection(users, suppliers, roles, search, role, hi - 1)
  {
    var rest := Selection(users, suppliers, roles, search, role, hi - 1);
    if !(hi in users && Selected(users[hi], roles, search, role)) {
      assert [] + rest == rest;
    }
  }

  /** Every selected user up to `hi` is in the selection. */
  lemma {:induction false} SelectionComplete(
    users: map<int, User>, suppliers: map<int, Supplier>, roles: set<string>, search: string, role: string, hi: int, k: int)
    requires 1 <= k <= hi && k in users && Selected(users[k], roles, search, role)
    ensures ViewOf(k, users[k], suppliers) in Selection(users, suppliers, roles, search, role, hi)
    decreases hi
  {
    if k < hi {
      SelectionComplete(users, suppliers, roles, search, role, hi - 1, k);
    }
  }

  /** `listUsers`: the first 200 selected users, newest first. */
  function ListUsersSpec(
    users: map<int, User>, suppliers: map<int, Supplier>, roles: set<string>, nextUserId: int,
    search: Option<string>, role: Option<string>): (r: seq<UserView>)
    ensures |r| <= ListCap
    ensures forall i :: 0 <= i < |r| ==>
      && r[i].id in users && users[r[i].id].isActive && r[i].isActive
      && Selected(users[r[i].id], roles, Trim(search.GetOr("")), Trim(role.GetOr("")))
    ensures forall i :: 0 <= i < |r| && Trim(role.GetOr("")) != "" ==> r[i].role == Trim(role.GetOr(""))
    ensures forall i, j :: 0 <= i < j < |r| ==> r[i].id > r[j].id
  {
    var all := Selection(users, suppliers, roles, Trim(search.GetOr("")), Trim(role.GetOr("")), nextUserId - 1);
    if |all| <= ListCap then all else all[..ListCap]
  }

  /**
   * While fewer than 200 users match, every active user that matches the filters is
   * listed.
   */
  lemma ListUsersComplete(
    users: map<int, User>, suppliers: map<int, Supplier>, roles: set<string>, nextUserId: int,
    search: Option<string>, role: Option<string>, k: int)
    requires IdsBelow(users, nextUserId) && k in users
    requires Selected(users[k], roles, Trim(search.GetOr("")), Trim(role.GetOr("")))
    requires |Selection(users, suppliers, roles, Trim(search.GetOr("")), Trim(role.GetOr("")), nextUserId - 1)| <= ListCap
    ensures ViewOf(k, users[k], suppliers) in ListUsersSpec(users, suppliers, roles, nextUserId, search, role)
  {
    SelectionComplete(users, suppliers, roles, Trim(search.GetOr("")), Trim(role.GetOr("")), nextUserId - 1, k);
  }

  /**
   * The rows are the newest matches: a matching user is listed whenever fewer than 200
   * rows came back or it is newer than the last row listed.
   */
  lemma ListUsersNewest(
    users: map<int, User>, suppliers: map<int, Supplier>, roles: set<string>, nextUserId: int,
    search: Option<string>, role: Option<string>, k: int)
    requires IdsBelow(users, nextUserId) && k in users
    requires Selected(users[k], roles, Trim(search.GetOr("")), Trim(role.GetOr("")))
    ensures var r := ListUsersSpec(users, suppliers, roles, nextUserId, search, role);
      (|r| < ListCap || k > r[|r| - 1].id) ==> ViewOf(k, users[k], suppliers) in r
  {
    var all := Selection(users, suppliers, roles, Trim(search.GetOr("")), Trim(role.GetOr("")), nextUserId - 1);
    var r := ListUsersSpec(users, suppliers, roles, nextUserId, search, role);
    SelectionComplete(users, suppliers, roles, Trim(search.GetOr("")), Trim(role.GetOr("")), nextUserId - 1, k);
    if |all| > ListCap && k > r[|r| - 1].id {
      var j :| 0 <= j < |all| && all[j] == ViewOf(k, users[k], suppliers);
      assert j < ListCap;
      assert r[j] == all[j];
    }
  }

  /** A soft-deleted user is never listed again, and nothing else loses its row. */
  lemma SoftDeletedNotListed(
    users: map<int, User>, suppliers: map<int, Supplier>, roles: set<string>, nextUserId: int,
    search: Option<string>, role: Option<string>, id: int)
    ensures forall v :: v in ListUsersSpec(SoftDeleted(users, id), suppliers, roles, nextUserId, search, role) ==> v.id != id
    ensures SoftDeleted(users, id).Keys == users.Keys
  {
  }

  /** `listUsers`: scans from the newest user down and stops at 200 rows. */
  method ListUsers(db: Database, search: Option<string>, role: Option<string>) returns (rows: seq<UserView>)
    ensures rows == ListUsersSpec(db.users, db.suppliers, db.roles, db.nextUserId, search, role)
  {
    var s, ro := Trim(search.GetOr("")), Trim(role.GetOr(""));
    ghost var all := Selection(db.users, db.suppliers, db.roles, s, ro, db.nextUserId - 1);
    rows := [];
    var id := db.nextUserId - 1;
    while id >= 1 && |rows| < ListCap
      invariant |rows| <= ListCap
      invariant rows + Selection(db.users, db.suppliers, db.roles, s, ro, id) == all
      decreases id
    {
      var here := if id in db.users && Selected(db.users[id], db.roles, s, ro) then [ViewOf(id, db.users[id], db.suppliers)] else [];
      SelectionStep(db.users, db.suppliers, db.roles, s, ro, id);
      AppendAssoc(rows, here, Selection(db.users, db.suppliers, db.roles, s, ro, id - 1));
      rows := rows + here;
      id := id - 1;
    }
    if |rows| == ListCap {
      assert all[..ListCap] == rows;
    } else {
      assert rows == all;
    }
  }
}
