/** Companies, their members and the access grants: which changes keep the users' roles, the
    memberships and the grants in step with each other. */
module CompanyAccess {
  import opened Common

  type CompanyId = string
  type Username = string

  datatype UserRole = Admin | CompanyAdmin | PlainUser
  datatype MemberRole = AdminMember | OrdinaryMember
  datatype Level = View | Manage
  datatype Grant = Grant(level: Level, createdBy: string)
  datatype Key = Key(company: CompanyId, username: Username)
  datatype Access = Access(company: CompanyId, level: Level)

  datatype World = World(
    companies: set<CompanyId>,
    users: map<Username, UserRole>,
    members: map<Key, MemberRole>,
    grants: map<Key, Grant>)

  /** Grants that a membership brought along go away with it. */
  const AUTOMATIC := {"membership", "migration"}

  predicate Manages(grants: map<Key, Grant>, k: Key) {
    k in grants && grants[k].level == Manage
  }

  ghost predicate HasManage(grants: map<Key, Grant>, username: Username) {
    exists k :: k in grants && Manages(grants, k) && k.username == username
  }

  predicate IsMember(members: map<Key, MemberRole>, username: Username) {
    exists k :: k in members && k.username == username
  }

  ghost predicate RefsOk(w: World) {
    && (forall k :: k in w.members ==> k.company in w.companies && k.username in w.users)
    && (forall k :: k in w.grants ==> k.company in w.companies && k.username in w.users)
  }

  /** A company administrator manages some company. */
  ghost predicate AdminsManage(w: World) {
    forall u :: u in w.users && w.users[u] == CompanyAdmin ==> HasManage(w.grants, u)
  }

  /** An administrator's membership comes with the company's grant and a matching role. */
  predicate MembersBacked(w: World) {
    forall k :: k in w.members && w.members[k] == AdminMember ==>
      Manages(w.grants, k) && k.username in w.users && w.users[k.username] != PlainUser
  }

  predicate OneCompanyEach(w: World) {
    forall j, k :: j in w.members && k in w.members && j.username == k.username ==> j == k
  }

  ghost predicate Inv(w: World) {
    RefsOk(w) && AdminsManage(w) && MembersBacked(w) && OneCompanyEach(w)
  }

  // ---- The operations ----

  ghost function Demoted(role: UserRole, grants: map<Key, Grant>, username: Username): UserRole {
    if role == CompanyAdmin && !HasManage(grants, username) then PlainUser else role
  }

  ghost function Promote(w: World, k: Key): World
    requires k.username in w.users
  {
    w.(grants := if Manages(w.grants, k) then w.grants else w.grants[k := Grant(Manage, "membership")],
       users := if w.users[k.username] == Admin then w.users else w.users[k.username := CompanyAdmin])
  }

  ghost function Demote(w: World, k: Key): World
    requires k.username in w.users
  {
    var grants := if k in w.grants && w.grants[k].createdBy in AUTOMATIC then w.grants - {k} else w.grants;
    w.(grants := grants, users := w.users[k.username := Demoted(w.users[k.username], grants, k.username)])
  }

  ghost function Sync(w: World, k: Key, role: MemberRole): World
    requires k.username in w.users
  {
    if role == AdminMember then Promote(w, k) else Demote(w, k)
  }

  datatype Op =
    | CreateUser(username: Username, admin: bool)
    | CreateCompany(company: CompanyId, manager: string)     // "" for nobody
    | DeleteCompany(company: CompanyId)
    | AddMember(key: Key, role: MemberRole, password: bool)
    | UpdateRole(key: Key, role: MemberRole)
    | RemoveMember(key: Key)

  function NewUser(w: World, username: Username, role: UserRole): World {
    if username in w.users then w else w.(users := w.users[username := role])
  }

  function NewCompany(w: World, company: CompanyId, manager: string): World {
    if company in w.companies || (manager != "" && manager !in w.users) then w
    else
      w.(companies := w.companies + {company},
         grants := if manager == "" then w.grants else w.grants[Key(company, manager) := Grant(Manage, manager)])
  }

  function Without<V>(m: map<Key, V>, company: CompanyId): map<Key, V> {
    map k | k in m && k.company != company :: m[k]
  }

  /** The database removes the memberships and grants; the former managers are then demoted
      unless they manage another company. */
  ghost function WithoutCompany(w: World, company: CompanyId): World {
    if company !in w.companies then w
    else
      var grants := Without(w.grants, company);
      World(w.companies - {company},
            map u | u in w.users ::
              if Manages(w.grants, Key(company, u)) then Demoted(w.users[u], grants, u) else w.users[u],
            Without(w.members, company),
            grants)
  }

  /** An unknown user is created first, and stays even when the membership is then refused. */
  ghost function WithMember(w: World, k: Key, role: MemberRole, password: bool): World {
    if k.username !in w.users && !password then w
    else
      var v := NewUser(w, k.username, PlainUser);
      if k.company !in v.companies || IsMember(v.members, k.username) then v
      else Sync(v.(members := v.members[k := role]), k, role)
  }

  ghost function WithRole(w: World, k: Key, role: MemberRole): World
    requires RefsOk(w)
  {
    if k !in w.members then w else Sync(w.(members := w.members[k := role]), k, role)
  }

  ghost function WithoutMember(w: World, k: Key): World
    requires RefsOk(w)
  {
    if k !in w.members then w
    else
      var v := Sync(w, k, OrdinaryMember);
      v.(members := v.members - {k})
  }

  ghost function Apply(w: World, op: Op): World
    requires RefsOk(w)
  {
    match op
    case CreateUser(u, admin) => NewUser(w, u, if admin then Admin else PlainUser)
    case CreateCompany(c, manager) => NewCompany(w, c, manager)
    case DeleteCompany(c) => WithoutCompany(w, c)
    case AddMember(k, role, password) => WithMember(w, k, role, password)
    case UpdateRole(k, role) => WithRole(w, k, role)
    case RemoveMember(k) => WithoutMember(w, k)
  }

  // ---- What the operations do ----

  /** The user manages a company other than the given one. */
  ghost predicate ManagesElsewhere(grants: map<Key, Grant>, username: Username, company: CompanyId) {
    exists k :: k in grants && k.username == username && k.company != company && grants[k].level == Manage
  }

  predicate BroughtAlong(grant: Grant) {
    grant.createdBy == "membership" || grant.createdBy == "migration"
  }

  /** An administrator's membership comes with a manage grant, which keeps its author if it was one
      before, and makes its user a company administrator unless it is a general one. */
  ghost predicate Raised(a: World, b: World, k: Key)
    requires k.username in a.users
  {
    && b.companies == a.companies
    && b.users.Keys == a.users.Keys && (forall u :: u in a.users && u != k.username ==> b.users[u] == a.users[u])
    && b.users[k.username] == (if a.users[k.username] == Admin then Admin else CompanyAdmin)
    && b.grants.Keys == a.grants.Keys + {k} && (forall j :: j in a.grants && j != k ==> b.grants[j] == a.grants[j])
    && b.grants[k].level == Manage
    && (if k in a.grants && a.grants[k].level == Manage then b.grants[k] == a.grants[k]
        else b.grants[k].createdBy == "membership")
  }

  /** Without one, a grant goes that a membership brought along, and a company administrator becomes
      a plain user when no manage grant is left. */
  ghost predicate Lowered(a: World, b: World, k: Key)
    requires k.username in a.users
  {
    var goes := k in a.grants && BroughtAlong(a.grants[k]);
    var left := ManagesElsewhere(a.grants, k.username, k.company)
                || (k in a.grants && a.grants[k].level == Manage && !goes);
    && b.companies == a.companies
    && b.users.Keys == a.users.Keys && (forall u :: u in a.users && u != k.username ==> b.users[u] == a.users[u])
    && b.users[k.username] == (if a.users[k.username] == CompanyAdmin && !left then PlainUser else a.users[k.username])
    && b.grants.Keys == (if goes then a.grants.Keys - {k} else a.grants.Keys)
    && (forall j :: j in b.grants ==> b.grants[j] == a.grants[j])
  }

  lemma PromoteRaises(w: World, k: Key)
    requires k.username in w.users
    ensures Raised(w, Promote(w, k), k)
  {
  }

  lemma DemoteLowers(w: World, k: Key)
    requires k.username in w.users
    ensures Lowered(w, Demote(w, k), k)
  {
    var grants := Demote(w, k).grants;
    if HasManage(grants, k.username) {
      var j :| j in grants && Manages(grants, j) && j.username == k.username;
      assert j.company == k.company ==> j == k;
    }
    if ManagesElsewhere(w.grants, k.username, k.company) {
      var j :| j in w.grants && j.username == k.username && j.company != k.company && w.grants[j].level == Manage;
      assert Manages(grants, j);
    }
    if k in grants && grants[k].level == Manage {
      assert Manages(grants, k);
    }
  }

  /** The company's memberships and grants go; of those who managed it, the company administrators
      become plain users who manage no other one. */
  ghost predicate Deleted(a: World, b: World, company: CompanyId) {
    && b.companies == a.companies - {company}
    && b.members.Keys == (set k | k in a.members && k.company != company)
    && (forall k :: k in b.members ==> b.members[k] == a.members[k])
    && b.grants.Keys == (set k | k in a.grants && k.company != company)
    && (forall k :: k in b.grants ==> b.grants[k] == a.grants[k])
    && b.users.Keys == a.users.Keys
    && forall u :: u in a.users ==>
         b.users[u] ==
           if a.users[u] == CompanyAdmin && Key(company, u) in a.grants && a.grants[Key(company, u)].level == Manage
              && !ManagesElsewhere(a.grants, u, company)
           then PlainUser else a.users[u]
  }

  /** A known user joins: the membership is there, grant and role follow it. */
  ghost predicate Joined(a: World, b: World, k: Key, role: MemberRole)
    requires k.username in a.users
  {
    && b.members == a.members[k := role]
    && if role == AdminMember then Raised(a, b, k) else Lowered(a, b, k)
  }

  function Knowing(w: World, username: Username): World {
    w.(users := w.users[username := if username in w.users then w.users[username] else PlainUser])
  }

  predicate CanJoin(w: World, k: Key) {
    k.company in w.companies && forall j :: j in w.members ==> j.username != k.username
  }

  lemma WithMemberJoins(w: World, k: Key, role: MemberRole, password: bool)
    requires k.username in w.users || password
    ensures var v := Knowing(w, k.username);
      WithMember(w, k, role, password)
        == if CanJoin(w, k) then Sync(v.(members := v.members[k := role]), k, role) else v
  {
    var v := Knowing(w, k.username);
    assert k.username in w.users ==> v.users == w.users;
    assert v == NewUser(w, k.username, PlainUser);
    assert IsMember(w.members, k.username) <==> exists j :: j in w.members && j.username == k.username;
  }

  lemma WithoutCompanyDeletes(w: World, company: CompanyId)
    requires company in w.companies
    ensures Deleted(w, WithoutCompany(w, company), company)
  {
    var v := WithoutCompany(w, company);
    forall u | u in w.users
      ensures HasManage(v.grants, u) <==> ManagesElsewhere(w.grants, u, company)
    {
      if HasManage(v.grants, u) {
        var k :| k in v.grants && Manages(v.grants, k) && k.username == u;
        assert k in w.grants && k.company != company && w.grants[k].level == Manage;
      }
      if ManagesElsewhere(w.grants, u, company) {
        var k :| k in w.grants && k.username == u && k.company != company && w.grants[k].level == Manage;
        assert Manages(v.grants, k);
      }
    }
  }

  // ---- They keep the invariant ----

  lemma StillManages(a: map<Key, Grant>, b: map<Key, Grant>, username: Username)
    requires HasManage(a, username)
    requires forall k :: k in a && k.username == username && Manages(a, k) ==> Manages(b, k)
    ensures HasManage(b, username)
  {
    var k :| k in a && Manages(a, k) && k.username == username;
    assert Manages(b, k);
  }

  lemma PromoteKeepsInv(w: World, k: Key)
    requires k.username in w.users && k.company in w.companies
    requires RefsOk(w) && AdminsManage(w) && OneCompanyEach(w)
    requires forall j :: j in w.members && w.members[j] == AdminMember && j != k ==>
        Manages(w.grants, j) && w.users[j.username] != PlainUser
    ensures Inv(Promote(w, k))
  {
    var v := Promote(w, k);
    assert Manages(v.grants, k);
    forall u | u in v.users && v.users[u] == CompanyAdmin
      ensures HasManage(v.grants, u)
    {
      if u != k.username {
        StillManages(w.grants, v.grants, u);
      }
    }
  }

  lemma DemoteKeepsInv(w: World, k: Key)
    requires k.username in w.users
    requires RefsOk(w) && AdminsManage(w) && OneCompanyEach(w)
    requires forall j :: j in w.members && j.username == k.username ==> j == k
    requires forall j :: j in w.members && w.members[j] == AdminMember ==>
        j != k && Manages(w.grants, j) && w.users[j.username] != PlainUser
    ensures Inv(Demote(w, k))
  {
    var v := Demote(w, k);
    forall u | u in v.users && v.users[u] == CompanyAdmin
      ensures HasManage(v.grants, u)
    {
      if u != k.username {
        StillManages(w.grants, v.grants, u);
      }
    }
  }

  lemma DeleteKeepsManagers(w: World, company: CompanyId)
    requires AdminsManage(w) && company in w.companies
    ensures AdminsManage(WithoutCompany(w, company))
  {
    var v := WithoutCompany(w, company);
    forall u | u in v.users && v.users[u] == CompanyAdmin
      ensures HasManage(v.grants, u)
    {
      if !Manages(w.grants, Key(company, u)) {
        StillManages(w.grants, v.grants, u);
      }
    }
  }

  lemma DeleteKeepsMembers(w: World, company: CompanyId)
    requires MembersBacked(w) && company in w.companies
    ensures MembersBacked(WithoutCompany(w, company))
  {
    var v := WithoutCompany(w, company);
    forall k | k in v.members && v.members[k] == AdminMember
      ensures Manages(v.grants, k) && k.username in v.users && v.users[k.username] != PlainUser
    {
      assert Manages(w.grants, k) && Manages(v.grants, k);
      assert HasManage(v.grants, k.username);
    }
  }

  lemma DeleteKeepsInv(w: World, company: CompanyId)
    requires Inv(w)
    ensures Inv(WithoutCompany(w, company))
  {
    if company in w.companies {
      DeleteKeepsManagers(w, company);
      DeleteKeepsMembers(w, company);
    }
  }

  lemma NewUserKeepsInv(w: World, username: Username, role: UserRole)
    requires Inv(w) && role != CompanyAdmin
    ensures Inv(NewUser(w, username, role))
  {
    var v := NewUser(w, username, role);
    assert v.grants == w.grants && v.members == w.members;
  }

  lemma NewCompanyKeepsInv(w: World, company: CompanyId, manager: string)
    requires Inv(w)
    ensures Inv(NewCompany(w, company, manager))
  {
    var v := NewCompany(w, company, manager);
    forall u | u in v.users && v.users[u] == CompanyAdmin
      ensures HasManage(v.grants, u)
    {
      StillManages(w.grants, v.grants, u);
    }
  }

  lemma InsertKeepsInv(w: World, k: Key, role: MemberRole)
    requires Inv(w) && k.company in w.companies && k.username in w.users && !IsMember(w.members, k.username)
    ensures Inv(Sync(w.(members := w.members[k := role]), k, role))
  {
    var more := w.(members := w.members[k := role]);
    if role == AdminMember {
      PromoteKeepsInv(more, k);
    } else {
      DemoteKeepsInv(more, k);
    }
  }

  lemma AddKeepsInv(w: World, k: Key, role: MemberRole, password: bool)
    requires Inv(w)
    ensures Inv(WithMember(w, k, role, password))
  {
    if k.username in w.users || password {
      var v := NewUser(w, k.username, PlainUser);
      NewUserKeepsInv(w, k.username, PlainUser);
      if k.company in v.companies && !IsMember(v.members, k.username) {
        InsertKeepsInv(v, k, role);
      }
    }
  }

  lemma RoleKeepsInv(w: World, k: Key, role: MemberRole)
    requires Inv(w)
    ensures Inv(WithRole(w, k, role))
  {
    if k in w.members {
      var changed := w.(members := w.members[k := role]);
      if role == AdminMember {
        PromoteKeepsInv(changed, k);
      } else {
        DemoteKeepsInv(changed, k);
      }
    }
  }

  lemma RemoveKeepsInv(w: World, k: Key)
    requires Inv(w)
    ensures Inv(WithoutMember(w, k))
  {
    if k in w.members {
      var fewer := w.(members := w.members - {k});
      DemoteKeepsInv(fewer, k);
      assert WithoutMember(w, k) == Demote(fewer, k);
    }
  }

  lemma StepKeepsInv(w: World, op: Op)
    requires Inv(w)
    ensures Inv(Apply(w, op))
  {
    match op
    case CreateUser(u, admin) => NewUserKeepsInv(w, u, if admin then Admin else PlainUser);
    case CreateCompany(c, manager) => NewCompanyKeepsInv(w, c, manager);
    case DeleteCompany(c) => DeleteKeepsInv(w, c);
    case AddMember(k, role, password) => AddKeepsInv(w, k, role, password);
    case UpdateRole(k, role) => RoleKeepsInv(w, k, role);
    case RemoveMember(k) => RemoveKeepsInv(w, k);
  }

  /** From any tables that agree, an empty database among them. */
  ghost predicate IsRun(worlds: seq<World>, ops: seq<Op>) {
    && |worlds| == |ops| + 1
    && Inv(worlds[0])
    && forall i {:trigger ops[i]} :: 0 <= i < |ops| ==> RefsOk(worlds[i]) && worlds[i + 1] == Apply(worlds[i], ops[i])
  }

  const EMPTY := World({}, map[], map[], map[])

  lemma EmptyTablesAgree()
    ensures Inv(EMPTY)
  {
  }

  /** After any sequence of operations every company administrator manages some company, every
      administrator's membership is backed by that company's grant and a matching role, and
      nobody belongs to two companies. */
  lemma {:induction false} RolesAndGrantsAgree(worlds: seq<World>, ops: seq<Op>, i: nat)
    requires IsRun(worlds, ops) && i <= |ops|
    ensures Inv(worlds[i])
  {
    if i > 0 {
      RolesAndGrantsAgree(worlds, ops, i - 1);
      StepKeepsInv(worlds[i - 1], ops[i - 1]);
    }
  }

  // ---- What removing a member undoes ----

  predicate ByHandOrNone(grants: map<Key, Grant>, k: Key) {
    k in grants ==> Manages(grants, k) && grants[k].createdBy !in AUTOMATIC
  }

  lemma DemoteUndoesPromote(w: World, k: Key)
    requires k.username in w.users && (w.users[k.username] == CompanyAdmin ==> HasManage(w.grants, k.username))
    ensures Demote(Promote(w, k), k) == w <==>
      ByHandOrNone(w.grants, k) && (w.users[k.username] == PlainUser ==> !HasManage(w.grants, k.username))
  {
    var there := Promote(w, k);
    var back := Demote(there, k);
    assert there.users.Keys == w.users.Keys && back.users.Keys == w.users.Keys;
    assert back.grants == w.grants <==> ByHandOrNone(w.grants, k) by {
      if k in w.grants && !ByHandOrNone(w.grants, k) {
        assert k !in back.grants;
      }
    }
    if back.grants == w.grants {
      assert back.users == w.users <==> back.users[k.username] == w.users[k.username];
    }
  }

  lemma AddIsPromote(w: World, k: Key)
    requires k.company in w.companies && k.username in w.users && !IsMember(w.members, k.username)
    ensures WithMember(w, k, AdminMember, false) == Promote(w, k).(members := w.members[k := AdminMember])
  {
  }

  lemma RemoveIsDemote(w: World, v: World, k: Key)
    requires RefsOk(v) && k.username in w.users && k !in w.members
    requires v == w.(members := w.members[k := AdminMember])
    ensures WithoutMember(v, k) == Demote(w, k)
  {
    assert v.members - {k} == w.members;
  }

  /** Removing a member that was added as administrator restores the tables exactly when there
      was no grant, or a manage grant that somebody gave by hand, and the user was not a plain
      user who managed a company. */
  lemma RemoveUndoesAdd(w: World, k: Key)
    requires Inv(w) && k.company in w.companies && k.username in w.users && !IsMember(w.members, k.username)
    ensures RefsOk(WithMember(w, k, AdminMember, false))
    ensures WithoutMember(WithMember(w, k, AdminMember, false), k) == w <==>
      ByHandOrNone(w.grants, k) && (w.users[k.username] == PlainUser ==> !HasManage(w.grants, k.username))
  {
    AddKeepsInv(w, k, AdminMember, false);
    AddIsPromote(w, k);
    RemoveIsDemote(Promote(w, k), WithMember(w, k, AdminMember, false), k);
    DemoteUndoesPromote(w, k);
  }

  // ---- Replacing a user's grants by hand ----

  ghost function Replaced(w: World, username: Username, accesses: map<CompanyId, Level>, author: string): World {
    w.(grants := map k | k in w.grants.Keys + (set c | c in accesses :: Key(c, username))
                   && (k.username == username ==> k.company in accesses)
                 :: if k.username == username then Grant(accesses[k.company], author) else w.grants[k])
  }

  /** Whatever a user's grants were, replacing them keeps the roles and grants in step exactly
      when the new ones give the manage level where the user's role and membership need it. */
  lemma ReplaceKeepsInvIff(w: World, username: Username, accesses: map<CompanyId, Level>, author: string)
    requires Inv(w) && username in w.users && accesses.Keys <= w.companies
    ensures Inv(Replaced(w, username, accesses, author)) <==>
      && (w.users[username] == CompanyAdmin ==> exists c :: c in accesses && accesses[c] == Manage)
      && (forall k ::
        k in w.members && k.username == username && w.members[k] == AdminMember ==> GivesManage(accesses, k.company))
  {
    ReplacedAdmins(w, username, accesses, author);
    ReplacedMembers(w, username, accesses, author);
  }

  predicate GivesManage(accesses: map<CompanyId, Level>, company: CompanyId) {
    company in accesses && accesses[company] == Manage
  }

  lemma ReplacedAdmins(w: World, username: Username, accesses: map<CompanyId, Level>, author: string)
    requires AdminsManage(w) && username in w.users && accesses.Keys <= w.companies
    ensures AdminsManage(Replaced(w, username, accesses, author)) <==>
      (w.users[username] == CompanyAdmin ==> exists c :: c in accesses && accesses[c] == Manage)
  {
    ReplacedManages(w, username, accesses, author);
  }

  lemma ReplacedMembers(w: World, username: Username, accesses: map<CompanyId, Level>, author: string)
    requires MembersBacked(w) && username in w.users
    ensures MembersBacked(Replaced(w, username, accesses, author)) <==>
      forall k :: k in w.members && k.username == username && w.members[k] == AdminMember
        ==> GivesManage(accesses, k.company)
  {
    var v := Replaced(w, username, accesses, author);
    assert forall k: Key :: k.username == username ==> (Manages(v.grants, k) <==> GivesManage(accesses, k.company));
    assert forall k: Key :: k.username != username ==> (Manages(v.grants, k) <==> Manages(w.grants, k));
  }

  lemma ReplacedManages(w: World, username: Username, accesses: map<CompanyId, Level>, author: string)
    requires accesses.Keys <= w.companies
    ensures var v := Replaced(w, username, accesses, author);
      && (HasManage(v.grants, username) <==> exists c :: c in accesses && accesses[c] == Manage)
      && (forall u :: u != username ==> (HasManage(v.grants, u) <==> HasManage(w.grants, u)))
  {
    var v := Replaced(w, username, accesses, author);
    forall c | c in accesses && accesses[c] == Manage
      ensures HasManage(v.grants, username)
    {
      assert Manages(v.grants, Key(c, username));
    }
    forall u | u != username
      ensures HasManage(v.grants, u) <==> HasManage(w.grants, u)
    {
      if HasManage(w.grants, u) {
        StillManages(w.grants, v.grants, u);
      }
      if HasManage(v.grants, u) {
        StillManages(v.grants, w.grants, u);
      }
    }
  }

  /** Exactly the listed companies, with the manage level where it is listed at least once. */
  ghost predicate Collected(items: seq<Access>, accesses: map<CompanyId, Level>) {
    && (forall c :: c in accesses <==> exists item :: item in items && item.company == c)
    && (forall c :: c in accesses ==> (accesses[c] == Manage <==> Access(c, Manage) in items))
  }

  /** Other users' grants stay; the user's are exactly the listed ones. */
  ghost predicate GrantsReplaced(
      a: map<Key, Grant>, b: map<Key, Grant>, username: Username, items: seq<Access>, author: string)
  {
    && (forall k: Key :: k.username != username ==> (k in b <==> k in a) && (k in b ==> b[k] == a[k]))
    && (forall c :: Key(c, username) in b <==> exists item :: item in items && item.company == c)
    && (forall c :: Key(c, username) in b ==>
          && (b[Key(c, username)].level == Manage <==> Access(c, Manage) in items)
          && b[Key(c, username)].createdBy == author)
  }

  lemma ReplacedGrants(
      w: World, username: Username, items: seq<Access>, accesses: map<CompanyId, Level>, author: string)
    requires Collected(items, accesses)
    ensures GrantsReplaced(w.grants, Replaced(w, username, accesses, author).grants, username, items, author)
  {
  }

  lemma ReplacedStaysInStep(
      w: World, username: Username, items: seq<Access>, accesses: map<CompanyId, Level>, author: string)
    requires Inv(w) && username in w.users && accesses.Keys <= w.companies && Collected(items, accesses)
    ensures Inv(Replaced(w, username, accesses, author)) <==>
      && (w.users[username] == CompanyAdmin ==> exists c :: Access(c, Manage) in items)
      && (forall k ::
        k in w.members && k.username == username && w.members[k] == AdminMember
        ==> Access(k.company, Manage) in items)
  {
    ReplaceKeepsInvIff(w, username, accesses, author);
    forall c
      ensures c in accesses && accesses[c] == Manage <==> Access(c, Manage) in items
    {
      if Access(c, Manage) in items {
        var item := Access(c, Manage);
        assert item in items && item.company == c;
      }
    }
  }

  lemma UnknownCompany(items: seq<Access>, accesses: map<CompanyId, Level>, companies: set<CompanyId>)
    requires Collected(items, accesses)
    ensures accesses.Keys <= companies <==> forall item :: item in items ==> item.company in companies
  {
    if accesses.Keys <= companies {
      forall item | item in items
        ensures item.company in companies
      {
        assert item.company in accesses;
      }
    }
  }

  // ---- The service ----

  class Companies {
    var companies: set<CompanyId>
    var users: map<Username, UserRole>
    var members: map<Key, MemberRole>
    var grants: map<Key, Grant>

    ghost function View(): World
      reads this
    {
      World(companies, users, members, grants)
    }

    ghost predicate Valid()
      reads this
    {
      Inv(View())
    }

    /** The service on tables that agree. */
    constructor (w: World)
      requires Inv(w)
      ensures Valid() && View() == w
    {
      companies, users, members, grants := w.companies, w.users, w.members, w.grants;
    }

    constructor Empty()
      ensures Valid() && View() == EMPTY
    {
      companies, users, members, grants := EMPTY.companies, EMPTY.users, EMPTY.members, EMPTY.grants;
      EmptyTablesAgree();
    }

    method CreateUser(username: Username, admin: bool) returns (ok: bool)
      requires Valid()
      modifies this
      ensures Valid() && View() == Apply(old(View()), Op.CreateUser(username, admin))
      ensures ok <==> username !in old(users)
      ensures ok ==> users == old(users)[username := if admin then Admin else PlainUser]
      ensures (!ok ==> users == old(users)) && members == old(members) && grants == old(grants)
    {
      ok := username !in users;
      NewUserKeepsInv(View(), username, if admin then Admin else PlainUser);
      if ok {
        users := users[username := if admin then Admin else PlainUser];
      }
    }

    method Remaining(username: Username) returns (some: bool)
      ensures some <==> HasManage(grants, username)
      ensures some <==> exists k :: k in grants && k.username == username && grants[k].level == Manage
    {
      var manage := set k | k in grants && k.username == username && grants[k].level == Manage;
      some := |manage| > 0;
      if some {
        var k :| k in manage;
        assert Manages(grants, k);
      } else {
        assert forall k :: k in grants && Manages(grants, k) ==> k.username != username || k in manage;
      }
    }

    /** Brings the grant and the user's role in line with a membership's role. */
    method SyncMembershipAdminAccess(k: Key, role: MemberRole)
      requires k.username in users
      modifies this`grants, this`users
      ensures View() == Sync(old(View()), k, role)
      ensures if role == AdminMember then Raised(old(View()), View(), k) else Lowered(old(View()), View(), k)
    {
      PromoteRaises(View(), k);
      DemoteLowers(View(), k);
      if role == AdminMember {
        if k !in grants {
          grants := grants[k := Grant(Manage, "membership")];
        } else if grants[k].level != Manage {
          grants := grants[k := grants[k].(level := Manage, createdBy := "membership")];
        }
        if users[k.username] != Admin {
          users := users[k.username := CompanyAdmin];
        }
        return;
      }
      if k in grants && grants[k].createdBy in {"membership", "migration"} {
        grants := grants - {k};
      }
      if users[k.username] == CompanyAdmin {
        var some := Remaining(k.username);
        if !some {
          users := users[k.username := PlainUser];
        }
      }
    }

    method CreateCompany(company: CompanyId, manager: string) returns (ok: bool)
      requires Valid() && company !in companies
      modifies this
      ensures Valid() && View() == NewCompany(old(View()), company, manager)
      ensures ok <==> manager == "" || manager in old(users)
      ensures !ok ==> View() == old(View())
      ensures ok ==> companies == old(companies) + {company} && users == old(users) && members == old(members)
      ensures ok && manager == "" ==> grants == old(grants)
      ensures ok && manager != ""
        ==> grants == old(grants)[Key(company, manager) := grants[Key(company, manager)]]
            && grants[Key(company, manager)].level == Manage && grants[Key(company, manager)].createdBy == manager
    {
      ok := manager == "" || manager in users;
      NewCompanyKeepsInv(View(), company, manager);
      if ok {
        companies := companies + {company};
        if manager != "" {
          grants := grants[Key(company, manager) := Grant(Manage, manager)];
        }
      }
    }

    /** Those who no longer manage any company lose the administrator's role. */
    method DemoteAll(managers: set<Username>)
      modifies this`users
      ensures users == map u | u in old(users) ::
        if u in managers then Demoted(old(users)[u], grants, u) else old(users)[u]
    {
      var rest := managers;
      while rest != {}
        invariant rest <= managers && users.Keys == old(users).Keys
        invariant forall u :: u in users ==>
            users[u] == if u in managers && u !in rest then Demoted(old(users)[u], grants, u) else old(users)[u]
        decreases rest
      {
        var u :| u in rest;
        rest := rest - {u};
        if u in users && users[u] == CompanyAdmin {
          var some := Remaining(u);
          if !some {
            users := users[u := PlainUser];
          }
        }
      }
    }

    /** The database's cascade, and then one look at every former manager. */
    method DeleteCompany(company: CompanyId) returns (ok: bool)
      requires Valid()
      modifies this
      ensures Valid() && View() == WithoutCompany(old(View()), company)
      ensures ok <==> company in old(companies)
      ensures if ok then Deleted(old(View()), View(), company) else View() == old(View())
    {
      DeleteKeepsInv(View(), company);
      if company in companies {
        WithoutCompanyDeletes(View(), company);
      }
      ok := DeleteCascading(company);
    }

    method DeleteCascading(company: CompanyId) returns (ok: bool)
      modifies this
      ensures View() == WithoutCompany(old(View()), company)
      ensures ok <==> company in old(companies)
    {
      ok := company in companies;
      if ok {
        var managers := set k | k in grants && k.company == company && grants[k].level == Manage :: k.username;
        assert forall u :: u in managers <==> Manages(old(grants), Key(company, u));
        companies := companies - {company};
        members := map k | k in members && k.company != company :: members[k];
        grants := map k | k in grants && k.company != company :: grants[k];
        DemoteAll(managers);
      }
    }

    /** `password`: one was given, so that an unknown user can be created. */
    method AddMember(k: Key, role: MemberRole, password: bool) returns (ok: bool)
      requires Valid()
      modifies this
      ensures Valid() && View() == WithMember(old(View()), k, role, password)
      ensures ok <==> (k.username in old(users) || password) && CanJoin(old(View()), k)
      ensures ok ==> Joined(Knowing(old(View()), k.username), View(), k, role)
      ensures !ok && (k.username in old(users) || password) ==> View() == Knowing(old(View()), k.username)
      ensures !ok && k.username !in old(users) && !password ==> View() == old(View())
    {
      ok := false;
      AddKeepsInv(View(), k, role, password);
      if k.username !in users {
        if !password {
          return;
        }
        users := users[k.username := PlainUser];
      }
      WithMemberJoins(old(View()), k, role, password);
      assert View() == Knowing(old(View()), k.username);
      ok := Enrol(k, role);
    }

    /** A known user joins the company unless there is a membership already. */
    method Enrol(k: Key, role: MemberRole) returns (ok: bool)
      requires k.username in users
      modifies this
      ensures ok <==> CanJoin(old(View()), k)
      ensures View() == if ok then Sync(old(View()).(members := old(members)[k := role]), k, role) else old(View())
      ensures ok ==> Joined(old(View()), View(), k, role)
    {
      ok := false;
      if k.company !in companies {
        return;
      }
      var memberships := set j | j in members && j.username == k.username;
      if |memberships| > 0 {
        var j :| j in memberships;
        return;
      }
      assert forall j :: j in members && j.username == k.username ==> j in memberships;
      members := members[k := role];
      SyncMembershipAdminAccess(k, role);
      ok := true;
    }

    method UpdateMemberRole(k: Key, role: MemberRole) returns (ok: bool)
      requires Valid()
      modifies this
      ensures Valid() && View() == WithRole(old(View()), k, role)
      ensures ok <==> k in old(members)
      ensures !ok ==> View() == old(View())
      ensures ok ==> members == old(members)[k := role]
      ensures ok ==> k.username in old(users)
      ensures ok ==> if role == AdminMember then Raised(old(View()), View(), k) else Lowered(old(View()), View(), k)
    {
      ok := k in members;
      RoleKeepsInv(View(), k, role);
      if ok {
        members := members[k := role];
        SyncMembershipAdminAccess(k, role);
      }
    }

    method RemoveMember(k: Key) returns (ok: bool)
      requires Valid()
      modifies this
      ensures Valid() && View() == WithoutMember(old(View()), k)
      ensures ok <==> k in old(members)
      ensures !ok ==> View() == old(View())
      ensures ok ==> members == old(members) - {k}
      ensures ok ==> k.username in old(users) && Lowered(old(View()), View(), k)
    {
      ok := k in members;
      RemoveKeepsInv(View(), k);
      if ok {
        SyncMembershipAdminAccess(k, OrdinaryMember);
        members := members - {k};
      }
    }

    /** A company listed more than once keeps the manage level if it is given once; an entry without
        a company is an error. */
    method NormalizeAccesses(items: seq<Access>) returns (accesses: Option<map<CompanyId, Level>>)
      ensures accesses.None? <==> exists item :: item in items && item.company == ""
      ensures accesses.Some? ==> Collected(items, accesses.value)
    {
      var normalized: map<CompanyId, Level> := map[];
      for i := 0 to |items|
        invariant forall item :: item in items[..i] ==> item.company != ""
        invariant forall c :: c in normalized <==> exists item :: item in items[..i] && item.company == c
        invariant forall c :: c in normalized ==> (normalized[c] == Manage <==> Access(c, Manage) in items[..i])
      {
        var item := items[i];
        assert items[..i + 1] == items[..i] + [item];
        assert item in items[..i + 1];
        if item.company == "" {
          return None;
        }
        if item.company in normalized && normalized[item.company] == Manage {
          continue;
        }
        normalized := normalized[item.company := item.level];
      }
      assert items[..|items|] == items;
      accesses := Some(normalized);
    }

    /** A user's grants are replaced as a whole, by an author whose name is cut to 32 characters.
        Roles and memberships are left alone, so they stay in step with the grants only under
        the stated condition. */
    method ReplaceCompanyAccesses(username: Username, items: seq<Access>, author: string) returns (ok: bool)
      requires Valid()
      modifies this`grants
      ensures ok <==>
        && username in users && forall item :: item in items ==> item.company != "" && item.company in companies
      ensures !ok ==> grants == old(grants)
      ensures ok
        ==> GrantsReplaced(old(grants), grants, username, items, if |author| > 32 then author[..32] else author)
      ensures ok ==> (Valid() <==>
        && (users[username] == CompanyAdmin ==> exists c :: Access(c, Manage) in items)
        && (forall k ::
          k in members && k.username == username && members[k] == AdminMember ==> Access(k.company, Manage) in items))
    {
      var accesses := NormalizeAccesses(items);
      ok := false;
      if accesses.None? || username !in users {
        return;
      }
      UnknownCompany(items, accesses.value, companies);
      if !(accesses.value.Keys <= companies) {
        return;
      }
      ok := true;
      var name := if |author| > 32 then author[..32] else author;
      ReplacedGrants(View(), username, items, accesses.value, name);
      ReplacedStaysInStep(View(), username, items, accesses.value, name);
      grants := map k | k in grants.Keys + (set c | c in accesses.value :: Key(c, username))
                        && (k.username == username ==> k.company in accesses.value)
                      :: if k.username == username then Grant(accesses.value[k.company], name) else grants[k];
      assert View() == Replaced(old(View()), username, accesses.value, name);
    }
  }
}
