/** src/utils/transforms/userTransforms.ts: a joined user/role row turned into
    a user with its single role. */
module UserTransforms {
  import opened Js
  import UserValidation

  datatype RoleName = Admin | User

  /** The row the join returns. */
  datatype RawUserData = RawUserData(user_id: string, email: string, created_at: string, id: string,
                                     role: RoleName, company_id: Option<string>, is_active: bool)

  datatype UserRole = UserRole(id: string, user_id: string, role: RoleName, company_id: Option<string>,
                               is_active: bool, created_at: string)

  datatype UserWithRole = UserWithRole(id: string, email: string, created_at: string, user_roles: seq<UserRole>)

  /** `transformUserData` */
  function TransformUserData(raw: RawUserData): (u: UserWithRole)
    ensures u.id == raw.user_id && u.email == raw.email && u.created_at == raw.created_at
    ensures |u.user_roles| == 1
    ensures var r := u.user_roles[0];
      && r.id == raw.id && r.user_id == u.id
      && r.role == raw.role && r.company_id == raw.company_id && r.is_active == raw.is_active
      && r.created_at == u.created_at
  {
    UserWithRole(raw.user_id, raw.email, raw.created_at,
                 [UserRole(raw.id, raw.user_id, raw.role, raw.company_id, raw.is_active, raw.created_at)])
  }

  /** The raw row recovered from a user with one role. */
  function Untransform(u: UserWithRole): RawUserData
    requires |u.user_roles| == 1
  {
    var r := u.user_roles[0];
    RawUserData(u.id, u.email, u.created_at, r.id, r.role, r.company_id, r.is_active)
  }

  /** No field of the row is lost. */
  lemma TransformLossless(raw: RawUserData)
    ensures Untransform(TransformUserData(raw)) == raw
  {
  }

  function RoleNameValue(n: RoleName): Value { if n == Admin then Str("admin") else Str("user") }

  function RoleValue(r: UserRole): Value {
    Obj(map["id" := Str(r.id), "user_id" := Str(r.user_id), "role" := RoleNameValue(r.role),
            "company_id" := (if r.company_id.Some? then Str(r.company_id.value) else Null),
            "is_active" := Bool(r.is_active), "created_at" := Str(r.created_at)])
  }

  function UserValue(u: UserWithRole): Value {
    Obj(map["id" := Str(u.id), "email" := Str(u.email), "created_at" := Str(u.created_at),
            "user_roles" := Arr(seq(|u.user_roles|, i requires 0 <= i < |u.user_roles| => RoleValue(u.user_roles[i])))])
  }

  /** Every transformed user passes `validateUser`. */
  lemma TransformedUserValid(raw: RawUserData)
    ensures UserValidation.ValidateUser(UserValue(TransformUserData(raw))) == Returns(true)
  {
    var u := TransformUserData(raw);
    var v := UserValue(u);
    var rv := RoleValue(u.user_roles[0]);
    assert Get(v, "user_roles") == Arr([rv]);
    assert UserValidation.RoleShaped(rv);
    UserValidation.ValidUserIff(v);
  }
}
