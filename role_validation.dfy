/** src/utils/validation/roleValidation.ts: the role record as stored, and
    the role names an update may set. zod's `datetime()` check on
    `created_at` is a parameter of the model. */
module RoleValidation {
  import opened Js
  import Zod

  /** `z.enum(['admin', 'user'])` */
  predicate IsRoleName(v: Value) { v == Str("admin") || v == Str("user") }

  /** `roleSchema.parse(role)` succeeds. */
  predicate RoleConforms(role: Value, isDateTime: string -> bool) {
    && role.Obj?
    && Zod.Accepts(Zod.UuidText, Get(role, "id"))
    && Zod.Accepts(Zod.UuidText, Get(role, "user_id"))
    && IsRoleName(Get(role, "role"))
    && (Get(role, "company_id") == Null || Zod.Accepts(Zod.UuidText, Get(role, "company_id")))
    && Get(role, "is_active").Bool?
    && Get(role, "created_at").Str? && isDateTime(Get(role, "created_at").s)
  }

  /** The failing keys of `roleSchema`, in declaration order. */
  function RoleIssues(role: Value, isDateTime: string -> bool): (r: seq<string>)
    ensures r == [] <==> RoleConforms(role, isDateTime)
  {
    if !role.Obj? then [""]
    else
      (if Zod.Accepts(Zod.UuidText, Get(role, "id")) then [] else ["id"]) +
      (if Zod.Accepts(Zod.UuidText, Get(role, "user_id")) then [] else ["user_id"]) +
      (if IsRoleName(Get(role, "role")) then [] else ["role"]) +
      (if Get(role, "company_id") == Null || Zod.Accepts(Zod.UuidText, Get(role, "company_id")) then [] else ["company_id"]) +
      (if Get(role, "is_active").Bool? then [] else ["is_active"]) +
      (if Get(role, "created_at").Str? && isDateTime(Get(role, "created_at").s) then [] else ["created_at"])
  }

  /** `validateRole`: the parse's failure becomes false; nothing is thrown. */
  function ValidateRole(role: Value, isDateTime: string -> bool): (r: bool)
    ensures r <==> RoleConforms(role, isDateTime)
  {
    RoleIssues(role, isDateTime) == []
  }

  /** A valid role stays valid without a company; a company id that is not a
      UUID makes it invalid. */
  lemma CompanyMayBeNull(role: Value, isDateTime: string -> bool, c: string)
    requires ValidateRole(role, isDateTime) && !Zod.IsUuid(c)
    ensures ValidateRole(Obj(role.fields["company_id" := Null]), isDateTime)
    ensures !ValidateRole(Obj(role.fields["company_id" := Str(c)]), isDateTime)
  {
    var r0 := Obj(role.fields["company_id" := Null]);
    assert forall k :: k != "company_id" ==> Get(r0, k) == Get(role, k);
  }

  /** `validateRoleUpdate`: `['admin', 'user'].includes(role)`. */
  function ValidateRoleUpdate(role: string): (r: bool)
    ensures r <==> role == "admin" || role == "user"
  {
    role in ["admin", "user"]
  }

  /** The names an update accepts are the names the record schema accepts. */
  lemma UpdateMatchesSchema(role: string)
    ensures ValidateRoleUpdate(role) <==> IsRoleName(Str(role))
  {
  }
}
