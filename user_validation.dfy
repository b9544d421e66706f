/** src/utils/validation/userValidation.ts: run-time shape checks of users
    and their roles as they come back from the store. Reading a field of a
    null or missing record throws, as in JavaScript. */
module UserValidation {
  import opened Js

  /** The checks of `validateUserRole` on a record that can be read. */
  predicate RoleShaped(role: Value) {
    Get(role, "id").Str? && Get(role, "user_id").Str? &&
    (Get(role, "role") == Str("admin") || Get(role, "role") == Str("user")) &&
    Get(role, "is_active").Bool?
  }

  /** `validateUserRole`; `&&` stops at the first failing check, and every
      check reads a field, so only a null or missing record throws. */
  function ValidateUserRole(role: Value): (r: Completion<bool>)
    ensures r.Throws? <==> role.Null? || role.Undefined?
    ensures r == Returns(true) <==> RoleShaped(role)
  {
    if role.Null? || role.Undefined? then Throws(ReadError(role, "id"))
    else Returns(RoleShaped(role))
  }

  /** `roles.every(validateUserRole)`: stops at the first role that is not
      valid, and throws if it reaches a null or missing role first. */
  function EveryRole(roles: seq<Value>): (r: Completion<bool>)
    ensures r == Returns(true) <==> forall i :: 0 <= i < |roles| ==> ValidateUserRole(roles[i]) == Returns(true)
    ensures r.Throws? ==> exists i :: 0 <= i < |roles| && ValidateUserRole(roles[i]).Throws?
  {
    if roles == [] then Returns(true)
    else
      assert forall i :: 1 <= i < |roles| ==> roles[1..][i - 1] == roles[i];
      match ValidateUserRole(roles[0])
      case Throws(m) => Throws(m)
      case Returns(ok) => if ok then EveryRole(roles[1..]) else Returns(false)
  }

  /** `validateUser` */
  function ValidateUser(user: Value): (r: Completion<bool>)
    ensures r.Throws? ==> user.Null? || user.Undefined? || Get(user, "user_roles").Arr?
  {
    if user.Null? || user.Undefined? then Throws(ReadError(user, "id"))
    else if !(Get(user, "id").Str? && Get(user, "email").Str? && Get(user, "created_at").Str? &&
              Get(user, "user_roles").Arr?)
    then Returns(false)
    else EveryRole(Get(user, "user_roles").items)
  }

  /** A user is valid exactly when its three text fields are strings, its
      roles an array, and every role valid. */
  lemma ValidUserIff(user: Value)
    ensures ValidateUser(user) == Returns(true) <==>
      (Get(user, "id").Str? && Get(user, "email").Str? && Get(user, "created_at").Str? &&
       Get(user, "user_roles").Arr? &&
       forall i :: 0 <= i < |Get(user, "user_roles").items| ==> RoleShaped(Get(user, "user_roles").items[i]))
  {
  }

  /** A user without roles is accepted. */
  lemma NoRolesAccepted(user: Value)
    requires Get(user, "id").Str? && Get(user, "email").Str? && Get(user, "created_at").Str?
    requires Get(user, "user_roles") == Arr([])
    ensures ValidateUser(user) == Returns(true)
  {
  }

  /** One role with an unknown role name makes the whole user invalid. */
  lemma BadRoleInvalidates(user: Value, i: nat)
    requires Get(user, "user_roles").Arr? && i < |Get(user, "user_roles").items|
    requires Get(Get(user, "user_roles").items[i], "role") == Str("owner")
    ensures ValidateUser(user) != Returns(true)
  {
    ValidUserIff(user);
  }
}
