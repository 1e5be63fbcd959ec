/** The role names of the service and the membership check on them. */
module Roles {

  /** The role table: a constant name for each role string. */
  const RoleTable: map<string, string> := map["ROLE_ADMIN" := "admin", "ROLE_USER" := "user"]

  /** Exact, case-sensitive comparison against the user role and the admin role. */
  function Verify(role: string): (ok: bool)
    ensures ok <==> role in RoleTable.Values
  {
    assert RoleTable.Values == {"admin", "user"} by {
      assert RoleTable["ROLE_ADMIN"] == "admin" && RoleTable["ROLE_USER"] == "user";
    }
    role == RoleTable["ROLE_USER"] || role == RoleTable["ROLE_ADMIN"]
  }

  /** Both role names are accepted. */
  lemma VerifyAcceptsBothRoles()
    ensures Verify("user") && Verify("admin")
  {
  }

  /** Every other string is rejected, including other spellings and the empty string. */
  lemma VerifyRejectsOthers(role: string)
    requires role != "user" && role != "admin"
    ensures !Verify(role)
    ensures !Verify("Admin") && !Verify("USER") && !Verify("")
  {
  }
}
