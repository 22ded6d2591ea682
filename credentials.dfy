/** The demo credential rule (`demoAuth`): two fixed role rules, no backend. */
module Credentials {
  import opened Wrappers

  const ADMIN_ROLE: string := "admin"
  const EMPLOYEE_ROLE: string := "employee"
  /** The only employee number that may sign in as administrator. */
  const ADMIN_EMP_NO: string := "9999"

  /** The `{ ok, role }` object `demoAuth` returns. */
  datatype AuthResult = AuthResult(ok: bool, role: Option<string>)

  /** `demoAuth(empNo, password)`: total over all strings, including empty ones. */
  function DemoAuth(empNo: string, password: string): (r: AuthResult)
    ensures r.role == Some(ADMIN_ROLE) <==> empNo == ADMIN_EMP_NO && password == "admin"
    ensures r.role == Some(EMPLOYEE_ROLE) <==> empNo != ADMIN_EMP_NO && password == "employee"
    ensures r.ok <==> r.role.Some?
    ensures r.ok ==> r.role == Some(ADMIN_ROLE) || r.role == Some(EMPLOYEE_ROLE)
  {
    var isAdmin := empNo == ADMIN_EMP_NO && password == "admin";
    var isEmployee := empNo != ADMIN_EMP_NO && password == "employee";
    if isAdmin then AuthResult(true, Some(ADMIN_ROLE))
    else if isEmployee then AuthResult(true, Some(EMPLOYEE_ROLE))
    else AuthResult(false, None)
  }
}
