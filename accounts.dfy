/**
 * Citizens and officials: the records registration appends, the "current" session values
 * the login functions set, and the presence and length rules the forms enforce.
 * Authentication itself is mock: any password is accepted.
 */
module Accounts {
  import opened Messages

  const PhoneLength := 10
  const AadhaarLength := 12

  datatype User = User(aadhaar: string, phone: string, email: string, address: string, password: string)

  datatype Official = Official(name: string, employeeId: string, department: string, email: string, password: string)

  /** `currentUser`: the mock record a login builds, or the record a registration stored. */
  datatype SessionUser = LoggedInUser(phone: string, name: string) | RegisteredUser(account: User) {
    function Phone(): string {
      match this
      case LoggedInUser(phone, _) => phone
      case RegisteredUser(account) => account.phone
    }
  }

  /** `currentOfficial`: the mock record a login builds, or the record a registration stored. */
  datatype SessionOfficial =
    | LoggedInOfficial(employeeId: string, name: string, department: string)
    | RegisteredOfficial(account: Official)

  /** The checks of `loginUser`, in order: both fields present, then a 10-character phone. */
  function CheckUserLogin(phone: string, password: string): (v: Verdict)
    ensures v.Accepted? <==> phone != "" && password != "" && |phone| == PhoneLength
    ensures v == Rejected(FillAllFields) <==> phone == "" || password == ""
    ensures v == Rejected(InvalidMobile) <==> phone != "" && password != "" && |phone| != PhoneLength
  {
    if phone == "" || password == "" then Rejected(FillAllFields)
    else if |phone| != PhoneLength then Rejected(InvalidMobile)
    else Accepted
  }

  /**
   * The checks of `registerUser`, in order: every field present, then a 12-character
   * Aadhaar number, then a 10-character phone.
   */
  function CheckUserRegistration(aadhaar: string, phone: string, email: string, address: string, password: string): (v: Verdict)
    ensures v.Accepted? <==>
      aadhaar != "" && phone != "" && email != "" && address != "" && password != ""
      && |aadhaar| == AadhaarLength && |phone| == PhoneLength
    ensures v == Rejected(FillAllFields) <==>
      aadhaar == "" || phone == "" || email == "" || address == "" || password == ""
    ensures v == Rejected(InvalidAadhaar) <==>
      aadhaar != "" && phone != "" && email != "" && address != "" && password != ""
      && |aadhaar| != AadhaarLength
    ensures v == Rejected(InvalidMobile) <==>
      aadhaar != "" && phone != "" && email != "" && address != "" && password != ""
      && |aadhaar| == AadhaarLength && |phone| != PhoneLength
  {
    if aadhaar == "" || phone == "" || email == "" || address == "" || password == "" then Rejected(FillAllFields)
    else if |aadhaar| != AadhaarLength then Rejected(InvalidAadhaar)
    else if |phone| != PhoneLength then Rejected(InvalidMobile)
    else Accepted
  }

  /** `loginOfficial` only asks for both fields. */
  function CheckOfficialLogin(employeeId: string, password: string): (v: Verdict)
    ensures v.Accepted? <==> employeeId != "" && password != ""
    ensures v.Rejected? ==> v.message == FillAllFields
  {
    if employeeId == "" || password == "" then Rejected(FillAllFields) else Accepted
  }

  /** `registerOfficial` only asks for every field. */
  function CheckOfficialRegistration(name: string, employeeId: string, department: string, email: string, password: string): (v: Verdict)
    ensures v.Accepted? <==> name != "" && employeeId != "" && department != "" && email != "" && password != ""
    ensures v.Rejected? ==> v.message == FillAllFields
  {
    if name == "" || employeeId == "" || department == "" || email == "" || password == "" then Rejected(FillAllFields)
    else Accepted
  }
}
