/**
 * What the portal tells its user. `showMessage` puts a text in a toast of some kind; the
 * model returns that toast instead of drawing it. Validation rules answer with a `Verdict`
 * whose rejection carries the toast text.
 */
module Messages {

  datatype Kind = Success | Error | Info

  datatype Toast = Toast(message: string, kind: Kind)

  datatype Verdict = Accepted | Rejected(message: string)

  const FillAllFields := "कृपया सभी फ़ील्ड भरें"
  const InvalidMobile := "कृपया वैध मोबाइल नंबर दर्ज करें"
  const InvalidAadhaar := "कृपया वैध आधार नंबर दर्ज करें"
  const DescribeComplaint := "कृपया शिकायत का विवरण दें"
  const LoggedIn := "सफलतापूर्वक लॉगिन हो गए"
  const RegisteredOk := "सफलतापूर्वक पंजीकरण हो गया"
  const LoggedOutHindi := "सफलतापूर्वक लॉग आउट हो गए"
  const LoggedOutEnglish := "Successfully logged out"
  const StatusUpdated := "शिकायत की स्थिति अपडेट की गई"

  function ComplaintFiled(id: string): string {
    "शिकायत दर्ज की गई। शिकायत ID: " + id
  }

  function QuickComplaintFiled(id: string): string {
    "त्वरित शिकायत दर्ज की गई। ID: " + id
  }

  /** The error toast a rejected form shows. */
  function RejectionToast(v: Verdict): Toast
    requires v.Rejected?
  {
    Toast(v.message, Error)
  }
}

/** The display language, a process-wide setting. */
module Locale {

  datatype Language = En | Hi

  /** `toggleLanguage`'s switch: English becomes Hindi, anything else becomes English. */
  function Toggled(lang: Language): (r: Language)
    ensures r != lang
  {
    if lang == En then Hi else En
  }
}
