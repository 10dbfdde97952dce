/** The settings forms (client/src/pages/manager/settings.tsx): the bounds the
    security form's schema puts on its two numeric fields, and both forms'
    default values. The forms have no submit handler. */
module Settings {
  import opened Wrappers

  const SessionTimeoutMin := 5
  const SessionTimeoutMax := 1440
  const PasswordExpirationMin := 30
  const PasswordExpirationMax := 365

  datatype SecuritySettings = SecuritySettings(requireTwoFactor: bool, sessionTimeout: int, passwordExpiration: int)

  datatype NotificationSettings = NotificationSettings(
    emailNotifications: bool, smsNotifications: bool, paymentReminders: bool, maintenanceAlerts: bool)

  /** The notification form's values as the resolver receives them: `None`
      where a field holds something other than a boolean. */
  datatype NotificationForm = NotificationForm(
    emailNotifications: Option<bool>, smsNotifications: Option<bool>,
    paymentReminders: Option<bool>, maintenanceAlerts: Option<bool>)

  datatype Field =
    | SessionTimeout | PasswordExpiration
    | EmailNotifications | SmsNotifications | PaymentReminders | MaintenanceAlerts

  /** One schema violation: a number under its minimum or over its maximum,
      or a value that is not a boolean. */
  datatype Issue =
    | TooSmall(field: Field, minimum: int)
    | TooBig(field: Field, maximum: int)
    | NotBoolean(field: Field)

  /** A number bounded below by `lo` and above by `hi`: at most one issue. */
  function RangeIssues(field: Field, value: int, lo: int, hi: int): (issues: seq<Issue>)
    ensures issues == [] <==> lo <= value <= hi
    ensures |issues| <= 1
    ensures forall i :: 0 <= i < |issues| ==> issues[i].field == field
    ensures value < lo ==> issues == [TooSmall(field, lo)]
    ensures lo <= hi < value ==> issues == [TooBig(field, hi)]
  {
    if value < lo then [TooSmall(field, lo)]
    else if value > hi then [TooBig(field, hi)]
    else []
  }

  /** Every issue of `securitySettingsSchema`, field by field. */
  function SecurityIssues(s: SecuritySettings): (issues: seq<Issue>)
    ensures |issues| <= 2
    ensures (exists i :: 0 <= i < |issues| && issues[i].field == SessionTimeout)
        <==> !(SessionTimeoutMin <= s.sessionTimeout <= SessionTimeoutMax)
    ensures (exists i :: 0 <= i < |issues| && issues[i].field == PasswordExpiration)
        <==> !(PasswordExpirationMin <= s.passwordExpiration <= PasswordExpirationMax)
    ensures s.sessionTimeout < SessionTimeoutMin ==> TooSmall(SessionTimeout, SessionTimeoutMin) in issues
    ensures s.sessionTimeout > SessionTimeoutMax ==> TooBig(SessionTimeout, SessionTimeoutMax) in issues
    ensures s.passwordExpiration < PasswordExpirationMin ==> TooSmall(PasswordExpiration, PasswordExpirationMin) in issues
    ensures s.passwordExpiration > PasswordExpirationMax ==> TooBig(PasswordExpiration, PasswordExpirationMax) in issues
  {
    var a := RangeIssues(SessionTimeout, s.sessionTimeout, SessionTimeoutMin, SessionTimeoutMax);
    var b := RangeIssues(PasswordExpiration, s.passwordExpiration, PasswordExpirationMin, PasswordExpirationMax);
    assert forall i :: |a| <= i < |a + b| ==> (a + b)[i] == b[i - |a|];
    assert a != [] ==> (a + b)[0] == a[0];
    assert b != [] ==> (a + b)[|a|] == b[0];
    a + b
  }

  /** The form's resolver: the settings when they parse, otherwise the issues. */
  function ValidateSecurity(s: SecuritySettings): (r: Result<SecuritySettings, seq<Issue>>)
    ensures r.Ok? <==>
      && SessionTimeoutMin <= s.sessionTimeout <= SessionTimeoutMax
      && PasswordExpirationMin <= s.passwordExpiration <= PasswordExpirationMax
    ensures r.Ok? ==> r.value == s
    ensures r.Err? ==> r.error != [] && r.error == SecurityIssues(s)
  {
    var issues := SecurityIssues(s);
    if issues == [] then Ok(s) else Err(issues)
  }

  /** The security form's default values. */
  function SecurityDefaults(): (d: SecuritySettings)
    ensures !d.requireTwoFactor
    ensures d.sessionTimeout == 30 && d.passwordExpiration == 90
    ensures ValidateSecurity(d) == Ok(d)
  {
    SecuritySettings(false, 30, 90)
  }

  /** A `z.boolean()` field: one issue unless the value is a boolean. */
  function BoolIssues(field: Field, value: Option<bool>): (issues: seq<Issue>)
    ensures issues == [] <==> value.Some?
    ensures value.None? ==> issues == [NotBoolean(field)]
  {
    if value.Some? then [] else [NotBoolean(field)]
  }

  /** Every issue of `notificationSettingsSchema`, field by field. */
  function NotificationIssues(f: NotificationForm): (issues: seq<Issue>)
    ensures |issues| <= 4
    ensures forall i :: 0 <= i < |issues| ==> issues[i].NotBoolean?
    ensures NotBoolean(EmailNotifications) in issues <==> f.emailNotifications.None?
    ensures NotBoolean(SmsNotifications) in issues <==> f.smsNotifications.None?
    ensures NotBoolean(PaymentReminders) in issues <==> f.paymentReminders.None?
    ensures NotBoolean(MaintenanceAlerts) in issues <==> f.maintenanceAlerts.None?
  {
    BoolIssues(EmailNotifications, f.emailNotifications)
      + BoolIssues(SmsNotifications, f.smsNotifications)
      + BoolIssues(PaymentReminders, f.paymentReminders)
      + BoolIssues(MaintenanceAlerts, f.maintenanceAlerts)
  }

  /** The notification form's resolver: the four booleans when every field
      holds one, otherwise the fields that do not. */
  function ValidateNotifications(f: NotificationForm): (r: Result<NotificationSettings, seq<Issue>>)
    ensures r.Ok? <==>
      && f.emailNotifications.Some? && f.smsNotifications.Some?
      && f.paymentReminders.Some? && f.maintenanceAlerts.Some?
    ensures r.Ok? ==> FormOf(r.value) == f
    ensures r.Err? ==> r.error != [] && r.error == NotificationIssues(f)
  {
    var issues := NotificationIssues(f);
    if issues == [] then
      Ok(NotificationSettings(f.emailNotifications.value, f.smsNotifications.value,
                              f.paymentReminders.value, f.maintenanceAlerts.value))
    else Err(issues)
  }

  /** The form holding the given settings. */
  function FormOf(n: NotificationSettings): NotificationForm {
    NotificationForm(Some(n.emailNotifications), Some(n.smsNotifications),
                     Some(n.paymentReminders), Some(n.maintenanceAlerts))
  }

  /** Settings put in the form come back out of the resolver unchanged. */
  lemma NotificationRoundTrip(n: NotificationSettings)
    ensures ValidateNotifications(FormOf(n)) == Ok(n)
  {
  }

  /** The notification form's default values. */
  function NotificationDefaults(): (d: NotificationSettings)
    ensures d.emailNotifications && !d.smsNotifications
    ensures d.paymentReminders && d.maintenanceAlerts
    ensures ValidateNotifications(FormOf(d)) == Ok(d)
  {
    NotificationSettings(true, false, true, true)
  }
}
