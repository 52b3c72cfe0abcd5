/** The settings page: three records edited one field at a time. Field names are the ones
    the page's controls pass. */
module Settings {

  datatype ProfileForm = ProfileForm(name: string, email: string, role: string, location: string,
                                     website: string, bio: string)

  datatype ProfileField = Name | Email | Role | Location | Website | Bio

  function ProfileValue(p: ProfileForm, f: ProfileField): string {
    match f
    case Name => p.name
    case Email => p.email
    case Role => p.role
    case Location => p.location
    case Website => p.website
    case Bio => p.bio
  }

  /** `handleProfileChange(field, value)`: the field takes the new value and every other
      field keeps its old one. */
  function ProfileChange(p: ProfileForm, f: ProfileField, v: string): (r: ProfileForm)
    ensures ProfileValue(r, f) == v
    ensures forall g :: g != f ==> ProfileValue(r, g) == ProfileValue(p, g)
  {
    match f
    case Name => p.(name := v)
    case Email => p.(email := v)
    case Role => p.(role := v)
    case Location => p.(location := v)
    case Website => p.(website := v)
    case Bio => p.(bio := v)
  }

  /** Two forms that agree on every field are the same form. */
  lemma ProfileFieldsDetermine(p: ProfileForm, q: ProfileForm)
    requires forall g :: ProfileValue(p, g) == ProfileValue(q, g)
    ensures p == q
  {
    assert ProfileValue(p, Name) == ProfileValue(q, Name);
    assert ProfileValue(p, Email) == ProfileValue(q, Email);
    assert ProfileValue(p, Role) == ProfileValue(q, Role);
    assert ProfileValue(p, Location) == ProfileValue(q, Location);
    assert ProfileValue(p, Website) == ProfileValue(q, Website);
    assert ProfileValue(p, Bio) == ProfileValue(q, Bio);
  }

  /** A later change to the same field overrides an earlier one, and writing a field's own
      value back changes nothing. */
  lemma ProfileChangeLastWins(p: ProfileForm, f: ProfileField, v: string, w: string)
    ensures ProfileChange(ProfileChange(p, f, v), f, w) == ProfileChange(p, f, w)
    ensures ProfileChange(p, f, ProfileValue(p, f)) == p
  {
    ProfileFieldsDetermine(ProfileChange(ProfileChange(p, f, v), f, w), ProfileChange(p, f, w));
    ProfileFieldsDetermine(ProfileChange(p, f, ProfileValue(p, f)), p);
  }

  datatype Notifications = Notifications(
    emailNotifications: bool,
    postLikes: bool,
    postComments: bool,
    newFollowers: bool,
    chatMessages: bool,
    jobAlerts: bool,
    weeklyDigest: bool)

  datatype NotificationFlag =
    EmailNotifications | PostLikes | PostComments | NewFollowers | ChatMessages | JobAlerts | WeeklyDigest

  function FlagValue(n: Notifications, f: NotificationFlag): bool {
    match f
    case EmailNotifications => n.emailNotifications
    case PostLikes => n.postLikes
    case PostComments => n.postComments
    case NewFollowers => n.newFollowers
    case ChatMessages => n.chatMessages
    case JobAlerts => n.jobAlerts
    case WeeklyDigest => n.weeklyDigest
  }

  /** `handleNotificationChange(field)`: exactly that flag is negated. */
  function NotificationChange(n: Notifications, f: NotificationFlag): (r: Notifications)
    ensures FlagValue(r, f) == !FlagValue(n, f)
    ensures forall g :: g != f ==> FlagValue(r, g) == FlagValue(n, g)
  {
    match f
    case EmailNotifications => n.(emailNotifications := !n.emailNotifications)
    case PostLikes => n.(postLikes := !n.postLikes)
    case PostComments => n.(postComments := !n.postComments)
    case NewFollowers => n.(newFollowers := !n.newFollowers)
    case ChatMessages => n.(chatMessages := !n.chatMessages)
    case JobAlerts => n.(jobAlerts := !n.jobAlerts)
    case WeeklyDigest => n.(weeklyDigest := !n.weeklyDigest)
  }

  /** Two records that agree on every flag are the same record. */
  lemma FlagsDetermine(n: Notifications, m: Notifications)
    requires forall g :: FlagValue(n, g) == FlagValue(m, g)
    ensures n == m
  {
    assert FlagValue(n, EmailNotifications) == FlagValue(m, EmailNotifications);
    assert FlagValue(n, PostLikes) == FlagValue(m, PostLikes);
    assert FlagValue(n, PostComments) == FlagValue(m, PostComments);
    assert FlagValue(n, NewFollowers) == FlagValue(m, NewFollowers);
    assert FlagValue(n, ChatMessages) == FlagValue(m, ChatMessages);
    assert FlagValue(n, JobAlerts) == FlagValue(m, JobAlerts);
    assert FlagValue(n, WeeklyDigest) == FlagValue(m, WeeklyDigest);
  }

  /** Toggling the same flag twice restores the original record. */
  lemma NotificationChangeTwice(n: Notifications, f: NotificationFlag)
    ensures NotificationChange(NotificationChange(n, f), f) == n
  {
    FlagsDetermine(NotificationChange(NotificationChange(n, f), f), n);
  }

  datatype Privacy = Privacy(profileVisibility: string, showEmail: bool, showLocation: bool)

  /** The three calls the page makes to `handlePrivacyChange`, each with its value. */
  datatype PrivacyChange = SetVisibility(visibility: string) | SetShowEmail(show: bool) | SetShowLocation(show: bool)

  /** `handlePrivacyChange(field, value)`: only the named field takes the new value. */
  function ApplyPrivacyChange(p: Privacy, c: PrivacyChange): (r: Privacy)
    ensures c.SetVisibility? ==> r.profileVisibility == c.visibility && r.showEmail == p.showEmail && r.showLocation == p.showLocation
    ensures c.SetShowEmail? ==> r.showEmail == c.show && r.profileVisibility == p.profileVisibility && r.showLocation == p.showLocation
    ensures c.SetShowLocation? ==> r.showLocation == c.show && r.profileVisibility == p.profileVisibility && r.showEmail == p.showEmail
  {
    match c
    case SetVisibility(v) => p.(profileVisibility := v)
    case SetShowEmail(b) => p.(showEmail := b)
    case SetShowLocation(b) => p.(showLocation := b)
  }

  /** Two changes aim at the same privacy field. */
  predicate SameField(c: PrivacyChange, d: PrivacyChange) {
    || (c.SetVisibility? && d.SetVisibility?)
    || (c.SetShowEmail? && d.SetShowEmail?)
    || (c.SetShowLocation? && d.SetShowLocation?)
  }

  /** The change that writes a field's current value back. */
  function CurrentValue(p: Privacy, c: PrivacyChange): PrivacyChange {
    match c
    case SetVisibility(_) => SetVisibility(p.profileVisibility)
    case SetShowEmail(_) => SetShowEmail(p.showEmail)
    case SetShowLocation(_) => SetShowLocation(p.showLocation)
  }

  /** A later change to the same privacy field overrides an earlier one, changes to different
      fields commute, and writing a field's current value back changes nothing. */
  lemma PrivacyChangeLastWins(p: Privacy, c: PrivacyChange, d: PrivacyChange)
    ensures SameField(c, d) ==> ApplyPrivacyChange(ApplyPrivacyChange(p, c), d) == ApplyPrivacyChange(p, d)
    ensures !SameField(c, d) ==>
      ApplyPrivacyChange(ApplyPrivacyChange(p, c), d) == ApplyPrivacyChange(ApplyPrivacyChange(p, d), c)
    ensures ApplyPrivacyChange(p, CurrentValue(p, c)) == p
  {
  }

  /** The show-email and show-location switches: `handlePrivacyChange(field, !privacy[field])`. */
  function ToggleShowEmail(p: Privacy): (r: Privacy)
    ensures r.showEmail == !p.showEmail
    ensures r.profileVisibility == p.profileVisibility && r.showLocation == p.showLocation
  {
    ApplyPrivacyChange(p, SetShowEmail(!p.showEmail))
  }

  function ToggleShowLocation(p: Privacy): (r: Privacy)
    ensures r.showLocation == !p.showLocation
    ensures r.profileVisibility == p.profileVisibility && r.showEmail == p.showEmail
  {
    ApplyPrivacyChange(p, SetShowLocation(!p.showLocation))
  }

  /** Clicking either switch twice restores the privacy record. */
  lemma PrivacyToggleTwice(p: Privacy)
    ensures ToggleShowEmail(ToggleShowEmail(p)) == p
    ensures ToggleShowLocation(ToggleShowLocation(p)) == p
  {
  }
}
