/** The sharing-settings screen: two records of switches, each flipped one
    field at a time by a state updater, and a save button that only
    navigates. */
module SharingSettings {
  import opened Types

  datatype ShareSettings = ShareSettings(family: bool, friends: bool, public: bool)
  datatype ShareKey = Family | Friends | Public

  datatype NotificationSettings = NotificationSettings(familyHealth: bool, friendActivity: bool)
  datatype NotificationKey = FamilyHealth | FriendActivity

  const InitialShareSettings: ShareSettings := ShareSettings(true, true, false)
  const InitialNotificationSettings: NotificationSettings := NotificationSettings(true, true)

  /** `prev[key]`. */
  function ShareValue(s: ShareSettings, key: ShareKey): bool {
    match key
    case Family => s.family
    case Friends => s.friends
    case Public => s.public
  }

  /** The updater `prev => ({...prev, [key]: !prev[key]})`. */
  function ToggleShare(s: ShareSettings, key: ShareKey): (r: ShareSettings)
    ensures ShareValue(r, key) == !ShareValue(s, key)
    ensures forall other :: other != key ==> ShareValue(r, other) == ShareValue(s, other)
  {
    match key
    case Family => s.(family := !s.family)
    case Friends => s.(friends := !s.friends)
    case Public => s.(public := !s.public)
  }

  function NotificationValue(n: NotificationSettings, key: NotificationKey): bool {
    match key
    case FamilyHealth => n.familyHealth
    case FriendActivity => n.friendActivity
  }

  function ToggleNotification(n: NotificationSettings, key: NotificationKey): (r: NotificationSettings)
    ensures NotificationValue(r, key) == !NotificationValue(n, key)
    ensures forall other :: other != key ==> NotificationValue(r, other) == NotificationValue(n, other)
  {
    match key
    case FamilyHealth => n.(familyHealth := !n.familyHealth)
    case FriendActivity => n.(friendActivity := !n.friendActivity)
  }

  /** A record is determined by its fields, so flipping one key twice
      restores it. */
  lemma {:induction false} ToggleShareTwice(s: ShareSettings, key: ShareKey)
    ensures ToggleShare(ToggleShare(s, key), key) == s
  {
    var r := ToggleShare(ToggleShare(s, key), key);
    assert ShareValue(r, Family) == ShareValue(s, Family);
    assert ShareValue(r, Friends) == ShareValue(s, Friends);
    assert ShareValue(r, Public) == ShareValue(s, Public);
  }

  lemma {:induction false} ToggleNotificationTwice(n: NotificationSettings, key: NotificationKey)
    ensures ToggleNotification(ToggleNotification(n, key), key) == n
  {
    var r := ToggleNotification(ToggleNotification(n, key), key);
    assert NotificationValue(r, FamilyHealth) == NotificationValue(n, FamilyHealth);
    assert NotificationValue(r, FriendActivity) == NotificationValue(n, FriendActivity);
  }

  /** Flips of different keys commute. */
  lemma ToggleShareCommutes(s: ShareSettings, a: ShareKey, b: ShareKey)
    ensures ToggleShare(ToggleShare(s, a), b) == ToggleShare(ToggleShare(s, b), a)
  {
  }

  class SharingSettingsPage {
    var shareSettings: ShareSettings
    var notificationSettings: NotificationSettings

    constructor ()
      ensures shareSettings == InitialShareSettings
      ensures notificationSettings == InitialNotificationSettings
    {
      shareSettings := InitialShareSettings;
      notificationSettings := InitialNotificationSettings;
    }

    /** `handleShareSettingChange`: the share record gets the updater; the
        notification record is untouched. */
    method HandleShareSettingChange(key: ShareKey)
      modifies this`shareSettings
      ensures shareSettings == ToggleShare(old(shareSettings), key)
    {
      shareSettings := ToggleShare(shareSettings, key);
    }

    method HandleNotificationSettingChange(key: NotificationKey)
      modifies this`notificationSettings
      ensures notificationSettings == ToggleNotification(old(notificationSettings), key)
    {
      notificationSettings := ToggleNotification(notificationSettings, key);
    }

    /** `handleSaveSettings`: nothing is stored; it navigates to the sharing
        center and changes neither record. */
    method HandleSaveSettings() returns (target: Page)
      ensures target == SharingCenter
    {
      target := SharingCenter;
    }
  }
}
