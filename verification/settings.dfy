/** The settings screen: a notifications record and a preferences record, each assigned key by key. */
module SettingsScreen {

  datatype Category = NotificationsCategory | PreferencesCategory

  /** Both records; the key is any string, so an unknown key is added. */
  datatype SettingsState = SettingsState(notifications: map<string, bool>, preferences: map<string, bool>)

  const InitialState := SettingsState(
    map["pushEnabled" := true, "orderUpdates" := true, "promotions" := false, "newsletter" := false],
    map["darkMode" := false, "biometricLogin" := false, "locationServices" := true])

  function Target(st: SettingsState, category: Category): map<string, bool> {
    if category == NotificationsCategory then st.notifications else st.preferences
  }

  /** `toggleSetting(category, setting, value)`: assigns `value` to `setting` in the chosen record. */
  function ToggleSetting(st: SettingsState, category: Category, setting: string, value: bool): (r: SettingsState)
    ensures setting in Target(r, category) && Target(r, category)[setting] == value
    ensures forall k :: k != setting ==>
      (k in Target(r, category) <==> k in Target(st, category))
      && (k in Target(st, category) ==> Target(r, category)[k] == Target(st, category)[k])
    ensures category == NotificationsCategory ==> r.preferences == st.preferences
    ensures category == PreferencesCategory ==> r.notifications == st.notifications
  {
    if category == NotificationsCategory then
      st.(notifications := st.notifications[setting := value])
    else
      st.(preferences := st.preferences[setting := value])
  }

  /** The call assigns rather than flips, so repeating it changes nothing more. */
  lemma ToggleIdempotent(st: SettingsState, category: Category, setting: string, value: bool)
    ensures ToggleSetting(ToggleSetting(st, category, setting, value), category, setting, value)
         == ToggleSetting(st, category, setting, value)
  {
    var once := ToggleSetting(st, category, setting, value);
    var twice := ToggleSetting(once, category, setting, value);
    assert Target(twice, category) == Target(once, category);
  }

  /** Assigning a key its current value leaves the state as it was. */
  lemma ToggleCurrentValue(st: SettingsState, category: Category, setting: string)
    requires setting in Target(st, category)
    ensures ToggleSetting(st, category, setting, Target(st, category)[setting]) == st
  {
    var r := ToggleSetting(st, category, setting, Target(st, category)[setting]);
    assert Target(r, category) == Target(st, category);
  }
}
