/** The privacy and security settings: sections of items, some of them switches. */
module PrivacySecurityScreen {
  import opened Wrappers

  datatype SettingType = Switch | Button

  /** An item; `value` is absent on button items, as is `buttonText` on switches. */
  datatype PrivacySetting = PrivacySetting(
    id: string, title: string, description: string, kind: SettingType, value: Option<bool>, buttonText: Option<string>)

  datatype PrivacySection = PrivacySection(title: string, items: seq<PrivacySetting>)

  function SwitchItem(id: string, title: string, description: string, on: bool): PrivacySetting {
    PrivacySetting(id, title, description, Switch, Some(on), None)
  }

  function ButtonItem(id: string, title: string, description: string, text: string): PrivacySetting {
    PrivacySetting(id, title, description, Button, None, Some(text))
  }

  const InitialSettings: seq<PrivacySection> := [
    PrivacySection("Privacy", [
      SwitchItem("profileVisibility", "Profile Visibility", "Make your profile visible to other users", true),
      SwitchItem("activityStatus", "Activity Status", "Show when you were last active", false),
      SwitchItem("dataSharing", "Data Sharing", "Share usage data to improve our services", true)]),
    PrivacySection("Security", [
      SwitchItem("twoFactor", "Two-Factor Authentication", "Add an extra layer of security", false),
      ButtonItem("changePassword", "Change Password", "Update your account password", "Change"),
      SwitchItem("biometric", "Biometric Login", "Use fingerprint or face recognition", true)]),
    PrivacySection("Data Management", [
      ButtonItem("downloadData", "Download Your Data", "Get a copy of your personal data", "Download"),
      ButtonItem("deleteAccount", "Delete Account", "Permanently delete your account and data", "Delete")])
  ]

  /** `{...item, value: !item.value}` for a matching id: an absent value counts as false, so it becomes true. */
  function ToggleItem(item: PrivacySetting, itemId: string): (r: PrivacySetting)
    ensures r.(value := item.value) == item
    ensures item.id == itemId ==> r.value.Some? && r.value.value != (item.value == Some(true))
    ensures item.id != itemId ==> r == item
  {
    if item.id == itemId then item.(value := Some(!item.value.GetOr(false))) else item
  }

  function ToggleItems(items: seq<PrivacySetting>, itemId: string): (r: seq<PrivacySetting>)
    ensures |r| == |items| && forall i :: 0 <= i < |items| ==> r[i] == ToggleItem(items[i], itemId)
  {
    if items == [] then [] else [ToggleItem(items[0], itemId)] + ToggleItems(items[1..], itemId)
  }

  /** `handleToggle(sectionIndex, itemId)`: the outer `map` with its index. */
  function HandleToggle(sections: seq<PrivacySection>, sectionIndex: int, itemId: string): (r: seq<PrivacySection>)
    ensures |r| == |sections|
    ensures forall k :: 0 <= k < |sections| ==>
      r[k] == if k == sectionIndex then sections[k].(items := ToggleItems(sections[k].items, itemId)) else sections[k]
  {
    seq(|sections|, k requires 0 <= k < |sections| =>
      if k == sectionIndex then sections[k].(items := ToggleItems(sections[k].items, itemId)) else sections[k])
  }

  /** Two structures that differ at most in item values. */
  predicate SameShape(a: seq<PrivacySection>, b: seq<PrivacySection>) {
    |a| == |b|
    && forall k :: 0 <= k < |a| ==>
      a[k].title == b[k].title && |a[k].items| == |b[k].items|
      && forall i :: 0 <= i < |a[k].items| ==> a[k].items[i].(value := None) == b[k].items[i].(value := None)
  }

  /**
   * A toggle keeps the number and order of sections and items and every
   * field but `value`; it negates the value of exactly the items with that
   * id in that section, and leaves everything else as it was.
   */
  lemma ToggleEffect(s: seq<PrivacySection>, sectionIndex: int, itemId: string)
    ensures SameShape(HandleToggle(s, sectionIndex, itemId), s)
    ensures forall k :: 0 <= k < |s| && k != sectionIndex ==> HandleToggle(s, sectionIndex, itemId)[k] == s[k]
    ensures 0 <= sectionIndex < |s| ==> forall i :: 0 <= i < |s[sectionIndex].items| ==>
      var before := s[sectionIndex].items[i];
      var after := HandleToggle(s, sectionIndex, itemId)[sectionIndex].items[i];
      if before.id == itemId then after.value == Some(!before.value.GetOr(false)) else after == before
  {
  }

  /** An index out of range, or an id absent from that section, changes nothing. */
  lemma ToggleNoMatch(s: seq<PrivacySection>, sectionIndex: int, itemId: string)
    requires !(0 <= sectionIndex < |s|)
      || forall i :: 0 <= i < |s[sectionIndex].items| ==> s[sectionIndex].items[i].id != itemId
    ensures HandleToggle(s, sectionIndex, itemId) == s
  {
    var r := HandleToggle(s, sectionIndex, itemId);
    if 0 <= sectionIndex < |s| {
      assert r[sectionIndex].items == s[sectionIndex].items;
    }
  }

  /** For switches that hold a value, toggling twice restores the settings. */
  lemma ToggleTwice(s: seq<PrivacySection>, sectionIndex: int, itemId: string)
    requires 0 <= sectionIndex < |s| ==> forall i :: 0 <= i < |s[sectionIndex].items| ==>
      s[sectionIndex].items[i].id == itemId ==> s[sectionIndex].items[i].value.Some?
    ensures HandleToggle(HandleToggle(s, sectionIndex, itemId), sectionIndex, itemId) == s
  {
    var r := HandleToggle(HandleToggle(s, sectionIndex, itemId), sectionIndex, itemId);
    forall k | 0 <= k < |s|
      ensures r[k] == s[k]
    {
      if k == sectionIndex {
        assert r[k].items == s[k].items;
      }
    }
  }

  /** On the initial settings every switch holds a value, so toggling any switch twice restores them. */
  lemma InitialTogglesUndo(sectionIndex: int, itemId: string)
    ensures HandleToggle(HandleToggle(InitialSettings, sectionIndex, itemId), sectionIndex, itemId) == InitialSettings
      || (0 <= sectionIndex < |InitialSettings| && exists i | 0 <= i < |InitialSettings[sectionIndex].items| ::
            InitialSettings[sectionIndex].items[i].id == itemId && InitialSettings[sectionIndex].items[i].kind == Button)
  {
    var s := InitialSettings;
    if 0 <= sectionIndex < |s| {
      if forall i :: 0 <= i < |s[sectionIndex].items| ==> s[sectionIndex].items[i].id == itemId ==> s[sectionIndex].items[i].value.Some? {
        ToggleTwice(s, sectionIndex, itemId);
      } else {
        var i :| 0 <= i < |s[sectionIndex].items| && s[sectionIndex].items[i].id == itemId && s[sectionIndex].items[i].value.None?;
        assert s[sectionIndex].items[i].kind == Button;
      }
    } else {
      ToggleTwice(s, sectionIndex, itemId);
    }
  }
}
