/**
 * The profile page's settings list: two sections of items, of which the
 * toggle items are switches over a map of boolean settings, flipped one key
 * at a time.
 */
module ProfileSettings {

  datatype ItemKind = Toggle | Select(value: string) | Link

  datatype SettingItem = SettingItem(id: string, caption: string, kind: ItemKind)

  datatype Section = Section(title: string, items: seq<SettingItem>)

  /** `settingsSections`. */
  function SettingsSections(): seq<Section> {
    [ Section("Preferences", [
        SettingItem("notifications", "Push Notifications", Toggle),
        SettingItem("darkMode", "Dark Mode", Toggle),
        SettingItem("language", "Language", Select("English"))]),
      Section("Account", [
        SettingItem("privacy", "Privacy Settings", Link),
        SettingItem("export", "Export Data", Link),
        SettingItem("help", "Help & Support", Link)]) ]
  }

  /** The ids of the toggle items of `items`, in order: the items rendered with a switch wired to the toggle. */
  function ToggleIds(items: seq<SettingItem>): (ids: seq<string>)
    ensures forall id :: id in ids ==> exists i :: 0 <= i < |items| && items[i].id == id && items[i].kind == Toggle
    decreases |items|
  {
    if items == [] then []
    else
      var rest := ToggleIds(items[1..]);
      assert forall id :: id in rest ==> exists i :: 1 <= i < |items| && items[i].id == id && items[i].kind == Toggle by {
        forall id | id in rest
          ensures exists i :: 1 <= i < |items| && items[i].id == id && items[i].kind == Toggle
        {
          var j :| 0 <= j < |items[1..]| && items[1..][j].id == id && items[1..][j].kind == Toggle;
          assert items[j + 1] == items[1..][j];
        }
      }
      (if items[0].kind == Toggle then [items[0].id] else []) + rest
  }

  /** The toggle ids of every section, section by section. */
  function AllToggleIds(sections: seq<Section>): seq<string>
    decreases |sections|
  {
    if sections == [] then [] else ToggleIds(sections[0].items) + AllToggleIds(sections[1..])
  }

  /** The initial `settings` state. */
  function InitialSettings(): map<string, bool> {
    map["notifications" := true, "darkMode" := false]
  }

  /**
   * `{ ...prev, [k]: !prev[k] }`: key k is negated, where a key that is not
   * set reads as false and so becomes true; every other key keeps its value.
   */
  function Toggled(m: map<string, bool>, k: string): (r: map<string, bool>)
    ensures r.Keys == m.Keys + {k}
    ensures r[k] <==> !(k in m && m[k])
    ensures forall j :: j in m && j != k ==> r[j] == m[j]
  {
    m[k := !(k in m && m[k])]
  }

  /** Flipping a set key twice gives back the settings it started from. */
  lemma ToggleTwice(m: map<string, bool>, k: string)
    requires k in m
    ensures Toggled(Toggled(m, k), k) == m
  {
    var r := Toggled(Toggled(m, k), k);
    assert r.Keys == m.Keys;
    assert forall j :: j in m ==> r[j] == m[j];
  }

  /** An unset key is not restored by two flips: it ends up set to false. */
  lemma ToggleTwiceUnset(m: map<string, bool>, k: string)
    requires k !in m
    ensures Toggled(Toggled(m, k), k) == m[k := false]
    ensures Toggled(Toggled(m, k), k) != m
  {
    var r := Toggled(Toggled(m, k), k);
    assert k in r && k !in m;
    assert r.Keys == m[k := false].Keys;
  }

  /**
   * Exactly the two toggle items, notifications then dark mode, are wired to
   * the toggle, and both are keys of the initial settings, so a switch never
   * flips an unset key.
   */
  lemma OnlyToggleItemsWired()
    ensures AllToggleIds(SettingsSections()) == ["notifications", "darkMode"]
    ensures forall id :: id in AllToggleIds(SettingsSections()) ==> id in InitialSettings()
  {
    var s := SettingsSections();
    assert ToggleIds(s[0].items) == ["notifications", "darkMode"] by {
      var items := s[0].items;
      assert items[1..][1..][1..] == [];
    }
    assert ToggleIds(s[1].items) == [] by {
      var items := s[1].items;
      assert items[1..][1..][1..] == [];
    }
    assert s[1..][1..] == [];
  }

  /** The page's `settings` state. */
  class ProfileScreen {
    var settings: map<string, bool>

    /** The settings hold exactly the two switches' keys. */
    ghost predicate Valid()
      reads this
    {
      settings.Keys == {"notifications", "darkMode"}
    }

    constructor ()
      ensures settings == InitialSettings()
      ensures settings["notifications"] && !settings["darkMode"]
      ensures Valid()
    {
      settings := InitialSettings();
    }

    /** `handleSettingToggle`. */
    method HandleSettingToggle(k: string)
      modifies this
      ensures settings == Toggled(old(settings), k)
      ensures old(Valid()) && k in old(settings) ==> Valid()
    {
      settings := settings[k := !(k in settings && settings[k])];
    }
  }
}
