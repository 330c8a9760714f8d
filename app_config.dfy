/**
 * The build configuration: the value of the APP_VARIANT environment
 * variable picks the app's name, slug, URL scheme and iOS bundle
 * identifier, which are laid over the incoming configuration.
 */
module AppConfig {
  import opened Wrappers

  /** The APP_VARIANT variable: unset, or its text. */
  type Variant = Option<string>

  predicate IsDev(v: Variant) { v == Some("development") }
  predicate IsPreview(v: Variant) { v == Some("preview") }

  /** `getAppName`. */
  function GetAppName(v: Variant): (name: string)
    ensures IsDev(v) ==> name == "Chat App Dev"
    ensures IsPreview(v) ==> name == "Chat App Preview"
    ensures !IsDev(v) && !IsPreview(v) ==> name == "Chat App"
  {
    if IsDev(v) then "Chat App Dev" else if IsPreview(v) then "Chat App Preview" else "Chat App"
  }

  const BaseIdentifier := "com.araintelligence.chatapp"

  /** `getUniqueIdentifier`. */
  function GetUniqueIdentifier(v: Variant): (id: string)
    ensures IsDev(v) ==> id == BaseIdentifier + ".dev"
    ensures IsPreview(v) ==> id == BaseIdentifier + ".preview"
    ensures !IsDev(v) && !IsPreview(v) ==> id == BaseIdentifier
  {
    if IsDev(v) then "com.araintelligence.chatapp.dev"
    else if IsPreview(v) then "com.araintelligence.chatapp.preview"
    else "com.araintelligence.chatapp"
  }

  /** `getSlug`. */
  function GetSlug(v: Variant): (slug: string)
    ensures IsDev(v) ==> slug == "chatapp-dev"
    ensures IsPreview(v) ==> slug == "chatapp-preview"
    ensures !IsDev(v) && !IsPreview(v) ==> slug == "chatapp"
  {
    if IsDev(v) then "chatapp-dev" else if IsPreview(v) then "chatapp-preview" else "chatapp"
  }

  /** `getScheme`. */
  function GetScheme(v: Variant): (scheme: string)
    ensures IsDev(v) ==> scheme == "chatapp-dev"
    ensures IsPreview(v) ==> scheme == "chatapp-preview"
    ensures !IsDev(v) && !IsPreview(v) ==> scheme == "chatapp"
  {
    if IsDev(v) then "chatapp-dev" else if IsPreview(v) then "chatapp-preview" else "chatapp"
  }

  /** Slug and URL scheme never differ, and the three variants get three different ones. */
  lemma SlugIsScheme(v: Variant, w: Variant)
    ensures GetSlug(v) == GetScheme(v)
    ensures (IsDev(v) != IsDev(w) || IsPreview(v) != IsPreview(w)) ==> GetSlug(v) != GetSlug(w)
  {
    assert "chatapp-dev"[8] != "chatapp-preview"[8];
    assert |"chatapp"| < |"chatapp-dev"| < |"chatapp-preview"|;
  }

  /**
   * Only "development" and "preview" are special: unset, "production" and
   * any other text all give the production values.
   */
  lemma EveryOtherVariantIsProduction(v: Variant)
    requires v != Some("development") && v != Some("preview")
    ensures GetAppName(v) == GetAppName(Some("production")) == GetAppName(None) == "Chat App"
    ensures GetUniqueIdentifier(v) == GetUniqueIdentifier(None) == BaseIdentifier
    ensures GetSlug(v) == GetSlug(None) && GetScheme(v) == GetScheme(None)
  {
  }

  /** A configuration value, as the JSON-like object the build tool reads. */
  datatype Json =
    | JString(s: string)
    | JBool(b: bool)
    | JNumber(n: int)
    | JArray(items: seq<Json>)
    | JObject(fields: map<string, Json>)

  /** The `ios` section, which replaces any incoming one as a whole. */
  function IosSection(v: Variant): Json {
    JObject(map[
      "supportsTablet" := JBool(true),
      "bundleIdentifier" := JString(GetUniqueIdentifier(v)),
      "infoPlist" := JObject(map["ITSAppUsesNonExemptEncryption" := JBool(false)])
    ])
  }

  /** The four fields of `config` that depend on the variant. */
  function VariantFields(v: Variant): map<string, Json> {
    map[
      "name" := JString(GetAppName(v)),
      "slug" := JString(GetSlug(v)),
      "scheme" := JString(GetScheme(v)),
      "ios" := IosSection(v)
    ]
  }

  /** The fields of `config` that are the same for every variant. */
  function FixedFields(): map<string, Json> {
    map[
      "version" := JString("1.0.0"),
      "orientation" := JString("portrait"),
      "icon" := JString("./assets/images/icon.png"),
      "userInterfaceStyle" := JString("automatic"),
      "newArchEnabled" := JBool(true),
      "android" := JObject(map[
        "adaptiveIcon" := JObject(map[
          "foregroundImage" := JString("./assets/images/adaptive-icon.png"),
          "backgroundColor" := JString("#ffffff")])]),
      "web" := JObject(map[
        "bundler" := JString("metro"),
        "output" := JString("static"),
        "favicon" := JString("./assets/images/favicon.png")]),
      "plugins" := JArray([
        JString("expo-router"),
        JArray([JString("expo-splash-screen"), JObject(map[
          "image" := JString("./assets/images/splash-icon.png"),
          "imageWidth" := JNumber(200),
          "resizeMode" := JString("contain"),
          "backgroundColor" := JString("#ffffff")])])]),
      "experiments" := JObject(map["typedRoutes" := JBool(true)]),
      "extra" := JObject(map[
        "router" := JObject(map["origin" := JBool(false)]),
        "eas" := JObject(map["projectId" := JString("b5193418-ccc8-47f7-b25f-e4584de842e3")])])
    ]
  }

  /** Every field `config` writes after `...config`; no field is written twice. */
  function Overrides(v: Variant): map<string, Json> {
    FixedFields() + VariantFields(v)
  }

  /** `config`: the incoming fields, with the app's own fields written over them. */
  function Config(v: Variant, incoming: map<string, Json>): (r: map<string, Json>)
    ensures r.Keys == incoming.Keys + Overrides(v).Keys
    ensures forall k :: k in incoming && k !in Overrides(v) ==> r[k] == incoming[k]
    ensures forall k :: k in Overrides(v) ==> r[k] == Overrides(v)[k]
  {
    incoming + Overrides(v)
  }

  /**
   * The build's identity follows the variant whatever came in: name, slug
   * and scheme are the variant's, and the bundle identifier inside the
   * replaced `ios` section is the variant's too.
   */
  lemma ConfigIdentity(v: Variant, incoming: map<string, Json>)
    ensures Config(v, incoming)["name"] == JString(GetAppName(v))
    ensures Config(v, incoming)["slug"] == JString(GetSlug(v))
    ensures Config(v, incoming)["scheme"] == JString(GetScheme(v))
    ensures Config(v, incoming)["ios"].JObject?
    ensures Config(v, incoming)["ios"].fields["bundleIdentifier"] == JString(GetUniqueIdentifier(v))
  {
    var o := Overrides(v);
    assert VariantFields(v).Keys == {"name", "slug", "scheme", "ios"};
    assert o["name"] == VariantFields(v)["name"] && o["slug"] == VariantFields(v)["slug"];
    assert o["scheme"] == VariantFields(v)["scheme"] && o["ios"] == VariantFields(v)["ios"];
  }

  /** A field the app does not set, such as `owner`, passes through unchanged. */
  lemma ForeignFieldsKept(v: Variant, incoming: map<string, Json>)
    requires "owner" in incoming
    ensures Config(v, incoming)["owner"] == incoming["owner"]
  {
    assert "owner" !in Overrides(v);
  }

  /** The incoming `ios` section is dropped, not merged: an incoming build number does not survive. */
  lemma IosSectionReplaced(v: Variant, incoming: map<string, Json>)
    ensures Config(v, incoming)["ios"] == IosSection(v)
    ensures "buildNumber" !in Config(v, incoming)["ios"].fields
  {
    assert Overrides(v)["ios"] == VariantFields(v)["ios"];
  }
}
