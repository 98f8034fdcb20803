/**
 * `ensureURLScheme`: makes sure the app's Info.plist registers a URL scheme so
 * that widget links can open the app. A config-to-config transformation; the
 * loosely typed parts of the Expo config are JSON values.
 */
module UrlScheme {
  import opened Base
  import opened JsonValue

  /** `config.scheme`: Expo allows a string or a list of strings. */
  datatype SchemeSetting = SchemeAbsent | SingleScheme(name: string) | SchemeList(names: seq<string>)

  /** `config.ios`: the fields the function reads, and everything else it copies. */
  datatype IosConfig = IosConfig(
    bundleIdentifier: Option<string>,
    infoPlist: Option<map<string, Value>>,
    otherIosFields: map<string, Value>)

  /** `ExpoConfig`: the fields the function reads, and everything else it copies. */
  datatype ExpoConfig = ExpoConfig(
    scheme: SchemeSetting,
    ios: Option<IosConfig>,
    otherFields: map<string, Value>)

  /** The `TypeError` thrown when `CFBundleURLTypes` is truthy but has no `.some` (it is not an array). */
  datatype ConfigError = UrlTypesNotAnArray

  const UrlTypesKey: string := "CFBundleURLTypes"
  const UrlSchemesKey: string := "CFBundleURLSchemes"

  /** `typeof config.scheme === 'string' ? config.scheme : config.ios?.bundleIdentifier`. */
  function ChosenScheme(c: ExpoConfig): (r: Option<string>)
    // a string scheme wins, even an empty one
    ensures c.scheme.SingleScheme? ==> r == Some(c.scheme.name)
    // the bundle identifier is used only when the scheme is not a string
    ensures r.Some? && !c.scheme.SingleScheme? ==> c.ios.Some? && c.ios.value.bundleIdentifier == r
    ensures r.None? <==> !c.scheme.SingleScheme? && (c.ios.None? || c.ios.value.bundleIdentifier.None?)
  {
    if c.scheme.SingleScheme? then Some(c.scheme.name)
    else if c.ios.Some? then c.ios.value.bundleIdentifier
    else None
  }

  /** `config.ios?.infoPlist || {}`. */
  function ExistingInfoPlist(c: ExpoConfig): map<string, Value> {
    if c.ios.Some? && c.ios.value.infoPlist.Some? then c.ios.value.infoPlist.value else map[]
  }

  /** A NaN bit pattern: all exponent bits set and a non-zero fraction. */
  predicate IsNaN(d: Float64) {
    d & 0x7FF0_0000_0000_0000 == 0x7FF0_0000_0000_0000 && d & 0x000F_FFFF_FFFF_FFFF != 0
  }

  /** JavaScript falsiness: null, false, 0, -0, NaN and the empty string. */
  predicate IsFalsy(v: Value) {
    match v
    case Null => true
    case Bool(b) => !b
    case Int(i) => i == 0
    case Double(d) => d == 0 || d == 0x8000_0000_0000_0000 || IsNaN(d)
    case String(s) => s == ""
    case Array(_) => false
    case Object(_) => false
  }

  /** `infoPlist.CFBundleURLTypes || []`, failing where calling `.some` on it would throw. */
  function ExistingTypes(plist: map<string, Value>): Result<seq<Value>, ConfigError> {
    if UrlTypesKey !in plist || IsFalsy(plist[UrlTypesKey]) then Ok([])
    else
      match ArrayValue(plist[UrlTypesKey])
      case Some(items) => Ok(items)
      case None => Err(UrlTypesNotAnArray)
  }

  /** `Array.isArray(t?.CFBundleURLSchemes) && t.CFBundleURLSchemes.includes(scheme)`. */
  predicate EntryHasScheme(entry: Value, scheme: string) {
    match Subscript(entry, UrlSchemesKey)
    case None => false
    case Some(schemes) =>
      match ArrayValue(schemes)
      case None => false
      case Some(list) => String(scheme) in list
  }

  /** `existingTypes.some(...)`. */
  predicate AnyEntryHasScheme(types: seq<Value>, scheme: string) {
    exists k | 0 <= k < |types| :: EntryHasScheme(types[k], scheme)
  }

  /** `{ CFBundleURLSchemes: [scheme] }`. */
  function SchemeEntry(scheme: string): Value {
    Object(map[UrlSchemesKey := Array([String(scheme)])])
  }

  /** The URL types a config registers, read the way the function reads them. */
  function UrlTypes(c: ExpoConfig): Result<seq<Value>, ConfigError> {
    ExistingTypes(ExistingInfoPlist(c))
  }

  /** The config registers `scheme` in one of its URL types. */
  predicate RegistersScheme(c: ExpoConfig, scheme: string) {
    UrlTypes(c).Ok? && AnyEntryHasScheme(UrlTypes(c).value, scheme)
  }

  /** The object spread `{...config, ios: {...config.ios, infoPlist: {...existing, CFBundleURLTypes: [...]}}}`. */
  function AddSchemeEntry(c: ExpoConfig, plist: map<string, Value>, types: seq<Value>, scheme: string): ExpoConfig {
    var ios := if c.ios.Some? then c.ios.value else IosConfig(None, None, map[]);
    c.(ios := Some(ios.(infoPlist := Some(plist[UrlTypesKey := Array(types + [SchemeEntry(scheme)])]))))
  }

  /** `ensureURLScheme`. */
  function EnsureUrlScheme(c: ExpoConfig): (r: Result<ExpoConfig, ConfigError>)
    // no usable scheme (absent or empty, with no fallback from "" to the bundle id): unchanged
    ensures ChosenScheme(c).None? || ChosenScheme(c).value == "" ==> r == Ok(c)
    // the only failure is a truthy, non-array CFBundleURLTypes met while looking for the scheme
    ensures r.Err? <==> ChosenScheme(c).Some? && ChosenScheme(c).value != "" && UrlTypes(c).Err?
    // already registered: unchanged
    ensures ChosenScheme(c).Some? && RegistersScheme(c, ChosenScheme(c).value) ==> r == Ok(c)
    // otherwise exactly one entry is appended after the existing ones, in order
    ensures r.Ok? && r.value != c ==>
      && ChosenScheme(c).Some? && UrlTypes(c).Ok?
      && UrlTypes(r.value) == Ok(UrlTypes(c).value + [SchemeEntry(ChosenScheme(c).value)])
    // afterwards a usable scheme is always registered
    ensures r.Ok? && ChosenScheme(c).Some? && ChosenScheme(c).value != "" ==>
      RegistersScheme(r.value, ChosenScheme(c).value)
    // nothing else changes
    ensures r.Ok? ==>
      && r.value.scheme == c.scheme && r.value.otherFields == c.otherFields
      && ChosenScheme(r.value) == ChosenScheme(c)
      && (c.ios.Some? ==> r.value.ios.Some? && r.value.ios.value.otherIosFields == c.ios.value.otherIosFields)
      && (c.ios.Some? ==> r.value.ios.value.bundleIdentifier == c.ios.value.bundleIdentifier)
      // `...config.ios` over `undefined`: a new `ios` holds only the Info.plist
      && (c.ios.None? && r.value != c ==>
            r.value.ios.Some? && r.value.ios.value.bundleIdentifier.None? && r.value.ios.value.otherIosFields == map[])
      && ExistingInfoPlist(c).Keys <= ExistingInfoPlist(r.value).Keys
      && ExistingInfoPlist(r.value).Keys <= ExistingInfoPlist(c).Keys + {UrlTypesKey}
      && forall key | key in ExistingInfoPlist(c) && key != UrlTypesKey ::
           ExistingInfoPlist(r.value)[key] == ExistingInfoPlist(c)[key]
  {
    var scheme := ChosenScheme(c);
    if scheme.None? || scheme.value == "" then Ok(c)
    else
      var plist := ExistingInfoPlist(c);
      match ExistingTypes(plist)
      case Err(e) => Err(e)
      case Ok(types) =>
        if AnyEntryHasScheme(types, scheme.value) then Ok(c)
        else
          var r := AddSchemeEntry(c, plist, types, scheme.value);
          assert ExistingInfoPlist(r) == plist[UrlTypesKey := Array(types + [SchemeEntry(scheme.value)])];
          assert EntryHasScheme(SchemeEntry(scheme.value), scheme.value);
          assert (types + [SchemeEntry(scheme.value)])[|types|] == SchemeEntry(scheme.value);
          Ok(r)
  }

  /** Applying `ensureURLScheme` to its own result changes nothing more. */
  lemma EnsureUrlSchemeIdempotent(c: ExpoConfig)
    requires EnsureUrlScheme(c).Ok?
    ensures EnsureUrlScheme(EnsureUrlScheme(c).value) == EnsureUrlScheme(c)
  {
    var c' := EnsureUrlScheme(c).value;
    if ChosenScheme(c).Some? && ChosenScheme(c).value != "" {
      assert RegistersScheme(c', ChosenScheme(c').value);
    }
  }

  /** A plain `scheme: ""` does not fall back to the bundle identifier: the config is returned as it is. */
  lemma EmptySchemeDoesNotFallBack(c: ExpoConfig)
    requires c.scheme == SingleScheme("") && c.ios.Some? && c.ios.value.bundleIdentifier.Some?
    ensures EnsureUrlScheme(c) == Ok(c)
  {
  }
}
