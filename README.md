# Voltra core, modelled in Dafny

Voltra renders Live Activities and widgets on iOS from JavaScript. This project models the
pure core of its iOS runtime and of its Expo config plugin:

- **JSON value model** (`JsonValue`, `JsonCodec`): the closed seven-variant `JSONValue` union,
  its exact-match accessors, the total object subscript, the untagging `toAny` projection, and
  the `Codable` conformance. Decoding is the classifier `init(from:)` runs over one token that
  Foundation's parser has produced. It tries null, bool, int, double, string, array and object
  in that order. Encoding maps each variant to its own JSON kind.
- **Bridge events** (`VoltraEvent`): the four event variants, which one persists, their bridge
  names, and the dictionary `asDictionary` builds step by step for the JavaScript bridge.
- **Widget configuration** (`WidgetConstants`, `ValidateWidget`): the seven widget families,
  the family-to-SwiftUI map, the defaults, the image limits, and the ordered checks of
  `validateWidgetConfig`.
- **URL scheme insertion** (`UrlScheme`): `ensureURLScheme` as a config-to-config function.
- **Info.plist text** (`InfoPlist`): the template of `generateInfoPlistContent`.
- **Button rules** (`VoltraButton`): the case-insensitive style selection and the `??` fallbacks.

`Base` holds `Option`, `Result` and `Outcome`. `AsciiText` holds ASCII stand-ins for JavaScript's
`trim()` and Swift's `lowercased()`.

Consequences of the code worth knowing:

- The int attempt runs before the double attempt. The model treats a number literal as an
  integer when its exact decimal value is a whole number within `Int`'s range, whatever its
  spelling. So `3.0` and `3e2` decode as `.int`. `ExactInteger` and `DecodeInt` model this
  (see "Left out" for how this idealises Foundation's conversion).
- `encode(to:)` hands a `Double` straight to the encoder. Nothing keeps a decimal point on a
  whole-number double, so such a double can come back as `.int` (`WholeDoubleComesBackAsInt`).
- `encode(to:)` throws when the encoder refuses a double (NaN or an infinity by default), and
  then the whole value fails to encode.
- `toAny` yields plain dictionaries with no key order.

## Model

| member | source | states |
|---|---|---|
| `JsonValue.StringValue` | ios/shared/JSONValue.swift:23-26 | returns a payload exactly for `.string`, and that payload rebuilds the value |
| `JsonValue.IntValue` | ios/shared/JSONValue.swift:28-31 | returns a payload exactly for `.int`, and that payload rebuilds the value |
| `JsonValue.DoubleValue` | ios/shared/JSONValue.swift:33-36 | returns a payload exactly for `.double`, and that payload rebuilds the value |
| `JsonValue.BoolValue` | ios/shared/JSONValue.swift:38-41 | returns a payload exactly for `.bool`, and that payload rebuilds the value |
| `JsonValue.ArrayValue` | ios/shared/JSONValue.swift:43-46 | returns the elements exactly for `.array`, and they rebuild the value |
| `JsonValue.ObjectValue` | ios/shared/JSONValue.swift:48-51 | returns the dictionary exactly for `.object`, and it rebuilds the value |
| `JsonValue.AccessorsExclusive` | ios/shared/JSONValue.swift:23-51 | no accessor answers for `.null`, and no value answers two scalar accessors |
| `JsonValue.NoCoercion` | ios/shared/JSONValue.swift:23-36 | `.int(5)` has no double, `.double` has no int, `.string("5")` has no int |
| `JsonValue.Subscript` | ios/shared/JSONValue.swift:54-57 | total; a result exactly when the value is an object holding the key, and then it is that field |
| `JsonValue.ToAny` | ios/shared/JSONValue.swift:60-77 | null becomes the null marker; arrays stay lists of the same length; objects stay dictionaries with the same key set |
| `JsonValue.ToAnyRoundTrip` | ios/shared/JSONValue.swift:60-77 | reading the projection back gives the original value, so no data is lost |
| `JsonValue.ToAnyInjective` | ios/shared/JSONValue.swift:60-77 | distinct values never project to the same host value |
| `JsonValue.ToAnySubscript` | ios/shared/JSONValue.swift:54-77 | a key is in the projected dictionary exactly when the subscript finds it, and its value is the projected field |
| `JsonCodec.ExactInteger` | ios/shared/JSONValue.swift:90 | a literal has a whole value exactly when its mantissa absorbs the negative exponent, and then the value times the power of ten gives back the mantissa |
| `JsonCodec.DecodeInt` | ios/shared/JSONValue.swift:90-91 | the int attempt succeeds only on a number token whose exact value is that `Int` |
| `JsonCodec.Decode` | ios/shared/JSONValue.swift:83-106 | fails exactly when the token is not decodable, never with a partial value; a success has the token's JSON kind, length and key set; a whole number within range always gives `.int` |
| `JsonCodec.IntBeforeDouble` | ios/shared/JSONValue.swift:86-93 | any literal whose value is a whole `Int` decodes to that `.int`, whatever the double parser says |
| `JsonCodec.DoubleOnlyWhenNotInt` | ios/shared/JSONValue.swift:90-93 | `.double` comes only from a number that is not a whole `Int` and that the double parser accepts |
| `JsonCodec.Encode` | ios/shared/JSONValue.swift:108-127 | succeeds exactly when the renderer accepts every double inside the value; then each of the seven variants becomes its own JSON kind, arrays keep their length and objects their keys |
| `JsonCodec.RefusedDoubleFailsEncoding` | ios/shared/JSONValue.swift:118-123 | one refused double anywhere in an array makes the whole encoding throw |
| `JsonCodec.DecodeEncodeRoundTrip` | ios/shared/JSONValue.swift:86-126 | a value with no doubles always encodes, and decoding its encoding gives the value back |
| `JsonCodec.WholeDoubleComesBackAsInt` | ios/shared/JSONValue.swift:90-119 | a double the encoder renders as a whole number within range decodes as `.int` |
| `VoltraEvent.IsPersistent` | ios/shared/VoltraEvent.swift:16-23 | true exactly for interactions |
| `VoltraEvent.Name` | ios/shared/VoltraEvent.swift:26-37 | every event has a non-empty bridge name |
| `VoltraEvent.NameIdentifiesKind` | ios/shared/VoltraEvent.swift:26-37 | the name determines the variant, so the four names are pairwise distinct |
| `VoltraEvent.EventDictionary` | ios/shared/VoltraEvent.swift:40-65 | `type` is the name; `timestamp` is present unless push-to-start; `payload` is present exactly for interactions; state is under `activityState`, never `state` |
| `VoltraEvent.EventKeys` | ios/shared/VoltraEvent.swift:41-62 | the exact key set of each variant's dictionary |
| `VoltraEvent.AsDictionary` | ios/shared/VoltraEvent.swift:40-65 | the step-by-step build yields exactly the event's dictionary |
| `VoltraEvent.DictionaryRoundTrip` | ios/shared/VoltraEvent.swift:41-62 | the dictionary carries every field: reading it back gives the event, with a nil payload as `""` |
| `VoltraEvent.NilPayloadIsEmptyString` | ios/shared/VoltraEvent.swift:48 | a nil payload and an empty payload give the same dictionary |
| `WidgetConstants.DefaultWidgetFamilies` | plugin/src/constants/widgets.ts:14 | the three defaults, small, medium and large, in that order |
| `WidgetConstants.MaxImageSizeBytes` | plugin/src/constants/widgets.ts:8 | the 4096-byte image limit |
| `WidgetConstants.SwiftFamilyCase` | plugin/src/constants/widgets.ts:17-25 | the SwiftUI case of each family; `SwiftFamilyCaseIsDotName` and `SwiftFamilyCaseInjective` state its properties |
| `WidgetConstants.IsSupportedImageName` | plugin/src/constants/widgets.ts:11 | the anchored, case-insensitive extension pattern; `ImageExtensionAnyCase` and `ImageNameEndsWithExtension` prove both directions |
| `WidgetConstants.ParseFamily` | plugin/src/types/widget.ts:8-15 | a string names a family exactly when parsing finds one, and then it names that family |
| `WidgetConstants.FamilyNameInjective` | plugin/src/types/widget.ts:8-15 | the seven family names are pairwise distinct |
| `WidgetConstants.SwiftFamilyCaseIsDotName` | plugin/src/constants/widgets.ts:17-25 | each family maps to `.` followed by its own name |
| `WidgetConstants.SwiftFamilyCaseInjective` | plugin/src/constants/widgets.ts:17-25 | no two families share a SwiftUI case |
| `WidgetConstants.ImageExtensionAnyCase` | plugin/src/constants/widgets.ts:11 | any stem followed by `.png`, `.jpg` or `.jpeg` in any letter case is accepted |
| `WidgetConstants.ImageNameEndsWithExtension` | plugin/src/constants/widgets.ts:11 | an accepted name is a stem, a dot and `png`, `jpg` or `jpeg` in some letter case, with nothing after it |
| `WidgetConstants.ImageNameIgnoresCase` | plugin/src/constants/widgets.ts:11 | acceptance is the same for a name and its lower-case form |
| `ValidateWidget.ValidFamilyNames` | plugin/src/validation/validateWidget.ts:3-11 | the set `VALID_FAMILIES` of seven names |
| `ValidateWidget.ValidFamilyNamesAreFamilies` | plugin/src/validation/validateWidget.ts:3-11 | the valid names are exactly the names of the seven families |
| `ValidateWidget.DefaultFamiliesAreValid` | plugin/src/constants/widgets.ts:14 | every default family passes the validator's family check |
| `ValidateWidget.PatternIsIdentifier` | plugin/src/validation/validateWidget.ts:23 | the id pattern accepts exactly non-empty strings of `[a-zA-Z_]` then `[a-zA-Z0-9_]*` |
| `ValidateWidget.PartStarIsAllParts` | plugin/src/validation/validateWidget.ts:23 | the starred class matches exactly the strings made of its characters |
| `AsciiText.Trim` | plugin/src/validation/validateWidget.ts:31-38 | the input is a blank run, the result and a blank run; the result is empty exactly when the input is blank, and otherwise starts and ends with a non-blank character |
| `ValidateWidget.FirstInvalidFamily` | plugin/src/validation/validateWidget.ts:46-53 | the position of the first name not in the valid set, with all earlier names valid; none exactly when all are valid |
| `ValidateWidget.CheckText` | plugin/src/validation/validateWidget.ts:31-38 | a display name or description passes exactly when it is present and not blank; otherwise the error is the one given |
| `ValidateWidget.CheckFamilies` | plugin/src/validation/validateWidget.ts:41-54 | passes exactly when the field is absent, falsy or a list of valid names; a truthy non-array is the array error; a family error names the first invalid name |
| `ValidateWidget.ValidateWidgetConfig` | plugin/src/validation/validateWidget.ts:17-55 | passes exactly when all four checks hold; each error is reported exactly when its check is the first to fail, in the order id, display name, description, families; a family error names the first invalid family |
| `ValidateWidget.BlankDisplayNameRejected` | plugin/src/validation/validateWidget.ts:31-33 | a whitespace-only display name is rejected |
| `ValidateWidget.FamilyListsThatPass` | plugin/src/validation/validateWidget.ts:41-54 | an empty family list and the default list both pass |
| `UrlScheme.ChosenScheme` | plugin/src/utils/urlScheme.ts:11 | a string `scheme` wins, even `""`; the bundle identifier is used only when `scheme` is not a string; none when neither is there |
| `UrlScheme.EnsureUrlScheme` | plugin/src/utils/urlScheme.ts:10-45 | unchanged with no usable scheme (`""` does not fall back) or when registered; fails only on a non-array `CFBundleURLTypes`; otherwise appends exactly one entry after the existing ones; afterwards the scheme is registered; all other fields are kept, the bundle identifier included; a newly created `ios` holds only the Info.plist |
| `UrlScheme.EnsureUrlSchemeIdempotent` | plugin/src/utils/urlScheme.ts:21-41 | applying it twice gives the result of applying it once |
| `UrlScheme.EmptySchemeDoesNotFallBack` | plugin/src/utils/urlScheme.ts:11-15 | `scheme: ""` with a bundle id set leaves the config unchanged |
| `InfoPlist.GenerateInfoPlistContent` | plugin/src/ios-widget/files/infoPlist.ts:12-43 | the text starts with the XML declaration line and ends with `</plist>` and a newline |
| `InfoPlist.SubstitutionSlots` | plugin/src/ios-widget/files/infoPlist.ts:19-34 | the text is fixed text with each input inserted verbatim in the `<string>` right after its key |
| `InfoPlist.ExtensionPointFixed` | plugin/src/ios-widget/files/infoPlist.ts:35-39 | the closing text always declares `com.apple.widgetkit-extension` |
| `InfoPlist.OnlyThreeSubstitutionPoints` | plugin/src/ios-widget/files/infoPlist.ts:12-42 | 29 lines; all but three are the same for every input; the three determine the inputs |
| `AsciiText.Lower` | ios/ui/Views/VoltraButton.swift:39 | same length, each character lower-cased on its own (ASCII letters only) |
| `VoltraButton.SelectButtonStyle` | ios/ui/Views/VoltraButton.swift:37-56 | nil leaves the view unstyled; a style other than plain is chosen only by its name in some letter case |
| `VoltraButton.StyleNamesDistinct` | ios/ui/Views/VoltraButton.swift:40-49 | the five names select five distinct styles |
| `VoltraButton.SelectByNameInAnyCase` | ios/ui/Views/VoltraButton.swift:39-49 | any letter case of a style's name selects that style |
| `VoltraButton.SelectionIgnoresCase` | ios/ui/Views/VoltraButton.swift:39 | names equal up to case select the same style |
| `VoltraButton.UnknownNameIsPlain` | ios/ui/Views/VoltraButton.swift:48-51 | an unrecognised name selects the same style as `plain` |
| `VoltraButton.Body` | ios/ui/Views/VoltraButton.swift:15-30 | an intent exactly where intents are available, carrying the activity id and the element's id, or `""` when it has none; label `Text("Button")` without children; the style is the selected one |
| `VoltraButton.BranchesAgree` | ios/ui/Views/VoltraButton.swift:16-29 | both availability branches show the same label and style |

## Left out

- `JSONValue.parse(from:)`, the UTF-8 conversion and Foundation's text parser are foreign calls. Decoding starts from an already tokenised `Token`. How duplicate object keys are merged happens inside that parser and is not modelled.
- Converting a literal to `Double` and rendering a `Double` are floating point. They are the parameters `parse` and `render`. Doubles are opaque bit patterns. Which doubles `render` refuses is not fixed by the model; `JSONEncoder`'s default refuses NaN and the infinities.
- `ExactInteger`, `DecodeInt`: the int test uses the literal's exact decimal value. Foundation converts a literal with a fraction or an exponent through floating point, so a literal beyond double precision, such as `1.00000000000000000001`, may be classified by its rounded value. The model does not capture that rounding.
- Swift `Int` is 64-bit and modelled as a subset type. The overflow check of `decode(Int.self)` is the range test in `DecodeInt`.
- `Hashable` conformance of `JSONValue` and the dynamic typing of `Any` are not modelled. `toAny` returns a separate untagged datatype.
- `Date().timeIntervalSince1970` reads the clock. The timestamp is a parameter.
- `Notification.Name.voltraEvent` is process-wide notification dispatch.
- `generateInfoPlist` writes a file and logs. Only the text generation is modelled.
- The logger, the type-only files (`types/plugin.ts`, `constants/ios.ts`) and the `MODULE_EXTENSIONS` list have no behaviour in this core.
- `VoltraView` and `VoltraElement.parameters` are not part of this model. The button's style parameter arrives already extracted. `Node` stands in for `VoltraNode`.
- SwiftUI rendering, `Button(intent:)`, `.applyStyle` and the `#available` test are out of scope. The availability test is a boolean parameter of `Body`.
- JavaScript `trim()` and Swift `lowercased()` are modelled on ASCII only: whitespace is space, tab, LF, VT, FF and CR, and only `A`-`Z` are case-folded.
- `ValidateWidgetConfig`: error message texts are not modelled, only which check failed. A non-string `displayName` or `description`, where `.trim` itself throws, is outside the modelled input type. `initialStatePath` is not validated by the source.
- `EnsureUrlScheme`: only the config fields the function reads or rebuilds are typed; every other value is a JSON value. A truthy non-array `CFBundleURLTypes` makes `.some` throw, which is the `Err` result.
