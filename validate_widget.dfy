/**
 * `validateWidgetConfig`: the ordered checks the config plugin runs over one
 * widget entry of the user's configuration, stopping at the first failure.
 */
module ValidateWidget {
  import opened Base
  import opened AsciiText
  import opened WidgetConstants

  /** `VALID_FAMILIES`. */
  const ValidFamilyNames: set<string> := {
    "systemSmall", "systemMedium", "systemLarge", "systemExtraLarge",
    "accessoryCircular", "accessoryRectangular", "accessoryInline"
  }

  /** The valid family names are exactly the names of the seven widget families. */
  lemma ValidFamilyNamesAreFamilies(s: string)
    ensures s in ValidFamilyNames <==> ParseFamily(s).Some?
  {
  }

  /** Every default family passes the family check. */
  lemma DefaultFamiliesAreValid()
    ensures forall k | 0 <= k < |DefaultWidgetFamilies| :: FamilyName(DefaultWidgetFamilies[k]) in ValidFamilyNames
  {
  }

  /** `supportedFamilies` as the validator can find it: absent, an array, or some other value (truthy or not). */
  datatype FamiliesField = FamiliesAbsent | FamilyList(names: seq<string>) | NotAList(truthy: bool)

  /**
   * `WidgetConfig` as it arrives from user configuration. `id` is `None` when it is
   * missing or not a string; `displayName` and `description` are `None` when missing.
   */
  datatype WidgetConfig = WidgetConfig(
    id: Option<string>,
    displayName: Option<string>,
    description: Option<string>,
    supportedFamilies: FamiliesField)

  /** Which check threw, with the offending value where the message shows one. */
  datatype ValidationError =
    | MissingId
    | InvalidId(id: string)
    | MissingDisplayName
    | MissingDescription
    | FamiliesNotArray
    | InvalidFamily(family: string)

  /** `[a-zA-Z_]`. */
  predicate IsIdentifierStart(c: char) {
    'a' <= c <= 'z' || 'A' <= c <= 'Z' || c == '_'
  }

  /** `[a-zA-Z0-9_]`. */
  predicate IsIdentifierPart(c: char) {
    IsIdentifierStart(c) || '0' <= c <= '9'
  }

  /** The language of `^[a-zA-Z_][a-zA-Z0-9_]*$`, stated with quantifiers. */
  predicate IsIdentifier(s: string) {
    |s| > 0 && IsIdentifierStart(s[0]) && forall k | 1 <= k < |s| :: IsIdentifierPart(s[k])
  }

  /** `[a-zA-Z0-9_]*$` matched one character at a time. */
  predicate MatchesPartStar(s: string) {
    s == [] || (IsIdentifierPart(s[0]) && MatchesPartStar(s[1..]))
  }

  /** The regular expression test `/^[a-zA-Z_][a-zA-Z0-9_]*$/.test(id)`. */
  predicate MatchesIdentifierPattern(s: string) {
    s != [] && IsIdentifierStart(s[0]) && MatchesPartStar(s[1..])
  }

  lemma {:induction false} PartStarIsAllParts(s: string)
    ensures MatchesPartStar(s) <==> forall k | 0 <= k < |s| :: IsIdentifierPart(s[k])
  {
    if s != [] {
      PartStarIsAllParts(s[1..]);
      assert forall k | 1 <= k < |s| :: s[k] == s[1..][k - 1];
    }
  }

  /** The pattern accepts exactly the identifiers. */
  lemma PatternIsIdentifier(s: string)
    ensures MatchesIdentifierPattern(s) <==> IsIdentifier(s)
  {
    if s != [] {
      PartStarIsAllParts(s[1..]);
      assert forall k | 1 <= k < |s| :: s[k] == s[1..][k - 1];
    }
  }

  /** An id passes the first check: present, a string, and not empty. */
  predicate IdPresent(id: Option<string>) {
    id.Some? && id.value != ""
  }

  /** A display name or description passes: present and not blank. */
  predicate HasText(field: Option<string>) {
    field.Some? && !IsBlank(field.value)
  }

  /** The family check passes: absent, falsy, or an array of valid family names. */
  predicate FamiliesAccepted(field: FamiliesField) {
    match field
    case FamiliesAbsent => true
    case NotAList(truthy) => !truthy
    case FamilyList(names) => forall k | 0 <= k < |names| :: names[k] in ValidFamilyNames
  }

  /** The position of the first name the loop rejects, if any. */
  function FirstInvalidFamily(names: seq<string>): (r: Option<nat>)
    ensures r.None? <==> forall k | 0 <= k < |names| :: names[k] in ValidFamilyNames
    ensures r.Some? ==> r.value < |names| && names[r.value] !in ValidFamilyNames
    ensures r.Some? ==> forall k | 0 <= k < r.value :: names[k] in ValidFamilyNames
  {
    if names == [] then None
    else if names[0] !in ValidFamilyNames then Some(0)
    else
      match FirstInvalidFamily(names[1..])
      case Some(k) => Some(k + 1)
      case None => None
  }

  /** `!widget.displayName?.trim()`, negated. */
  predicate TrimsToText(field: Option<string>) {
    field.Some? && Trim(field.value) != ""
  }

  /** Trimming leaves text exactly when the field is not blank. */
  lemma TrimsToTextIsHasText(field: Option<string>)
    ensures TrimsToText(field) <==> HasText(field)
  {
  }

  /** The display name and description checks: `!field?.trim()` fails with `missing`. */
  function CheckText(field: Option<string>, missing: ValidationError): (r: Outcome<ValidationError>)
    ensures r.Pass? <==> HasText(field)
    ensures r.Fail? ==> r.error == missing
  {
    TrimsToTextIsHasText(field);
    if !TrimsToText(field) then Fail(missing) else Pass
  }

  /**
   * The family check of `validateWidgetConfig`: skipped when the field is
   * falsy, then the array test, then each name in order.
   */
  function CheckFamilies(field: FamiliesField): (r: Outcome<ValidationError>)
    ensures r.Pass? <==> FamiliesAccepted(field)
    ensures r == Fail(FamiliesNotArray) <==> field == NotAList(true)
    ensures r.Fail? ==> r.error.FamiliesNotArray? || r.error.InvalidFamily?
    ensures r.Fail? && r.error.InvalidFamily? ==>
      && field.FamilyList?
      && exists k | 0 <= k < |field.names| ::
           && field.names[k] == r.error.family
           && r.error.family !in ValidFamilyNames
           && forall j | 0 <= j < k :: field.names[j] in ValidFamilyNames
  {
    match field
    case FamiliesAbsent => Pass
    case NotAList(truthy) => if truthy then Fail(FamiliesNotArray) else Pass
    case FamilyList(names) =>
      match FirstInvalidFamily(names)
      case Some(k) =>
        assert field.names[k] == names[k];
        Fail(InvalidFamily(names[k]))
      case None => Pass
  }

  /**
   * `validateWidgetConfig`: checks the id, then the display name, then the
   * description, then the families, and reports the first that fails.
   */
  function ValidateWidgetConfig(w: WidgetConfig): (r: Outcome<ValidationError>)
    ensures r.Pass? <==>
      IdPresent(w.id) && IsIdentifier(w.id.value) && HasText(w.displayName)
      && HasText(w.description) && FamiliesAccepted(w.supportedFamilies)
    ensures r == Fail(MissingId) <==> !IdPresent(w.id)
    ensures (r.Fail? && r.error.InvalidId?) <==> IdPresent(w.id) && !IsIdentifier(w.id.value)
    ensures r.Fail? && r.error.InvalidId? ==> r.error.id == w.id.value
    ensures r == Fail(MissingDisplayName) <==>
      IdPresent(w.id) && IsIdentifier(w.id.value) && !HasText(w.displayName)
    ensures r == Fail(MissingDescription) <==>
      IdPresent(w.id) && IsIdentifier(w.id.value) && HasText(w.displayName) && !HasText(w.description)
    ensures r == Fail(FamiliesNotArray) <==>
      IdPresent(w.id) && IsIdentifier(w.id.value) && HasText(w.displayName) && HasText(w.description)
      && w.supportedFamilies == NotAList(true)
    ensures r.Fail? && r.error.InvalidFamily? ==>
      && IdPresent(w.id) && IsIdentifier(w.id.value) && HasText(w.displayName) && HasText(w.description)
      && w.supportedFamilies.FamilyList?
      && exists k | 0 <= k < |w.supportedFamilies.names| ::
           && w.supportedFamilies.names[k] == r.error.family
           && r.error.family !in ValidFamilyNames
           && forall j | 0 <= j < k :: w.supportedFamilies.names[j] in ValidFamilyNames
  {
    PatternIsIdentifier(if w.id.Some? then w.id.value else "");
    if w.id.None? || w.id.value == "" then Fail(MissingId)
    else if !MatchesIdentifierPattern(w.id.value) then Fail(InvalidId(w.id.value))
    else if CheckText(w.displayName, MissingDisplayName).Fail? then Fail(MissingDisplayName)
    else if CheckText(w.description, MissingDescription).Fail? then Fail(MissingDescription)
    else CheckFamilies(w.supportedFamilies)
  }

  /** A whitespace-only display name is rejected even when the id is fine. */
  lemma BlankDisplayNameRejected(id: string, blank: string, description: Option<string>, families: FamiliesField)
    requires IsIdentifier(id) && IsBlank(blank)
    ensures ValidateWidgetConfig(WidgetConfig(Some(id), Some(blank), description, families)) == Fail(MissingDisplayName)
  {
  }

  /** An empty family list passes, and so does the default list. */
  lemma FamilyListsThatPass(w: WidgetConfig)
    requires IdPresent(w.id) && IsIdentifier(w.id.value) && HasText(w.displayName) && HasText(w.description)
    ensures ValidateWidgetConfig(w.(supportedFamilies := FamilyList([]))) == Pass
    ensures ValidateWidgetConfig(w.(supportedFamilies := FamilyList(seq(3, k requires 0 <= k < 3 => FamilyName(DefaultWidgetFamilies[k]))))) == Pass
  {
  }
}
