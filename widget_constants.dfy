/** Widget-related constants of the config plugin: families, defaults and image limits. */
module WidgetConstants {
  import opened Base
  import opened AsciiText

  /** `WidgetFamily`: the seven widget size families. */
  datatype WidgetFamily =
    | SystemSmall | SystemMedium | SystemLarge | SystemExtraLarge
    | AccessoryCircular | AccessoryRectangular | AccessoryInline

  /** The JavaScript string literal of each family. */
  function FamilyName(f: WidgetFamily): string {
    match f
    case SystemSmall => "systemSmall"
    case SystemMedium => "systemMedium"
    case SystemLarge => "systemLarge"
    case SystemExtraLarge => "systemExtraLarge"
    case AccessoryCircular => "accessoryCircular"
    case AccessoryRectangular => "accessoryRectangular"
    case AccessoryInline => "accessoryInline"
  }

  /** The family a string literal names, if any. */
  function ParseFamily(s: string): (r: Option<WidgetFamily>)
    ensures r.Some? ==> FamilyName(r.value) == s
    ensures r.None? ==> forall f: WidgetFamily :: FamilyName(f) != s
  {
    if s == "systemSmall" then Some(SystemSmall)
    else if s == "systemMedium" then Some(SystemMedium)
    else if s == "systemLarge" then Some(SystemLarge)
    else if s == "systemExtraLarge" then Some(SystemExtraLarge)
    else if s == "accessoryCircular" then Some(AccessoryCircular)
    else if s == "accessoryRectangular" then Some(AccessoryRectangular)
    else if s == "accessoryInline" then Some(AccessoryInline)
    else None
  }

  /** Family names are pairwise distinct. */
  lemma FamilyNameInjective(f: WidgetFamily, g: WidgetFamily)
    ensures FamilyName(f) == FamilyName(g) <==> f == g
  {
    assert ParseFamily(FamilyName(f)) == Some(f);
    assert ParseFamily(FamilyName(g)) == Some(g);
  }

  /** `WIDGET_FAMILY_MAP`: defined for every family; each maps to its SwiftUI enum case, `.` followed by its own name. */
  function SwiftFamilyCase(f: WidgetFamily): string {
    match f
    case SystemSmall => ".systemSmall"
    case SystemMedium => ".systemMedium"
    case SystemLarge => ".systemLarge"
    case SystemExtraLarge => ".systemExtraLarge"
    case AccessoryCircular => ".accessoryCircular"
    case AccessoryRectangular => ".accessoryRectangular"
    case AccessoryInline => ".accessoryInline"
  }

  /** Each entry of `WIDGET_FAMILY_MAP` is `.` followed by the family's own name. */
  lemma SwiftFamilyCaseIsDotName(f: WidgetFamily)
    ensures SwiftFamilyCase(f) == "." + FamilyName(f)
  {
    if f.SystemSmall? || f.SystemMedium? || f.SystemLarge? || f.SystemExtraLarge? {
      SystemCaseIsDotName(f);
    } else {
      AccessoryCaseIsDotName(f);
    }
  }

  lemma SystemCaseIsDotName(f: WidgetFamily)
    requires f.SystemSmall? || f.SystemMedium? || f.SystemLarge? || f.SystemExtraLarge?
    ensures SwiftFamilyCase(f) == "." + FamilyName(f)
  {
    match f
    case SystemSmall => assert ".systemSmall" == "." + "systemSmall";
    case SystemMedium => assert ".systemMedium" == "." + "systemMedium";
    case SystemLarge => assert ".systemLarge" == "." + "systemLarge";
    case SystemExtraLarge => assert ".systemExtraLarge" == "." + "systemExtraLarge";
  }

  lemma AccessoryCaseIsDotName(f: WidgetFamily)
    requires f.AccessoryCircular? || f.AccessoryRectangular? || f.AccessoryInline?
    ensures SwiftFamilyCase(f) == "." + FamilyName(f)
  {
    match f
    case AccessoryCircular => assert ".accessoryCircular" == "." + "accessoryCircular";
    case AccessoryRectangular => assert ".accessoryRectangular" == "." + "accessoryRectangular";
    case AccessoryInline => assert ".accessoryInline" == "." + "accessoryInline";
  }

  /** `WIDGET_FAMILY_MAP` is injective: no two families share a SwiftUI case. */
  lemma SwiftFamilyCaseInjective(f: WidgetFamily, g: WidgetFamily)
    requires SwiftFamilyCase(f) == SwiftFamilyCase(g)
    ensures f == g
  {
    SwiftFamilyCaseIsDotName(f);
    SwiftFamilyCaseIsDotName(g);
    assert SwiftFamilyCase(f)[1..] == FamilyName(f);
    assert SwiftFamilyCase(g)[1..] == FamilyName(g);
    FamilyNameInjective(f, g);
  }

  /** `DEFAULT_WIDGET_FAMILIES`. */
  const DefaultWidgetFamilies: seq<WidgetFamily> := [SystemSmall, SystemMedium, SystemLarge]

  /** `MAX_IMAGE_SIZE_BYTES`: the 4 KB limit of Live Activity images. */
  const MaxImageSizeBytes: nat := 4096

  /** `s` ends with the lower-case `suffix`, letters compared without regard to case. */
  predicate EndsWithIgnoringCase(s: string, suffix: string) {
    |suffix| <= |s| && Lower(s[|s| - |suffix|..]) == suffix
  }

  /** `SUPPORTED_IMAGE_EXTENSIONS`, the pattern `/\.(png|jpg|jpeg)$/i`. */
  predicate IsSupportedImageName(name: string) {
    EndsWithIgnoringCase(name, ".png") || EndsWithIgnoringCase(name, ".jpg") || EndsWithIgnoringCase(name, ".jpeg")
  }

  /** A name ending with `"." + ext` ends, ignoring case, with the lower-case form of that suffix. */
  lemma EndsWithDotExtension(stem: string, ext: string)
    ensures EndsWithIgnoringCase(stem + "." + ext, "." + Lower(ext))
  {
    var name := stem + "." + ext;
    assert name[|name| - |ext| - 1..] == "." + ext;
    LowerAppend(".", ext);
    assert Lower(".") == ".";
  }

  /** The extension is accepted in any letter case after any stem. */
  lemma ImageExtensionAnyCase(stem: string, ext: string)
    requires IsImageExtension(Lower(ext))
    ensures IsSupportedImageName(stem + "." + ext)
  {
    EndsWithDotExtension(stem, ext);
    var e := Lower(ext);
    if e == "png" {
      assert "." + e == ".png";
    } else if e == "jpg" {
      assert "." + e == ".jpg";
    } else {
      assert "." + e == ".jpeg";
    }
  }

  /** The extensions the pattern accepts, in lower case. */
  predicate IsImageExtension(ext: string) {
    ext == "png" || ext == "jpg" || ext == "jpeg"
  }

  /** A name whose last `|suffix|` characters lower-case to `suffix` has a dot there followed by the rest of it. */
  lemma DotBeforeSuffix(name: string, suffix: string)
    requires EndsWithIgnoringCase(name, suffix) && |suffix| >= 1 && suffix[0] == '.'
    ensures name[|name| - |suffix|] == '.'
    ensures Lower(name[|name| - |suffix| + 1..]) == suffix[1..]
  {
    var k := |name| - |suffix|;
    var tail := name[k..];
    assert ToLower(tail[0]) == Lower(tail)[0] == '.';
    assert tail[0] == name[k];
    LowerSlice(tail, 1, |tail|);
    assert tail[1..|tail|] == name[k + 1..];
  }

  /**
   * The converse of `ImageExtensionAnyCase`: the pattern is anchored at the end,
   * so an accepted name is a stem, a dot, and one of the three extensions in some
   * letter case, with nothing after it.
   */
  lemma ImageNameEndsWithExtension(name: string)
    requires IsSupportedImageName(name)
    ensures exists k | 0 <= k < |name| :: name[k] == '.' && IsImageExtension(Lower(name[k + 1..]))
  {
    if EndsWithIgnoringCase(name, ".png") {
      DotBeforeSuffix(name, ".png");
      assert ".png"[1..] == "png";
      var k := |name| - 4;
      assert name[k] == '.' && IsImageExtension(Lower(name[k + 1..]));
    } else if EndsWithIgnoringCase(name, ".jpg") {
      DotBeforeSuffix(name, ".jpg");
      assert ".jpg"[1..] == "jpg";
      var k := |name| - 4;
      assert name[k] == '.' && IsImageExtension(Lower(name[k + 1..]));
    } else {
      DotBeforeSuffix(name, ".jpeg");
      assert ".jpeg"[1..] == "jpeg";
      var k := |name| - 5;
      assert name[k] == '.' && IsImageExtension(Lower(name[k + 1..]));
    }
  }

  /** Matching a lower-case suffix ignores the case of the name. */
  lemma EndsWithIgnoresCase(name: string, suffix: string)
    ensures EndsWithIgnoringCase(name, suffix) <==> EndsWithIgnoringCase(Lower(name), suffix)
  {
    if |suffix| <= |name| {
      var k := |name| - |suffix|;
      LowerSlice(name, k, |name|);
      LowerIdempotent(name);
      LowerSlice(Lower(name), k, |name|);
    }
  }

  /** Acceptance does not depend on letter case. */
  lemma ImageNameIgnoresCase(name: string)
    ensures IsSupportedImageName(name) <==> IsSupportedImageName(Lower(name))
  {
    EndsWithIgnoresCase(name, ".png");
    EndsWithIgnoresCase(name, ".jpg");
    EndsWithIgnoresCase(name, ".jpeg");
  }
}
