/**
 * `generateInfoPlistContent`: the Info.plist text of a WidgetKit extension. A
 * fixed template of 29 lines, each ending in a newline, with the target name,
 * the version and the build number inserted verbatim (no XML escaping).
 */
module InfoPlist {

  const XmlDeclaration: string := "<?xml version=\"1.0\" encoding=\"UTF-8\"?>"
  const DisplayNameKey: string := "\t<key>CFBundleDisplayName</key>"
  const ShortVersionKey: string := "\t<key>CFBundleShortVersionString</key>"
  const VersionKey: string := "\t<key>CFBundleVersion</key>"
  const ExtensionPointKey: string := "\t\t<key>NSExtensionPointIdentifier</key>"
  const WidgetKitExtensionPoint: string := "\t\t<string>com.apple.widgetkit-extension</string>"
  const PlistEnd: string := "</plist>"

  /** Line indices of the three substituted values. */
  const DisplayNameLine: nat := 7
  const VersionLine: nat := 19
  const BuildNumberLine: nat := 21

  /** Lines 0 to 5: the XML prologue and the development region. */
  const Prologue: seq<string> := [
    XmlDeclaration,
    "<!DOCTYPE plist PUBLIC \"-//Apple//DTD PLIST 1.0//EN\" \"http://www.apple.com/DTDs/PropertyList-1.0.dtd\">",
    "<plist version=\"1.0\">",
    "<dict>",
    "\t<key>CFBundleDevelopmentRegion</key>",
    "\t<string>$(DEVELOPMENT_LANGUAGE)</string>"]

  /** Lines 8 to 17: keys whose values are build-setting placeholders or constants. */
  const Identity: seq<string> := [
    "\t<key>CFBundleExecutable</key>",
    "\t<string>$(EXECUTABLE_NAME)</string>",
    "\t<key>CFBundleIdentifier</key>",
    "\t<string>$(PRODUCT_BUNDLE_IDENTIFIER)</string>",
    "\t<key>CFBundleInfoDictionaryVersion</key>",
    "\t<string>6.0</string>",
    "\t<key>CFBundleName</key>",
    "\t<string>$(PRODUCT_NAME)</string>",
    "\t<key>CFBundlePackageType</key>",
    "\t<string>$(PRODUCT_BUNDLE_PACKAGE_TYPE)</string>"]

  /** Lines 22 to 28: the WidgetKit extension point and the closing tags. */
  const Epilogue: seq<string> := [
    "\t<key>NSExtension</key>",
    "\t<dict>",
    ExtensionPointKey,
    WidgetKitExtensionPoint,
    "\t</dict>",
    "</dict>",
    PlistEnd]

  /** The `<string>` line holding a value, indented by one tab. */
  function StringLine(value: string): string {
    "\t<string>" + value + "</string>"
  }

  /** The template, line by line. */
  function TemplateLines(targetName: string, version: string, buildNumber: string): seq<string> {
    Prologue + [DisplayNameKey, StringLine(targetName)] + Identity
      + [ShortVersionKey, StringLine(version)] + [VersionKey, StringLine(buildNumber)] + Epilogue
  }

  /** Lines joined, each followed by a newline. */
  function Terminated(ls: seq<string>): string {
    if ls == [] then "" else ls[0] + "\n" + Terminated(ls[1..])
  }

  /** Joining distributes over concatenation of line lists. */
  lemma {:induction false} TerminatedAppend(a: seq<string>, b: seq<string>)
    ensures Terminated(a + b) == Terminated(a) + Terminated(b)
  {
    if a != [] {
      TerminatedAppend(a[1..], b);
      assert (a + b)[1..] == a[1..] + b;
      assert (a + b)[0] == a[0];
      assert Terminated(a + b) == a[0] + "\n" + (Terminated(a[1..]) + Terminated(b));
    } else {
      assert a + b == b;
    }
  }

  lemma {:induction false} TerminatedLast(ls: seq<string>)
    requires ls != []
    ensures Terminated(ls) == Terminated(ls[..|ls| - 1]) + ls[|ls| - 1] + "\n"
  {
    TerminatedAppend(ls[..|ls| - 1], [ls[|ls| - 1]]);
    assert ls[..|ls| - 1] + [ls[|ls| - 1]] == ls;
    assert Terminated([ls[|ls| - 1]]) == ls[|ls| - 1] + "\n" + Terminated([]);
  }

  /** The joined text starts with the first line and ends with the last, each with its newline. */
  lemma TerminatedEnds(ls: seq<string>)
    requires ls != []
    ensures |ls[0]| < |Terminated(ls)| && Terminated(ls)[..|ls[0]| + 1] == ls[0] + "\n"
    ensures |ls[|ls| - 1]| < |Terminated(ls)|
    ensures Terminated(ls)[|Terminated(ls)| - |ls[|ls| - 1]| - 1..] == ls[|ls| - 1] + "\n"
  {
    var head := ls[0] + "\n";
    assert Terminated(ls) == head + Terminated(ls[1..]);
    assert (head + Terminated(ls[1..]))[..|head|] == head;
    TerminatedLast(ls);
    var last := ls[|ls| - 1] + "\n";
    assert Terminated(ls) == Terminated(ls[..|ls| - 1]) + last;
    assert (Terminated(ls[..|ls| - 1]) + last)[|Terminated(ls[..|ls| - 1])|..] == last;
  }

  /** `generateInfoPlistContent(targetName, version, buildNumber)`. */
  function GenerateInfoPlistContent(targetName: string, version: string, buildNumber: string): (r: string)
    ensures |XmlDeclaration| < |r| && r[..|XmlDeclaration| + 1] == XmlDeclaration + "\n"
    ensures |r| >= |PlistEnd| + 1 && r[|r| - |PlistEnd| - 1..] == PlistEnd + "\n"
  {
    var ls := TemplateLines(targetName, version, buildNumber);
    assert ls[0] == XmlDeclaration;
    assert ls[|ls| - 1] == PlistEnd;
    TerminatedEnds(ls);
    Terminated(ls)
  }

  /** A key line followed by its `<string>` value line. */
  function KeyValue(key: string, value: string): string {
    key + "\n" + StringLine(value) + "\n"
  }

  /**
   * The document is fixed text with the three inputs inserted verbatim: the
   * target name in the `<string>` right after the `CFBundleDisplayName` key, the
   * version right after `CFBundleShortVersionString`, the build number right after
   * `CFBundleVersion`. The text around them does not depend on the inputs.
   */
  lemma SubstitutionSlots(targetName: string, version: string, buildNumber: string)
    ensures GenerateInfoPlistContent(targetName, version, buildNumber)
      == Terminated(Prologue) + KeyValue(DisplayNameKey, targetName) + Terminated(Identity)
       + KeyValue(ShortVersionKey, version) + KeyValue(VersionKey, buildNumber) + Terminated(Epilogue)
  {
    var one := [DisplayNameKey, StringLine(targetName)];
    var two := [ShortVersionKey, StringLine(version)];
    var three := [VersionKey, StringLine(buildNumber)];
    TerminatedAppend(Prologue + one + Identity + two + three, Epilogue);
    TerminatedAppend(Prologue + one + Identity + two, three);
    TerminatedAppend(Prologue + one + Identity, two);
    TerminatedAppend(Prologue + one, Identity);
    TerminatedAppend(Prologue, one);
    PairIsKeyValue(DisplayNameKey, targetName);
    PairIsKeyValue(ShortVersionKey, version);
    PairIsKeyValue(VersionKey, buildNumber);
  }

  lemma PairIsKeyValue(key: string, value: string)
    ensures Terminated([key, StringLine(value)]) == KeyValue(key, value)
  {
    var ls := [key, StringLine(value)];
    assert ls[1..][1..] == [];
    assert Terminated(ls[1..]) == StringLine(value) + "\n" + Terminated(ls[1..][1..]);
  }

  /** The closing text always declares the WidgetKit extension point, whatever the inputs. */
  lemma ExtensionPointFixed()
    ensures Terminated(Epilogue)
      == Terminated(Epilogue[..2]) + (ExtensionPointKey + "\n" + WidgetKitExtensionPoint + "\n") + Terminated(Epilogue[4..])
  {
    assert Epilogue == Epilogue[..2] + Epilogue[2..4] + Epilogue[4..];
    TerminatedAppend(Epilogue[..2] + Epilogue[2..4], Epilogue[4..]);
    TerminatedAppend(Epilogue[..2], Epilogue[2..4]);
    assert Epilogue[2..4] == [ExtensionPointKey, WidgetKitExtensionPoint];
    PairLines(ExtensionPointKey, WidgetKitExtensionPoint);
  }

  lemma PairLines(a: string, b: string)
    ensures Terminated([a, b]) == a + "\n" + b + "\n"
  {
    var ls := [a, b];
    assert ls[1..][1..] == [];
    assert Terminated(ls[1..]) == b + "\n" + Terminated(ls[1..][1..]);
  }

  /** The value is recovered from its `<string>` line. */
  lemma StringLineInjective(a: string, b: string)
    requires StringLine(a) == StringLine(b)
    ensures a == b
  {
    assert StringLine(a)[9..|StringLine(a)| - 9] == a;
    assert StringLine(b)[9..|StringLine(b)| - 9] == b;
  }

  /** The template has exactly three substitution points: every other line is the same whatever the inputs. */
  lemma OnlyThreeSubstitutionPoints(t: string, v: string, b: string, t': string, v': string, b': string)
    ensures |TemplateLines(t, v, b)| == 29
    ensures forall k | 0 <= k < 29 && k != DisplayNameLine && k != VersionLine && k != BuildNumberLine ::
      TemplateLines(t, v, b)[k] == TemplateLines(t', v', b')[k]
    ensures TemplateLines(t, v, b) == TemplateLines(t', v', b') <==> t == t' && v == v' && b == b'
  {
    var lines, lines' := TemplateLines(t, v, b), TemplateLines(t', v', b');
    forall k | 0 <= k < 29 && k != DisplayNameLine && k != VersionLine && k != BuildNumberLine
      ensures lines[k] == lines'[k]
    {
      if k < 6 {
        assert lines[k] == Prologue[k] == lines'[k];
      } else if k < 8 {
        assert lines[k] == DisplayNameKey == lines'[k];
      } else if k < 18 {
        assert lines[k] == Identity[k - 8] == lines'[k];
      } else if k < 22 {
        assert lines[k] == lines'[k];
      } else {
        assert lines[k] == Epilogue[k - 22] == lines'[k];
      }
    }
    assert TemplateLines(t, v, b)[DisplayNameLine] == StringLine(t);
    assert TemplateLines(t', v', b')[DisplayNameLine] == StringLine(t');
    assert TemplateLines(t, v, b)[VersionLine] == StringLine(v);
    assert TemplateLines(t', v', b')[VersionLine] == StringLine(v');
    assert TemplateLines(t, v, b)[BuildNumberLine] == StringLine(b);
    assert TemplateLines(t', v', b')[BuildNumberLine] == StringLine(b');
    if TemplateLines(t, v, b) == TemplateLines(t', v', b') {
      StringLineInjective(t, t');
      StringLineInjective(v, v');
      StringLineInjective(b, b');
    }
  }
}
