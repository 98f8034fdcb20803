/**
 * The pure rules inside `VoltraButton`: choosing the SwiftUI button style from a
 * style name, and the fallbacks for a missing component id and missing children.
 */
module VoltraButton {
  import opened Base
  import opened AsciiText

  /** The five SwiftUI button styles the view can apply. */
  datatype ButtonStyle = Automatic | Bordered | BorderedProminent | Borderless | Plain

  /** `voltraButtonStyle(_:)` either leaves the view as it is or applies one style. */
  datatype StyleChoice = Unstyled | Styled(style: ButtonStyle)

  /** The lower-case name that selects each style. */
  function StyleName(s: ButtonStyle): string {
    match s
    case Automatic => "automatic"
    case Bordered => "bordered"
    case BorderedProminent => "borderedprominent"
    case Borderless => "borderless"
    case Plain => "plain"
  }

  /** `voltraButtonStyle(_:)`: nil leaves the view unstyled; otherwise the lower-cased name picks a style, `.plain` by default. */
  function SelectButtonStyle(name: Option<string>): (r: StyleChoice)
    ensures r.Unstyled? <==> name.None?
    ensures r.Styled? && r.style != Plain ==> Lower(name.value) == StyleName(r.style)
  {
    match name
    case None => Unstyled
    case Some(n) =>
      var key := Lower(n);
      if key == "automatic" then Styled(Automatic)
      else if key == "bordered" then Styled(Bordered)
      else if key == "borderedprominent" then Styled(BorderedProminent)
      else if key == "borderless" then Styled(Borderless)
      else if key == "plain" then Styled(Plain)
      else Styled(Plain)
  }

  /** The five names are pairwise distinct, so they select five distinct styles. */
  lemma StyleNamesDistinct(s: ButtonStyle, t: ButtonStyle)
    ensures StyleName(s) == StyleName(t) <==> s == t
  {
    if s != t {
      assert StyleName(s) != StyleName(t) by {
        assert StyleName(s)[..4] != StyleName(t)[..4] || |StyleName(s)| != |StyleName(t)|;
      }
    }
  }

  /** Matching ignores case: any spelling of a style's name, in any letter case, selects that style. */
  lemma SelectByNameInAnyCase(s: ButtonStyle, name: string)
    requires Lower(name) == StyleName(s)
    ensures SelectButtonStyle(Some(name)) == Styled(s)
  {
  }

  /** Names that lower-case to the same string select the same style. */
  lemma SelectionIgnoresCase(a: string, b: string)
    requires Lower(a) == Lower(b)
    ensures SelectButtonStyle(Some(a)) == SelectButtonStyle(Some(b))
  {
  }

  /** Every unrecognised name selects the same style as `plain`. */
  lemma UnknownNameIsPlain(name: string)
    requires forall s: ButtonStyle :: Lower(name) != StyleName(s)
    ensures SelectButtonStyle(Some(name)) == SelectButtonStyle(Some("plain")) == Styled(Plain)
  {
    assert Lower(name) != StyleName(Automatic) && Lower(name) != StyleName(Plain);
    assert Lower("plain") == "plain";
  }

  /** Stand-in for `VoltraNode`, the rendered child content of an element. */
  datatype Node = Text(content: string) | Group(children: seq<Node>)

  /** The parts of `VoltraElement` the button reads; `buttonStyle` is its already-extracted parameter. */
  datatype Element = Element(id: Option<string>, children: Option<Node>, buttonStyle: Option<string>)

  /** `VoltraInteractionIntent(activityId:componentId:)`. */
  datatype InteractionIntent = InteractionIntent(activityId: string, componentId: string)

  /** What `body` builds: an intent (only where App Intents are available), a label and a style. */
  datatype ButtonModel = ButtonModel(intent: Option<InteractionIntent>, labelContent: Node, style: StyleChoice)

  /** `body`, on the two sides of `#available(iOS 17.0, *)`. */
  function Body(element: Element, activityId: string, intentsAvailable: bool): (b: ButtonModel)
    ensures b.intent.Some? <==> intentsAvailable
    ensures b.intent.Some? ==> b.intent.value.activityId == activityId
    ensures b.intent.Some? ==> b.intent.value.componentId == (if element.id.Some? then element.id.value else "")
    ensures element.children.None? ==> b.labelContent == Text("Button")
    ensures element.children.Some? ==> b.labelContent == element.children.value
    ensures b.style == SelectButtonStyle(element.buttonStyle)
  {
    var content := if element.children.Some? then element.children.value else Text("Button");
    var style := SelectButtonStyle(element.buttonStyle);
    if intentsAvailable then
      ButtonModel(Some(InteractionIntent(activityId, if element.id.Some? then element.id.value else "")), content, style)
    else
      ButtonModel(None, content, style)
  }

  /** Both availability branches show the same label and apply the same style. */
  lemma BranchesAgree(element: Element, activityId: string)
    ensures Body(element, activityId, true).labelContent == Body(element, activityId, false).labelContent
    ensures Body(element, activityId, true).style == Body(element, activityId, false).style
  {
  }
}
