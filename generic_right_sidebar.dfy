// The generic right sidebar's frame: its icon picked for the theme, its
// title split into a plain first word and a bold remainder, and the close
// button that returns to the default sidebar. Whether the screen is mobile
// is passed in.
module GenericRightSidebar {
  import opened Wrappers
  import opened JsString
  import ThemeContext
  import LayoutContext

  const DefaultIcon: string := "/assets/production.svg"

  /** The component the close button reopens on desktop. */
  const RecentProductionsSidebar: LayoutContext.Component := "RecentProductionsSidebar"

  /** `renderIcon` for a string icon: a path already naming a theme is kept; otherwise its first ".svg" gets the mode's suffix. */
  function IconSource(icon: string, mode: ThemeContext.Mode): string
  {
    if Includes(icon, "light") || Includes(icon, "dark") then icon
    else if mode == ThemeContext.Dark then ReplaceFirst(icon, ".svg", "-dark.svg")
    else ReplaceFirst(icon, ".svg", "-light.svg")
  }

  /** The title's two spans: the first word, and the rest joined by single spaces or nothing for one word. */
  function TitleParts(title: string): (string, string)
  {
    var words := Split(title, ' ');
    (words[0], if |words| > 1 then Join(words[1..], ' ') else "")
  }

  /** `returnToDefaultRightSidebar`. */
  function ReturnToDefault(s: LayoutContext.LayoutState, isMobile: bool): LayoutContext.LayoutState
  {
    if !isMobile then LayoutContext.OpenDefaultRightSidebar(s, RecentProductionsSidebar, isMobile)
    else LayoutContext.CloseRight(s)
  }

  /** An icon path naming either theme is used as it is. */
  lemma ThemedIconKept(icon: string, mode: ThemeContext.Mode)
    requires Includes(icon, "light") || Includes(icon, "dark")
    ensures IconSource(icon, mode) == icon
  {
  }

  /**
   * A plain path with a ".svg" has its first ".svg" replaced by the mode's
   * suffix, and the result names the mode, so picking again keeps it.
   */
  lemma PlainIconGetsSuffix(icon: string, mode: ThemeContext.Mode)
    requires !Includes(icon, "light") && !Includes(icon, "dark") && Includes(icon, ".svg")
    ensures var suffix := if mode == ThemeContext.Dark then "-dark.svg" else "-light.svg";
      exists i :: OccursAt(icon, ".svg", i)
        && (forall j :: 0 <= j < i ==> !OccursAt(icon, ".svg", j))
        && IconSource(icon, mode) == icon[..i] + suffix + icon[i + 4..]
    ensures IconSource(IconSource(icon, mode), mode) == IconSource(icon, mode)
  {
    var suffix := if mode == ThemeContext.Dark then "-dark.svg" else "-light.svg";
    var i := IndexOf(icon, ".svg").value;
    assert IconSource(icon, mode) == ReplaceFirst(icon, ".svg", suffix);
    assert IconSource(icon, mode) == icon[..i] + suffix + icon[i + 4..];
    SuffixNamesMode(icon[..i], mode, icon[i + 4..]);
  }

  /** A path carrying the suffix names its mode. */
  lemma SuffixNamesMode(a: string, mode: ThemeContext.Mode, b: string)
    ensures mode == ThemeContext.Dark ==> Includes(a + "-dark.svg" + b, "dark")
    ensures mode == ThemeContext.Light ==> Includes(a + "-light.svg" + b, "light")
  {
    if mode == ThemeContext.Dark {
      var r := a + "-dark.svg" + b;
      assert r[|a| + 1..|a| + 5] == "dark";
      assert OccursAt(r, "dark", |a| + 1);
    } else {
      var r := a + "-light.svg" + b;
      assert r[|a| + 1..|a| + 6] == "light";
      assert OccursAt(r, "light", |a| + 1);
    }
  }

  /** The two spans put back together with one space give the title. */
  lemma {:induction false} TitleRoundTrip(title: string)
    ensures var (first, rest) := TitleParts(title);
      (if |Split(title, ' ')| > 1 then first + " " + rest else first) == title
    ensures |Split(title, ' ')| == 1 ==> TitleParts(title) == (title, "")
  {
    var words := Split(title, ' ');
    JoinSplit(title, ' ');
    if |words| == 1 {
      assert Join(words, ' ') == words[0];
    } else {
      assert Join(words, ' ') == words[0] + [' '] + Join(words[1..], ' ');
    }
  }

  /** Closing shows the default sidebar on desktop and hides the right sidebar on mobile. */
  lemma CloseReturnsToDefault(s: LayoutContext.LayoutState, isMobile: bool)
    ensures !isMobile ==>
      (ReturnToDefault(s, isMobile).right && ReturnToDefault(s, isMobile).component == Some(RecentProductionsSidebar))
    ensures isMobile ==>
      (!ReturnToDefault(s, isMobile).right && ReturnToDefault(s, isMobile).component == s.component)
    ensures ReturnToDefault(s, isMobile).left == s.left
  {
  }
}
