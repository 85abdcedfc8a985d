/** The app shell `SproutlyBotanicalMinimalApp`: the active tab, the theme
    flag, the loading gate and the two Home-tab image previews. */
module Shell {
  import opened Wrappers
  import opened Browser

  /** The bottom navigation's entries, in display order. */
  const NavItems: seq<string> := ["Home", "Chatbot", "Community", "Marketplace", "AR Features", "My Account"]

  /** The two fixed colour sets; their hex values are not modelled. */
  datatype Palette = LightPalette | DarkPalette

  /** The palette the screen is drawn with. */
  function PaletteFor(darkMode: bool): Palette {
    if darkMode then DarkPalette else LightPalette
  }

  /** Toggling the theme always changes the palette, and toggling it twice
      brings the original back. */
  lemma ToggleTwiceRestoresPalette(darkMode: bool)
    ensures PaletteFor(!darkMode) != PaletteFor(darkMode)
    ensures PaletteFor(!!darkMode) == PaletteFor(darkMode)
  {
  }

  /** What the shell renders. */
  datatype Screen = Splash | TabBody(tab: string)

  function CountTrue(bs: seq<bool>): nat {
    if bs == [] then 0 else (if bs[0] then 1 else 0) + CountTrue(bs[1..])
  }

  /** The navigation labels are pairwise different. */
  lemma NavItemsDistinct()
    ensures forall i, j :: 0 <= i < j < |NavItems| ==> NavItems[i] != NavItems[j]
  {
  }

  /** Whether each navigation button is drawn as the current one: exactly
      one is when the active tab is a navigation entry, none otherwise. */
  function Highlights(activeTab: string): (h: seq<bool>)
    ensures |h| == |NavItems|
    ensures forall i :: 0 <= i < |NavItems| ==> (h[i] <==> NavItems[i] == activeTab)
    ensures CountTrue(h) == if activeTab in NavItems then 1 else 0
  {
    var h := seq(|NavItems|, i requires 0 <= i < |NavItems| => NavItems[i] == activeTab);
    CountHighlights(activeTab, h);
    h
  }

  /** Since the labels differ, at most one of them equals the active tab. */
  lemma {:induction false} CountHighlights(activeTab: string, h: seq<bool>)
    requires |h| == |NavItems|
    requires forall i :: 0 <= i < |NavItems| ==> (h[i] <==> NavItems[i] == activeTab)
    ensures CountTrue(h) == if activeTab in NavItems then 1 else 0
  {
    NavItemsDistinct();
    assert h == [h[0], h[1], h[2], h[3], h[4], h[5]];
    assert activeTab in NavItems <==> h[0] || h[1] || h[2] || h[3] || h[4] || h[5];
    assert CountTrue(h[5..]) == (if h[5] then 1 else 0) by { assert h[5..][1..] == []; }
    assert CountTrue(h[4..]) == (if h[4] then 1 else 0) + CountTrue(h[5..]) by { assert h[4..][1..] == h[5..]; }
    assert CountTrue(h[3..]) == (if h[3] then 1 else 0) + CountTrue(h[4..]) by { assert h[3..][1..] == h[4..]; }
    assert CountTrue(h[2..]) == (if h[2] then 1 else 0) + CountTrue(h[3..]) by { assert h[2..][1..] == h[3..]; }
    assert CountTrue(h[1..]) == (if h[1] then 1 else 0) + CountTrue(h[2..]) by { assert h[1..][1..] == h[2..]; }
  }

  class App {
    var darkMode: bool
    var activeTab: string
    var loadingComplete: bool
    var soilImage: Option<ObjectUrl>
    var plantImage: Option<ObjectUrl>

    /** The active tab is always one of the navigation entries. */
    ghost predicate Valid()
      reads this
    {
      activeTab in NavItems
    }

    constructor ()
      ensures Valid()
      ensures !darkMode && activeTab == "Home" && !loadingComplete
      ensures soilImage == None && plantImage == None
    {
      darkMode := false;
      activeTab := "Home";
      loadingComplete := false;
      soilImage, plantImage := None, None;
    }

    function Colors(): (p: Palette)
      reads this
    {
      PaletteFor(darkMode)
    }

    /** The loading gate: the splash until loading completes, then the
        body of a navigation entry, the one whose button alone is
        highlighted. */
    function CurrentScreen(): (s: Screen)
      requires Valid()
      reads this
      ensures s == Splash <==> !loadingComplete
      ensures s.TabBody? ==> && s.tab == activeTab && s.tab in NavItems
                             && CountTrue(Highlights(s.tab)) == 1
    {
      if !loadingComplete then Splash else TabBody(activeTab)
    }

    /** A navigation button is pressed: that entry becomes active and
        nothing else changes; pressing the current one changes nothing. */
    method SelectTab(item: string)
      requires Valid() && item in NavItems
      modifies this`activeTab
      ensures Valid() && activeTab == item
      ensures old(activeTab) == item ==> unchanged(this)
    {
      activeTab := item;
    }

    /** The theme checkbox: the flag flips, and with it the palette. */
    method ToggleDarkMode()
      requires Valid()
      modifies this`darkMode
      ensures Valid() && darkMode == !old(darkMode)
      ensures Colors() != old(Colors())
    {
      darkMode := !darkMode;
    }

    /** The splash's `onFinish`: the flag is only ever set, never cleared. */
    method FinishLoading()
      requires Valid()
      modifies this`loadingComplete
      ensures Valid() && loadingComplete
      ensures CurrentScreen() == TabBody(activeTab)
    {
      loadingComplete := true;
    }

    /** `handleSoilImageChange`: a chosen file gives a preview URL (`url`
        stands for `URL.createObjectURL(file)`), clearing the picker drops
        the preview. */
    method HandleSoilImageChange(picked: Option<FileRef>, url: ObjectUrl)
      requires Valid()
      modifies this`soilImage
      ensures Valid() && soilImage == if picked.Some? then Some(url) else None
    {
      if picked.Some? { soilImage := Some(url); } else { soilImage := None; }
    }

    /** `handlePlantImageChange`, the same for the plant photo. */
    method HandlePlantImageChange(picked: Option<FileRef>, url: ObjectUrl)
      requires Valid()
      modifies this`plantImage
      ensures Valid() && plantImage == if picked.Some? then Some(url) else None
    {
      if picked.Some? { plantImage := Some(url); } else { plantImage := None; }
    }
  }

  /** Any run of the shell's operations: the active tab stays a navigation
      entry, the loading gate never closes again once open, and toggling
      the theme twice restores the palette. */
  method ShellSession(app: App, tabs: seq<string>)
    requires app.Valid()
    requires forall i :: 0 <= i < |tabs| ==> tabs[i] in NavItems
    modifies app
    ensures app.Valid() && app.loadingComplete
    ensures app.Colors() == old(app.Colors())
  {
    app.FinishLoading();
    app.ToggleDarkMode();
    var i := 0;
    while i < |tabs|
      invariant 0 <= i <= |tabs|
      invariant app.Valid() && app.loadingComplete
      invariant app.darkMode == !old(app.darkMode)
    {
      app.SelectTab(tabs[i]);
      i := i + 1;
    }
    app.ToggleDarkMode();
  }
}
