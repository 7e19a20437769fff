/**
 * Switching the create page to the requested creation mode
 * (`switch_to_correct_creation_mode`): the instrumental and custom-mode
 * toggles are read from the page, each one that differs from the request is
 * clicked, and turning custom mode over dismisses its first-use popups.
 * A toggle is read through two page lookups that must each match exactly
 * once; clickable controls are booleans "exactly one element matched".
 */
module CreationMode {
  import opened Wrappers
  import opened Lookups

  /**
   * `get_current_instrumental_setting` / `get_current_custom_mode_setting`
   * (scrape_song/scrape_song.py:130-156): a toggle reads as on or off only
   * when exactly one of its two renderings is on the page.
   */
  function ReadSetting(enabledFound: bool, disabledFound: bool): (r: Option<bool>)
    ensures r.Some? <==> enabledFound != disabledFound
    ensures r == Some(true) <==> enabledFound && !disabledFound
    ensures r == Some(false) <==> disabledFound && !enabledFound
  {
    if enabledFound == disabledFound then None else Some(enabledFound)
  }

  /** The elements matching each rendering of the two toggles. */
  datatype Observed = Observed(instrumentalEnabled: seq<Element>, instrumentalDisabled: seq<Element>,
                               customEnabled: seq<Element>, customDisabled: seq<Element>)

  /** Whether each clickable control is found when it is looked up. */
  datatype Controls = Controls(instrumentalButton: bool, customButton: bool,
                               getStartedButton: bool, acceptTermsButton: bool)

  datatype Action = ToggleInstrumental | ToggleCustomMode | DismissGetStarted | AcceptCustomTerms

  datatype Mode = Mode(instrumental: bool, custom: bool)

  datatype SwitchResult = SwitchResult(ok: bool, actions: seq<Action>)

  /** The page's mode after a sequence of clicks. */
  function Apply(mode: Mode, actions: seq<Action>): Mode
    decreases |actions|
  {
    if actions == [] then mode
    else
      var m := Apply(mode, actions[..|actions| - 1]);
      match actions[|actions| - 1]
      case ToggleInstrumental => m.(instrumental := !m.instrumental)
      case ToggleCustomMode => m.(custom := !m.custom)
      case _ => m
  }

  lemma ApplyAppend(mode: Mode, actions: seq<Action>, a: Action)
    ensures Apply(mode, actions + [a]) == Apply(Apply(mode, actions), [a])
  {
    assert (actions + [a])[..|actions|] == actions;
    assert [a][..0] == [];
  }

  function CurrentMode(seen: Observed): Option<Mode> {
    var i := ReadSetting(FindOne(seen.instrumentalEnabled).Some?, FindOne(seen.instrumentalDisabled).Some?);
    var c := ReadSetting(FindOne(seen.customEnabled).Some?, FindOne(seen.customDisabled).Some?);
    if i.Some? && c.Some? then Some(Mode(i.value, c.value)) else None
  }

  /**
   * `dismiss_entire_custom_mode_intro_flow` (scrape_song/scrape_song.py:332-368):
   * each popup button is clicked when present; a missing one is no failure.
   */
  function DismissIntroFlow(controls: Controls): (r: seq<Action>)
    ensures DismissGetStarted in r <==> controls.getStartedButton
    ensures AcceptCustomTerms in r <==> controls.acceptTermsButton
    ensures ToggleInstrumental !in r && ToggleCustomMode !in r
  {
    (if controls.getStartedButton then [DismissGetStarted] else [])
    + (if controls.acceptTermsButton then [AcceptCustomTerms] else [])
  }

  /** `switch_to_correct_creation_mode` (scrape_song/scrape_song.py:88-128). */
  function SwitchToCorrectCreationMode(wanted: Mode, seen: Observed, controls: Controls): (r: SwitchResult)
    ensures r.ok <==> && CurrentMode(seen).Some?
                      && (CurrentMode(seen).value.instrumental != wanted.instrumental ==> controls.instrumentalButton)
                      && (CurrentMode(seen).value.custom != wanted.custom ==> controls.customButton)
    ensures r.ok ==> Apply(CurrentMode(seen).value, r.actions) == wanted
    ensures ToggleInstrumental in r.actions ==> CurrentMode(seen).Some? && CurrentMode(seen).value.instrumental != wanted.instrumental
    ensures ToggleCustomMode in r.actions ==> CurrentMode(seen).Some? && CurrentMode(seen).value.custom != wanted.custom
    ensures DismissGetStarted in r.actions || AcceptCustomTerms in r.actions ==> ToggleCustomMode in r.actions
    ensures !r.ok ==> ToggleCustomMode !in r.actions
  {
    match CurrentMode(seen)
    case None => SwitchResult(false, [])
    case Some(current) =>
      var first :=
        if current.instrumental == wanted.instrumental then SwitchResult(true, [])
        else if !controls.instrumentalButton then SwitchResult(false, [])
        else SwitchResult(true, [ToggleInstrumental]);
      if !first.ok then first
      else if current.custom == wanted.custom then
        assert Apply(current, first.actions) == wanted by {
          if first.actions != [] { ApplyAppend(current, [], ToggleInstrumental); }
        }
        first
      else if !controls.customButton then SwitchResult(false, first.actions)
      else
        var acts := first.actions + [ToggleCustomMode] + DismissIntroFlow(controls);
        SwitchApplies(current, wanted, first.actions, controls);
        SwitchResult(true, acts)
  }

  lemma SwitchApplies(current: Mode, wanted: Mode, first: seq<Action>, controls: Controls)
    requires current.custom != wanted.custom
    requires first == [] || first == [ToggleInstrumental]
    requires first == [] <==> current.instrumental == wanted.instrumental
    ensures Apply(current, first + [ToggleCustomMode] + DismissIntroFlow(controls)) == wanted
  {
    var dismiss := DismissIntroFlow(controls);
    ApplyAppend(current, [], ToggleInstrumental);
    ApplyAppend(current, first, ToggleCustomMode);
    DismissLeavesMode(Apply(current, first + [ToggleCustomMode]), first + [ToggleCustomMode], dismiss, current);
  }

  lemma {:induction false} DismissLeavesMode(m: Mode, prefix: seq<Action>, dismiss: seq<Action>, start: Mode)
    requires Apply(start, prefix) == m
    requires forall k :: 0 <= k < |dismiss| ==> dismiss[k] != ToggleInstrumental && dismiss[k] != ToggleCustomMode
    ensures Apply(start, prefix + dismiss) == m
    decreases |dismiss|
  {
    if dismiss != [] {
      var d := dismiss[..|dismiss| - 1];
      DismissLeavesMode(m, prefix, d, start);
      assert prefix + dismiss == (prefix + d) + [dismiss[|dismiss| - 1]];
      ApplyAppend(start, prefix + d, dismiss[|dismiss| - 1]);
    } else {
      assert prefix + dismiss == prefix;
    }
  }

  /** A page already in the requested mode is left untouched. */
  lemma AlreadyInMode(wanted: Mode, seen: Observed, controls: Controls)
    requires CurrentMode(seen) == Some(wanted)
    ensures SwitchToCorrectCreationMode(wanted, seen, controls) == SwitchResult(true, [])
  {
  }

  /**
   * An unreadable toggle fails the switch before anything is clicked: here
   * the "on" rendering matches twice and the "off" rendering not at all.
   */
  lemma UnreadableToggleFails(wanted: Mode, seen: Observed, controls: Controls)
    requires |seen.customEnabled| == 2 && seen.customDisabled == []
    ensures SwitchToCorrectCreationMode(wanted, seen, controls) == SwitchResult(false, [])
  {
  }
}
