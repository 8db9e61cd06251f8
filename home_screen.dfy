/**
 * The Home screen's start-up effect around the deep-link handler: the choice
 * at launch between a background tag and the initial URL, the listeners for
 * later URLs and background tags, the scan button, and the `enabled` flag
 * that the NFC on/off listener and the CHECK AGAIN button update.
 *
 * The awaited library calls (`getBackgroundTag`, `getInitialURL`,
 * `isEnabled`, `readTag`) become parameters holding what they resolved to.
 */
module HomeScreen {
  import opened JsValues
  import opened DeepLink

  /**
   * `onBackgroundTag(bgTag)`, used at launch and as the
   * DiscoverBackgroundTag listener: open the tag's detail screen.
   */
  function OnBackgroundTag(tag: Tag): (nav: Navigation)
    ensures nav.navigator == MainNavigator && nav.screen == TagDetail
    ensures nav.params.TagParams? && nav.params.tag == tag
  {
    Navigate(MainNavigator, TagDetail, TagParams(tag))
  }

  /** A URL handed to `onDeepLink` only when it is truthy (present and not empty). */
  function ConsumeLink(link: Option<string>, launch: bool,
                      parseQuery: string -> Query, jsonParse: string -> Option<Json>): (r: Option<LinkOutcome>)
    ensures r.Some? <==> link.Some? && link.value != ""
    ensures r.Some? ==> r.value == OnDeepLink(link.value, launch, parseQuery, jsonParse)
  {
    match link
    case Some(url) => if url != "" then Some(OnDeepLink(url, launch, parseQuery, jsonParse)) else None
    case None => None
  }

  /** What the app does at launch. */
  datatype LaunchOutcome =
    | OpenedBackgroundTag(nav: Navigation)
    | CheckedInitialUrl(link: Option<string>, handled: Option<LinkOutcome>)

  /**
   * A background tag present at launch wins; otherwise the initial URL is
   * read and, when truthy, handled as a deep link with `launch` set.
   */
  function OnLaunch(bgTag: Option<Tag>, initialUrl: Option<string>,
                    parseQuery: string -> Query, jsonParse: string -> Option<Json>): (r: LaunchOutcome)
    ensures r.OpenedBackgroundTag? <==> bgTag.Some?
    ensures r.OpenedBackgroundTag? ==>
              r.nav.navigator == MainNavigator && r.nav.screen == TagDetail && r.nav.params == TagParams(bgTag.value)
    ensures r.CheckedInitialUrl? ==>
              r.link == initialUrl && (r.handled.Some? <==> initialUrl.Some? && initialUrl.value != "")
    ensures r.CheckedInitialUrl? && r.handled.Some? ==>
              r.handled.value == OnDeepLink(initialUrl.value, true, parseQuery, jsonParse)
  {
    match bgTag
    case Some(tag) => OpenedBackgroundTag(OnBackgroundTag(tag))
    case None => CheckedInitialUrl(initialUrl, ConsumeLink(initialUrl, true, parseQuery, jsonParse))
  }

  /** With a background tag at launch, the initial URL makes no difference. */
  lemma BackgroundTagWinsAtLaunch(tag: Tag, url1: Option<string>, url2: Option<string>,
                                  parseQuery: string -> Query, jsonParse: string -> Option<Json>)
    ensures OnLaunch(Some(tag), url1, parseQuery, jsonParse) == OnLaunch(Some(tag), url2, parseQuery, jsonParse)
    ensures OnLaunch(Some(tag), url1, parseQuery, jsonParse) == OpenedBackgroundTag(OnBackgroundTag(tag))
  {
  }

  /** The `url` event listener: a truthy URL is handled with `launch` cleared. */
  function OnUrlEvent(url: Option<string>,
                      parseQuery: string -> Query, jsonParse: string -> Option<Json>): (r: Option<LinkOutcome>)
    ensures r.Some? <==> url.Some? && url.value != ""
    ensures r.Some? ==> r.value == OnDeepLink(url.value, false, parseQuery, jsonParse)
  {
    ConsumeLink(url, false, parseQuery, jsonParse)
  }

  /** A link handled at launch and the same link arriving later end the same way. */
  lemma LaunchAndLiveLinksAgree(url: string, parseQuery: string -> Query, jsonParse: string -> Option<Json>)
    ensures OnLaunch(None, Some(url), parseQuery, jsonParse).handled
            == OnUrlEvent(Some(url), parseQuery, jsonParse)
  {
    LaunchFlagIrrelevant(url, parseQuery, jsonParse);
  }

  /** SCAN NFC TAG: navigate to the tag's details when a tag was read. */
  function OnScanPressed(tag: Option<Tag>): (r: Option<Navigation>)
    ensures r.Some? <==> tag.Some?
    ensures r.Some? ==> r.value.navigator == MainNavigator && r.value.screen == TagDetail
                        && r.value.params == TagParams(tag.value)
  {
    match tag
    case Some(t) => Some(Navigate(MainNavigator, TagDetail, TagParams(t)))
    case None => None
  }

  /** A tag read with the scan button opens the same screen as a background tag. */
  lemma ScanAndBackgroundTagAgree(tag: Tag)
    ensures OnScanPressed(Some(tag)) == Some(OnBackgroundTag(tag))
  {
  }

  /** The new value of `enabled` after a StateChanged event carrying `state`. */
  function NextEnabled(enabled: Option<bool>, state: Option<string>): (r: Option<bool>)
    ensures state == Some("on") || state == Some("off") ==> r == Some(state == Some("on"))
    ensures r != enabled ==> state == Some("on") || state == Some("off")
    ensures r == enabled || r.Some?
  {
    if state == Some("off") then Some(false)
    else if state == Some("on") then Some(true)
    else enabled
  }

  /** `enabled` after a series of StateChanged events, the first applied first. */
  function AfterStateEvents(enabled: Option<bool>, states: seq<Option<string>>): Option<bool>
    decreases |states|
  {
    if states == [] then enabled else AfterStateEvents(NextEnabled(enabled, states[0]), states[1..])
  }

  /** The last `'on'` or `'off'` among the events, as the flag value it stands for. */
  function LastSwitch(states: seq<Option<string>>): Option<bool>
  {
    if states == [] then None
    else if states[|states| - 1] == Some("off") then Some(false)
    else if states[|states| - 1] == Some("on") then Some(true)
    else LastSwitch(states[..|states| - 1])
  }

  lemma {:induction false} AfterStateEventsSnoc(enabled: Option<bool>, states: seq<Option<string>>, state: Option<string>)
    ensures AfterStateEvents(enabled, states + [state]) == NextEnabled(AfterStateEvents(enabled, states), state)
    decreases |states|
  {
    if states == [] {
      assert states + [state] == [state];
      assert [state][1..] == [];
    } else {
      assert (states + [state])[1..] == states[1..] + [state];
      AfterStateEventsSnoc(NextEnabled(enabled, states[0]), states[1..], state);
    }
  }

  /**
   * The flag ends as the last `'on'`/`'off'` event set it; with no such
   * event it keeps its value. Other states never change it.
   */
  lemma {:induction false} LastSwitchWins(enabled: Option<bool>, states: seq<Option<string>>)
    ensures AfterStateEvents(enabled, states) == if LastSwitch(states).Some? then LastSwitch(states) else enabled
  {
    if states != [] {
      var init := states[..|states| - 1];
      assert states == init + [states[|states| - 1]];
      AfterStateEventsSnoc(enabled, init, states[|states| - 1]);
      LastSwitchWins(enabled, init);
    }
  }

  /** Receiving the same state twice in a row is the same as receiving it once. */
  lemma NextEnabledIdempotent(enabled: Option<bool>, state: Option<string>)
    ensures NextEnabled(NextEnabled(enabled, state), state) == NextEnabled(enabled, state)
  {
  }

  /** The screen's `enabled` state hook; `None` is the initial `null`. */
  class NfcStatus {
    var enabled: Option<bool>

    /** `React.useState(null)`. */
    constructor ()
      ensures enabled == None
    {
      enabled := None;
    }

    /**
     * `setEnabled(await NfcProxy.isEnabled())`: at start-up (line 30), and in
     * the CHECK AGAIN handler of `renderNfcNotEnabled`, which the screen
     * never renders.
     */
    method Refresh(isEnabled: bool)
      modifies this
      ensures enabled == Some(isEnabled)
    {
      enabled := Some(isEnabled);
    }

    /** The StateChanged listener: `'off'` clears the flag, `'on'` sets it, anything else leaves it. */
    method OnStateChanged(state: Option<string>)
      modifies this
      ensures state == Some("off") ==> enabled == Some(false)
      ensures state == Some("on") ==> enabled == Some(true)
      ensures state != Some("off") && state != Some("on") ==> enabled == old(enabled)
      ensures enabled == NextEnabled(old(enabled), state)
    {
      if state == Some("off") {
        enabled := Some(false);
      } else if state == Some("on") {
        enabled := Some(true);
      }
    }
  }
}
