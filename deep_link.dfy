/**
 * The deep-link handler `onDeepLink` of the Home screen: recognise one of the
 * two custom URL schemes, strip it, split the rest at the first `?` into an
 * action and a query, and for the `share` action decode the `data` query
 * parameter as a JSON record and route it by its `payload.tech`.
 *
 * `qs.parse` and `JSON.parse` are library code; they are parameters here
 * (`parseQuery`, `jsonParse`, the latter `None` where it throws). Every path
 * of the handler, the caught exceptions included, ends in a `LinkOutcome`.
 */
module DeepLink {
  import opened JsValues

  /** A tag object handed over by the NFC library; its contents are never inspected. */
  type Tag(==)

  // The two recognised scheme prefixes, in the order the handler tries them.
  const AndroidScheme: string := "com.washow.nfcopenrewriter://"
  const IosScheme: string := "com.revteltech.nfcopenrewriter://"
  const CustomSchemes: seq<string> := [AndroidScheme, IosScheme]

  // The values of the NFC library's `NfcTech` constants that the handler compares against.
  const NdefTech: string := "Ndef"
  const NfcATech: string := "NfcA"
  const NfcVTech: string := "NfcV"
  const IsoDepTech: string := "IsoDep"

  const ShareAction: string := "share"

  /** Every navigation of the Home screen goes through the `Main` navigator. */
  const MainNavigator: string := "Main"

  datatype Screen = TagDetail | NdefWrite | CustomTransceive

  datatype RouteParams = SavedRecord(record: Json) | TagParams(tag: Tag)

  datatype Navigation = Navigate(navigator: string, screen: Screen, params: RouteParams)

  /** The two `console.warn` calls of the handler. */
  datatype Warning =
    | UnrecognizedTech  // 'unrecognized share payload tech'
    | ParseFailed       // 'fail to parse deep link' (an exception was caught)

  /** Everything `onDeepLink` can end with; it never throws. */
  datatype LinkOutcome =
    | Ignored                   // no recognised scheme: silent return
    | Unhandled(action: string) // recognised, but the action is not `share`
    | Routed(nav: Navigation)
    | Warned(warning: Warning)

  /** The action and the query of a link whose scheme has been stripped. */
  datatype LinkParts = LinkParts(action: string, query: string)

  /** The `find` callback: `scheme === url.slice(0, scheme.length)`. */
  predicate SchemeMatches(scheme: string, url: string)
  {
    scheme == SliceTo(url, |scheme|)
  }

  lemma SchemeMatchesIsPrefix(scheme: string, url: string)
    ensures SchemeMatches(scheme, url) <==> scheme <= url
  {
  }

  /** `schemes.find(...)`, as the index of the first scheme that matches. */
  function FindScheme(schemes: seq<string>, url: string): (r: Option<nat>)
    ensures r.None? <==> forall i :: 0 <= i < |schemes| ==> !SchemeMatches(schemes[i], url)
    ensures r.Some? ==> r.value < |schemes| && SchemeMatches(schemes[r.value], url)
    ensures r.Some? ==> forall i :: 0 <= i < r.value ==> !SchemeMatches(schemes[i], url)
  {
    if |schemes| == 0 then None
    else if SchemeMatches(schemes[0], url) then Some(0)
    else
      match FindScheme(schemes[1..], url)
      case None => None
      case Some(k) => Some(k + 1)
  }

  /**
   * The URL without its scheme, or `None` when no scheme matches; the
   * Android scheme is tried first.
   */
  function StripScheme(url: string): (r: Option<string>)
    ensures r.None? <==> !(AndroidScheme <= url) && !(IosScheme <= url)
    ensures AndroidScheme <= url ==> r == Some(url[|AndroidScheme|..])
    ensures !(AndroidScheme <= url) && IosScheme <= url ==> r == Some(url[|IosScheme|..])
  {
    SchemeMatchesIsPrefix(AndroidScheme, url);
    SchemeMatchesIsPrefix(IosScheme, url);
    assert CustomSchemes[0] == AndroidScheme && CustomSchemes[1] == IosScheme;
    match FindScheme(CustomSchemes, url)
    case None => None
    case Some(i) => Some(SliceFrom(url, |CustomSchemes[i]|))
  }

  /** Neither scheme is a prefix of the other, so at most one of them matches a URL. */
  lemma SchemesExclusive(url: string)
    ensures !(AndroidScheme <= url && IosScheme <= url)
  {
    assert AndroidScheme[4] == 'w' && IosScheme[4] == 'r';
  }

  /** A link built from a recognised scheme has exactly that scheme removed. */
  lemma StripSchemeOf(scheme: string, rest: string)
    requires scheme in CustomSchemes
    ensures StripScheme(scheme + rest) == Some(rest)
  {
    var url := scheme + rest;
    assert scheme <= url;
    SchemesExclusive(url);
    assert url[|scheme|..] == rest;
  }

  /** Split at the first `?`: the action before it, the query from it on. */
  function SplitAction(rest: string): (r: LinkParts)
    ensures r.action + r.query == rest
    ensures '?' !in r.action
    ensures '?' in rest <==> r.query != ""
    ensures r.query != "" ==> r.query[0] == '?'
  {
    var splitIdx := IndexOf(rest, '?');
    if splitIdx > -1 then
      assert rest[..splitIdx] + rest[splitIdx..] == rest;
      LinkParts(SliceTo(rest, splitIdx), SliceFrom(rest, splitIdx))
    else
      LinkParts(rest, "")
  }

  /** An action without `?` followed by an empty query or one that starts with `?` splits back into the two. */
  lemma SplitActionOf(action: string, query: string)
    requires '?' !in action
    requires query == "" || query[0] == '?'
    ensures SplitAction(action + query) == LinkParts(action, query)
  {
    IndexOfAfter(action, query, '?');
    if query != "" {
      assert query[0] == '?';
      assert (action + query)[..|action|] == action;
      assert (action + query)[|action|..] == query;
    }
  }

  /** `sharedRecord.payload?.tech`; reading `payload` of `null` throws. */
  function PayloadTech(record: Json): (r: Eval<Option<Json>>)
    ensures r.Throws? <==> record.JNull?
    ensures r.Returns? && r.value.Some? <==>
              record.JObject? && "payload" in record.fields
              && record.fields["payload"].JObject? && "tech" in record.fields["payload"].fields
    ensures r.Returns? && r.value.Some? ==> r.value.value == record.fields["payload"].fields["tech"]
  {
    match Property(record, "payload")
    case Throws => Throws
    case Returns(payload) => Returns(OptionalProperty(payload, "tech"))
  }

  predicate IsCustomTransceiveTech(t: string)
  {
    t == NfcATech || t == NfcVTech || t == IsoDepTech
  }

  /** The `===` chain on the tech value: only the four technology strings pick a screen. */
  function TechScreen(tech: Option<Json>): (r: Option<Screen>)
    ensures r == Some(NdefWrite) <==> tech == Some(JString(NdefTech))
    ensures r == Some(CustomTransceive) <==>
              tech.Some? && tech.value.JString? && IsCustomTransceiveTech(tech.value.s)
    ensures r != Some(TagDetail)
  {
    if tech == Some(JString(NdefTech)) then Some(NdefWrite)
    else if tech == Some(JString(NfcATech)) then Some(CustomTransceive)
    else if tech == Some(JString(NfcVTech)) then Some(CustomTransceive)
    else if tech == Some(JString(IsoDepTech)) then Some(CustomTransceive)
    else None
  }

  /** The argument `JSON.parse(params.data)` receives: `String(params.data)`. */
  function DataArgument(params: Query): (r: string)
    ensures "data" !in params ==> r == "undefined"
    ensures "data" in params && params["data"].QString? ==> r == params["data"].s
    ensures "data" in params && params["data"] == QNull ==> r == "null"
    ensures "data" in params && params["data"].QArray? && |params["data"].items| == 1
            ==> r == ItemText(params["data"].items[0])
    ensures "data" in params && params["data"].QArray? ==> r == Join(params["data"].items, ",")
  {
    ToJsString(if "data" in params then Some(params["data"]) else None)
  }

  /** The `share` branch, from the parsed query on. */
  function RouteShare(params: Query, jsonParse: string -> Option<Json>): (r: LinkOutcome)
    ensures r.Routed? || r.Warned?
    ensures r.Routed? ==>
              r.nav.navigator == MainNavigator
              && r.nav.params.SavedRecord?
              && jsonParse(DataArgument(params)) == Some(r.nav.params.record)
              && PayloadTech(r.nav.params.record).Returns?
              && TechScreen(PayloadTech(r.nav.params.record).value) == Some(r.nav.screen)
    ensures r == Warned(ParseFailed) <==>
              jsonParse(DataArgument(params)).None? || jsonParse(DataArgument(params)) == Some(JNull)
    ensures r.Routed? <==>
              jsonParse(DataArgument(params)).Some? && jsonParse(DataArgument(params)).value != JNull
              && TechScreen(PayloadTech(jsonParse(DataArgument(params)).value).value).Some?
    ensures r == Warned(UnrecognizedTech) <==>
              jsonParse(DataArgument(params)).Some? && jsonParse(DataArgument(params)).value != JNull
              && TechScreen(PayloadTech(jsonParse(DataArgument(params)).value).value).None?
  {
    match jsonParse(DataArgument(params))
    case None => Warned(ParseFailed)
    case Some(sharedRecord) =>
      match PayloadTech(sharedRecord)
      case Throws => Warned(ParseFailed)
      case Returns(tech) =>
        match TechScreen(tech)
        case Some(screen) => Routed(Navigate(MainNavigator, screen, SavedRecord(sharedRecord)))
        case None => Warned(UnrecognizedTech)
  }

  /**
   * `onDeepLink(url, launch)`. The `launch` flag is accepted and has no
   * effect, as in the handler.
   */
  function OnDeepLink(url: string, launch: bool,
                      parseQuery: string -> Query, jsonParse: string -> Option<Json>): (r: LinkOutcome)
    ensures r.Ignored? <==> !(AndroidScheme <= url) && !(IosScheme <= url)
    ensures !r.Ignored? && !r.Unhandled? ==>
              StripScheme(url).Some? && SplitAction(StripScheme(url).value).action == ShareAction
    ensures r.Unhandled? ==>
              StripScheme(url).Some? && r.action == SplitAction(StripScheme(url).value).action
              && r.action != ShareAction
    ensures r.Routed? ==> r.nav.navigator == MainNavigator && r.nav.params.SavedRecord?
                          && r.nav.screen != TagDetail
  {
    match StripScheme(url)
    case None => Ignored
    case Some(rest) =>
      var parts := SplitAction(rest);
      var params := parseQuery(parts.query);
      if parts.action == ShareAction then RouteShare(params, jsonParse)
      else Unhandled(parts.action)
  }

  /** A share link routes a record whose `payload.tech` is one of the four technologies, unchanged. */
  lemma ShareLinkRouted(scheme: string, query: string, launch: bool,
                        parseQuery: string -> Query, jsonParse: string -> Option<Json>,
                        record: Json, tech: string)
    requires scheme in CustomSchemes
    requires query == "" || query[0] == '?'
    requires jsonParse(DataArgument(parseQuery(query))) == Some(record)
    requires record.JObject? && "payload" in record.fields
    requires record.fields["payload"].JObject? && "tech" in record.fields["payload"].fields
    requires record.fields["payload"].fields["tech"] == JString(tech)
    requires tech == NdefTech || IsCustomTransceiveTech(tech)
    ensures OnDeepLink(scheme + ShareAction + query, launch, parseQuery, jsonParse)
            == Routed(Navigate(MainNavigator,
                               if tech == NdefTech then NdefWrite else CustomTransceive,
                               SavedRecord(record)))
  {
    ShareLinkParts(scheme, query);
  }

  /** A share link whose record has no usable `payload.tech` only warns. */
  lemma ShareLinkUnrecognizedTech(scheme: string, query: string, launch: bool,
                                  parseQuery: string -> Query, jsonParse: string -> Option<Json>,
                                  record: Json)
    requires scheme in CustomSchemes
    requires query == "" || query[0] == '?'
    requires jsonParse(DataArgument(parseQuery(query))) == Some(record)
    requires record != JNull
    requires !(PayloadTech(record).value.Some? && PayloadTech(record).value.value.JString?
               && (PayloadTech(record).value.value.s == NdefTech
                   || IsCustomTransceiveTech(PayloadTech(record).value.value.s)))
    ensures OnDeepLink(scheme + ShareAction + query, launch, parseQuery, jsonParse) == Warned(UnrecognizedTech)
  {
    ShareLinkParts(scheme, query);
    assert TechScreen(PayloadTech(record).value).None?;
    assert RouteShare(parseQuery(query), jsonParse) == Warned(UnrecognizedTech);
  }

  /** A share link whose `data` does not parse, or parses to `null`, is caught and only warns. */
  lemma ShareLinkParseFailure(scheme: string, query: string, launch: bool,
                              parseQuery: string -> Query, jsonParse: string -> Option<Json>)
    requires scheme in CustomSchemes
    requires query == "" || query[0] == '?'
    requires jsonParse(DataArgument(parseQuery(query))) in {None, Some(JNull)}
    ensures OnDeepLink(scheme + ShareAction + query, launch, parseQuery, jsonParse) == Warned(ParseFailed)
  {
    ShareLinkParts(scheme, query);
  }

  /**
   * A share link without a `data` parameter is caught and only warns:
   * `JSON.parse` is then given the text "undefined", which is not JSON.
   */
  lemma ShareLinkMissingData(scheme: string, query: string, launch: bool,
                             parseQuery: string -> Query, jsonParse: string -> Option<Json>)
    requires scheme in CustomSchemes
    requires query == "" || query[0] == '?'
    requires "data" !in parseQuery(query)
    requires jsonParse("undefined") == None
    ensures OnDeepLink(scheme + ShareAction + query, launch, parseQuery, jsonParse) == Warned(ParseFailed)
  {
    ShareLinkParts(scheme, query);
  }

  /**
   * A share link whose query has `data` without `=` is caught and only
   * warns: `JSON.parse` is given the text "null", and reading `payload`
   * of the resulting `null` throws.
   */
  lemma ShareLinkNullData(scheme: string, query: string, launch: bool,
                          parseQuery: string -> Query, jsonParse: string -> Option<Json>)
    requires scheme in CustomSchemes
    requires query == "" || query[0] == '?'
    requires "data" in parseQuery(query) && parseQuery(query)["data"] == QNull
    requires jsonParse("null") == Some(JNull)
    ensures OnDeepLink(scheme + ShareAction + query, launch, parseQuery, jsonParse) == Warned(ParseFailed)
  {
    ShareLinkParts(scheme, query);
  }

  /** How a share link decomposes: the scheme goes, the action is `share`, the query stays. */
  lemma ShareLinkParts(scheme: string, query: string)
    requires scheme in CustomSchemes
    requires query == "" || query[0] == '?'
    ensures StripScheme(scheme + ShareAction + query) == Some(ShareAction + query)
    ensures SplitAction(ShareAction + query) == LinkParts(ShareAction, query)
  {
    assert scheme + ShareAction + query == scheme + (ShareAction + query);
    StripSchemeOf(scheme, ShareAction + query);
    SplitActionOf(ShareAction, query);
  }

  /** Any recognised link whose action is not `share` ends without navigation or warning. */
  lemma OtherActionsUnhandled(scheme: string, action: string, query: string, launch: bool,
                              parseQuery: string -> Query, jsonParse: string -> Option<Json>)
    requires scheme in CustomSchemes
    requires '?' !in action && action != ShareAction
    requires query == "" || query[0] == '?'
    ensures OnDeepLink(scheme + action + query, launch, parseQuery, jsonParse) == Unhandled(action)
  {
    assert scheme + action + query == scheme + (action + query);
    StripSchemeOf(scheme, action + query);
    SplitActionOf(action, query);
  }

  /** The `launch` argument does not change the outcome. */
  lemma LaunchFlagIrrelevant(url: string, parseQuery: string -> Query, jsonParse: string -> Option<Json>)
    ensures OnDeepLink(url, true, parseQuery, jsonParse) == OnDeepLink(url, false, parseQuery, jsonParse)
  {
  }

  /** Any link under another scheme, such as `app://share?data=...`, is ignored like every unrecognised URL. */
  lemma ForeignSchemeIgnored(rest: string, launch: bool,
                             parseQuery: string -> Query, jsonParse: string -> Option<Json>)
    ensures OnDeepLink("app://" + rest, launch, parseQuery, jsonParse) == Ignored
  {
    assert ("app://" + rest)[0] == 'a' && AndroidScheme[0] == 'c' && IosScheme[0] == 'c';
  }
}
