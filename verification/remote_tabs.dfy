/**
 * Synced-tab records: `RemoteTab`, the clients that own them
 * (`ClientAndTabs`), their hand-written equality, the URL filter that decides
 * which tabs are worth syncing, and the conversion to the wire record.
 */
module RemoteTabs {
  import opened Wrappers

  /**
   * A `Foundation.URL`, reduced to what this code asks of it. Parsing and the
   * browser's internal-URL classification happen elsewhere, so the scheme,
   * the host and "is an internal URL" arrive as already-computed facts.
   */
  datatype URL = URL(absoluteString: string, scheme: Option<string>, host: Option<string>, isInternal: bool)

  /** `Timestamp` is an unsigned 64-bit count of milliseconds. */
  const TimestampLimit: int := 0x1_0000_0000_0000_0000
  type Timestamp = t: int | 0 <= t < TimestampLimit

  /** Swift's `Int64`. */
  const Int64Min: int := -0x8000_0000_0000_0000
  const Int64Max: int := 0x7FFF_FFFF_FFFF_FFFF
  type Int64 = i: int | Int64Min <= i <= Int64Max

  /**
   * A tab open on some remote device. `faviconURL` is the one mutable field;
   * the initializer never assigns it, so every tab built through `NewTab`
   * carries `None` there.
   */
  datatype RemoteTab = RemoteTab(
    clientGUID: Option<string>,
    url: URL,
    title: string,
    history: seq<URL>,
    lastUsed: Timestamp,
    icon: Option<URL>,
    faviconURL: Option<string>)

  /** The remote device. Only its identifier is read by this code; the rest is kept opaque. */
  datatype RemoteClient = RemoteClient(guid: Option<string>, name: string, fxaDeviceId: Option<string>)

  datatype ClientAndTabs = ClientAndTabs(client: RemoteClient, tabs: seq<RemoteTab>)

  /** The record sent over the sync protocol. */
  datatype RemoteTabRecord = RemoteTabRecord(title: string, urlHistory: seq<string>, icon: Option<string>, lastUsed: Int64)

  /** The memberwise initializer: six stored fields, and no favicon. */
  function NewTab(clientGUID: Option<string>, url: URL, title: string, history: seq<URL>,
                  lastUsed: Timestamp, icon: Option<URL>): (t: RemoteTab)
    ensures t.faviconURL == None
    ensures t.clientGUID == clientGUID && t.url == url && t.title == title
    ensures t.history == history && t.lastUsed == lastUsed && t.icon == icon
  {
    RemoteTab(clientGUID, url, title, history, lastUsed, icon, None)
  }

  /** A copy of `t` owned by `clientGUID`; it goes through the initializer, so the favicon is dropped. */
  function WithClientGUID(t: RemoteTab, clientGUID: Option<string>): (r: RemoteTab)
    ensures r.clientGUID == clientGUID
    ensures r.url == t.url && r.title == t.title && r.history == t.history
    ensures r.lastUsed == t.lastUsed && r.icon == t.icon
    ensures r.faviconURL == None
  {
    NewTab(clientGUID, t.url, t.title, t.history, t.lastUsed, t.icon)
  }

  /**
   * Whether a tab showing `url` should be synced: never an internal page,
   * never a `javascript:` URL, and otherwise exactly when the URL has a host.
   */
  predicate ShouldIncludeURL(url: URL)
  {
    if url.isInternal then false
    else if url.scheme == Some("javascript") then false
    else url.host.Some?
  }

  /** `==` on tabs: six fields compared, `faviconURL` ignored. */
  predicate TabEq(a: RemoteTab, b: RemoteTab)
  {
    && a.clientGUID == b.clientGUID
    && a.url == b.url
    && a.title == b.title
    && a.history == b.history
    && a.lastUsed == b.lastUsed
    && a.icon == b.icon
  }

  /** Swift's `==` on `[RemoteTab]`: same count, then `==` element by element from the front. */
  predicate TabsEq(a: seq<RemoteTab>, b: seq<RemoteTab>)
  {
    |a| == |b| && (|a| == 0 || (TabEq(a[0], b[0]) && TabsEq(a[1..], b[1..])))
  }

  /** `==` on `ClientAndTabs`: the clients are equal and the tab lists are `==`. */
  predicate ClientAndTabsEq(a: ClientAndTabs, b: ClientAndTabs)
  {
    a.client == b.client && TabsEq(a.tabs, b.tabs)
  }

  /** The wire record of `t`; the `Int64(_:)` conversion traps above `Int64.max`, hence the precondition. */
  method ToRemoteTabRecord(t: RemoteTab) returns (r: RemoteTabRecord)
    requires t.lastUsed <= Int64Max
    ensures r.title == t.title
    ensures |r.urlHistory| == |t.history|
    ensures forall i :: 0 <= i < |t.history| ==> r.urlHistory[i] == t.history[i].absoluteString
    ensures r.icon.Some? <==> t.icon.Some?
    ensures t.icon.Some? ==> r.icon == Some(t.icon.value.absoluteString)
    ensures r.lastUsed == t.lastUsed
  {
    var history: seq<string> := [];
    var i := 0;
    while i < |t.history|
      invariant 0 <= i <= |t.history|
      invariant |history| == i
      invariant forall j :: 0 <= j < i ==> history[j] == t.history[j].absoluteString
    {
      history := history + [t.history[i].absoluteString];
      i := i + 1;
    }
    var icon: Option<string> := if t.icon.Some? then Some(t.icon.value.absoluteString) else None;
    r := RemoteTabRecord(t.title, history, icon, t.lastUsed);
  }

  // ---------------------------------------------------------------------------
  // Properties

  /** The filter's three rules, each on its own. */
  lemma ShouldIncludeURLRules(url: URL)
    ensures url.isInternal ==> !ShouldIncludeURL(url)
    ensures url.scheme == Some("javascript") ==> !ShouldIncludeURL(url)
    ensures !url.isInternal && url.scheme != Some("javascript") ==> (ShouldIncludeURL(url) <==> url.host.Some?)
    ensures ShouldIncludeURL(url) ==> url.host.Some?
  {
  }

  /** Tab equality is exactly structural equality once the favicons are forgotten. */
  lemma TabEqIgnoresOnlyFavicon(a: RemoteTab, b: RemoteTab)
    ensures TabEq(a, b) <==> a.(faviconURL := None) == b.(faviconURL := None)
  {
  }

  /** Tab equality is an equivalence relation. */
  lemma TabEqIsEquivalence(a: RemoteTab, b: RemoteTab, c: RemoteTab)
    ensures TabEq(a, a)
    ensures TabEq(a, b) ==> TabEq(b, a)
    ensures TabEq(a, b) && TabEq(b, c) ==> TabEq(a, c)
  {
  }

  /** Re-owning a tab by its own client gives back an equal tab. */
  lemma WithOwnClientGUIDIsEqual(t: RemoteTab)
    ensures TabEq(WithClientGUID(t, t.clientGUID), t)
    ensures t.faviconURL == None ==> WithClientGUID(t, t.clientGUID) == t
  {
  }

  /** ... but not an identical one: a tab that had a favicon loses it. */
  lemma WithOwnClientGUIDDropsFavicon()
    ensures exists t: RemoteTab :: WithClientGUID(t, t.clientGUID) != t && TabEq(WithClientGUID(t, t.clientGUID), t)
  {
    var u := URL("https://example.com/", Some("https"), Some("example.com"), false);
    var t := RemoteTab(None, u, "", [], 0, None, Some("https://example.com/favicon.ico"));
    assert WithClientGUID(t, t.clientGUID).faviconURL != t.faviconURL;
  }

  /** Array equality on tabs is `==` at every index. */
  lemma {:induction false} TabsEqPointwise(a: seq<RemoteTab>, b: seq<RemoteTab>)
    ensures TabsEq(a, b) <==> |a| == |b| && forall i :: 0 <= i < |a| ==> TabEq(a[i], b[i])
    decreases |a|
  {
    if |a| == |b| && |a| > 0 {
      TabsEqPointwise(a[1..], b[1..]);
      if forall i :: 0 <= i < |a| ==> TabEq(a[i], b[i]) {
        assert forall i :: 0 <= i < |a| - 1 ==> TabEq(a[1..][i], b[1..][i]) by {
          forall i | 0 <= i < |a| - 1
            ensures TabEq(a[1..][i], b[1..][i])
          {
            assert TabEq(a[i + 1], b[i + 1]);
          }
        }
      }
      if TabsEq(a, b) {
        forall i | 0 <= i < |a|
          ensures TabEq(a[i], b[i])
        {
          if i > 0 {
            assert TabEq(a[1..][i - 1], b[1..][i - 1]);
          }
        }
      }
    }
  }

  /** `ClientAndTabs` equality: equal clients and tab lists equal index by index. */
  lemma ClientAndTabsEqPointwise(a: ClientAndTabs, b: ClientAndTabs)
    ensures ClientAndTabsEq(a, b) <==>
              && a.client == b.client
              && |a.tabs| == |b.tabs|
              && forall i :: 0 <= i < |a.tabs| ==> TabEq(a.tabs[i], b.tabs[i])
  {
    TabsEqPointwise(a.tabs, b.tabs);
  }

  /** Every pair of equal tab lists is equal in the other order too, and every list equals itself. */
  lemma TabsEqIsEquivalence(a: seq<RemoteTab>, b: seq<RemoteTab>)
    ensures TabsEq(a, a)
    ensures TabsEq(a, b) ==> TabsEq(b, a)
  {
    TabsEqPointwise(a, a);
    TabsEqPointwise(a, b);
    TabsEqPointwise(b, a);
  }
}
