# Firefox for iOS: synced tabs, reader-mode style, user-defaults mock

This project is a Dafny model of four small pieces of sequential logic in the
Firefox for iOS browser. It proves properties of each piece.

- `remote_tabs.dfy` (`RemoteTabs`) covers the synced-tab record `RemoteTab`.
  It models the initializer, `withClientGUID`, the sync filter
  `shouldIncludeURL`, the hand-written `==` (which ignores `faviconURL`) and
  the conversion to the wire record `RemoteTabRecord`. It also models
  `ClientAndTabs` and its `==`.
- `reader_mode_style.dfy` (`ReaderModeStyles`) covers `ReaderModeStyle`.
  It models the three-key dictionary encoding, the failable decoding, and
  `preferredTheme(for:)` / `ensurePreferredColorThemeIfNeeded`, where a dark
  app theme overrides the reader's own theme. The app theme is a parameter
  here, not global state.
- `reader_mode_popover.dfy` (`ReaderModeStylePopover`) covers the style
  popover as a state machine. The state is the style being edited, the
  `isUsingUserDefinedColor` latch, the selected and enabled flags of the
  buttons, and whether a delegate is attached. The tap handlers are pure
  functions from state to new state plus the delegate call they make.
  `applyTheme(_:contentScript:)` installs stored preferences into the
  reader-mode script.
- `user_defaults_mock.dfy` (`UserDefaultsMock`) covers `MockUserDefaults`:
  a `map<string, Value>` with typed getters and their fallbacks.
- `values.dfy` (`Values`) defines the tagged union that stands for Swift's
  `Any?`. `wrappers.dfy` (`Wrappers`) defines `Option` for Swift optionals.

The font-type and font-size enumerations live in a file outside this model,
so the model does not interpret them. A font type or size is carried by its
raw value. A `FontCatalogue` parameter supplies everything else as
function-valued fields: which raw values are cases, `isSameFamily`,
`defaultSize`, `smaller`, `bigger`, `isSmallest` and `isLargest`. Nothing
assumes an order on sizes. Where a proof needs stepping to stay on the scale,
it takes `ClosedCatalogue` as a hypothesis.

`shouldIncludeURL` does not check for http(s). It drops internal URLs and
the `javascript` scheme, and then requires a host, so any other scheme with
a host passes.

`MockUserDefaults.savedData` has type `[String: Any?]`. Assigning an `Any?`
through its subscript wraps the value once more, so `set(nil, forKey: k)`
keeps `k` with a nil entry instead of removing it. The model keeps that key
with `NilValue`. `object(forKey:)` reads both an absent key and a nil entry as
nil.

## Model

| member | source | states |
|---|---|---|
| RemoteTabs.NewTab | Storage/RemoteTabs.swift:59-66 | The initializer stores its six arguments, and `faviconURL` is nil on every new tab. |
| RemoteTabs.WithClientGUID | Storage/RemoteTabs.swift:68-70 | The copy has the given client GUID. URL, title, history, lastUsed and icon are unchanged. The favicon is always nil. |
| RemoteTabs.WithOwnClientGUIDIsEqual | Storage/RemoteTabs.swift:68-89 | Re-owning a tab by its own GUID gives a tab `==` to the original. It is identical when the original had no favicon. |
| RemoteTabs.WithOwnClientGUIDDropsFavicon | Storage/RemoteTabs.swift:45-70 | Some tab re-owned by its own GUID is `==` to the original but not identical, because its favicon is lost. |
| RemoteTabs.ShouldIncludeURLRules | Storage/RemoteTabs.swift:47-57 | Internal URLs and `javascript` URLs are never synced. Otherwise a URL is synced exactly when it has a host. Every synced URL has a host. |
| RemoteTabs.TabEqIgnoresOnlyFavicon | Storage/RemoteTabs.swift:82-89 | Tab `==` holds exactly when the tabs are identical once their favicons are cleared, so it compares the other six fields and nothing more. |
| RemoteTabs.TabEqIsEquivalence | Storage/RemoteTabs.swift:82-89 | Tab `==` is reflexive, symmetric and transitive. |
| RemoteTabs.ToRemoteTabRecord | Storage/RemoteTabs.swift:72-79 | The record keeps the title. `urlHistory` has the history's length, and entry i is the absolute string of history entry i. The icon is present iff the tab has one, and then it is that icon's absolute string. lastUsed is carried over. Values above `Int64.max` trap, so they are excluded. |
| RemoteTabs.TabsEqPointwise | Storage/RemoteTabs.swift:22-25 | Array `==` on tabs holds iff the lengths agree and tab `==` holds at every index. |
| RemoteTabs.ClientAndTabsEqPointwise | Storage/RemoteTabs.swift:22-25 | `ClientAndTabs` `==` holds iff the clients are equal and the tab lists are equal index by index. |
| RemoteTabs.TabsEqIsEquivalence | Storage/RemoteTabs.swift:22-25 | Tab-list `==` is reflexive and symmetric. |
| ReaderModeStyles.ThemeFromRaw | Tests/ClientTests/ReaderModeStyleTests.swift:39-42 | Parsing a theme raw string gives exactly the theme whose raw value it is, and fails on every other string. |
| ReaderModeStyles.ThemeRawRoundTrip | Tests/ClientTests/ReaderModeStyleTests.swift:39-42 | Every theme is recovered from its raw string. |
| ReaderModeStyles.Encode | Tests/ClientTests/ReaderModeStyleTests.swift:33-45 | The dictionary has exactly the keys `theme`, `fontType` and `fontSize`. They hold the theme's raw string, the font type's raw string and the font size's raw integer. |
| ReaderModeStyles.Decode | Tests/ClientTests/ReaderModeStyleTests.swift:47-69 | A decoded style is made of enumeration cases and matches the dictionary's three entries. Decoding fails when any of the three keys is missing. |
| ReaderModeStyles.DecodeEncode | Tests/ClientTests/ReaderModeStyleTests.swift:33-55 | Decoding the encoding of any style gives that style back. |
| ReaderModeStyles.EncodeDecode | Tests/ClientTests/ReaderModeStyleTests.swift:47-55 | A dictionary that decodes agrees with the encoding of the decoded style on every encoded key. |
| ReaderModeStyles.DecodeSucceedsIff | Tests/ClientTests/ReaderModeStyleTests.swift:47-69 | Decoding succeeds iff all three entries are present with types String, String and Int, and each holds a raw value of a case. |
| ReaderModeStyles.DecodeEmptyFails | Tests/ClientTests/ReaderModeStyleTests.swift:65-69 | The empty dictionary does not decode. |
| ReaderModeStyles.DecodeWithoutThemeFails | Tests/ClientTests/ReaderModeStyleTests.swift:57-63 | No dictionary without a `theme` key decodes, whatever else it holds. |
| ReaderModeStyles.PreferredThemeDarkIff | Tests/ClientTests/ReaderModeStyleTests.swift:73-96 | The preferred theme is dark iff the app is dark or dark is requested. Under a light app, a requested theme is kept. |
| ReaderModeStyles.PreferredThemeCases | Tests/ClientTests/ReaderModeStyleTests.swift:73-96 | The four test cases: light app with none gives light, light app with sepia gives sepia, dark app with light gives dark, and dark app with sepia gives dark. |
| ReaderModeStyles.PreferredThemeIdempotent | Tests/ClientTests/ReaderModeStyleTests.swift:73-96 | Taking the preferred theme of a preferred theme changes nothing. |
| ReaderModeStyles.EnsurePreferredColorTheme | Tests/ClientTests/ReaderModeStyleTests.swift:98-106 | Only the theme can change. A dark app makes it dark, and a light app leaves the style as it was. |
| ReaderModeStyles.EnsurePreferredColorThemeProperties | Tests/ClientTests/ReaderModeStyleTests.swift:98-106 | Adjusting twice is adjusting once. A light style under a dark app becomes dark. |
| ReaderModeStylePopover.Notify | Client/Frontend/Reader/View/ReaderModeStyleViewController.swift:257-259 | A delegate call is made iff a delegate is attached. It carries the current style and the given flag. |
| ReaderModeStylePopover.MarkFamily | Client/Frontend/Reader/View/ReaderModeStyleViewController.swift:264-266 | Font-type buttons keep their font types and order. Each is selected iff it is of the same family as the chosen font type. |
| ReaderModeStylePopover.RetypeThemeButtons | Client/Frontend/Reader/View/ReaderModeStyleViewController.swift:267-269 | Theme buttons keep their themes and order, and all take the chosen font type. |
| ReaderModeStylePopover.RefreshSizeButtons | Client/Frontend/Reader/View/ReaderModeStyleViewController.swift:289-302 | Size buttons keep their actions and order. "Bigger" is enabled iff the size is not the largest. "Smaller" is enabled iff it is not the smallest. "Reset" buttons are untouched. |
| ReaderModeStylePopover.SelectFontType | Client/Frontend/Reader/View/ReaderModeStyleViewController.swift:262-271 | Only the style's font type changes in the style. The font-type buttons keep their font types, and the family rule sets their selection. The theme buttons keep their themes and take the font type, and so does the size label. The latch, the delegate and the size buttons are unchanged. |
| ReaderModeStylePopover.ChangeFontType | Client/Frontend/Reader/View/ReaderModeStyleViewController.swift:255-260 | The font type is set, and theme, size, latch, delegate and size buttons are unchanged. The font-type buttons keep their font types and are selected by the family rule. The theme buttons keep their themes and take the font type, and so does the size label. The delegate, if any, gets the new style with the latch's current value. |
| ReaderModeStylePopover.UpdateFontSizeButtons | Client/Frontend/Reader/View/ReaderModeStyleViewController.swift:289-302 | Only the size buttons change. Their enabled flags follow the current size, and the reset button keeps its enabled flag. |
| ReaderModeStylePopover.ChangeFontSize | Client/Frontend/Reader/View/ReaderModeStyleViewController.swift:273-287 | Reset gives the default size, and smaller and bigger step from the current size. Nothing but the style's size and the size buttons changes. The size buttons keep their actions and are refreshed for the new size, with reset untouched. The delegate gets the new style with the current latch. |
| ReaderModeStylePopover.ChangeTheme | Client/Frontend/Reader/View/ReaderModeStyleViewController.swift:304-314 | The tapped theme is set, and nothing else changes except the latch, which is set. The delegate gets the new style with `true`. |
| ReaderModeStylePopover.Step | Client/Frontend/Reader/View/ReaderModeStyleViewController.swift:255-314 | Every tap handler tells an attached delegate the resulting style and the resulting latch, and tells nothing without a delegate. |
| ReaderModeStylePopover.Load | Client/Frontend/Reader/View/ReaderModeStyleViewController.swift:76-185 | After loading, the style is the given one and the latch is clear, as it starts false (line 37). The reset button is enabled, as a new button is. The size buttons are smaller, reset and bigger, and the theme buttons are light, sepia and dark, in that order. There is one font-type button per given font type, and every button agrees with the style. |
| ReaderModeStylePopover.StepPreservesInSync | Client/Frontend/Reader/View/ReaderModeStyleViewController.swift:262-302 | If the buttons and the label agree with the style before a tap, they agree after it. |
| ReaderModeStylePopover.RunPreservesInSync | Client/Frontend/Reader/View/ReaderModeStyleViewController.swift:255-314 | The same agreement holds after any sequence of taps. |
| ReaderModeStylePopover.RunKeepsCase | Client/Frontend/Reader/View/ReaderModeStyleViewController.swift:273-281 | If the style's font type and size are enumeration cases, they stay cases over any taps on real buttons. |
| ReaderModeStylePopover.UserDefinedColorLatch | Client/Frontend/Reader/View/ReaderModeStyleViewController.swift:304-310 | After any taps the latch is set iff it was set before or some tap chose a theme. |
| ReaderModeStylePopover.UserDefinedColorMonotone | Client/Frontend/Reader/View/ReaderModeStyleViewController.swift:304-310 | Once set, the latch stays set over every sequence of taps. |
| ReaderModeStylePopover.ApplyTheme | Client/Frontend/Reader/View/ReaderModeStyleViewController.swift:222-229 | The script is unchanged when there are no stored preferences, when it is not the reader-mode script, or when the preferences do not decode. Otherwise it gets the stored font type and size and the preferred theme for the stored theme. |
| ReaderModeStylePopover.ApplyThemeIdempotent | Client/Frontend/Reader/View/ReaderModeStyleViewController.swift:222-229 | Applying the same preferences twice is applying them once. |
| ReaderModeStylePopover.ApplyThemeUnderDarkApp | Client/Frontend/Reader/View/ReaderModeStyleViewController.swift:222-229 | Under a dark app, when preferences are present and decode and the script is reader mode, the installed style is dark. |
| UserDefaultsMock.Fresh | Tests/ClientTests/Mocks/MockUserDefaults.swift:14-16 | A new store has no entries. |
| UserDefaultsMock.FreshReadsNothing | Tests/ClientTests/Mocks/MockUserDefaults.swift:14-41 | Every key of a new store reads as nil, false, nil and zero. |
| UserDefaultsMock.SetValue | Tests/ClientTests/Mocks/MockUserDefaults.swift:19-21 | The key holds the written value, nil included. The key set grows by that key, and every other entry is unchanged. |
| UserDefaultsMock.SetBool | Tests/ClientTests/Mocks/MockUserDefaults.swift:27-29 | The key holds the written Bool and the key set grows by that key. `bool(forKey:)` reads it back, `string(forKey:)` gives nil, and every other key reads as before. |
| UserDefaultsMock.ObjectForKey | Tests/ClientTests/Mocks/MockUserDefaults.swift:23-25 | An absent key reads as nil, and a present key reads as its entry. |
| UserDefaultsMock.BoolForKey | Tests/ClientTests/Mocks/MockUserDefaults.swift:31-33 | The result is true iff the saved value is the Bool `true`. An absent key or a non-Bool value gives false. |
| UserDefaultsMock.StringForKey | Tests/ClientTests/Mocks/MockUserDefaults.swift:35-37 | A String is returned iff a String is saved, and it is that string. Anything else gives nil. |
| UserDefaultsMock.FloatForKey | Tests/ClientTests/Mocks/MockUserDefaults.swift:39-41 | A saved Float is returned as is, and anything else gives zero. |
| UserDefaultsMock.RegisterDefaults | Tests/ClientTests/Mocks/MockUserDefaults.swift:43 | Registering defaults leaves the saved data exactly as it was. |
| UserDefaultsMock.ReadYourWrite | Tests/ClientTests/Mocks/MockUserDefaults.swift:19-25 | A written value reads back. A written nil reads back as nil and leaves the key present. |
| UserDefaultsMock.WriteLeavesOtherKeys | Tests/ClientTests/Mocks/MockUserDefaults.swift:19-41 | A write to one key changes none of the four getters on any other key. |
| UserDefaultsMock.TypedReadsAfterWrite | Tests/ClientTests/Mocks/MockUserDefaults.swift:19-41 | After a write, the Bool, String and Float getters return the written value when its type matches, and their fallback otherwise. |
| UserDefaultsMock.LastWriteWins | Tests/ClientTests/Mocks/MockUserDefaults.swift:19-25 | After any sequence of writes, a key reads as the last value written to it. With no such write, it reads as before. |

## Left out

- The `RemoteClientsAndTabs` protocol: it is an asynchronous storage interface, and its implementation is not part of this model.
- `RemoteClient`'s definition is not part of this model. The client is kept as an identifier, a name and a device id, compared structurally.
- ToRemoteTabRecord: requires `lastUsed <= Int64.max`, because `Int64(_:)` traps on larger values; the trapping inputs are not modelled.
- `Timestamp` and `RemoteTabRecord` are declared outside this model. They are taken as an unsigned 64-bit integer and a four-field record.
- URL parsing, `absoluteString` and `InternalURL` classification: a URL arrives with its scheme, host, absolute string and internal flag already computed.
- Strings are modelled as sequences of code points. Swift's `String ==` is Unicode canonical equivalence, and dictionary keys hash and compare the same way; that is not modelled for tab titles, client GUIDs, `RemoteClient` fields, or the keys of the mock store and of the style dictionary. `RemoteTabs.TabEq`, `RemoteTabs.TabsEq`, `RemoteTabs.ClientAndTabsEq`, `UserDefaultsMock.SetValue`, `UserDefaultsMock.SetBool`, `UserDefaultsMock.WriteLeavesOtherKeys` and `UserDefaultsMock.LastWriteWins` match Swift only for strings in one normalization form: for example `"caf\u{E9}"` and `"cafe\u{301}"` are one key in Swift and two here.
- URL equality is modelled as equality of those four facts. Foundation's `URL ==` compares the relative string and the base URL, so a relative URL and the absolute URL it resolves to are unequal in Swift. They are equal here, and `TabEq` inherits this.
- The `description` strings of `ClientAndTabs` and `RemoteTab`: cosmetic formatting.
- `ReaderModeFontType` and `ReaderModeFontSize`: their declarations are not part of this model. They are uninterpreted through `FontCatalogue`.
- `ReaderModeTheme`'s raw strings are not part of this model either. The model uses "light", "sepia" and "dark", and its proofs only need the three to be distinct.
- The `ReaderModeStyle` memberwise initializer is the datatype constructor, so it stores exactly its arguments by construction. There is no separate member for it.
- The bodies of `encodeAsDictionary` and `init?(dict:)` are not part of this model; only their tests are. The tests pin one successful decode, the failure on the empty dictionary, and the failure without a `theme` key. Two rules go beyond them and are the model's assumptions. First, the encoding has exactly the three keys. Second, decoding succeeds exactly when each of the three entries has the right type and holds a raw value of a case (`Encode`, `Decode`, `DecodeSucceedsIff`).
- `preferredTheme(for:)` is pinned only by its four test cases. The unpinned cases follow the rule stated by `PreferredThemeDarkIff`: a dark app wins, otherwise the request wins, and light is the default. The app theme has only two values, light and dark.
- View construction in `viewDidLoad`, `setupButtons` and `makeSeparatorView`, and the colours set by `applyTheme()`: these are layout and styling. `Load` keeps only the button lists, the latch and lines 183-185.
- `changeBrightness` and the slider: these are screen I/O on floating-point values.
- The delegate is a flag saying whether one is attached. The delegate's reaction to the call is outside this component.
- `Prefs.dictionaryForKey` is a lookup in an external store. `ApplyTheme` receives its result as a parameter. Side effects of assigning the reader-mode script's style, which happen inside that script, are not modelled.
- `as?` casts distinguish values by their tag only. Foundation's bridging of numbers between `Int`, `Float` and `Bool` is not modelled.
- Floats in the mock are opaque 32-bit patterns. No arithmetic is done on them, and zero is the all-clear pattern.
