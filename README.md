# AndroidPluginHost: a Dafny model of the simple JUCE plugin host

AndroidPluginHost is a small JUCE application. It scans plugin formats for plugins, keeps a
known-plugin list with a blacklist of files whose probe threw, and shows that list in three
combo boxes: formats, vendors and plugins. It instantiates the plugin the user selects. Its
graph-hosting variant (`model.h`) also keeps an audio processing graph. That graph holds five
fixed nodes: an optional audio input, MIDI input, audio output, MIDI output and an audio file
player. The graph is rewired from scratch whenever a plugin instance is added or removed.

The model replaces the JUCE objects by plain data:

- a graph is a sequence of nodes `(id, acceptsMidi, producesMidi)` in ID order, plus a set of
  connections `(srcId, srcChannel, dstId, dstChannel)`;
- `MidiChannelIndex` (0x1000) is the MIDI channel;
- the known-plugin list is a sequence of `PluginDescription`s and a set of blacklisted files;
- a format to scan is a name and a list of candidate files, each with its probe result
  (`Fail`, or `Found` with descriptions);
- a combo box is a sequence of `(text, id)` items and a selected ID.

Modules, following the program's structure:

- `Wrappers`: `Option`.
- `Seqs`: an order-preserving `Filter` and its lemmas (membership, concatenation,
  permutation, pairwise order), `Reverse`, and `Novel` (the elements not yet known, each
  once, in first-occurrence order).
- `PluginList`: plugin descriptions and the pure specification of a scan. `ProbeFiles` is the
  probe loop, `WithScan` is the list after adding a scan's findings, `Rescanned` is the
  `model.h` rescan result, and the `KnownPluginList` class holds the list's state.
- `GraphWiring`: the pure specification of `updateGraph`. `ActivePlugins` picks the plugin
  nodes and `Wiring` gives the exact connection set. The lemmas state the audio chain, the
  MIDI chain and the unused fixed nodes.
- `HostModel`: the `AppModel` class of `model.h`. It holds the graph, the node and
  connection primitives, `updateGraph`, adding and removing plugin instances, and the
  rescanning `scanPlugins`.
- `HostUi`: the combo-box values and what `main.cpp` derives from the known types: the
  de-duplicated vendor list, the vendor filter, the first matching plugin, and the format
  ordering with its name sort.
- `HostMain`: the `main.cpp` classes. `AppModel` scans without first removing the format's
  types; only types matching a file this scan blacklisted leave the list. `AppHost` holds the lazily created global model, and `MainComponent` fills its combo boxes and has
  its click and change handlers.

## Model

| member | source | states |
|---|---|---|
| GraphWiring.ActivePluginsSpec | external/AndroidPluginHost/model.h:137-147 | a node is an active plugin iff it is in the graph and is none of the five fixed nodes (an absent audio input matches nothing); node order is kept |
| GraphWiring.ActivePlugins | external/AndroidPluginHost/model.h:137-147 | defines the active plugins: the graph nodes, in order, whose ID is none of the fixed nodes' |
| GraphWiring.FilterKeepsIncreasing | external/AndroidPluginHost/model.h:152-165 | the plugin array taken from the graph keeps the graph's increasing node-ID order |
| GraphWiring.StereoMembership | external/AndroidPluginHost/model.h:169-172 | a stereo link from a to b is exactly the connections a:0 to b:0 and a:1 to b:1 |
| GraphWiring.StereoChainMembership | external/AndroidPluginHost/model.h:167-175 | the chain connections are exactly the channel-0 and channel-1 links between consecutive elements of the chain |
| GraphWiring.StereoChainSnoc | external/AndroidPluginHost/model.h:168-179 | extending the chain by one node adds exactly the stereo link from the previous last node to it |
| GraphWiring.StereoChain | external/AndroidPluginHost/model.h:167-179 | defines the stereo links, channel 0 to 0 and 1 to 1, between consecutive elements of a chain |
| GraphWiring.AudioChain | external/AndroidPluginHost/model.h:167-179 | defines the audio chain: audio player, the plugins in order, audio output |
| GraphWiring.AudioWiring | external/AndroidPluginHost/model.h:152-179 | the non-MIDI connections are exactly the stereo links along audio player, plugins in graph order, audio output |
| GraphWiring.AudioOutputFeed | external/AndroidPluginHost/model.h:176-179 | audio output is fed, on channels 0 and 1, by the last plugin, or by the audio player when there is no plugin; nothing else feeds it |
| GraphWiring.WiringChannels | external/AndroidPluginHost/model.h:167-188 | every connection has equal source and destination channel, the channel is 0, 1 or the MIDI channel, and it is the MIDI channel exactly for the MIDI links |
| GraphWiring.MidiLinksMembership | external/AndroidPluginHost/model.h:181-188 | the MIDI links are exactly one per MIDI-accepting plugin, from the `prev` reached before it |
| GraphWiring.MidiFeed | external/AndroidPluginHost/model.h:181-188 | defines `prev` after a run of plugins: the last MIDI producer, or MIDI input |
| GraphWiring.MidiLinks | external/AndroidPluginHost/model.h:181-188 | defines the MIDI links: each MIDI-accepting plugin fed from `prev` as it stands before it |
| GraphWiring.MidiFeedNearest | external/AndroidPluginHost/model.h:181-188 | `prev` is the nearest preceding MIDI-producing plugin, or MIDI input when no earlier plugin produces MIDI |
| GraphWiring.PluginMidiInput | external/AndroidPluginHost/model.h:181-188 | a plugin receives a MIDI connection iff it accepts MIDI, and then exactly one, from its nearest preceding MIDI producer or from MIDI input |
| GraphWiring.WiringEndpoints | external/AndroidPluginHost/model.h:167-188 | connections start at the audio player, MIDI input or a plugin, and end at audio output or a plugin |
| GraphWiring.AudioInAndMidiOutUnused | external/AndroidPluginHost/model.h:166-188 | no connection touches the audio input or the MIDI output |
| GraphWiring.WiringInGraph | external/AndroidPluginHost/model.h:167-188 | with the fixed nodes present, every connection joins two nodes of the graph |
| GraphWiring.Wiring | external/AndroidPluginHost/model.h:149-192 | defines the connection set updateGraph leaves: the stereo chain plus the MIDI links of the active plugins |
| HostModel.AppModel.constructor | external/AndroidPluginHost/model.h:50-63 | the saved plugin list is restored; audio input exists iff recording is permitted; the nodes, the fixed nodes and the last ID are exactly those of the initial graph, whose fixed nodes have successive fresh IDs; there are no plugins and no connections |
| HostModel.InitialGraphWellFormed | external/AndroidPluginHost/model.h:58-63 | the five addNode calls give increasing fresh IDs to distinct fixed nodes, all in the graph; audio input exists iff recording is permitted |
| HostModel.InitialGraphHasNoPlugins | external/AndroidPluginHost/model.h:58-63 | the initial graph has no active plugin |
| HostModel.InitialLastId | external/AndroidPluginHost/model.h:58-63 | defines the last node ID after start-up: 5 with an audio input, 4 without |
| HostModel.InitialFixed | external/AndroidPluginHost/model.h:58-63 | defines the fixed node IDs in addNode order: audio input (if any), MIDI input, audio output, MIDI output, audio player |
| HostModel.InitialNodes | external/AndroidPluginHost/model.h:58-63 | defines the start-up graph: the fixed nodes in ID order, only the MIDI input producing MIDI |
| HostModel.AppModel.AddNode | external/AndroidPluginHost/model.h:127 | the new node gets the next ID and is appended in ID order |
| HostModel.AppModel.RemoveNode | external/AndroidPluginHost/model.h:133 | only that node is removed, together with every connection touching it |
| HostModel.AppModel.DisconnectNode | external/AndroidPluginHost/model.h:150-151 | exactly the connections touching the node are removed |
| HostModel.AppModel.AddConnection | external/AndroidPluginHost/model.h:171-172 | the connection is recorded and nothing else changes |
| HostModel.AppModel.GetActivePlugins | external/AndroidPluginHost/model.h:137-147 | the result is the non-fixed nodes in graph order |
| HostModel.AppModel.DisconnectAll | external/AndroidPluginHost/model.h:150-151 | disconnecting every node leaves no connection |
| HostModel.AppModel.CollectPlugins | external/AndroidPluginHost/model.h:152-165 | the plugins array is the non-fixed nodes in graph order (the audio player is skipped) |
| HostModel.AppModel.ConnectAudio | external/AndroidPluginHost/model.h:167-179 | the audio loops add exactly the stereo chain audio player, plugins, audio output |
| HostModel.AppModel.ConnectMidi | external/AndroidPluginHost/model.h:181-188 | the MIDI loop adds exactly the MIDI links of the plugins |
| HostModel.AppModel.UpdateGraph | external/AndroidPluginHost/model.h:149-192 | afterwards the connection set is exactly `Wiring` of the nodes: no earlier connection survives; the graph stays well formed |
| HostModel.AppModel.AddActiveInstance | external/AndroidPluginHost/model.h:126-130 | the instance becomes the last active plugin, with ID last ID + 1, which becomes the last ID; the graph is rewired |
| GraphWiring.AppendedNodeIsPlugin | external/AndroidPluginHost/model.h:126-128 | a node appended with an ID above every present one is not fixed, so it becomes the last active plugin |
| HostModel.AppModel.RemoveActiveInstance | external/AndroidPluginHost/model.h:132-135 | the nodes become the old ones without that node (the fixed nodes stay); the active plugins lose exactly that node; the graph is rewired |
| HostModel.AppModel.ScanPlugins | external/AndroidPluginHost/model.h:78-104 | types become what the probes found of this format, each once, last found first, followed by the other formats' types except those matching a file blacklisted by this scan; the blacklist becomes the probe loop's |
| PluginList.RemoveTypesOfFormat | external/AndroidPluginHost/model.h:81-83 | removing the listed types of the format leaves exactly the other formats' types, in order; the blacklist is unchanged |
| PluginList.ProbeCandidates | external/AndroidPluginHost/model.h:87-97 | the probe loop's found descriptions and blacklist are those of `ProbeFiles`; exactly the types matching a newly blacklisted file are removed, the rest keep their order |
| PluginList.BlacklistStep | external/AndroidPluginHost/model.h:94 | one more blacklist entry removes the types it matches on top of those already removed |
| PluginList.RemovedOnlyForFailures | external/AndroidPluginHost/main.cpp:53-60 | a known type leaves the list in the probe loop iff it matches a file this scan blacklisted, and then some candidate with that file failed its probe |
| PluginList.AddTypesOfFormat | external/AndroidPluginHost/model.h:99-101 | each description of the scanned format is added in turn: one not yet listed is inserted at the front, one already listed changes nothing; the blacklist is unchanged |
| PluginList.WithScanSnoc | external/AndroidPluginHost/model.h:99-101 | one more finding goes in front when it has the scanned format and is not listed yet, and changes nothing otherwise |
| PluginList.NovelFindings | external/AndroidPluginHost/model.h:99-101 | what a scan adds is exactly the findings of the scanned format that were not listed, each once |
| PluginList.ProbeFiles | external/AndroidPluginHost/model.h:87-97 | the probe loop only ever adds to the blacklist |
| PluginList.OfFormat | external/AndroidPluginHost/model.h:81 | defines getTypesForFormat and the format test before addType: the types of the named format, in order |
| PluginList.OtherFormats | external/AndroidPluginHost/model.h:81-83 | defines the types of every other format, in order |
| PluginList.KnownPluginList.GetTypesForFormat | external/AndroidPluginHost/model.h:81 | the listed types of the format, in order |
| PluginList.WithScan | external/AndroidPluginHost/model.h:99-101 | defines the list after addType of each finding of the format: new ones in front, last first, listed ones in place |
| PluginList.Rescanned | external/AndroidPluginHost/model.h:81-101 | defines the rescan result: the other formats' types, less those matching a newly blacklisted file, with the findings of the format added |
| PluginList.NewlyBlacklisted | external/AndroidPluginHost/model.h:87-97 | defines the files the probe loop adds to the blacklist |
| PluginList.WithoutMatches | external/AndroidPluginHost/model.h:94 | defines the types left once every type matching one of the given blacklist entries is removed |
| PluginList.ProbeStep | external/AndroidPluginHost/model.h:89-96 | one probe step only ever adds to the blacklist |
| PluginList.ProbePrefix | external/AndroidPluginHost/model.h:87-97 | what a prefix of the files blacklists or finds is kept by the whole loop |
| PluginList.BlacklistOnlyFromFailures | external/AndroidPluginHost/model.h:92-95 | a file is newly blacklisted only if its probe failed |
| PluginList.FailuresAreBlacklisted | external/AndroidPluginHost/model.h:92-95 | a file whose probe fails ends up in the blacklist |
| PluginList.BlacklistedNeverProbed | external/AndroidPluginHost/model.h:90-91 | a file blacklisted beforehand is never probed: any other probe result for it gives the same outcome |
| PluginList.FoundFromProbedFiles | external/AndroidPluginHost/model.h:90-91 | every found description comes from a successful probe of a file that was not blacklisted when the loop reached it, nor at the start |
| PluginList.ProbedFilesContribute | external/AndroidPluginHost/model.h:90-91 | a successful probe of a file that is not blacklisted when the loop reaches it contributes all its descriptions |
| PluginList.RemovingListedTypes | external/AndroidPluginHost/model.h:81-83 | removing every listed type of the format leaves exactly the other formats' types |
| PluginList.RemovalStep | external/AndroidPluginHost/model.h:82-83 | removing one more type is the same as removing the longer list |
| PluginList.RescanReplacesFormat | external/AndroidPluginHost/model.h:81-101 | after a rescan the other formats' types are the old ones less those matching a file blacklisted by this scan, in order, and this format's types are exactly those the scan found, each once, in reverse order of first occurrence |
| PluginList.WithScanByFormat | external/AndroidPluginHost/main.cpp:63-65 | adding findings keeps the other formats' types and puts this format's new findings, last first, before its old types |
| PluginList.AddingScanKeepsKnownTypes | external/AndroidPluginHost/main.cpp:63-65 | adding a scan keeps the old types, in order, after the new ones and every other format's types unchanged; a type is present iff it is old or a finding of the scanned format |
| PluginList.ScanOfKnownTypes | external/AndroidPluginHost/main.cpp:63-65 | a scan whose findings of the format are all listed already leaves the list unchanged |
| PluginList.ScanAgainChangesNothing | external/AndroidPluginHost/main.cpp:45-67 | scanning again with the same findings leaves the list as the first scan left it |
| PluginList.WithScanKeepsDistinct | external/AndroidPluginHost/main.cpp:63-65 | a list without duplicates has none after a scan |
| PluginList.KnownPluginList.constructor | external/AndroidPluginHost/model.h:50-53 | the list starts with the saved types and blacklist |
| PluginList.KnownPluginList.RemoveType | external/AndroidPluginHost/model.h:83 | every type equal to the argument (standing for JUCE's duplicate test) is removed, the rest keep their order |
| PluginList.KnownPluginList.AddType | external/AndroidPluginHost/model.h:101 | a type already listed (equality standing for JUCE's duplicate test) leaves the list as it is; a new type is inserted at the front |
| PluginList.KnownPluginList.AddToBlacklist | external/AndroidPluginHost/model.h:94 | the file joins the blacklist and every type whose file identifier is that file leaves the list; the rest keep their order |
| HostUi.NumberedText | external/AndroidPluginHost/main.cpp:135-137 | the item with ID first+k of a list numbered from first shows the k-th text |
| HostUi.ComboBox.NumItems | external/AndroidPluginHost/main.cpp:137 | getNumItems: the number of items |
| HostUi.ComboBox.Clear | external/AndroidPluginHost/main.cpp:155 | clear: no items and nothing selected |
| HostUi.ComboBox.AddItem | external/AndroidPluginHost/main.cpp:137 | addItem: the item is appended with the given text and ID; the selection stays |
| HostUi.ComboBox.SetSelectedId | external/AndroidPluginHost/main.cpp:141 | setSelectedId: the ID is selected when an item has it; otherwise nothing is selected, so the selected ID reads back as 0 |
| HostUi.ComboBox.GetSelectedId | external/AndroidPluginHost/main.cpp:149 | getSelectedId: the selected ID, 0 when nothing is selected |
| HostUi.ComboBox.GetText | external/AndroidPluginHost/main.cpp:150 | getText: the text of the selected item |
| HostUi.NumberedSnoc | external/AndroidPluginHost/main.cpp:137 | adding with ID getNumItems()+1 extends the numbered list by one |
| HostUi.DescriptiveNamesSnoc | external/AndroidPluginHost/main.cpp:264 | the names of a longer list are the old names plus the new one |
| HostUi.FormatNamesSnoc | external/AndroidPluginHost/main.cpp:137-140 | the format names of a longer list are the old names plus the new one |
| HostUi.FirstOccurrencesSpec | external/AndroidPluginHost/main.cpp:261-263 | the vendors array holds exactly the manufacturers that occur, in first-occurrence order |
| HostUi.FirstOccurrences | external/AndroidPluginHost/main.cpp:260-263 | defines the `vendors` array: each manufacturer once, kept where it first occurs |
| HostUi.VendorNames | external/AndroidPluginHost/main.cpp:260-271 | defines the vendor entries: the non-empty names of `vendors`, in order |
| HostUi.FirstIndexFound | external/AndroidPluginHost/main.cpp:262 | a name that occurs is found at its first index |
| HostUi.VendorNamesSpec | external/AndroidPluginHost/main.cpp:260-271 | the vendor entries are exactly the non-empty manufacturer names, each once, in first-occurrence order |
| HostUi.VendorFilterSpec | external/AndroidPluginHost/main.cpp:149-154 | unfiltered, every type passes; filtered, exactly the types of that manufacturer, in order |
| HostUi.PassesVendor | external/AndroidPluginHost/main.cpp:149-154 | defines the vendor test: everything passes unfiltered, otherwise only that manufacturer |
| HostUi.VendorFilter | external/AndroidPluginHost/main.cpp:149-154 | defines the filtered plugin list: the types passing the vendor test, in order |
| HostUi.FirstSelectable | external/AndroidPluginHost/main.cpp:160-171 | the first type that passes the vendor filter with the selected name, or none when no type does |
| HostUi.NameLessEq | external/AndroidPluginHost/main.cpp:117-120 | defines `String::compare(a, b) <= 0`: character-wise order, a prefix before any longer string |
| HostUi.NameLessEqTotal | external/AndroidPluginHost/main.cpp:115-121 | any two format names are ordered by the comparer |
| HostUi.NameLessEqTransitive | external/AndroidPluginHost/main.cpp:115-121 | the comparer's order is transitive |
| HostUi.InsertByName | external/AndroidPluginHost/main.cpp:134 | inserting adds one element |
| HostUi.SortByName | external/AndroidPluginHost/main.cpp:132-134 | sorting keeps the length |
| HostUi.InsertByNamePermutes | external/AndroidPluginHost/main.cpp:134 | inserting adds exactly that format |
| HostUi.InsertByNameBounded | external/AndroidPluginHost/main.cpp:134 | inserting keeps a lower bound on the names |
| HostUi.InsertByNameSorted | external/AndroidPluginHost/main.cpp:134 | inserting into a name-sorted array keeps it sorted |
| HostUi.SortByNameSpec | external/AndroidPluginHost/main.cpp:132-134 | the sorted formats are a permutation of the manager's, in name order |
| HostUi.ComboFormatOrderSpec | external/AndroidPluginHost/main.cpp:131-141 | the format combo lists every format once per occurrence: trivial-to-scan ones first, sorted by name, then the rest in manager order |
| HostUi.ComboFormatOrder | external/AndroidPluginHost/main.cpp:131-141 | defines the combo order: the trivial-to-scan formats name-sorted, then the others in manager order |
| HostUi.ScannedFormatShown | external/AndroidPluginHost/main.cpp:143-144 | the corrected scan target's name is the text of the selected item |
| HostUi.ScannedFormatAsWritten | external/AndroidPluginHost/main.cpp:143-144 | defines the format the button scans as written: the name-sorted array at the selected ID minus 1 |
| HostUi.ScannedFormat | external/AndroidPluginHost/main.cpp:143-144 | defines the corrected target: the combo order at the selected ID minus 1 |
| HostUi.AsWrittenScanMismatch | external/AndroidPluginHost/main.cpp:131-144 | as written, item 1 can show "LV2" while the button scans "LADSPA" |
| HostMain.AppModel.constructor | external/AndroidPluginHost/main.cpp:26-39 | the saved plugin list is restored and no plugin is selected (uniqueId 0) |
| HostMain.AppModel.ScanPlugins | external/AndroidPluginHost/main.cpp:45-67 | a known type is removed only when it matches a file this scan blacklisted; the new descriptions of this format go in front of the remaining types, last found first, and already-listed ones keep their place; the blacklist becomes the probe loop's |
| HostMain.AppModel.SetSelectedPlugin | external/AndroidPluginHost/main.cpp:75-77 | the selected plugin becomes the argument |
| HostMain.AppHost.constructor | external/AndroidPluginHost/main.cpp:86 | there is no model yet |
| HostMain.AppHost.GetAppModel | external/AndroidPluginHost/main.cpp:87-91 | a model is created from the saved settings only when there is none; the held instance is returned |
| HostMain.AppHost.Reset | external/AndroidPluginHost/main.cpp:282-284 | the global model is released |
| HostMain.GetAppModelTwice | external/AndroidPluginHost/main.cpp:87-93 | two successive calls return the same instance |
| HostMain.AddFormatItems | external/AndroidPluginHost/main.cpp:135-140 | each format that passes is added with the next ID, in the order given |
| HostMain.FormatComboItems | external/AndroidPluginHost/main.cpp:131-140 | the format items are the combo order numbered 1..n |
| HostMain.FirstFormatSelectable | external/AndroidPluginHost/main.cpp:141 | selecting ID 1 finds an item iff the manager has a format |
| HostMain.ListTypes | external/AndroidPluginHost/main.cpp:260-265 | the plugin combo gets every type's name numbered from 1, and `vendors` each manufacturer once, in first-occurrence order |
| HostMain.AddVendorItems | external/AndroidPluginHost/main.cpp:268-271 | after "--- All Vendors ---" (ID 1) the non-empty vendors follow with IDs 3, 4, ... |
| HostMain.ShowsPluginList | external/AndroidPluginHost/main.cpp:256-273 | defines what updatePluginListOnUI leaves on screen: with no types an empty plugin combo and the vendor combo as it was; otherwise the names numbered from 1, and "--- All Vendors ---" (ID 1, selected) then the vendors numbered from 3 |
| HostMain.MainComponent.constructor | external/AndroidPluginHost/main.cpp:124-141 | the model is the host's; when the host held none it is created fresh, with a fresh plugin list holding the saved types and blacklist, and no plugin selected; the format combo lists the combo order numbered 1..n with ID 1 selected (none when there are no formats); the model's known types are shown as UpdatePluginListOnUI shows them |
| HostMain.MainComponent.UpdatePluginListOnUI | external/AndroidPluginHost/main.cpp:256-273 | no types: an empty plugin combo and an untouched vendor combo; otherwise every type's name numbered from 1, and "--- All Vendors ---" (ID 1, selected) then the vendor names numbered from 3 |
| HostMain.MainComponent.OnVendorChange | external/AndroidPluginHost/main.cpp:148-158 | the plugin combo lists the names of the types passing the vendor filter, numbered from 1 |
| HostMain.MainComponent.OnPluginChange | external/AndroidPluginHost/main.cpp:160-171 | the first matching type becomes the selection; without a match the selection is unchanged |
| HostMain.MainComponent.OnInstantiateClick | external/AndroidPluginHost/main.cpp:173-178 | instantiation is requested only when uniqueId is set, and from exactly the manager formats named as the selected item |
| HostMain.MainComponent.OnScanClick | external/AndroidPluginHost/main.cpp:143-146 | the format scanned is the one whose name the selected item shows (corrected); the scan's effects are those of ScanPlugins; the plugin list is then shown |

## Left out

- Persistence: `saveKnownPluginList`, `createXml` and `recreateFromXml`. The saved types and
  blacklist come in as constructor parameters.
- Audio device set-up, the audio callback and the player. Whether recording is permitted is a
  constructor parameter.
- `setPlayConfigDetails` and `enableAllBuses` in `updateGraph`. They configure processors and
  do not change the wiring.
- The graph's own connection validity checks. `addConnection` only records the connection.
- Asynchronous instantiation, `prepareToPlay`, `processBlock` and the error alert.
  `OnInstantiateClick` only returns the formats it asks.
- What `searchPathsForPlugins` and `findAllTypesForFile` do. The candidate files and their
  probe results are inputs.
- Descriptions that `findAllTypesForFile` added before it threw. A failing probe contributes
  no descriptions.
- `mpe.h`: it needs floating point, a clock and a concurrent message collector.
- `audioplayer.h`: only its "no MIDI in or out" flags, which are node flags here.
- Layout, bounds and visibility, the MPE keyboard toggle, the window, and the commented-out
  MIDI device code.
- The `printf` in the probe loop.
- Change notifications that JUCE sends asynchronously from `clear` and `setSelectedId`. The
  handlers are separate methods that callers invoke.
- HostUi.ComboBox.AddItem: JUCE's `addItem` refuses an empty text or ID 0; the model appends
  every item. IDs here are always positive, but a type with an empty descriptive name is
  listed here and skipped by JUCE. Because `external/AndroidPluginHost/main.cpp:157` and
  `:264` number items with `getNumItems() + 1`, every later type then gets an ID one lower in
  JUCE than here. `HostMain.ListTypes`, `HostMain.MainComponent.UpdatePluginListOnUI` and
  `HostMain.MainComponent.OnVendorChange` inherit this difference.
- PluginList.KnownPluginList.AddType: equality stands for JUCE's duplicate test (same file
  identifier and unique ID), as in RemoveType. JUCE overwrites a duplicate entry with the new
  description in place; here a listed type is already equal to it, so the list stays as it
  is. A description that JUCE would call a duplicate but that differs in another field is
  inserted at the front here instead.
- PluginList.KnownPluginList.RemoveType: removes the entries equal to the argument. JUCE
  removes every entry that is a duplicate of it (same file identifier and unique ID), which
  can include an entry of another format. Descriptions here carry no file identifier, so
  `RescanReplacesFormat` keeping every other format's types (less those matching a newly
  blacklisted file) is stronger than JUCE promises.
- PluginList.KnownPluginList.AddToBlacklist: a type matches a blacklist entry when its
  `fileOrIdentifier` field equals the entry; how JUCE's own `KnownPluginList` makes that
  comparison is not part of this model.
- ProbeResult.Fail stands for a `std::runtime_error` thrown by `findAllTypesForFile`, the only
  exception the probe loops catch (model.h:92, main.cpp:56). Any other exception leaves
  `scanPlugins` half done; in `model.h` the format's types are then already removed
  (model.h:82-83) and nothing is added back. Neither that outcome nor what happens to the
  exception afterwards is modelled.
- HostUi.SortByName: a stable insertion sort stands for JUCE's `Array::sort`. The order of
  formats with equal names is not claimed to match.
- HostModel.AppModel.RemoveActiveInstance: requires that the node is not a fixed node. Callers
  only hold plugin nodes.
- HostModel.AppModel.UpdateGraph: the `prev != nullptr` test in the audio loop is always true
  there, so the model has no branch for it.
- HostMain.MainComponent.OnScanClick: requires that a format item is selected. As written,
  with an empty format list the selected ID is 0, `formats[-1]` (main.cpp:144) yields a null
  pointer from JUCE's `Array::operator[]`, and `scanPlugins` dereferences it (main.cpp:49).
- HostModel.AppModel.AddNode: node IDs are unbounded integers. JUCE's `NodeID::uid` is a
  32-bit unsigned value, so `++lastNodeID` would wrap around after 2^32 - 1 additions; that
  wrap-around (and AddActiveInstance's "ID last ID + 1" past it) is not modelled.
- `getAudioPlayer`, `getAudioDeviceManager` and `getPluginPlayer`: plain accessors.

## Findings

| source | as written | input that shows it | evidently intended | confidence | as-written member | corrected member |
|---|---|---|---|---|---|---|
| external/AndroidPluginHost/main.cpp:143-144 | the scan button indexes the name-sorted `formats` array with the selected item's ID. The combo, though, lists trivial-to-scan formats sorted, then the others in manager order (main.cpp:131-141) | manager formats [LADSPA (not trivial to scan), LV2 (trivial)]: item 1 shows "LV2", but the button scans LADSPA | scan the format whose name the selected item shows | not executed; follows from the two loops and the index expression | HostUi.AsWrittenScanMismatch | HostUi.ScannedFormatShown |
