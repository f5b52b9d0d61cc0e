/** The simple host: an AppModel holding the known plugin list and the selected plugin, the
    lazily created global model, and MainComponent's combo boxes and handlers. */
module HostMain {
  import opened Wrappers
  import opened Seqs
  import opened PluginList
  import opened HostUi

  /** A default-constructed PluginDescription; its uniqueId is 0. */
  const NoPlugin := PluginDescription("", "", "", 0, "")

  class AppModel {
    const knownPluginList: KnownPluginList
    var selectedPlugin: PluginDescription

    /** The known plugin list is the one restored from the saved settings. */
    constructor (savedTypes: seq<PluginDescription>, savedBlacklist: set<string>)
      ensures fresh(knownPluginList)
      ensures knownPluginList.types == savedTypes && knownPluginList.blacklist == savedBlacklist
      ensures selectedPlugin == NoPlugin
    {
      knownPluginList := new KnownPluginList(savedTypes, savedBlacklist);
      selectedPlugin := NoPlugin;
    }

    /** scanPlugins: the candidate files are probed and the new descriptions of the scanned
        format are added in front of the known types; a plugin already listed keeps its
        place. A known type leaves the list only when it matches a file blacklisted by this
        scan. */
    method ScanPlugins(format: PluginFormat, files: seq<Candidate>)
      modifies knownPluginList
      ensures knownPluginList.types ==
                WithScan(WithoutMatches(old(knownPluginList.types), NewlyBlacklisted(old(knownPluginList.blacklist), files)),
                         ProbeFiles(old(knownPluginList.blacklist), files).found, format.name)
      ensures knownPluginList.blacklist == ProbeFiles(old(knownPluginList.blacklist), files).blacklist
    {
      var pluginDescriptions := ProbeCandidates(knownPluginList, files);
      AddTypesOfFormat(knownPluginList, pluginDescriptions, format);
    }

    method SetSelectedPlugin(plugin: PluginDescription)
      modifies this`selectedPlugin
      ensures selectedPlugin == plugin
    {
      selectedPlugin := plugin;
    }
  }

  /** The global `_appModel` and the settings it is created from. */
  class AppHost {
    var appModel: AppModel?
    const savedTypes: seq<PluginDescription>
    const savedBlacklist: set<string>

    constructor (savedTypes: seq<PluginDescription>, savedBlacklist: set<string>)
      ensures appModel == null && this.savedTypes == savedTypes && this.savedBlacklist == savedBlacklist
    {
      appModel := null;
      this.savedTypes := savedTypes;
      this.savedBlacklist := savedBlacklist;
    }

    /** getAppModel: creates the model on the first call only; every call returns the
        instance the global holds. */
    method GetAppModel() returns (m: AppModel)
      modifies this
      ensures appModel == m
      ensures old(appModel) != null ==> m == old(appModel)
      ensures old(appModel) == null ==>
                fresh(m) && fresh(m.knownPluginList) && m.selectedPlugin == NoPlugin &&
                m.knownPluginList.types == savedTypes && m.knownPluginList.blacklist == savedBlacklist
    {
      if appModel == null {
        appModel := new AppModel(savedTypes, savedBlacklist);
      }
      m := appModel;
    }

    /** The application's destructor: the global model is released. */
    method Reset()
      modifies this
      ensures appModel == null
    {
      appModel := null;
    }
  }

  /** Two calls in a row return one and the same model. */
  method GetAppModelTwice(host: AppHost) returns (first: AppModel, second: AppModel)
    modifies host
    ensures first == second && host.appModel == first
  {
    first := host.GetAppModel();
    second := host.GetAppModel();
  }

  /** What updatePluginListOnUI leaves on screen for these known types: with none, an empty
      plugin box and the vendor box as it was; otherwise every type's name numbered from 1,
      and the vendors after "--- All Vendors ---" (ID 1, selected) numbered from 3. */
  predicate ShowsPluginList(types: seq<PluginDescription>, plugins: ComboBox, vendors: ComboBox, priorVendors: ComboBox) {
    if |types| == 0 then plugins == EmptyCombo && vendors == priorVendors
    else plugins == ComboBox(NumberedItems(DescriptiveNames(types), 1), 0) &&
         vendors == ComboBox([Item(AllVendors, 1)] + NumberedItems(VendorNames(types), 3), 1)
  }

  /** Adds the formats that pass `p` to the combo box, IDs continuing from its item count. */
  method AddFormatItems(combo: ComboBox, formats: seq<PluginFormat>, p: PluginFormat -> bool, ghost listed: seq<PluginFormat>)
      returns (r: ComboBox)
    requires combo == ComboBox(NumberedItems(FormatNames(listed), 1), 0)
    ensures r == ComboBox(NumberedItems(FormatNames(listed + Filter(formats, p)), 1), 0)
  {
    r := combo;
    var i := 0;
    while i < |formats|
      invariant 0 <= i <= |formats|
      invariant r == ComboBox(NumberedItems(FormatNames(listed + Filter(formats[..i], p)), 1), 0)
    {
      var format := formats[i];
      assert formats[..i + 1] == formats[..i] + [format];
      FilterSnoc(formats[..i], format, p);
      if p(format) {
        ghost var prior := listed + Filter(formats[..i], p);
        assert listed + Filter(formats[..i + 1], p) == prior + [format];
        FormatNamesSnoc(prior, format);
        NumberedSnoc(FormatNames(prior), 1, format.name);
        r := r.AddItem(format.name, r.NumItems() + 1);
      }
      i := i + 1;
    }
    assert formats[..i] == formats;
  }

  /** The format combo box as the constructor fills it: the trivial-to-scan formats in
      name order, then the others in manager order, with IDs 1, 2, ... and none selected. */
  method FormatComboItems(managerFormats: seq<PluginFormat>) returns (combo: ComboBox)
    ensures combo == ComboBox(NumberedItems(FormatNames(ComboFormatOrder(managerFormats)), 1), 0)
  {
    var formats := SortByName(managerFormats);
    combo := AddFormatItems(EmptyCombo, formats, IsTrivial(), []);
    assert [] + Filter(formats, IsTrivial()) == Filter(formats, IsTrivial());
    combo := AddFormatItems(combo, managerFormats, IsNonTrivial(), Filter(formats, IsTrivial()));
  }

  /** The loop of updatePluginListOnUI over the known types: each name is added to the
      cleared plugin combo with the next ID, and each manufacturer joins `vendors` once. */
  method ListTypes(cleared: ComboBox, types: seq<PluginDescription>) returns (plugins: ComboBox, vendors: seq<string>)
    requires cleared == EmptyCombo
    ensures plugins == ComboBox(NumberedItems(DescriptiveNames(types), 1), 0)
    ensures vendors == FirstOccurrences(Manufacturers(types))
  {
    plugins := cleared;
    vendors := [];
    var i := 0;
    while i < |types|
      invariant 0 <= i <= |types|
      invariant vendors == FirstOccurrences(Manufacturers(types[..i]))
      invariant plugins == ComboBox(NumberedItems(DescriptiveNames(types[..i]), 1), 0)
    {
      var desc := types[i];
      assert types[..i + 1] == types[..i] + [desc];
      assert Manufacturers(types[..i + 1]) == Manufacturers(types[..i]) + [desc.manufacturerName];
      assert Manufacturers(types[..i + 1])[..i] == Manufacturers(types[..i]);
      if desc.manufacturerName !in vendors {
        vendors := vendors + [desc.manufacturerName];
      }
      DescriptiveNamesSnoc(types[..i], desc);
      NumberedSnoc(DescriptiveNames(types[..i]), 1, desc.descriptiveName);
      plugins := plugins.AddItem(desc.descriptiveName, plugins.NumItems() + 1);
      i := i + 1;
    }
    assert types[..i] == types;
  }

  /** The vendor loop of updatePluginListOnUI: after "--- All Vendors ---", each non-empty
      vendor is added with ID getNumItems() + 2, that is 3, 4, ... */
  method AddVendorItems(combo: ComboBox, vendors: seq<string>) returns (r: ComboBox)
    requires combo == ComboBox([Item(AllVendors, 1)], 0)
    ensures r == ComboBox([Item(AllVendors, 1)] + NumberedItems(Filter(vendors, NonEmpty()), 3), 0)
  {
    r := combo;
    var i := 0;
    assert NumberedItems(Filter(vendors[..0], NonEmpty()), 3) == [];
    while i < |vendors|
      invariant 0 <= i <= |vendors|
      invariant r == ComboBox([Item(AllVendors, 1)] + NumberedItems(Filter(vendors[..i], NonEmpty()), 3), 0)
    {
      var vendor := vendors[i];
      assert vendors[..i + 1] == vendors[..i] + [vendor];
      FilterSnoc(vendors[..i], vendor, NonEmpty());
      if vendor != "" {
        NumberedSnoc(Filter(vendors[..i], NonEmpty()), 3, vendor);
        r := r.AddItem(vendor, r.NumItems() + 2);
      }
      i := i + 1;
    }
    assert vendors[..i] == vendors;
  }

  /** Selecting ID 1 in the format combo selects its first item, if there is one. */
  lemma FirstFormatSelectable(managerFormats: seq<PluginFormat>)
    ensures var items := NumberedItems(FormatNames(ComboFormatOrder(managerFormats)), 1);
            HasId(items, 1) <==> managerFormats != []
  {
    ComboFormatOrderSpec(managerFormats);
    var items := NumberedItems(FormatNames(ComboFormatOrder(managerFormats)), 1);
    if managerFormats != [] {
      assert items[0].id == 1;
    }
  }

  /** The formats whose name is the given one. */
  function NamedAs(name: string): PluginFormat -> bool {
    (f: PluginFormat) => f.name == name
  }

  class MainComponent {
    const model: AppModel
    /** The format manager's formats, in manager order. */
    const managerFormats: seq<PluginFormat>
    /** The formats in the order the format combo box lists them. */
    const comboFormats: seq<PluginFormat>
    var formatCombo: ComboBox
    var vendorCombo: ComboBox
    var pluginCombo: ComboBox

    ghost predicate Valid()
      reads this
    {
      comboFormats == ComboFormatOrder(managerFormats) &&
      formatCombo.items == NumberedItems(FormatNames(comboFormats), 1)
    }

    /** The constructor: the format combo lists the trivial-to-scan formats sorted by name,
        then the others in manager order, with IDs 1, 2, ..., and ID 1 selected; then the
        plugin list is shown. */
    constructor (host: AppHost, managerFormats: seq<PluginFormat>)
      modifies host
      ensures Valid()
      ensures model == host.appModel && (old(host.appModel) != null ==> model == old(host.appModel))
      ensures old(host.appModel) == null ==> fresh(model) && fresh(model.knownPluginList)
      ensures old(host.appModel) == null ==>
                model.knownPluginList.types == host.savedTypes && model.knownPluginList.blacklist == host.savedBlacklist &&
                model.selectedPlugin == NoPlugin
      ensures this.managerFormats == managerFormats
      ensures formatCombo.selectedId == if managerFormats == [] then 0 else 1
      ensures ShowsPluginList(model.knownPluginList.types, pluginCombo, vendorCombo, EmptyCombo)
    {
      var m := host.GetAppModel();
      model := m;
      this.managerFormats := managerFormats;
      var combo := FormatComboItems(managerFormats);
      comboFormats := ComboFormatOrder(managerFormats);
      FirstFormatSelectable(managerFormats);
      formatCombo := combo.SetSelectedId(1);
      vendorCombo := EmptyCombo;
      pluginCombo := EmptyCombo;
      new;
      UpdatePluginListOnUI();
    }

    /** updatePluginListOnUI. */
    method UpdatePluginListOnUI()
      modifies this`pluginCombo, this`vendorCombo
      ensures ShowsPluginList(model.knownPluginList.types, pluginCombo, vendorCombo, old(vendorCombo))
    {
      pluginCombo := pluginCombo.Clear();
      var types := model.knownPluginList.types;
      if |types| == 0 {
        return;
      }
      var vendors;
      pluginCombo, vendors := ListTypes(pluginCombo, types);
      vendorCombo := vendorCombo.Clear();
      vendorCombo := vendorCombo.AddItem(AllVendors, 1);
      vendorCombo := AddVendorItems(vendorCombo, vendors);
      assert vendorCombo.items[0].id == 1;
      vendorCombo := vendorCombo.SetSelectedId(1);
    }

    /** comboBoxPluginVendors.onChange: the plugin combo lists, numbered from 1, the known
        types that pass the vendor filter. */
    method OnVendorChange()
      modifies this`pluginCombo
      ensures pluginCombo == ComboBox(NumberedItems(DescriptiveNames(
                VendorFilter(model.knownPluginList.types, vendorCombo.GetSelectedId() > 1, vendorCombo.GetText())), 1), 0)
    {
      var filtered := vendorCombo.GetSelectedId() > 1;
      var vendor := vendorCombo.GetText();
      var types := model.knownPluginList.types;
      var plugins: seq<PluginDescription> := [];
      var i := 0;
      while i < |types|
        invariant 0 <= i <= |types|
        invariant plugins == VendorFilter(types[..i], filtered, vendor)
      {
        var desc := types[i];
        assert types[..i + 1] == types[..i] + [desc];
        FilterSnoc(types[..i], desc, PassesVendor(filtered, vendor));
        if !filtered || desc.manufacturerName == vendor {
          plugins := plugins + [desc];
        }
        i := i + 1;
      }
      assert types[..i] == types;
      pluginCombo := pluginCombo.Clear();
      i := 0;
      while i < |plugins|
        invariant 0 <= i <= |plugins|
        invariant pluginCombo == ComboBox(NumberedItems(DescriptiveNames(plugins[..i]), 1), 0)
      {
        assert plugins[..i + 1] == plugins[..i] + [plugins[i]];
        DescriptiveNamesSnoc(plugins[..i], plugins[i]);
        NumberedSnoc(DescriptiveNames(plugins[..i]), 1, plugins[i].descriptiveName);
        pluginCombo := pluginCombo.AddItem(plugins[i].descriptiveName, pluginCombo.NumItems() + 1);
        i := i + 1;
      }
      assert plugins[..i] == plugins;
    }

    /** comboBoxPlugins.onChange: the first known type that passes the vendor filter and has
        the selected name becomes the selected plugin; without one the selection stays. */
    method OnPluginChange()
      modifies model`selectedPlugin
      ensures var types := model.knownPluginList.types;
              match FirstSelectable(types, vendorCombo.GetSelectedId() > 1, vendorCombo.GetText(), pluginCombo.GetText())
              case Some(k) => model.selectedPlugin == types[k]
              case None => model.selectedPlugin == old(model.selectedPlugin)
    {
      var filtered := vendorCombo.GetSelectedId() > 1;
      var vendor := vendorCombo.GetText();
      var name := pluginCombo.GetText();
      var types := model.knownPluginList.types;
      var i := 0;
      while i < |types|
        invariant 0 <= i <= |types|
        invariant forall j :: 0 <= j < i ==> !Selectable(types[j], filtered, vendor, name)
        invariant model.selectedPlugin == old(model.selectedPlugin)
      {
        var desc := types[i];
        if !filtered || desc.manufacturerName == vendor {
          if desc.descriptiveName == name {
            model.SetSelectedPlugin(desc);
            return;
          }
        }
        i := i + 1;
      }
    }

    /** buttonInstantiate.onClick: the formats asked to create an instance of the selected
        plugin, none unless its uniqueId is set, and only those named as the selected format. */
    method OnInstantiateClick() returns (requested: seq<PluginFormat>)
      ensures model.selectedPlugin.uniqueId == 0 ==> requested == []
      ensures model.selectedPlugin.uniqueId != 0 ==>
                requested == Filter(managerFormats, NamedAs(formatCombo.GetText()))
      ensures forall f :: f in requested <==>
                model.selectedPlugin.uniqueId != 0 && f in managerFormats && f.name == formatCombo.GetText()
    {
      requested := [];
      var desc := model.selectedPlugin;
      var named := NamedAs(formatCombo.GetText());
      if desc.uniqueId != 0 {
        var i := 0;
        while i < |managerFormats|
          invariant 0 <= i <= |managerFormats|
          invariant requested == Filter(managerFormats[..i], named)
        {
          var format := managerFormats[i];
          assert managerFormats[..i + 1] == managerFormats[..i] + [format];
          FilterSnoc(managerFormats[..i], format, named);
          i := i + 1;
          if format.name != formatCombo.GetText() {
            continue;
          }
          requested := requested + [format];
        }
        assert managerFormats[..i] == managerFormats;
        forall f ensures f in requested <==> f in managerFormats && named(f) {
          FilterMembership(managerFormats, named, f);
        }
      }
    }

    /** buttonScanPlugins.onClick, with the scanned format taken as the one the selected
        item shows; then the plugin list is shown again. */
    method OnScanClick(files: seq<Candidate>)
      requires Valid() && 1 <= formatCombo.GetSelectedId() <= |managerFormats|
      modifies model.knownPluginList, this`pluginCombo, this`vendorCombo
      ensures Valid()
      ensures var format := ScannedFormat(managerFormats, old(formatCombo.GetSelectedId()));
              format.name == TextOf(formatCombo.items, formatCombo.GetSelectedId()) &&
              model.knownPluginList.types ==
                WithScan(WithoutMatches(old(model.knownPluginList.types), NewlyBlacklisted(old(model.knownPluginList.blacklist), files)),
                         ProbeFiles(old(model.knownPluginList.blacklist), files).found, format.name) &&
              model.knownPluginList.blacklist == ProbeFiles(old(model.knownPluginList.blacklist), files).blacklist
      ensures ShowsPluginList(model.knownPluginList.types, pluginCombo, vendorCombo, old(vendorCombo))
    {
      ComboFormatOrderSpec(managerFormats);
      ScannedFormatShown(managerFormats, formatCombo.GetSelectedId());
      model.ScanPlugins(comboFormats[formatCombo.GetSelectedId() - 1], files);
      UpdatePluginListOnUI();
    }
  }
}
