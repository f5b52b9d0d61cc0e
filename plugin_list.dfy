/** The plugin bookkeeping both hosts share: plugin descriptions, the outcome of probing
    a candidate file, and KnownPluginList (the known types plus the blacklist of files
    whose probe failed). */
module PluginList {
  import opened Seqs

  /** The fields of a PluginDescription that the host reads. */
  datatype PluginDescription = PluginDescription(
    pluginFormatName: string,
    manufacturerName: string,
    descriptiveName: string,
    uniqueId: int,
    /** The file identifier a blacklist entry is compared with. */
    fileOrIdentifier: string)

  /** A plugin format as the host uses it: its name and whether it is trivial to scan. */
  datatype PluginFormat = PluginFormat(name: string, trivialToScan: bool)

  /** What findAllTypesForFile does for one file: it throws, or appends these descriptions. */
  datatype ProbeResult = Fail | Found(descriptions: seq<PluginDescription>)

  /** A file (or identifier) that searchPathsForPlugins returned, with the result probing it would give. */
  datatype Candidate = Candidate(file: string, probe: ProbeResult)

  /** The descriptions collected by a probe loop and the blacklist it leaves behind. */
  datatype ProbeOutcome = ProbeOutcome(found: seq<PluginDescription>, blacklist: set<string>)

  function HasFormat(name: string): PluginDescription -> bool {
    (d: PluginDescription) => d.pluginFormatName == name
  }

  function LacksFormat(name: string): PluginDescription -> bool {
    (d: PluginDescription) => d.pluginFormatName != name
  }

  function Differs(pd: PluginDescription): PluginDescription -> bool {
    (t: PluginDescription) => t != pd
  }

  function NotAmong(removed: seq<PluginDescription>): PluginDescription -> bool {
    (t: PluginDescription) => t !in removed
  }

  function NotMatching(entry: string): PluginDescription -> bool {
    (t: PluginDescription) => t.fileOrIdentifier != entry
  }

  function NoneMatching(entries: set<string>): PluginDescription -> bool {
    (t: PluginDescription) => t.fileOrIdentifier !in entries
  }

  /** The types left once every type matching one of the entries has been removed. */
  function WithoutMatches(types: seq<PluginDescription>, entries: set<string>): seq<PluginDescription> {
    Filter(types, NoneMatching(entries))
  }

  /** KnownPluginList::getTypesForFormat, and the filter the scans apply before addType. */
  function OfFormat(types: seq<PluginDescription>, name: string): seq<PluginDescription> {
    Filter(types, HasFormat(name))
  }

  function OtherFormats(types: seq<PluginDescription>, name: string): seq<PluginDescription> {
    Filter(types, LacksFormat(name))
  }

  /** The probe loop of scanPlugins over the first |files| candidates, starting from `blacklist`:
      a blacklisted file is skipped, a failing probe blacklists its file, a successful
      probe appends its descriptions. */
  function ProbeFiles(blacklist: set<string>, files: seq<Candidate>): (r: ProbeOutcome)
    ensures blacklist <= r.blacklist
    decreases |files|
  {
    if files == [] then ProbeOutcome([], blacklist)
    else
      var prior := ProbeFiles(blacklist, files[..|files| - 1]);
      ProbeStep(prior, files[|files| - 1])
  }

  /** The files a probe loop adds to the blacklist. */
  function NewlyBlacklisted(blacklist: set<string>, files: seq<Candidate>): set<string> {
    ProbeFiles(blacklist, files).blacklist - blacklist
  }

  /** One iteration of the probe loop. */
  function ProbeStep(prior: ProbeOutcome, c: Candidate): (r: ProbeOutcome)
    ensures prior.blacklist <= r.blacklist
  {
    if c.file in prior.blacklist then prior
    else match c.probe
      case Fail => ProbeOutcome(prior.found, prior.blacklist + {c.file})
      case Found(ds) => ProbeOutcome(prior.found + ds, prior.blacklist)
  }

  /** A shorter prefix of the candidates leaves a smaller blacklist and a prefix of the findings. */
  lemma {:induction false} ProbePrefix(blacklist: set<string>, files: seq<Candidate>, i: nat)
    requires i <= |files|
    ensures ProbeFiles(blacklist, files[..i]).blacklist <= ProbeFiles(blacklist, files).blacklist
    ensures ProbeFiles(blacklist, files[..i]).found <= ProbeFiles(blacklist, files).found
    decreases |files|
  {
    if i < |files| {
      var init := files[..|files| - 1];
      ProbePrefix(blacklist, init, i);
      assert init[..i] == files[..i];
    } else {
      assert files[..i] == files;
    }
  }

  /** A file enters the blacklist only because one of its probes failed. */
  lemma {:induction false} BlacklistOnlyFromFailures(blacklist: set<string>, files: seq<Candidate>, f: string)
    requires f in ProbeFiles(blacklist, files).blacklist && f !in blacklist
    ensures exists k :: 0 <= k < |files| && files[k].file == f && files[k].probe == Fail
    decreases |files|
  {
    var init := files[..|files| - 1];
    var last := files[|files| - 1];
    if f in ProbeFiles(blacklist, init).blacklist {
      BlacklistOnlyFromFailures(blacklist, init, f);
      var k :| 0 <= k < |init| && init[k].file == f && init[k].probe == Fail;
      assert files[k] == init[k];
    } else {
      assert files[|files| - 1].file == f && files[|files| - 1].probe == Fail;
    }
  }

  /** Every file whose probe throws ends up in the blacklist. */
  lemma {:induction false} FailuresAreBlacklisted(blacklist: set<string>, files: seq<Candidate>, k: nat)
    requires k < |files| && files[k].probe == Fail
    ensures files[k].file in ProbeFiles(blacklist, files).blacklist
  {
    ProbePrefix(blacklist, files, k + 1);
    assert files[..k + 1][..k] == files[..k];
  }

  /** A file that is blacklisted when the scan starts is never probed: changing what its
      probe would return changes nothing. */
  lemma {:induction false} BlacklistedNeverProbed(blacklist: set<string>, files: seq<Candidate>, k: nat, other: ProbeResult)
    requires k < |files| && files[k].file in blacklist
    ensures ProbeFiles(blacklist, files[k := Candidate(files[k].file, other)]) == ProbeFiles(blacklist, files)
    decreases |files|
  {
    var files' := files[k := Candidate(files[k].file, other)];
    var n := |files| - 1;
    if k < n {
      BlacklistedNeverProbed(blacklist, files[..n], k, other);
      assert files'[..n] == files[..n][k := Candidate(files[k].file, other)];
    } else {
      assert files'[..n] == files[..n];
    }
  }

  /** Every description collected comes from a successful probe of a file that was not
      blacklisted when the loop reached it (nor, so, when the scan started). */
  lemma {:induction false} FoundFromProbedFiles(blacklist: set<string>, files: seq<Candidate>, d: PluginDescription)
    requires d in ProbeFiles(blacklist, files).found
    ensures exists k :: 0 <= k < |files| && files[k].file !in ProbeFiles(blacklist, files[..k]).blacklist &&
                        files[k].file !in blacklist && files[k].probe.Found? && d in files[k].probe.descriptions
    decreases |files|
  {
    var init := files[..|files| - 1];
    var last := files[|files| - 1];
    if d in ProbeFiles(blacklist, init).found {
      FoundFromProbedFiles(blacklist, init, d);
      var k :| 0 <= k < |init| && init[k].file !in ProbeFiles(blacklist, init[..k]).blacklist &&
               init[k].file !in blacklist && init[k].probe.Found? && d in init[k].probe.descriptions;
      assert files[k] == init[k] && files[..k] == init[..k];
    } else {
      assert files[..|files| - 1] == init;
      assert last.file !in ProbeFiles(blacklist, init).blacklist;
      assert last.file !in blacklist && last.probe.Found? && d in last.probe.descriptions;
    }
  }

  /** A successful probe of a file that is not blacklisted when the loop reaches it
      contributes all of its descriptions. */
  lemma {:induction false} ProbedFilesContribute(blacklist: set<string>, files: seq<Candidate>, k: nat)
    requires k < |files| && files[k].probe.Found?
    requires files[k].file !in ProbeFiles(blacklist, files[..k]).blacklist
    ensures forall d :: d in files[k].probe.descriptions ==> d in ProbeFiles(blacklist, files).found
  {
    ProbePrefix(blacklist, files, k + 1);
    assert files[..k + 1][..k] == files[..k];
    var before := ProbeFiles(blacklist, files[..k]);
    var upTo := ProbeFiles(blacklist, files[..k + 1]).found;
    var all := ProbeFiles(blacklist, files).found;
    assert files[k].file !in before.blacklist;
    assert upTo == before.found + files[k].probe.descriptions;
    forall d | d in files[k].probe.descriptions ensures d in all {
      var j :| 0 <= j < |files[k].probe.descriptions| && files[k].probe.descriptions[j] == d;
      assert upTo[|before.found| + j] == d;
      assert all[|before.found| + j] == d;
    }
  }

  /** Removing every type that getTypesForFormat listed leaves exactly the other formats. */
  lemma RemovingListedTypes(types: seq<PluginDescription>, name: string)
    ensures Filter(types, NotAmong(OfFormat(types, name))) == OtherFormats(types, name)
  {
    forall i | 0 <= i < |types|
      ensures NotAmong(OfFormat(types, name))(types[i]) == LacksFormat(name)(types[i])
    {
      FilterMembership(types, HasFormat(name), types[i]);
    }
    FilterCongruent(types, NotAmong(OfFormat(types, name)), LacksFormat(name));
  }

  /** One step of the removal loop. */
  lemma RemovalStep(types: seq<PluginDescription>, removed: seq<PluginDescription>, pd: PluginDescription)
    ensures Filter(Filter(types, NotAmong(removed)), Differs(pd)) == Filter(types, NotAmong(removed + [pd]))
  {
    FilterFilter(types, NotAmong(removed), Differs(pd), NotAmong(removed + [pd]));
  }

  /** One more blacklist entry drops the types it matches as well. */
  lemma BlacklistStep(types: seq<PluginDescription>, entries: set<string>, entry: string)
    ensures Filter(WithoutMatches(types, entries), NotMatching(entry)) == WithoutMatches(types, entries + {entry})
  {
    FilterFilter(types, NoneMatching(entries), NotMatching(entry), NoneMatching(entries + {entry}));
  }

  /** A type leaves the list in the probe loop only if its identifier names a file whose
      probe failed in this scan; the others all stay. */
  lemma {:induction false} RemovedOnlyForFailures(types: seq<PluginDescription>, blacklist: set<string>, files: seq<Candidate>, d: PluginDescription)
    requires d in types
    ensures d !in WithoutMatches(types, NewlyBlacklisted(blacklist, files)) <==>
              d.fileOrIdentifier in NewlyBlacklisted(blacklist, files)
    ensures d !in WithoutMatches(types, NewlyBlacklisted(blacklist, files)) ==>
              exists k :: 0 <= k < |files| && files[k].file == d.fileOrIdentifier && files[k].probe == Fail
  {
    var failed := NewlyBlacklisted(blacklist, files);
    FilterMembership(types, NoneMatching(failed), d);
    if d.fileOrIdentifier in failed {
      BlacklistOnlyFromFailures(blacklist, files, d.fileOrIdentifier);
    }
  }

  /** The list after addType of each description of format `name` in `found`, in order:
      a description already listed stays where it is, a new one goes to the front, so the
      new ones come last found first, ahead of the old types. */
  function WithScan(types: seq<PluginDescription>, found: seq<PluginDescription>, name: string): seq<PluginDescription> {
    Reverse(Novel(OfFormat(found, name), types)) + types
  }

  /** The list after a rescan of format `name`: that format's types removed, then the types
      matching a newly blacklisted file removed, then the scan's findings of it added. */
  function Rescanned(types: seq<PluginDescription>, failed: set<string>, found: seq<PluginDescription>, name: string): seq<PluginDescription> {
    WithScan(WithoutMatches(OtherFormats(types, name), failed), found, name)
  }

  /** One more finding: a new one of the scanned format goes in front, anything else
      (another format, or a type already listed) changes nothing. */
  lemma WithScanSnoc(types: seq<PluginDescription>, found: seq<PluginDescription>, pd: PluginDescription, name: string)
    ensures WithScan(types, found + [pd], name) ==
              if pd.pluginFormatName == name && pd !in WithScan(types, found, name) then [pd] + WithScan(types, found, name)
              else WithScan(types, found, name)
  {
    FilterSnoc(found, pd, HasFormat(name));
    if pd.pluginFormatName == name {
      assert OfFormat(found + [pd], name) == OfFormat(found, name) + [pd];
      AddOneFinding(types, OfFormat(found, name), pd);
    }
  }

  /** WithScanSnoc for a finding of the scanned format, on the filtered findings. */
  lemma AddOneFinding(types: seq<PluginDescription>, mine: seq<PluginDescription>, pd: PluginDescription)
    ensures Reverse(Novel(mine + [pd], types)) + types ==
              if pd in Reverse(Novel(mine, types)) + types then Reverse(Novel(mine, types)) + types
              else [pd] + (Reverse(Novel(mine, types)) + types)
  {
    var novel := Novel(mine, types);
    NovelSnoc(mine, types, pd);
    ReverseMembership(novel, pd);
    if pd in types || pd in novel {
      assert pd in Reverse(novel) + types;
    } else {
      assert pd !in Reverse(novel) + types;
      ReverseSnoc(novel, pd);
    }
  }

  /** What a scan adds: exactly the findings of the scanned format that were not listed,
      each once. */
  lemma NovelFindings(types: seq<PluginDescription>, found: seq<PluginDescription>, name: string)
    ensures forall d :: d in Reverse(Novel(OfFormat(found, name), types)) <==>
                        d in found && d.pluginFormatName == name && d !in types
    ensures Distinct(Reverse(Novel(OfFormat(found, name), types)))
  {
    var novel := Novel(OfFormat(found, name), types);
    NovelSpec(OfFormat(found, name), types);
    ReverseDistinct(novel);
    forall d ensures d in Reverse(novel) <==> d in found && d.pluginFormatName == name && d !in types {
      ReverseMembership(novel, d);
      FilterMembership(found, HasFormat(name), d);
    }
  }

  /** Adding a scan's findings: the other formats' types stay as they were, the types of
      the scanned format are the old ones after the new findings (newest first). */
  lemma {:induction false} WithScanByFormat(types: seq<PluginDescription>, found: seq<PluginDescription>, name: string)
    ensures OtherFormats(WithScan(types, found, name), name) == OtherFormats(types, name)
    ensures OfFormat(WithScan(types, found, name), name) == Reverse(Novel(OfFormat(found, name), types)) + OfFormat(types, name)
  {
    var mine := Reverse(Novel(OfFormat(found, name), types));
    NovelFindings(types, found, name);
    forall i | 0 <= i < |mine| ensures mine[i].pluginFormatName == name {
      assert mine[i] in mine;
    }
    FilterConcat(mine, types, LacksFormat(name));
    FilterConcat(mine, types, HasFormat(name));
    FilterDropsAll(mine, LacksFormat(name));
    FilterKeepsAll(mine, HasFormat(name));
  }

  /** A rescan keeps the types of other formats, except those matching a newly blacklisted
      file, and replaces those of the scanned format by what the scan found of it: each
      finding once, in reverse order of first occurrence. */
  lemma RescanReplacesFormat(types: seq<PluginDescription>, failed: set<string>, found: seq<PluginDescription>, name: string)
    ensures OtherFormats(Rescanned(types, failed, found, name), name) == WithoutMatches(OtherFormats(types, name), failed)
    ensures OfFormat(Rescanned(types, failed, found, name), name) == Reverse(Novel(OfFormat(found, name), []))
    ensures forall d :: d in OfFormat(Rescanned(types, failed, found, name), name) <==> d in found && d.pluginFormatName == name
    ensures Distinct(OfFormat(Rescanned(types, failed, found, name), name))
  {
    var others := OtherFormats(types, name);
    var kept := WithoutMatches(others, failed);
    var mine := OfFormat(found, name);
    forall i | 0 <= i < |kept| ensures kept[i].pluginFormatName != name {
      FilterMembership(others, NoneMatching(failed), kept[i]);
      FilterMembership(types, LacksFormat(name), kept[i]);
    }
    forall i | 0 <= i < |mine| ensures mine[i] !in kept {
      FilterMembership(found, HasFormat(name), mine[i]);
    }
    WithScanByFormat(kept, found, name);
    FilterKeepsAll(kept, LacksFormat(name));
    FilterDropsAll(kept, HasFormat(name));
    NovelDisjoint(mine, kept);
    NovelFindings([], found, name);
  }

  /** A scan that only adds keeps every known type and adds only types of the scanned format. */
  lemma AddingScanKeepsKnownTypes(types: seq<PluginDescription>, found: seq<PluginDescription>, name: string)
    ensures OtherFormats(WithScan(types, found, name), name) == OtherFormats(types, name)
    ensures WithScan(types, found, name)[|WithScan(types, found, name)| - |types|..] == types
    ensures forall d :: d in WithScan(types, found, name) <==> d in types || (d in found && d.pluginFormatName == name)
  {
    WithScanByFormat(types, found, name);
    NovelFindings(types, found, name);
    var mine := Reverse(Novel(OfFormat(found, name), types));
    assert WithScan(types, found, name)[|mine|..] == types;
  }

  /** A scan whose findings of the format are all listed already leaves the list as it is. */
  lemma {:induction false} ScanOfKnownTypes(types: seq<PluginDescription>, found: seq<PluginDescription>, name: string)
    requires forall d :: d in found && d.pluginFormatName == name ==> d in types
    ensures WithScan(types, found, name) == types
  {
    var mine := Reverse(Novel(OfFormat(found, name), types));
    NovelFindings(types, found, name);
  }

  /** Scanning again with the same findings changes nothing: no plugin is listed twice. */
  lemma ScanAgainChangesNothing(types: seq<PluginDescription>, found: seq<PluginDescription>, name: string)
    ensures WithScan(WithScan(types, found, name), found, name) == WithScan(types, found, name)
  {
    AddingScanKeepsKnownTypes(types, found, name);
    ScanOfKnownTypes(WithScan(types, found, name), found, name);
  }

  /** A list without duplicates keeps none after a scan. */
  lemma WithScanKeepsDistinct(types: seq<PluginDescription>, found: seq<PluginDescription>, name: string)
    requires Distinct(types)
    ensures Distinct(WithScan(types, found, name))
  {
    var mine := Reverse(Novel(OfFormat(found, name), types));
    NovelFindings(types, found, name);
    var all := mine + types;
    forall i, j | 0 <= i < j < |all| ensures all[i] != all[j] {
      if j < |mine| {
      } else if i < |mine| {
        assert all[i] in mine && all[j] in types;
      } else {
        assert all[i] == types[i - |mine|] && all[j] == types[j - |mine|];
      }
    }
  }

  /** KnownPluginList: the known plugin types, in list order, and the blacklisted files. */
  class KnownPluginList {
    var types: seq<PluginDescription>
    var blacklist: set<string>

    /** A list as recreateFromXml would restore it from the saved settings. */
    constructor (types: seq<PluginDescription>, blacklist: set<string>)
      ensures this.types == types && this.blacklist == blacklist
    {
      this.types := types;
      this.blacklist := blacklist;
    }

    function GetTypesForFormat(format: PluginFormat): seq<PluginDescription>
      reads this
    {
      OfFormat(types, format.name)
    }

    /** removeType: every entry equal to `pd` leaves the list. */
    method RemoveType(pd: PluginDescription)
      modifies this
      ensures types == Filter(old(types), Differs(pd))
      ensures blacklist == old(blacklist)
    {
      types := Filter(types, Differs(pd));
    }

    /** addType: a description already listed is kept in its place, a new one is inserted
        at the front. */
    method AddType(pd: PluginDescription)
      modifies this
      ensures types == (if pd in old(types) then old(types) else [pd] + old(types))
      ensures blacklist == old(blacklist)
    {
      if pd !in types {
        types := [pd] + types;
      }
    }

    /** addToBlacklist: the entry joins the blacklist, and every type it matches leaves the list. */
    method AddToBlacklist(file: string)
      modifies this
      ensures blacklist == old(blacklist) + {file}
      ensures types == Filter(old(types), NotMatching(file))
    {
      types := Filter(types, NotMatching(file));
      blacklist := blacklist + {file};
    }
  }

  /** The loop of scanPlugins that removes every known type of the format, one by one. */
  method RemoveTypesOfFormat(list: KnownPluginList, format: PluginFormat)
    modifies list
    ensures list.types == OtherFormats(old(list.types), format.name)
    ensures list.blacklist == old(list.blacklist)
  {
    var listed := list.GetTypesForFormat(format);
    var i := 0;
    FilterKeepsAll(list.types, NotAmong(listed[..0]));
    while i < |listed|
      invariant 0 <= i <= |listed|
      invariant list.types == Filter(old(list.types), NotAmong(listed[..i]))
      invariant list.blacklist == old(list.blacklist)
    {
      RemovalStep(old(list.types), listed[..i], listed[i]);
      assert listed[..i + 1] == listed[..i] + [listed[i]];
      list.RemoveType(listed[i]);
      i := i + 1;
    }
    assert listed[..i] == listed;
    RemovingListedTypes(old(list.types), format.name);
  }

  /** The probe loop of scanPlugins: blacklisted files are skipped, a failing probe
      blacklists its file (and so drops the types that file matches), the descriptions
      found are collected in order. */
  method ProbeCandidates(list: KnownPluginList, files: seq<Candidate>) returns (pluginDescriptions: seq<PluginDescription>)
    modifies list
    ensures ProbeOutcome(pluginDescriptions, list.blacklist) == ProbeFiles(old(list.blacklist), files)
    ensures list.types == WithoutMatches(old(list.types), NewlyBlacklisted(old(list.blacklist), files))
  {
    pluginDescriptions := [];
    var i := 0;
    FilterKeepsAll(list.types, NoneMatching({}));
    assert list.blacklist - old(list.blacklist) == {};
    while i < |files|
      invariant 0 <= i <= |files|
      invariant ProbeOutcome(pluginDescriptions, list.blacklist) == ProbeFiles(old(list.blacklist), files[..i])
      invariant list.types == WithoutMatches(old(list.types), list.blacklist - old(list.blacklist))
    {
      var pluginFile := files[i];
      assert files[..i + 1][..i] == files[..i];
      if pluginFile.file !in list.blacklist {
        match pluginFile.probe
        case Fail =>
          BlacklistStep(old(list.types), list.blacklist - old(list.blacklist), pluginFile.file);
          assert (list.blacklist + {pluginFile.file}) - old(list.blacklist) == (list.blacklist - old(list.blacklist)) + {pluginFile.file};
          list.AddToBlacklist(pluginFile.file);
        case Found(ds) =>
          pluginDescriptions := pluginDescriptions + ds;
      }
      i := i + 1;
    }
    assert files[..i] == files;
  }

  /** The last loop of scanPlugins: the descriptions of the scanned format are added in order,
      each new one at the front. */
  method AddTypesOfFormat(list: KnownPluginList, pluginDescriptions: seq<PluginDescription>, format: PluginFormat)
    modifies list
    ensures list.types == WithScan(old(list.types), pluginDescriptions, format.name)
    ensures list.blacklist == old(list.blacklist)
  {
    ghost var start := list.types;
    var i := 0;
    while i < |pluginDescriptions|
      invariant 0 <= i <= |pluginDescriptions|
      invariant list.types == WithScan(start, pluginDescriptions[..i], format.name)
      invariant list.blacklist == old(list.blacklist)
    {
      var pd := pluginDescriptions[i];
      assert pluginDescriptions[..i + 1] == pluginDescriptions[..i] + [pd];
      WithScanSnoc(start, pluginDescriptions[..i], pd, format.name);
      if pd.pluginFormatName == format.name {
        list.AddType(pd);
      }
      i := i + 1;
    }
    assert pluginDescriptions[..i] == pluginDescriptions;
  }

}
