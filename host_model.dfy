/** AppModel of the graph-hosting variant: a processing graph holding the fixed I/O nodes,
    the audio file player and the active plugin instances, rewired from scratch after
    every change; and the rescanning variant of scanPlugins. */
module HostModel {
  import opened Wrappers
  import opened Seqs
  import opened PluginList
  import opened GraphWiring

  /** The IDs the constructor's five addNode calls hand out: 1 to the audio input when
      recording is permitted, then the next ones to midi input, audio output, midi output
      and the audio player. */
  function InitialLastId(recordAudioGranted: bool): NodeId {
    if recordAudioGranted then 5 else 4
  }

  function InitialFixed(recordAudioGranted: bool): FixedNodes {
    var before := InitialLastId(recordAudioGranted) - 4;
    FixedNodes(if recordAudioGranted then Some(1) else None, before + 2, before + 1, before + 3, before + 4)
  }

  /** The fixed nodes: only midi output accepts MIDI, only midi input produces it (the
      audio player does neither). */
  function InitialNodes(recordAudioGranted: bool): seq<Node> {
    var before := InitialLastId(recordAudioGranted) - 4;
    (if recordAudioGranted then [Node(1, false, false)] else []) +
    [Node(before + 1, false, true), Node(before + 2, false, false),
     Node(before + 3, true, false), Node(before + 4, false, false)]
  }

  /** The initial graph is well formed, holds its fixed nodes, and has an audio input
      exactly when recording is permitted. */
  lemma InitialGraphWellFormed(recordAudioGranted: bool)
    ensures var nodes := InitialNodes(recordAudioGranted);
            var f := InitialFixed(recordAudioGranted);
            IdsIncreasing(nodes) && FixedDistinct(f) && FixedPresent(f, nodes) &&
            (forall k :: 0 <= k < |nodes| ==> nodes[k].id <= InitialLastId(recordAudioGranted)) &&
            (f.audioIn.Some? <==> recordAudioGranted)
  {
    var nodes := InitialNodes(recordAudioGranted);
    var f := InitialFixed(recordAudioGranted);
    var at := |nodes| - 4;
    assert nodes[at].id == f.midiIn && nodes[at + 1].id == f.audioOut;
    assert nodes[at + 2].id == f.midiOut && nodes[at + 3].id == f.player;
    assert recordAudioGranted ==> nodes[0].id == 1;
  }

  /** The initial graph has no plugin: every node is a fixed one. */
  lemma InitialGraphHasNoPlugins(recordAudioGranted: bool)
    ensures ActivePlugins(InitialNodes(recordAudioGranted), InitialFixed(recordAudioGranted)) == []
  {
    FilterDropsAll(InitialNodes(recordAudioGranted), PluginNode(InitialFixed(recordAudioGranted)));
  }

  class AppModel {
    /** graph.getNodes(), in node-ID order. */
    var nodes: seq<Node>
    var connections: set<Connection>
    /** The last node ID the graph handed out. */
    var lastNodeId: NodeId
    const fixed: FixedNodes
    const knownPluginList: KnownPluginList

    ghost predicate Valid()
      reads this
    {
      IdsIncreasing(nodes) &&
      (forall k :: 0 <= k < |nodes| ==> nodes[k].id <= lastNodeId) &&
      FixedDistinct(fixed) && FixedPresent(fixed, nodes) &&
      forall c :: c in connections ==> InGraph(nodes, c.srcId) && InGraph(nodes, c.dstId)
    }

    /** The constructor's graph set-up: audio input only when recording is permitted, then
        midi input, audio output, midi output and the audio player, each given the next ID.
        The known plugin list is the one restored from the saved settings. */
    constructor (recordAudioGranted: bool, savedTypes: seq<PluginDescription>, savedBlacklist: set<string>)
      ensures Valid() && fresh(knownPluginList)
      ensures knownPluginList.types == savedTypes && knownPluginList.blacklist == savedBlacklist
      ensures fixed.audioIn.Some? <==> recordAudioGranted
      ensures connections == {} && ActivePlugins(nodes, fixed) == []
      ensures nodes == InitialNodes(recordAudioGranted) && fixed == InitialFixed(recordAudioGranted)
      ensures lastNodeId == InitialLastId(recordAudioGranted)
    {
      fixed := InitialFixed(recordAudioGranted);
      nodes := InitialNodes(recordAudioGranted);
      lastNodeId := InitialLastId(recordAudioGranted);
      connections := {};
      knownPluginList := new KnownPluginList(savedTypes, savedBlacklist);
      new;
      InitialGraphWellFormed(recordAudioGranted);
      InitialGraphHasNoPlugins(recordAudioGranted);
    }

    /** graph.addNode: the node gets the next ID and goes last. */
    method AddNode(acceptsMidi: bool, producesMidi: bool) returns (id: NodeId)
      requires Valid()
      modifies this`nodes, this`lastNodeId
      ensures Valid()
      ensures id == old(lastNodeId) + 1 && lastNodeId == id
      ensures nodes == old(nodes) + [Node(id, acceptsMidi, producesMidi)]
    {
      lastNodeId := lastNodeId + 1;
      id := lastNodeId;
      ghost var was := nodes;
      nodes := nodes + [Node(id, acceptsMidi, producesMidi)];
      assert forall k :: 0 <= k < |was| ==> nodes[k] == was[k];
    }

    /** graph.removeNode: the node and every connection touching it go. */
    method RemoveNode(id: NodeId)
      requires Valid() && !IsFixed(fixed, id)
      modifies this`nodes, this`connections
      ensures Valid()
      ensures nodes == Filter(old(nodes), OtherThan(id))
      ensures connections == set c | c in old(connections) && c.srcId != id && c.dstId != id
    {
      var keep := OtherThan(id);
      ghost var was := nodes;
      nodes := Filter(nodes, keep);
      connections := set c | c in connections && c.srcId != id && c.dstId != id;
      FilterKeepsIncreasing(was, keep);
      forall k | 0 <= k < |nodes| ensures nodes[k].id <= lastNodeId {
        FilterMembership(was, keep, nodes[k]);
      }
      forall x: NodeId | InGraph(was, x) && x != id ensures InGraph(nodes, x) {
        var k :| 0 <= k < |was| && was[k].id == x;
        FilterMembership(was, keep, was[k]);
      }
    }

    /** graph.disconnectNode. */
    method DisconnectNode(id: NodeId)
      modifies this`connections
      ensures connections == set c | c in old(connections) && c.srcId != id && c.dstId != id
    {
      connections := set c | c in connections && c.srcId != id && c.dstId != id;
    }

    /** graph.addConnection, taken to record the connection. */
    method AddConnection(c: Connection)
      modifies this`connections
      ensures connections == old(connections) + {c}
    {
      connections := connections + {c};
    }

    /** getActivePlugins: the nodes that are none of the five fixed ones, in graph order. */
    method GetActivePlugins() returns (ret: seq<Node>)
      ensures ret == ActivePlugins(nodes, fixed)
    {
      ret := [];
      var i := 0;
      while i < |nodes|
        invariant 0 <= i <= |nodes|
        invariant ret == ActivePlugins(nodes[..i], fixed)
      {
        var node := nodes[i];
        assert nodes[..i + 1] == nodes[..i] + [node];
        FilterSnoc(nodes[..i], node, PluginNode(fixed));
        if (fixed.audioIn.None? || node.id != fixed.audioIn.value) &&
           node.id != fixed.audioOut && node.id != fixed.midiIn &&
           node.id != fixed.midiOut && node.id != fixed.player {
          ret := ret + [node];
        }
        i := i + 1;
      }
      assert nodes[..i] == nodes;
    }

    /** updateGraph: every node is disconnected, then the audio chain and the MIDI chain
        are connected anew, so the connections are exactly the wiring of the nodes. */
    method UpdateGraph()
      requires Valid()
      modifies this`connections
      ensures Valid()
      ensures connections == Wiring(nodes, fixed)
    {
      DisconnectAll();
      var plugins := CollectPlugins();
      ConnectAudio(plugins);
      ConnectMidi(plugins);
      forall c | c in connections ensures InGraph(nodes, c.srcId) && InGraph(nodes, c.dstId) {
        WiringInGraph(nodes, fixed, c);
      }
    }

    /** The first loop of updateGraph: afterwards no connection is left. */
    method DisconnectAll()
      requires Valid()
      modifies this`connections
      ensures connections == {}
    {
      ghost var initial := connections;
      var i := 0;
      while i < |nodes|
        invariant 0 <= i <= |nodes|
        invariant forall c :: c in connections ==>
                    c in initial && forall k :: 0 <= k < i ==> c.srcId != nodes[k].id && c.dstId != nodes[k].id
      {
        DisconnectNode(nodes[i].id);
        i := i + 1;
      }
    }

    /** The second loop of updateGraph: the nodes other than the I/O nodes and the audio player. */
    method CollectPlugins() returns (plugins: seq<Node>)
      ensures plugins == ActivePlugins(nodes, fixed)
    {
      plugins := [];
      var i := 0;
      while i < |nodes|
        invariant 0 <= i <= |nodes|
        invariant plugins == ActivePlugins(nodes[..i], fixed)
      {
        var node := nodes[i];
        assert nodes[..i + 1] == nodes[..i] + [node];
        FilterSnoc(nodes[..i], node, PluginNode(fixed));
        if !((fixed.audioIn.Some? && node.id == fixed.audioIn.value) ||
             node.id == fixed.audioOut || node.id == fixed.midiIn || node.id == fixed.midiOut) {
          if node.id != fixed.player {
            plugins := plugins + [node];
          }
        }
        i := i + 1;
      }
      assert nodes[..i] == nodes;
    }

    /** The audio loops of updateGraph: audio player, the plugins in order, then audio
        output, linked on channels 0 and 1. */
    method ConnectAudio(plugins: seq<Node>)
      requires connections == {}
      modifies this`connections
      ensures connections == StereoChain(AudioChain(fixed, plugins))
    {
      var prev := fixed.player;
      var i := 0;
      assert [fixed.player] + Ids(plugins[..0]) == [fixed.player];
      while i < |plugins|
        invariant 0 <= i <= |plugins|
        invariant prev == ([fixed.player] + Ids(plugins[..i]))[i]
        invariant connections == StereoChain([fixed.player] + Ids(plugins[..i]))
      {
        var node := plugins[i];
        ghost var chain := [fixed.player] + Ids(plugins[..i]);
        ghost var before := connections;
        for channel := 0 to 2
          invariant connections == before + ChannelLinks(prev, node.id, channel)
        {
          AddConnection(Connection(prev, channel, node.id, channel));
        }
        assert Ids(plugins[..i + 1]) == Ids(plugins[..i]) + [node.id];
        assert [fixed.player] + Ids(plugins[..i + 1]) == chain + [node.id];
        StereoChainSnoc(chain, node.id);
        prev := node.id;
        i := i + 1;
      }
      assert plugins[..i] == plugins;
      ghost var chain := [fixed.player] + Ids(plugins);
      ghost var before := connections;
      for channel := 0 to 2
        invariant connections == before + ChannelLinks(prev, fixed.audioOut, channel)
      {
        AddConnection(Connection(prev, channel, fixed.audioOut, channel));
      }
      StereoChainSnoc(chain, fixed.audioOut);
    }

    /** The MIDI loop of updateGraph: each plugin that accepts MIDI is fed by `prev`, which
        starts at midi input and moves to every plugin that produces MIDI. */
    method ConnectMidi(plugins: seq<Node>)
      modifies this`connections
      ensures connections == old(connections) + MidiLinks(fixed.midiIn, plugins)
    {
      var prev := fixed.midiIn;
      var i := 0;
      while i < |plugins|
        invariant 0 <= i <= |plugins|
        invariant prev == MidiFeed(fixed.midiIn, plugins[..i])
        invariant connections == old(connections) + MidiLinks(fixed.midiIn, plugins[..i])
      {
        var node := plugins[i];
        assert plugins[..i + 1][..i] == plugins[..i];
        if node.acceptsMidi {
          AddConnection(Connection(prev, MidiChannelIndex, node.id, MidiChannelIndex));
        }
        if node.producesMidi {
          prev := node.id;
        }
        i := i + 1;
      }
      assert plugins[..i] == plugins;
    }

    /** addActiveInstance: the instance becomes the last plugin and the graph is rewired. */
    method AddActiveInstance(acceptsMidi: bool, producesMidi: bool) returns (id: NodeId)
      requires Valid()
      modifies this`nodes, this`lastNodeId, this`connections
      ensures Valid()
      ensures id == old(lastNodeId) + 1 && lastNodeId == id
      ensures nodes == old(nodes) + [Node(id, acceptsMidi, producesMidi)]
      ensures ActivePlugins(nodes, fixed) == ActivePlugins(old(nodes), fixed) + [Node(id, acceptsMidi, producesMidi)]
      ensures connections == Wiring(nodes, fixed)
    {
      ghost var was := nodes;
      id := AddNode(acceptsMidi, producesMidi);
      AppendedNodeIsPlugin(was, fixed, Node(id, acceptsMidi, producesMidi));
      UpdateGraph();
    }

    /** removeActiveInstance: the instance leaves the graph and the graph is rewired. */
    method RemoveActiveInstance(id: NodeId)
      requires Valid() && !IsFixed(fixed, id)
      modifies this`nodes, this`connections
      ensures Valid()
      ensures nodes == Filter(old(nodes), OtherThan(id))
      ensures forall n :: n in ActivePlugins(nodes, fixed) <==> n in ActivePlugins(old(nodes), fixed) && n.id != id
      ensures connections == Wiring(nodes, fixed)
    {
      ghost var was := nodes;
      RemoveNode(id);
      ActivePluginsSpec(nodes, fixed);
      ActivePluginsSpec(was, fixed);
      forall n ensures n in nodes <==> n in was && n.id != id {
        FilterMembership(was, OtherThan(id), n);
      }
      UpdateGraph();
    }

    /** scanPlugins (rescanning variant): the known types of the format are removed, the
        candidate files are probed (a file that fails is blacklisted and the types it
        matches are dropped), and the descriptions of that format are added. */
    method ScanPlugins(format: PluginFormat, files: seq<Candidate>)
      modifies knownPluginList
      ensures knownPluginList.types ==
                Rescanned(old(knownPluginList.types), NewlyBlacklisted(old(knownPluginList.blacklist), files),
                          ProbeFiles(old(knownPluginList.blacklist), files).found, format.name)
      ensures knownPluginList.blacklist == ProbeFiles(old(knownPluginList.blacklist), files).blacklist
    {
      RemoveTypesOfFormat(knownPluginList, format);
      var pluginDescriptions := ProbeCandidates(knownPluginList, files);
      AddTypesOfFormat(knownPluginList, pluginDescriptions, format);
    }
  }
}
