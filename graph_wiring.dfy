/** The wiring rule of AppModel::updateGraph, stated on plain data: which connections the
    processing graph holds once it has been rewired. */
module GraphWiring {
  import opened Wrappers
  import opened Seqs

  /** AudioProcessorGraph::NodeID. */
  type NodeId = nat

  /** AudioProcessorGraph::midiChannelIndex, the channel number that stands for MIDI. */
  const MidiChannelIndex: int := 0x1000

  /** A graph node with the two flags of its processor that the wiring reads. */
  datatype Node = Node(id: NodeId, acceptsMidi: bool, producesMidi: bool)

  datatype Connection = Connection(srcId: NodeId, srcChannel: int, dstId: NodeId, dstChannel: int)

  /** The five nodes the model creates itself; audio input exists only when recording is permitted. */
  datatype FixedNodes = FixedNodes(
    audioIn: Option<NodeId>,
    audioOut: NodeId,
    midiIn: NodeId,
    midiOut: NodeId,
    player: NodeId)

  predicate IsAudioIn(f: FixedNodes, id: NodeId) {
    f.audioIn.Some? && f.audioIn.value == id
  }

  predicate IsFixed(f: FixedNodes, id: NodeId) {
    IsAudioIn(f, id) || id == f.audioOut || id == f.midiIn || id == f.midiOut || id == f.player
  }

  /** The fixed nodes are five (or four) different nodes. */
  predicate FixedDistinct(f: FixedNodes) {
    f.audioOut != f.midiIn && f.audioOut != f.midiOut && f.audioOut != f.player &&
    f.midiIn != f.midiOut && f.midiIn != f.player && f.midiOut != f.player &&
    !IsAudioIn(f, f.audioOut) && !IsAudioIn(f, f.midiIn) && !IsAudioIn(f, f.midiOut) && !IsAudioIn(f, f.player)
  }

  /** The graph keeps its nodes ordered by ID (IDs are handed out increasingly). */
  predicate IdsIncreasing(nodes: seq<Node>) {
    forall i, j :: 0 <= i < j < |nodes| ==> nodes[i].id < nodes[j].id
  }

  predicate InGraph(nodes: seq<Node>, id: NodeId) {
    exists k :: 0 <= k < |nodes| && nodes[k].id == id
  }

  /** Every fixed node is a node of the graph. */
  predicate FixedPresent(f: FixedNodes, nodes: seq<Node>) {
    (f.audioIn.Some? ==> InGraph(nodes, f.audioIn.value)) &&
    InGraph(nodes, f.audioOut) && InGraph(nodes, f.midiIn) && InGraph(nodes, f.midiOut) && InGraph(nodes, f.player)
  }

  /** The nodes that graph.removeNode(id) keeps. */
  function OtherThan(id: NodeId): Node -> bool {
    (n: Node) => n.id != id
  }

  function PluginNode(f: FixedNodes): Node -> bool {
    (n: Node) => !IsFixed(f, n.id)
  }

  /** getActivePlugins, and the `plugins` array updateGraph builds: the nodes that are
      none of the fixed ones, in graph order. */
  function ActivePlugins(nodes: seq<Node>, f: FixedNodes): seq<Node> {
    Filter(nodes, PluginNode(f))
  }

  function Ids(ps: seq<Node>): seq<NodeId> {
    seq(|ps|, k requires 0 <= k < |ps| => ps[k].id)
  }

  /** The connections on channels 0 .. n-1 from src to the same channel of dst. */
  function ChannelLinks(src: NodeId, dst: NodeId, n: nat): set<Connection> {
    if n == 0 then {} else ChannelLinks(src, dst, n - 1) + {Connection(src, n - 1, dst, n - 1)}
  }

  /** A stereo link: channel 0 to 0 and 1 to 1. */
  function Stereo(src: NodeId, dst: NodeId): set<Connection> {
    ChannelLinks(src, dst, 2)
  }

  /** Stereo links between every two consecutive nodes of `chain`. */
  function StereoChain(chain: seq<NodeId>): set<Connection>
    decreases |chain|
  {
    if |chain| < 2 then {}
    else StereoChain(chain[..|chain| - 1]) + Stereo(chain[|chain| - 2], chain[|chain| - 1])
  }

  /** The audio path: the audio player, every plugin in order, then audio output. */
  function AudioChain(f: FixedNodes, plugins: seq<Node>): seq<NodeId> {
    [f.player] + Ids(plugins) + [f.audioOut]
  }

  function MidiLink(src: NodeId, dst: NodeId): Connection {
    Connection(src, MidiChannelIndex, dst, MidiChannelIndex)
  }

  /** The value of `prev` in the MIDI loop once it has walked over `ps`: the last MIDI
      producer among them, or midi input. */
  function MidiFeed(midiIn: NodeId, ps: seq<Node>): NodeId
    decreases |ps|
  {
    if ps == [] then midiIn
    else if ps[|ps| - 1].producesMidi then ps[|ps| - 1].id
    else MidiFeed(midiIn, ps[..|ps| - 1])
  }

  /** The MIDI connections the MIDI loop adds while walking over `ps`. */
  function MidiLinks(midiIn: NodeId, ps: seq<Node>): set<Connection>
    decreases |ps|
  {
    if ps == [] then {}
    else
      var init := ps[..|ps| - 1];
      var node := ps[|ps| - 1];
      MidiLinks(midiIn, init) + (if node.acceptsMidi then {MidiLink(MidiFeed(midiIn, init), node.id)} else {})
  }

  /** The connections of the graph after updateGraph. */
  function Wiring(nodes: seq<Node>, f: FixedNodes): set<Connection> {
    var plugins := ActivePlugins(nodes, f);
    StereoChain(AudioChain(f, plugins)) + MidiLinks(f.midiIn, plugins)
  }

  lemma StereoMembership(src: NodeId, dst: NodeId, c: Connection)
    ensures c in Stereo(src, dst) <==>
              c.srcId == src && c.dstId == dst && c.srcChannel == c.dstChannel && 0 <= c.srcChannel < 2
  {
    assert ChannelLinks(src, dst, 1) == {Connection(src, 0, dst, 0)};
    assert Stereo(src, dst) == {Connection(src, 0, dst, 0), Connection(src, 1, dst, 1)};
  }

  /** The audio links are exactly the stereo links between consecutive nodes of the chain. */
  lemma {:induction false} StereoChainMembership(chain: seq<NodeId>, c: Connection)
    ensures c in StereoChain(chain) <==>
              c.srcChannel == c.dstChannel && 0 <= c.srcChannel < 2 &&
              exists k :: 0 <= k < |chain| - 1 && chain[k] == c.srcId && chain[k + 1] == c.dstId
    decreases |chain|
  {
    if |chain| >= 2 {
      var init := chain[..|chain| - 1];
      StereoChainMembership(init, c);
      StereoMembership(chain[|chain| - 2], chain[|chain| - 1], c);
      if exists k :: 0 <= k < |chain| - 1 && chain[k] == c.srcId && chain[k + 1] == c.dstId {
        var k :| 0 <= k < |chain| - 1 && chain[k] == c.srcId && chain[k + 1] == c.dstId;
        if k < |chain| - 2 {
          assert init[k] == c.srcId && init[k + 1] == c.dstId;
        }
      }
      if exists k :: 0 <= k < |init| - 1 && init[k] == c.srcId && init[k + 1] == c.dstId {
        var k :| 0 <= k < |init| - 1 && init[k] == c.srcId && init[k + 1] == c.dstId;
        assert chain[k] == c.srcId && chain[k + 1] == c.dstId;
      }
    }
  }

  /** A node appended with an ID above every present one is none of the fixed nodes, so it
      becomes the last active plugin. */
  lemma AppendedNodeIsPlugin(nodes: seq<Node>, f: FixedNodes, n: Node)
    requires FixedPresent(f, nodes)
    requires forall k :: 0 <= k < |nodes| ==> nodes[k].id < n.id
    ensures ActivePlugins(nodes + [n], f) == ActivePlugins(nodes, f) + [n]
  {
    assert !IsFixed(f, n.id);
    FilterSnoc(nodes, n, PluginNode(f));
  }

  /** getActivePlugins returns exactly the nodes that are none of the fixed ones, and keeps
      them in graph order. */
  lemma ActivePluginsSpec(nodes: seq<Node>, f: FixedNodes)
    ensures forall n :: n in ActivePlugins(nodes, f) <==> n in nodes && !IsFixed(f, n.id)
    ensures IdsIncreasing(nodes) ==> IdsIncreasing(ActivePlugins(nodes, f))
  {
    forall n ensures n in ActivePlugins(nodes, f) <==> n in nodes && !IsFixed(f, n.id) {
      FilterMembership(nodes, PluginNode(f), n);
    }
    if IdsIncreasing(nodes) {
      FilterKeepsIncreasing(nodes, PluginNode(f));
    }
  }

  lemma FilterKeepsIncreasing(nodes: seq<Node>, p: Node -> bool)
    requires IdsIncreasing(nodes)
    ensures IdsIncreasing(Filter(nodes, p))
  {
    var before := (a: Node, b: Node) => a.id < b.id;
    assert Pairwise(nodes, before);
    FilterKeepsPairwise(nodes, p, before);
  }

  /** The MIDI links are, for each plugin that accepts MIDI, one link from the value `prev`
      has when the loop reaches it. */
  lemma {:induction false} MidiLinksMembership(midiIn: NodeId, ps: seq<Node>, c: Connection)
    ensures c in MidiLinks(midiIn, ps) <==>
              exists i :: 0 <= i < |ps| && ps[i].acceptsMidi && c == MidiLink(MidiFeed(midiIn, ps[..i]), ps[i].id)
    decreases |ps|
  {
    if ps != [] {
      var n := |ps| - 1;
      var init := ps[..n];
      MidiLinksMembership(midiIn, init, c);
      forall i | 0 <= i < n ensures ps[..i] == init[..i] && ps[i] == init[i] {
      }
      var last := if ps[n].acceptsMidi then {MidiLink(MidiFeed(midiIn, init), ps[n].id)} else {};
      assert MidiLinks(midiIn, ps) == MidiLinks(midiIn, init) + last;
      assert c in last <==> ps[n].acceptsMidi && c == MidiLink(MidiFeed(midiIn, ps[..n]), ps[n].id);
    }
  }

  /** `prev` is the nearest MIDI producer met so far, or midi input if there is none;
      it advances only on producers. */
  lemma {:induction false} MidiFeedNearest(midiIn: NodeId, ps: seq<Node>)
    ensures (MidiFeed(midiIn, ps) == midiIn && forall j :: 0 <= j < |ps| ==> !ps[j].producesMidi) ||
            (exists j :: 0 <= j < |ps| && ps[j].producesMidi && MidiFeed(midiIn, ps) == ps[j].id &&
                         forall k :: j < k < |ps| ==> !ps[k].producesMidi)
    decreases |ps|
  {
    if ps != [] && !ps[|ps| - 1].producesMidi {
      var init := ps[..|ps| - 1];
      MidiFeedNearest(midiIn, init);
      if exists j :: 0 <= j < |init| && init[j].producesMidi && MidiFeed(midiIn, init) == init[j].id &&
                     forall k :: j < k < |init| ==> !init[k].producesMidi {
        var j :| 0 <= j < |init| && init[j].producesMidi && MidiFeed(midiIn, init) == init[j].id &&
                 forall k :: j < k < |init| ==> !init[k].producesMidi;
        assert ps[j] == init[j];
        assert forall k :: j < k < |ps| ==> !ps[k].producesMidi by {
          forall k | j < k < |ps| ensures !ps[k].producesMidi {
            if k < |init| { assert ps[k] == init[k]; }
          }
        }
      }
    }
  }

  /** Every audio connection joins equal channels 0 or 1, every MIDI connection joins the
      MIDI channel on both ends, and the MIDI connections are the MIDI loop's links. */
  lemma WiringChannels(nodes: seq<Node>, f: FixedNodes, c: Connection)
    requires c in Wiring(nodes, f)
    ensures c.srcChannel == c.dstChannel
    ensures c.srcChannel == 0 || c.srcChannel == 1 || c.srcChannel == MidiChannelIndex
    ensures c.dstChannel == MidiChannelIndex <==> c in MidiLinks(f.midiIn, ActivePlugins(nodes, f))
  {
    var ps := ActivePlugins(nodes, f);
    StereoChainMembership(AudioChain(f, ps), c);
    MidiLinksMembership(f.midiIn, ps, c);
  }

  /** The audio connections are exactly the stereo links between consecutive members of
      [audio player] + plugins + [audio out]. */
  lemma AudioWiring(nodes: seq<Node>, f: FixedNodes, c: Connection)
    ensures (c in Wiring(nodes, f) && c.dstChannel != MidiChannelIndex) <==>
              (c.srcChannel == c.dstChannel && 0 <= c.srcChannel < 2 &&
               exists k :: 0 <= k < |AudioChain(f, ActivePlugins(nodes, f))| - 1 &&
                           AudioChain(f, ActivePlugins(nodes, f))[k] == c.srcId &&
                           AudioChain(f, ActivePlugins(nodes, f))[k + 1] == c.dstId)
  {
    var ps := ActivePlugins(nodes, f);
    StereoChainMembership(AudioChain(f, ps), c);
    MidiLinksMembership(f.midiIn, ps, c);
  }

  /** A plugin that accepts MIDI receives exactly one MIDI connection, from the nearest
      preceding MIDI producer or from midi input; a plugin that does not accept MIDI
      receives none. */
  lemma PluginMidiInput(nodes: seq<Node>, f: FixedNodes, i: nat, c: Connection)
    requires IdsIncreasing(nodes) && i < |ActivePlugins(nodes, f)|
    ensures (c in Wiring(nodes, f) && c.dstId == ActivePlugins(nodes, f)[i].id && c.dstChannel == MidiChannelIndex) <==>
              (ActivePlugins(nodes, f)[i].acceptsMidi &&
               c == MidiLink(MidiFeed(f.midiIn, ActivePlugins(nodes, f)[..i]), ActivePlugins(nodes, f)[i].id))
  {
    var ps := ActivePlugins(nodes, f);
    ActivePluginsSpec(nodes, f);
    StereoChainMembership(AudioChain(f, ps), c);
    MidiLinksMembership(f.midiIn, ps, c);
    if c in MidiLinks(f.midiIn, ps) && c.dstId == ps[i].id {
      var j :| 0 <= j < |ps| && ps[j].acceptsMidi && c == MidiLink(MidiFeed(f.midiIn, ps[..j]), ps[j].id);
      assert j == i;
    }
  }

  /** Every connection leaves the audio player, midi input or a plugin, and enters audio
      output or a plugin. */
  lemma WiringEndpoints(nodes: seq<Node>, f: FixedNodes, c: Connection)
    requires c in Wiring(nodes, f)
    ensures c.srcId == f.player || c.srcId == f.midiIn || c.srcId in Ids(ActivePlugins(nodes, f))
    ensures c.dstId == f.audioOut || c.dstId in Ids(ActivePlugins(nodes, f))
  {
    var ps := ActivePlugins(nodes, f);
    var chain := AudioChain(f, ps);
    StereoChainMembership(chain, c);
    MidiLinksMembership(f.midiIn, ps, c);
    if c in StereoChain(chain) {
      var k :| 0 <= k < |chain| - 1 && chain[k] == c.srcId && chain[k + 1] == c.dstId;
      if k > 0 { assert chain[k] == Ids(ps)[k - 1]; }
      if k + 1 < |chain| - 1 { assert chain[k + 1] == Ids(ps)[k]; }
    } else {
      var i :| 0 <= i < |ps| && ps[i].acceptsMidi && c == MidiLink(MidiFeed(f.midiIn, ps[..i]), ps[i].id);
      assert Ids(ps)[i] == c.dstId;
      MidiFeedNearest(f.midiIn, ps[..i]);
      if MidiFeed(f.midiIn, ps[..i]) != f.midiIn {
        var j :| 0 <= j < i && ps[..i][j].producesMidi && MidiFeed(f.midiIn, ps[..i]) == ps[..i][j].id;
        assert Ids(ps)[j] == c.srcId;
      }
    }
  }

  /** Audio input is left unconnected and nothing is connected to or from midi output. */
  lemma AudioInAndMidiOutUnused(nodes: seq<Node>, f: FixedNodes, c: Connection)
    requires FixedDistinct(f) && c in Wiring(nodes, f)
    ensures !IsAudioIn(f, c.srcId) && !IsAudioIn(f, c.dstId)
    ensures c.srcId != f.midiOut && c.dstId != f.midiOut
  {
    var ps := ActivePlugins(nodes, f);
    WiringEndpoints(nodes, f, c);
    ActivePluginsSpec(nodes, f);
    if c.srcId in Ids(ps) {
      var k :| 0 <= k < |ps| && Ids(ps)[k] == c.srcId;
      assert ps[k] in ps;
    }
    if c.dstId in Ids(ps) {
      var k :| 0 <= k < |ps| && Ids(ps)[k] == c.dstId;
      assert ps[k] in ps;
    }
  }

  /** The last member of the audio chain (the audio player when there is no plugin) feeds
      audio output on channels 0 and 1, and nothing else feeds it. */
  lemma AudioOutputFeed(nodes: seq<Node>, f: FixedNodes, c: Connection)
    requires FixedDistinct(f)
    ensures (c in Wiring(nodes, f) && c.dstId == f.audioOut) <==>
              c in Stereo(if ActivePlugins(nodes, f) == [] then f.player
                          else ActivePlugins(nodes, f)[|ActivePlugins(nodes, f)| - 1].id, f.audioOut)
  {
    var ps := ActivePlugins(nodes, f);
    var chain := AudioChain(f, ps);
    var n := |chain|;
    ActivePluginsSpec(nodes, f);
    assert chain[n - 2] == if ps == [] then f.player else ps[|ps| - 1].id;
    assert chain[n - 1] == f.audioOut;
    StereoChainMembership(chain, c);
    StereoMembership(chain[n - 2], chain[n - 1], c);
    MidiLinksMembership(f.midiIn, ps, c);
  }

  /** One pass of the audio loop: extending the chain by one node adds its stereo link. */
  lemma StereoChainSnoc(chain: seq<NodeId>, x: NodeId)
    requires chain != []
    ensures StereoChain(chain + [x]) == StereoChain(chain) + Stereo(chain[|chain| - 1], x)
  {
    assert (chain + [x])[..|chain|] == chain;
  }

  /** Rewiring connects only nodes of the graph. */
  lemma WiringInGraph(nodes: seq<Node>, f: FixedNodes, c: Connection)
    requires FixedPresent(f, nodes) && c in Wiring(nodes, f)
    ensures InGraph(nodes, c.srcId) && InGraph(nodes, c.dstId)
  {
    var ps := ActivePlugins(nodes, f);
    WiringEndpoints(nodes, f, c);
    ActivePluginsSpec(nodes, f);
    if c.srcId in Ids(ps) {
      var k :| 0 <= k < |ps| && Ids(ps)[k] == c.srcId;
      assert ps[k] in nodes;
    }
    if c.dstId in Ids(ps) {
      var k :| 0 <= k < |ps| && Ids(ps)[k] == c.dstId;
      assert ps[k] in nodes;
    }
  }
}
