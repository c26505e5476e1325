/** A node's output port: its bus, its enabled flag and the duplicate-free
    list of input ports it feeds (src/impl/core/AudioNodeOutput.js). The
    calls the port makes on those inputs (and on its own node) are recorded,
    in order, in a ghost sequence of notices. */
module NodeOutput {
  import opened JsNumbers

  /** An audio node, compared by identity. */
  type NodeId = int

  /** A rendering quantum handed to pull (the source passes an event object). */
  type BlockId = nat

  /** An AudioNodeInput, identified by its owning node and its index.
      `destination.getInput(i)` returns one fixed object per (node, i), so
      equal handles stand for the same object. */
  datatype InputRef = InputRef(node: NodeId, index: int)

  /** The argument forms of disconnect and isConnectedTo. `Everything` is any
      argument count other than one or two. */
  datatype Filter = Everything | ByNode(node: NodeId) | ByNodeAndIndex(node: NodeId, index: int)

  /** Whether a connected input is selected by the filter. */
  predicate Matches(f: Filter, t: InputRef)
    // with no arguments every input is selected; otherwise only inputs of the given node
    ensures f.Everything? ==> Matches(f, t)
    ensures Matches(f, t) && !f.Everything? ==> t.node == f.node
    // the two-argument form also requires the input index
    ensures f.ByNodeAndIndex? && Matches(f, t) ==> t.index == f.index
  {
    match f
    case Everything => true
    case ByNode(n) => t.node == n
    case ByNodeAndIndex(n, i) => t.node == n && t.index == i
  }

  /** Methods of AudioNodeInput that the output calls. */
  datatype InputCall = ConnectFrom | DisconnectFrom | EnableFrom | DisableFrom | UpdateNumberOfChannels

  /** One call made by the output: on a connected input, or processIfNecessary on its node. */
  datatype Notice = ToInput(call: InputCall, input: InputRef) | ProcessIfNecessary(node: NodeId, block: BlockId)

  predicate NoDuplicates<T(==)>(s: seq<T>) {
    forall i, j :: 0 <= i < j < |s| ==> s[i] != s[j]
  }

  function Elements<T>(s: seq<T>): set<T> {
    set t | t in s
  }

  /** The distinct elements of a duplicate-free list are as many as its entries. */
  lemma {:induction false} DistinctCount<T>(s: seq<T>)
    requires NoDuplicates(s)
    ensures |Elements(s)| == |s|
  {
    if s != [] {
      DistinctCount(s[1..]);
      assert Elements(s) == {s[0]} + Elements(s[1..]);
      assert s[0] !in Elements(s[1..]);
    }
  }

  /** Array.prototype.some over the connected inputs with a filter. */
  function AnyMatch(s: seq<InputRef>, f: Filter): (r: bool)
    ensures r <==> exists t :: t in s && Matches(f, t)
  {
    if s == [] then false else Matches(f, s[0]) || AnyMatch(s[1..], f)
  }

  /** The inputs a disconnect with filter f leaves connected, in their original order. */
  function Keep(s: seq<InputRef>, f: Filter): (r: seq<InputRef>)
    ensures |r| <= |s|
    ensures forall i :: 0 <= i < |r| ==> !Matches(f, r[i])
  {
    if s == [] then [] else (if Matches(f, s[0]) then [] else [s[0]]) + Keep(s[1..], f)
  }

  /** A disconnect leaves connected exactly the inputs the filter does not select. */
  lemma {:induction false} KeepMembers(s: seq<InputRef>, f: Filter)
    ensures forall t :: t in Keep(s, f) <==> t in s && !Matches(f, t)
  {
    if s != [] {
      KeepMembers(s[1..], f);
    }
  }

  /** Keep distributes over concatenation: it keeps the relative order of what it keeps. */
  lemma {:induction false} KeepAppend(a: seq<InputRef>, b: seq<InputRef>, f: Filter)
    ensures Keep(a + b, f) == Keep(a, f) + Keep(b, f)
  {
    if a == [] {
      assert a + b == b;
    } else {
      assert (a + b)[0] == a[0];
      assert (a + b)[1..] == a[1..] + b;
      KeepAppend(a[1..], b, f);
    }
  }

  /** A list none of whose entries match is kept whole. */
  lemma {:induction false} KeepNone(s: seq<InputRef>, f: Filter)
    requires forall t :: t in s ==> !Matches(f, t)
    ensures Keep(s, f) == s
  {
    if s != [] {
      KeepNone(s[1..], f);
    }
  }

  /** One step of disconnect's reverse scan, at position i of the original list. */
  lemma ScanStep(s: seq<InputRef>, i: nat, f: Filter)
    requires i < |s|
    ensures var rest := s[..i + 1] + Keep(s[i + 1..], f);
      rest[i] == s[i] &&
      (Matches(f, s[i]) ==> rest[..i] + rest[i + 1..] == s[..i] + Keep(s[i..], f)) &&
      (!Matches(f, s[i]) ==> rest == s[..i] + Keep(s[i..], f))
  {
    assert s[i..][1..] == s[i + 1..];
    var later := Keep(s[i + 1..], f);
    assert Keep(s[i..], f) == (if Matches(f, s[i]) then [] else [s[i]]) + later;
    assert s[..i + 1] == s[..i] + [s[i]];
    var rest := s[..i] + [s[i]] + later;
    assert rest[..i] == s[..i] && rest[i + 1..] == later;
  }

  /** The notice of that step follows those of the later positions. */
  lemma ScanNotice(s: seq<InputRef>, i: nat, f: Filter)
    requires i < |s|
    ensures DisconnectNotices(s[i..], f) == DisconnectNotices(s[i + 1..], f) +
      if Matches(f, s[i]) then [ToInput(DisconnectFrom, s[i])] else []
  {
    assert s[i..][1..] == s[i + 1..];
  }

  lemma {:induction false} KeepNoDuplicates(s: seq<InputRef>, f: Filter)
    requires NoDuplicates(s)
    ensures NoDuplicates(Keep(s, f))
  {
    if s != [] {
      KeepNoDuplicates(s[1..], f);
      KeepMembers(s[1..], f);
      assert s[0] !in s[1..];
    }
  }

  /** The disconnectFrom calls of a disconnect with filter f: the reverse scan
      visits the list from its last entry to its first. */
  function DisconnectNotices(s: seq<InputRef>, f: Filter): (r: seq<Notice>)
    // each notice is a disconnectFrom to an input the filter selects
    ensures |r| <= |s|
    ensures forall i :: 0 <= i < |r| ==> r[i].ToInput? && r[i].call == DisconnectFrom && Matches(f, r[i].input)
  {
    if s == [] then []
    else DisconnectNotices(s[1..], f) + (if Matches(f, s[0]) then [ToInput(DisconnectFrom, s[0])] else [])
  }

  /** A disconnect makes one call for each input it removes. */
  lemma {:induction false} DisconnectNoticesCount(s: seq<InputRef>, f: Filter)
    ensures |DisconnectNotices(s, f)| + |Keep(s, f)| == |s|
  {
    if s != [] {
      DisconnectNoticesCount(s[1..], f);
    }
  }

  /** Every removed input receives exactly one disconnectFrom, and nothing else
      is notified. */
  lemma {:induction false} DisconnectNoticesOnce(s: seq<InputRef>, f: Filter, n: Notice)
    requires NoDuplicates(s)
    ensures multiset(DisconnectNotices(s, f))[n] ==
      if n.ToInput? && n.call == DisconnectFrom && n.input in s && Matches(f, n.input) then 1 else 0
  {
    if s != [] {
      DisconnectNoticesOnce(s[1..], f, n);
      assert s[0] !in s[1..];
    }
  }

  /** A forEach over the connected inputs, making the same call on each, front to back. */
  function Broadcast(call: InputCall, s: seq<InputRef>): (r: seq<Notice>)
    ensures |r| == |s| && forall i :: 0 <= i < |s| ==> r[i] == ToInput(call, s[i])
  {
    if s == [] then [] else [ToInput(call, s[0])] + Broadcast(call, s[1..])
  }

  /** A broadcast reaches every connected input exactly once and nothing else. */
  lemma {:induction false} BroadcastOnce(call: InputCall, s: seq<InputRef>, n: Notice)
    requires NoDuplicates(s)
    ensures multiset(Broadcast(call, s))[n] == if n.ToInput? && n.call == call && n.input in s then 1 else 0
  {
    if s != [] {
      BroadcastOnce(call, s[1..], n);
      assert s[0] !in s[1..];
    }
  }

  /** Array.prototype.indexOf: the first position of t in s, or -1. */
  method IndexOf(s: seq<InputRef>, t: InputRef) returns (k: int)
    ensures -1 <= k < |s|
    ensures k == -1 <==> t !in s
    ensures k >= 0 ==> s[k] == t && t !in s[..k]
  {
    k := 0;
    while k < |s|
      invariant 0 <= k <= |s|
      invariant t !in s[..k]
    {
      if s[k] == t {
        return;
      }
      k := k + 1;
    }
    assert s[..k] == s;
    k := -1;
  }

  /** The part of AudioBus this port relies on: its channel count. Mixing,
      sample contents and zeros() are not modelled. */
  class AudioBus {
    var numberOfChannels: nat

    constructor (numberOfChannels: nat)
      ensures this.numberOfChannels == numberOfChannels
    {
      this.numberOfChannels := numberOfChannels;
    }
  }

  class AudioNodeOutput {
    const node: NodeId
    const index: int
    const bus: AudioBus
    /** `_inputs`: the connected input ports, in connection order. */
    var inputs: seq<InputRef>
    var enabled: bool
    /** The calls made on connected inputs and on the owning node so far. */
    ghost var notices: seq<Notice>

    /** The connection list never holds the same input twice. */
    ghost predicate Valid()
      reads this
    {
      NoDuplicates(inputs)
    }

    /** The set of inputs this port feeds. */
    ghost function Targets(): set<InputRef>
      reads this
    {
      Elements(inputs)
    }

    /** `index|0` and `!!enabled` (the flag arrives as its truthiness); a new
        port feeds nothing. */
    constructor (node: NodeId, index: int, numberOfChannels: nat, enabled: bool)
      ensures Valid() && fresh(bus)
      ensures this.node == node && this.index == ToInt32(index) && this.enabled == enabled
      ensures bus.numberOfChannels == numberOfChannels
      ensures inputs == [] && notices == []
    {
      this.node := node;
      this.index := ToInt32(index);
      this.bus := new AudioBus(numberOfChannels);
      this.inputs := [];
      this.enabled := enabled;
      this.notices := [];
    }

    function GetAudioBus(): AudioBus { bus }

    function GetNumberOfChannels(): nat reads bus { bus.numberOfChannels }

    function IsEnabled(): bool reads this { enabled }

    /** getNumberOfConnections: the number of distinct inputs fed. */
    function GetNumberOfConnections(): (r: nat)
      reads this
      requires Valid()
      ensures r == |Targets()|
    {
      DistinctCount(inputs);
      |inputs|
    }

    /** isConnectedTo: some connected input matches a one- or two-argument
        filter; any other argument count answers false. */
    function IsConnectedTo(f: Filter): (r: bool)
      reads this
      ensures r <==> !f.Everything? && exists t :: t in Targets() && Matches(f, t)
    {
      if f.Everything? then false else AnyMatch(inputs, f)
    }

    /** setNumberOfChannels: a change of channel count resizes the bus and asks
        every connected input to recompute its own count, once each. */
    method SetNumberOfChannels(numberOfChannels: nat)
      requires Valid()
      modifies this, bus
      ensures Valid() && inputs == old(inputs) && enabled == old(enabled)
      ensures bus.numberOfChannels == numberOfChannels
      ensures notices == if numberOfChannels == old(bus.numberOfChannels) then old(notices)
                         else old(notices) + Broadcast(UpdateNumberOfChannels, inputs)
    {
      if numberOfChannels != bus.numberOfChannels {
        bus.numberOfChannels := numberOfChannels;
        notices := notices + Broadcast(UpdateNumberOfChannels, inputs);
      }
    }

    /** enable: only a change of state flips the flag and notifies each input. */
    method Enable()
      requires Valid()
      modifies this
      ensures Valid() && enabled && inputs == old(inputs)
      ensures notices == if old(enabled) then old(notices) else old(notices) + Broadcast(EnableFrom, inputs)
    {
      if !enabled {
        enabled := true;
        notices := notices + Broadcast(EnableFrom, inputs);
      }
    }

    /** disable: only a change of state flips the flag and notifies each input. */
    method Disable()
      requires Valid()
      modifies this
      ensures Valid() && !enabled && inputs == old(inputs)
      ensures notices == if old(enabled) then old(notices) + Broadcast(DisableFrom, inputs) else old(notices)
    {
      if enabled {
        enabled := false;
        notices := notices + Broadcast(DisableFrom, inputs);
      }
    }

    /** connect: add the edge to input `input` of `destination` unless it is
        already there; only a new edge is announced to the input. */
    method Connect(destination: NodeId, input: int)
      requires Valid()
      modifies this
      ensures Valid() && enabled == old(enabled)
      ensures Targets() == old(Targets()) + {InputRef(destination, input)}
      ensures IsConnectedTo(ByNodeAndIndex(destination, input))
      ensures var target := InputRef(destination, input);
        if target in old(inputs) then inputs == old(inputs) && notices == old(notices)
        else inputs == old(inputs) + [target] && notices == old(notices) + [ToInput(ConnectFrom, target)]
    {
      var target := InputRef(destination, input);
      var k := IndexOf(inputs, target);
      if k == -1 {
        inputs := inputs + [target];
        notices := notices + [ToInput(ConnectFrom, target)];
      }
      assert target in inputs;
    }

    /** disconnect: scan from the last input to the first, removing each one
        the filter selects and telling it so. */
    method Disconnect(f: Filter)
      requires Valid()
      modifies this
      ensures Valid() && enabled == old(enabled)
      ensures inputs == Keep(old(inputs), f)
      ensures forall t :: t in Targets() <==> t in old(Targets()) && !Matches(f, t)
      ensures !IsConnectedTo(f)
      ensures notices == old(notices) + DisconnectNotices(old(inputs), f)
    {
      ghost var s := inputs;
      var i := |inputs| - 1;
      while i >= 0
        invariant -1 <= i < |s|
        invariant enabled == old(enabled)
        invariant inputs == s[..i + 1] + Keep(s[i + 1..], f)
        invariant notices == old(notices) + DisconnectNotices(s[i + 1..], f)
      {
        ScanStep(s, i, f);
        ScanNotice(s, i, f);
        var target := inputs[i];
        if Matches(f, target) {
          notices := notices + [ToInput(DisconnectFrom, target)];
          inputs := inputs[..i] + inputs[i + 1..];
        }
        i := i - 1;
      }
      assert s[..0] == [] && s[0..] == s;
      assert inputs == Keep(s, f);
      KeepNoDuplicates(s, f);
      KeepMembers(s, f);
      assert !f.Everything? ==> !AnyMatch(inputs, f);
    }

    /** pull: have the owning node process the block if it has not yet, then
        hand out this port's bus. */
    method Pull(block: BlockId) returns (b: AudioBus)
      modifies this
      ensures b == bus && inputs == old(inputs) && enabled == old(enabled)
      ensures notices == old(notices) + [ProcessIfNecessary(node, block)]
    {
      notices := notices + [ProcessIfNecessary(node, block)];
      b := bus;
    }
  }
}
