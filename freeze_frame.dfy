/** The Batch action that adds a Mux node after the current node and freezes
    the current frame: picking the first free context slot, placing and
    configuring the Mux, and choosing the output socket that feeds its matte
    input. The Batch schematic is an input; node creation and connection are
    recorded as values. */
module FreezeFrame {
  import opened Py

  const FirstContextSlot: int := 1
  const LastContextSlot: int := 10

  // ---------------------------------------------------------------- get_context

  /** The first slot from `k` to the last one that `contexts` has no entry for. */
  function FreeSlotFrom(contexts: set<int>, k: int): (r: Option<int>)
    requires FirstContextSlot <= k
    ensures r.Some? ==> k <= r.value <= LastContextSlot && r.value !in contexts
    ensures r.Some? ==> forall j :: k <= j < r.value ==> j in contexts
    ensures r.None? <==> forall j :: k <= j <= LastContextSlot ==> j in contexts
    decreases LastContextSlot - k
  {
    if k > LastContextSlot then None
    else if k !in contexts then Some(k)
    else FreeSlotFrom(contexts, k + 1)
  }

  /** `get_context`: the slots the Batch group's context views already use are
      the keys of `contexts`. */
  method GetContext(contexts: set<int>) returns (r: Option<int>)
    ensures r == FreeSlotFrom(contexts, FirstContextSlot)
  {
    var context := FirstContextSlot;
    while context <= LastContextSlot
      invariant FirstContextSlot <= context <= LastContextSlot + 1
      invariant FreeSlotFrom(contexts, context) == FreeSlotFrom(contexts, FirstContextSlot)
      decreases LastContextSlot - context
    {
      if context !in contexts {
        return Some(context);
      }
      context := context + 1;
    }
    return None;
  }

  /** Once the slot found is taken, the next search finds a later slot, or none. */
  lemma {:induction false} NextSlotLater(contexts: set<int>, k: int)
    requires FirstContextSlot <= k
    requires FreeSlotFrom(contexts, k).Some?
    ensures var c := FreeSlotFrom(contexts, k).value;
            FreeSlotFrom(contexts + {c}, k).None? || FreeSlotFrom(contexts + {c}, k).value > c
    decreases LastContextSlot - k
  {
    var c := FreeSlotFrom(contexts, k).value;
    if k < c {
      NextSlotLater(contexts, k + 1);
    }
  }

  // ---------------------------------------------------------------- scope_node

  /** A selected object: a Batch node or anything else. */
  datatype Selected = Selected(isNode: bool)

  /** `scope_node`: true iff some selected item is a node. */
  function ScopeNode(selection: seq<Selected>): (r: bool)
    ensures r <==> exists i :: 0 <= i < |selection| && selection[i].isNode
  {
    if |selection| == 0 then false
    else if selection[0].isNode then true
    else
      var r := ScopeNode(selection[1..]);
      assert forall i :: 1 <= i < |selection| ==> selection[i] == selection[1..][i - 1];
      r
  }

  // ---------------------------------------------------------------- matte socket

  /** An output socket that carries a matte: its lower-cased name mentions
      "matte" or "alpha". */
  predicate IsMatte(socket: string) {
    Contains(Lower(socket), "matte") || Contains(Lower(socket), "alpha")
  }

  /** The first matte socket at or after index k, never looking at socket 0. */
  function MatteFrom(sockets: seq<string>, k: nat): (r: Option<nat>)
    ensures r.Some? ==> 1 <= r.value < |sockets| && k <= r.value && IsMatte(sockets[r.value])
    ensures r.Some? ==> forall j :: 1 <= j < r.value && k <= j ==> !IsMatte(sockets[j])
    ensures r.None? <==> forall j :: 1 <= j < |sockets| && k <= j ==> !IsMatte(sockets[j])
    decreases |sockets| - k
  {
    if k >= |sockets| then None
    else if k > 0 && IsMatte(sockets[k]) then Some(k)
    else MatteFrom(sockets, k + 1)
  }

  /** The socket loop: a counter that skips socket 0 and a `break` at the first
      matte socket. */
  method MatteSocket(sockets: seq<string>) returns (r: Option<nat>)
    ensures r == MatteFrom(sockets, 0)
  {
    var socketNumber := 0;
    r := None;
    while socketNumber < |sockets|
      invariant 0 <= socketNumber <= |sockets|
      invariant MatteFrom(sockets, socketNumber) == MatteFrom(sockets, 0)
    {
      if socketNumber > 0 {
        if IsMatte(sockets[socketNumber]) {
          r := Some(socketNumber);
          break;
        }
      }
      socketNumber := socketNumber + 1;
    }
  }

  // ---------------------------------------------------------------- add_mux_and_freeze

  /** The current node as the action sees it. */
  datatype Node = Node(name: string, posX: int, posY: int, outputSockets: seq<string>)

  /** `connect_nodes(current, fromSocket, mux, toSocket)` */
  datatype Link = Link(fromSocket: string, toSocket: string)

  /** The Mux node's attributes the action sets. */
  class Mux {
    var posX: int
    var posY: int
    var context: Option<(int, string)>
    var rangeActive: bool
    var rangeStart: int
    var rangeEnd: int
    var beforeRange: string
    var afterRange: string

    /** A Mux as the host creates it, with whatever attribute values it starts with. */
    constructor(posX: int, posY: int, context: Option<(int, string)>, rangeActive: bool,
                rangeStart: int, rangeEnd: int, beforeRange: string, afterRange: string)
      ensures this.posX == posX && this.posY == posY && this.context == context
      ensures this.rangeActive == rangeActive && this.rangeStart == rangeStart && this.rangeEnd == rangeEnd
      ensures this.beforeRange == beforeRange && this.afterRange == afterRange
    {
      this.posX := posX;
      this.posY := posY;
      this.context := context;
      this.rangeActive := rangeActive;
      this.rangeStart := rangeStart;
      this.rangeEnd := rangeEnd;
      this.beforeRange := beforeRange;
      this.afterRange := afterRange;
    }
  }

  /** `add_mux_and_freeze` on the freshly created `mux`: the links it makes
      from the current node to the Mux, in order. */
  method AddMuxAndFreeze(current: Node, time: int, contexts: set<int>, mux: Mux) returns (links: seq<Link>)
    modifies mux
    ensures mux.posX == current.posX + 200 && mux.posY == current.posY
    ensures FreeSlotFrom(contexts, 1).Some? ==> mux.context == Some((FreeSlotFrom(contexts, 1).value, "Result"))
    ensures FreeSlotFrom(contexts, 1).None? ==> mux.context == old(mux.context)
    ensures mux.rangeActive && mux.rangeStart == time && mux.rangeEnd == time
    ensures mux.beforeRange == "Repeat First" && mux.afterRange == "Repeat Last"
    ensures 1 <= |links| <= 2 && links[0] == Link("Default", "Default")
    ensures |links| == 2 <==> MatteFrom(current.outputSockets, 0).Some?
    ensures |links| == 2 ==> links[1] == Link(current.outputSockets[MatteFrom(current.outputSockets, 0).value], "Matte_0")
  {
    mux.posX := current.posX + 200;
    mux.posY := current.posY;
    var contextNb := GetContext(contexts);
    if contextNb.Some? {
      mux.context := Some((contextNb.value, "Result"));
    }
    mux.rangeActive := true;
    mux.rangeStart := time;
    mux.rangeEnd := time;
    mux.beforeRange := "Repeat First";
    mux.afterRange := "Repeat Last";
    links := [Link("Default", "Default")];
    var socket := MatteSocket(current.outputSockets);
    if socket.Some? {
      links := links + [Link(current.outputSockets[socket.value], "Matte_0")];
    }
  }

  /** Sockets after the chosen one play no part in the choice. */
  lemma {:induction false} MatteIgnoresLater(sockets: seq<string>, more: seq<string>, k: nat)
    requires MatteFrom(sockets, k).Some?
    ensures MatteFrom(sockets + more, k) == MatteFrom(sockets, k)
    decreases |sockets| - k
  {
    assert (sockets + more)[k] == sockets[k];
    if !(k > 0 && IsMatte(sockets[k])) {
      MatteIgnoresLater(sockets, more, k + 1);
    }
  }
}
