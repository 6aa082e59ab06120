/** Reconciling the node agent's tunnel listeners with the targets the hub wants. */
module Forwarder {

  datatype Target = Target(listenPort: int, localAddr: string)

  /** An open listener, known by its serial number, and the address it relays to. */
  datatype Active = Active(id: nat, localAddr: string)

  type Listeners = map<int, Active>

  predicate Usable(t: Target) {
    t.listenPort > 0 && t.localAddr != ""
  }

  /** The address wanted on each port. */
  function Desired(targets: seq<Target>): map<int, string> {
    if targets == [] then map[]
    else
      var t := targets[|targets| - 1];
      var d := Desired(targets[..|targets| - 1]);
      if Usable(t) then d[t.listenPort := t.localAddr] else d
  }

  predicate Final(targets: seq<Target>, i: nat)
    requires i < |targets|
  {
    && targets[i].listenPort > 0 && targets[i].localAddr != ""
    && forall j :: i < j < |targets| && targets[j].localAddr != "" ==> targets[j].listenPort != targets[i].listenPort
  }

  lemma {:induction false} FinalDecides(targets: seq<Target>, i: nat)
    requires i < |targets| && Final(targets, i)
    ensures targets[i].listenPort in Desired(targets) && Desired(targets)[targets[i].listenPort] == targets[i].localAddr
  {
    var n := |targets| - 1;
    if i < n {
      assert Final(targets[..n], i);
      FinalDecides(targets[..n], i);
    }
  }

  lemma {:induction false} DesiredHasFinal(targets: seq<Target>, port: int) returns (i: nat)
    requires port in Desired(targets)
    ensures i < |targets| && Final(targets, i) && targets[i].listenPort == port
  {
    i := |targets| - 1;
    if !(Usable(targets[i]) && targets[i].listenPort == port) {
      var n := i;
      i := DesiredHasFinal(targets[..n], port);
      assert forall j :: i < j < n ==> targets[j] == targets[..n][j];
    }
  }

  /** A port is wanted exactly when a usable target names it, and the last such target decides. */
  lemma LastTargetWins(targets: seq<Target>, port: int)
    ensures port in Desired(targets) <==> exists i: nat :: i < |targets| && Final(targets, i) && targets[i].listenPort == port
    ensures forall i: nat :: i < |targets| && Final(targets, i) && targets[i].listenPort == port && port in Desired(targets) ==> Desired(targets)[port] == targets[i].localAddr
  {
    if port in Desired(targets) {
      var _ := DesiredHasFinal(targets, port);
    }
    forall i: nat | i < |targets| && Final(targets, i) && targets[i].listenPort == port
      ensures port in Desired(targets) && Desired(targets)[port] == targets[i].localAddr
    {
      FinalDecides(targets, i);
    }
  }

  ghost predicate Held(listeners: Listeners, id: nat) {
    exists port :: port in listeners && listeners[port].id == id
  }

  ghost predicate Distinct(ids: seq<nat>) {
    forall i, j :: 0 <= i < j < |ids| ==> ids[i] != ids[j]
  }

  /** Each listener ever opened is in the map on one port or was closed once, and never both. */
  ghost predicate Accounted(listeners: Listeners, serial: nat, closed: seq<nat>) {
    && (forall p, q :: p in listeners && q in listeners && p != q ==> listeners[p].id != listeners[q].id)
    && (forall p :: p in listeners ==> listeners[p].id !in closed)
    && Distinct(closed)
    && (forall id: nat :: id < serial <==> id in closed || Held(listeners, id))
  }

  lemma ClosingKeeps(listeners: Listeners, serial: nat, closed: seq<nat>, port: int)
    requires Accounted(listeners, serial, closed) && port in listeners
    ensures Accounted(listeners - {port}, serial, closed + [listeners[port].id])
  {
    var left, id := listeners - {port}, listeners[port].id;
    forall x: nat | x != id
      ensures Held(left, x) <==> Held(listeners, x)
    {
      if p :| p in listeners && listeners[p].id == x {
        assert p in left && left[p].id == x;
      }
      if p :| p in left && left[p].id == x {
        assert p in listeners && listeners[p].id == x;
      }
    }
    assert Held(listeners, id);
  }

  lemma OpeningKeeps(listeners: Listeners, serial: nat, closed: seq<nat>, port: int, localAddr: string)
    requires Accounted(listeners, serial, closed) && port !in listeners
    ensures Accounted(listeners[port := Active(serial, localAddr)], serial + 1, closed)
  {
    var more := listeners[port := Active(serial, localAddr)];
    assert more[port].id == serial;
    forall p | p in listeners
      ensures listeners[p].id < serial
    {
      assert Held(listeners, listeners[p].id);
    }
    forall x: nat | x != serial
      ensures Held(more, x) <==> Held(listeners, x)
    {
      if p :| p in listeners && listeners[p].id == x {
        assert p in more && more[p].id == x;
      }
      if p :| p in more && more[p].id == x {
        assert p in listeners && listeners[p].id == x;
      }
    }
    assert Held(more, serial);
  }

  /** The port keeps the listener it has. */
  predicate Stays(listeners: Listeners, desired: map<int, string>, port: int) {
    port in listeners && port in desired && listeners[port].localAddr == desired[port]
  }

  lemma SomePort(ports: set<int>)
    requires ports != {}
    ensures exists port: int :: port in ports
  {
    if forall port: int :: port !in ports {
      assert false;
    }
  }

  class Forwarder {
    var listeners: Listeners
    /** How many listeners were opened; they are numbered in that order. */
    var serial: nat
    /** The listeners closed, in that order. */
    ghost var closed: seq<nat>

    ghost predicate Valid()
      reads this
    {
      Accounted(listeners, serial, closed)
    }

    constructor ()
      ensures Valid() && listeners == map[] && serial == 0 && closed == []
    {
      listeners, serial, closed := map[], 0, [];
    }

    method Close(port: int)
      requires Valid() && port in listeners
      modifies this
      ensures Valid() && listeners == old(listeners) - {port} && serial == old(serial)
      ensures closed == old(closed) + [old(listeners)[port].id]
    {
      ClosingKeeps(listeners, serial, closed, port);
      closed := closed + [listeners[port].id];
      listeners := listeners - {port};
    }

    method Retire(desired: map<int, string>)
      requires Valid()
      modifies this
      ensures Valid() && serial == old(serial) && old(closed) <= closed
      ensures forall p :: p in listeners <==> Stays(old(listeners), desired, p)
      ensures forall p :: p in listeners ==> p in old(listeners) && listeners[p] == old(listeners)[p]
    {
      var todo: set<int> := listeners.Keys;
      while todo != {}
        invariant Valid() && serial == old(serial) && old(closed) <= closed
        invariant todo <= listeners.Keys <= old(listeners).Keys
        invariant forall p :: p in listeners ==> listeners[p] == old(listeners)[p]
        invariant forall p :: p in old(listeners) && p !in todo ==> (p in listeners <==> Stays(old(listeners), desired, p))
        decreases |todo|
      {
        SomePort(todo);
        var port :| port in todo;
        todo := todo - {port};
        if !(port in desired && desired[port] == listeners[port].localAddr) {
          Close(port);
        }
      }
    }

    /** Opens what is missing; the ports in `refused` fail to listen and are skipped. */
    method Open(desired: map<int, string>, refused: set<int>)
      requires Valid() && listeners.Keys <= desired.Keys
      modifies this
      ensures Valid() && closed == old(closed) && serial >= old(serial)
      ensures forall p :: p in listeners <==> p in old(listeners) || (p in desired && p !in refused)
      ensures forall p :: p in old(listeners) ==> listeners[p] == old(listeners)[p]
      ensures forall p :: p in listeners && p !in old(listeners) ==> listeners[p].localAddr == desired[p] && listeners[p].id >= old(serial)
    {
      var todo: set<int> := desired.Keys;
      while todo != {}
        invariant Valid() && closed == old(closed) && serial >= old(serial)
        invariant todo <= desired.Keys && old(listeners).Keys <= listeners.Keys <= desired.Keys
        invariant forall p :: p in desired && p !in todo ==> (p in listeners <==> p in old(listeners) || p !in refused)
        invariant forall p :: p in todo ==> (p in listeners <==> p in old(listeners))
        invariant forall p :: p in old(listeners) ==> listeners[p] == old(listeners)[p]
        invariant forall p :: p in listeners && p !in old(listeners) ==> listeners[p].localAddr == desired[p] && listeners[p].id >= old(serial)
        decreases |todo|
      {
        SomePort(todo);
        var port :| port in todo;
        todo := todo - {port};
        if port !in listeners && port !in refused {
          OpeningKeeps(listeners, serial, closed, port, desired[port]);
          listeners := listeners[port := Active(serial, desired[port])];
          serial := serial + 1;
        }
      }
    }

    method Reconcile(targets: seq<Target>, refused: set<int>)
      requires Valid()
      modifies this
      ensures Valid() && old(closed) <= closed && serial >= old(serial)
      ensures var desired := Desired(targets);
        && (forall p :: p in listeners <==> p in desired && (Stays(old(listeners), desired, p) || p !in refused))
        && (forall p :: p in listeners ==> listeners[p].localAddr == desired[p])
        && (forall p :: p in listeners && Stays(old(listeners), desired, p) ==> listeners[p] == old(listeners)[p])
        && (forall p :: p in listeners && !Stays(old(listeners), desired, p) ==> listeners[p].id >= old(serial))
    {
      var desired: map<int, string> := map[];
      for i := 0 to |targets|
        invariant unchanged(this) && desired == Desired(targets[..i])
      {
        var t := targets[i];
        assert targets[..i + 1][..i] == targets[..i];
        if t.listenPort <= 0 || t.localAddr == "" {
          continue;
        }
        desired := desired[t.listenPort := t.localAddr];
      }
      assert targets[..|targets|] == targets;
      Retire(desired);
      assert forall p :: p in listeners ==> p in desired;
      Open(desired, refused);
    }

    /** Afterwards every listener ever opened has been closed, once. */
    method Stop()
      requires Valid()
      modifies this
      ensures Valid() && listeners == map[] && serial == old(serial) && old(closed) <= closed
      ensures forall id: nat :: id < serial <==> id in closed
    {
      while |listeners| > 0
        invariant Valid() && serial == old(serial) && old(closed) <= closed
        decreases |listeners.Keys|
      {
        SomePort(listeners.Keys);
        var port :| port in listeners;
        Close(port);
      }
    }
  }
}
