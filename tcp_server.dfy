/**
 * The client registry of the TCP relay (server.py, class MessageServer):
 * the list of connected client sockets, the running flag, and the
 * operations that change them under the lock.  A socket is known by its
 * identity; what happens on the wire is recorded as a log of `send` and
 * `close` calls, and whether a send raises is an input.
 */
module TcpServer {

  /** A client socket, by identity. */
  type Sock = nat

  /** One `client.send(message)` call. */
  datatype Send = Send(to: Sock, message: string)

  ghost predicate NoDup(s: seq<Sock>) {
    forall i, j :: 0 <= i < j < |s| ==> s[i] != s[j]
  }

  function Elems(s: seq<Sock>): set<Sock> {
    set x | x in s
  }

  /** The clients `broadcast` writes to: every listed client except the sender, in list order. */
  function Others(cs: seq<Sock>, sender: Sock): (r: seq<Sock>)
    ensures forall x :: x in r <==> x in cs && x != sender
    ensures NoDup(cs) ==> NoDup(r)
  {
    if cs == [] then []
    else
      var rest := Others(cs[..|cs| - 1], sender);
      assert forall x :: x in cs[..|cs| - 1] ==> x in cs;
      assert forall x :: x in cs ==> x in cs[..|cs| - 1] || x == cs[|cs| - 1];
      assert NoDup(cs) ==> NoDup(cs[..|cs| - 1]) && cs[|cs| - 1] !in cs[..|cs| - 1];
      if cs[|cs| - 1] != sender then rest + [cs[|cs| - 1]] else rest
  }

  /** The sends of one `broadcast`: the message, once to each client in `Others`, in that order. */
  function Sends(cs: seq<Sock>, sender: Sock, message: string): (r: seq<Send>)
    ensures |r| <= |cs|
  {
    if cs == [] then []
    else
      var rest := Sends(cs[..|cs| - 1], sender, message);
      if cs[|cs| - 1] != sender then rest + [Send(cs[|cs| - 1], message)] else rest
  }

  /** `failed_clients`: the clients, other than the sender, whose send raised, in the order they were tried. */
  function Failed(cs: seq<Sock>, sender: Sock, broken: set<Sock>): (r: seq<Sock>)
    ensures forall x :: x in r <==> x in cs && x != sender && x in broken
    ensures NoDup(cs) ==> NoDup(r)
  {
    if cs == [] then []
    else
      var rest := Failed(cs[..|cs| - 1], sender, broken);
      assert forall x :: x in cs[..|cs| - 1] ==> x in cs;
      assert forall x :: x in cs ==> x in cs[..|cs| - 1] || x == cs[|cs| - 1];
      assert NoDup(cs) ==> NoDup(cs[..|cs| - 1]) && cs[|cs| - 1] !in cs[..|cs| - 1];
      var last := cs[|cs| - 1];
      if last != sender && last in broken then rest + [last] else rest
  }

  /** `cs` with every member of `gone` taken out and the rest left in order. */
  function Without(cs: seq<Sock>, gone: set<Sock>): (r: seq<Sock>)
    ensures forall x :: x in r <==> x in cs && x !in gone
  {
    if cs == [] then []
    else (if cs[0] in gone then [] else [cs[0]]) + Without(cs[1..], gone)
  }

  /** Python's `list.remove(x)`: the first occurrence of `x` taken out (a ValueError when there is none). */
  function ListRemove(cs: seq<Sock>, x: Sock): (r: seq<Sock>)
    requires x in cs
    ensures |r| == |cs| - 1
    ensures forall y :: y in r ==> y in cs
  {
    if cs[0] == x then cs[1..] else [cs[0]] + ListRemove(cs[1..], x)
  }

  /** `a` is what remains of `b` after deleting some of its entries. */
  ghost predicate IsSubsequence(a: seq<Sock>, b: seq<Sock>)
    decreases |b|
  {
    if a == [] then true
    else if b == [] then false
    else IsSubsequence(a, b[1..]) || (a[0] == b[0] && IsSubsequence(a[1..], b[1..]))
  }

  // ---------------------------------------------------------------- lemmas

  /** Filtering keeps the survivors in their original relative order. */
  lemma {:induction false} WithoutIsSubsequence(cs: seq<Sock>, gone: set<Sock>)
    ensures IsSubsequence(Without(cs, gone), cs)
  {
    if cs != [] {
      WithoutIsSubsequence(cs[1..], gone);
      if cs[0] in gone {
        assert Without(cs, gone) == Without(cs[1..], gone);
      } else {
        assert Without(cs, gone)[1..] == Without(cs[1..], gone);
      }
    }
  }

  /** Filtering a list that has no member of `gone` leaves it as it is. */
  lemma {:induction false} WithoutNothing(cs: seq<Sock>, gone: set<Sock>)
    requires forall x :: x in cs ==> x !in gone
    ensures Without(cs, gone) == cs
  {
    if cs != [] {
      WithoutNothing(cs[1..], gone);
    }
  }

  /** Only the members of the list matter to the filter. */
  lemma {:induction false} WithoutSameOnMembers(cs: seq<Sock>, a: set<Sock>, b: set<Sock>)
    requires forall x :: x in cs ==> (x in a <==> x in b)
    ensures Without(cs, a) == Without(cs, b)
  {
    if cs != [] {
      WithoutSameOnMembers(cs[1..], a, b);
    }
  }

  /** Filtering twice is filtering once by both sets. */
  lemma {:induction false} WithoutTwice(cs: seq<Sock>, a: set<Sock>, b: set<Sock>)
    ensures Without(Without(cs, a), b) == Without(cs, a + b)
  {
    if cs != [] {
      WithoutTwice(cs[1..], a, b);
      if cs[0] in a {
        assert Without(cs, a) == Without(cs[1..], a);
      } else {
        var w := Without(cs, a);
        assert w == [cs[0]] + Without(cs[1..], a);
        assert w[0] == cs[0] && w[1..] == Without(cs[1..], a);
        assert Without(w, b) == (if cs[0] in b then [] else [cs[0]]) + Without(w[1..], b);
      }
    }
  }

  /** On a list without duplicates `list.remove(x)` is the filter that takes `x` out. */
  lemma {:induction false} ListRemoveIsWithout(cs: seq<Sock>, x: Sock)
    requires NoDup(cs) && x in cs
    ensures ListRemove(cs, x) == Without(cs, {x})
  {
    assert NoDup(cs[1..]);
    if cs[0] == x {
      WithoutNothing(cs[1..], {x});
    } else {
      ListRemoveIsWithout(cs[1..], x);
    }
  }

  lemma WithoutKeepsNoDup(cs: seq<Sock>, gone: set<Sock>)
    requires NoDup(cs)
    ensures NoDup(Without(cs, gone))
  {
    if cs != [] {
      assert NoDup(cs[1..]);
      WithoutKeepsNoDup(cs[1..], gone);
    }
  }

  /** `broadcast` never writes to the sender, and writes to every other listed client exactly once. */
  lemma SendsReachOthersOnce(cs: seq<Sock>, sender: Sock, message: string, x: Sock)
    requires NoDup(cs)
    ensures Send(sender, message) !in Sends(cs, sender, message)
    ensures multiset(Sends(cs, sender, message))[Send(x, message)] == if x in cs && x != sender then 1 else 0
  {
    var o := Others(cs, sender);
    OthersOnce(o, x);
    SendsFollowOthers(cs, sender, message);
    SendAllCount(o, message, x);
  }

  /** The sends go to the clients of `Others`, one each, in that order. */
  lemma {:induction false} SendsFollowOthers(cs: seq<Sock>, sender: Sock, message: string)
    ensures Sends(cs, sender, message) == SendAll(Others(cs, sender), message)
  {
    if cs != [] {
      var p := cs[..|cs| - 1];
      SendsFollowOthers(p, sender, message);
      if cs[|cs| - 1] != sender {
        SendAllSnoc(Others(p, sender), cs[|cs| - 1], message);
      }
    }
  }

  lemma SendAllSnoc(to: seq<Sock>, x: Sock, message: string)
    ensures SendAll(to + [x], message) == SendAll(to, message) + [Send(x, message)]
  {
  }

  function SendAll(to: seq<Sock>, message: string): seq<Send> {
    seq(|to|, k requires 0 <= k < |to| => Send(to[k], message))
  }

  lemma {:induction false} SendAllCount(to: seq<Sock>, message: string, x: Sock)
    ensures multiset(SendAll(to, message))[Send(x, message)] == multiset(to)[x]
  {
    if to != [] {
      var p := to[..|to| - 1];
      SendAllCount(p, message, x);
      assert SendAll(to, message) == SendAll(p, message) + [Send(to[|to| - 1], message)];
      assert to == p + [to[|to| - 1]];
    }
  }

  lemma {:induction false} OthersOnce(o: seq<Sock>, x: Sock)
    requires NoDup(o)
    ensures multiset(o)[x] == if x in o then 1 else 0
  {
    if o != [] {
      var p := o[..|o| - 1];
      assert NoDup(p);
      OthersOnce(p, x);
      assert o == p + [o[|o| - 1]];
      assert o[|o| - 1] !in p;
    }
  }

  /** `remove_client` on a socket that is no longer listed changes nothing, so removing twice is removing once. */
  lemma RemoveIsIdempotent(cs: seq<Sock>, c: Sock)
    ensures c !in cs ==> Without(cs, {c}) == cs
    ensures Without(Without(cs, {c}), {c}) == Without(cs, {c})
    ensures c !in Without(cs, {c})
  {
    if c !in cs {
      WithoutNothing(cs, {c});
    }
    WithoutNothing(Without(cs, {c}), {c});
  }

  /** Trying one more client extends the sends and the failures by at most that client. */
  lemma OneMoreTried(cs: seq<Sock>, i: nat, sender: Sock, message: string, broken: set<Sock>)
    requires i < |cs|
    ensures Sends(cs[..i + 1], sender, message)
            == Sends(cs[..i], sender, message) + (if cs[i] != sender then [Send(cs[i], message)] else [])
    ensures Failed(cs[..i + 1], sender, broken)
            == Failed(cs[..i], sender, broken) + (if cs[i] != sender && cs[i] in broken then [cs[i]] else [])
  {
    assert cs[..i + 1][..i] == cs[..i];
  }

  lemma AppendRegroup(a: seq<Send>, b: seq<Send>, c: seq<Send>)
    ensures (a + b) + c == a + (b + c)
  {
  }

  /** One more failed client taken out with `list.remove` is one more member of the filter set. */
  lemma RemoveNextFailed(listed: seq<Sock>, failed: seq<Sock>, j: nat)
    requires NoDup(listed) && NoDup(failed) && j < |failed|
    requires forall x :: x in failed ==> x in listed
    ensures failed[j] in Without(listed, Elems(failed[..j]))
    ensures ListRemove(Without(listed, Elems(failed[..j])), failed[j]) == Without(listed, Elems(failed[..j + 1]))
  {
    var before := Elems(failed[..j]);
    assert failed[j] !in before;
    WithoutKeepsNoDup(listed, before);
    ListRemoveIsWithout(Without(listed, before), failed[j]);
    WithoutTwice(listed, before, {failed[j]});
    ElemsOfLonger(failed, j);
  }

  lemma ElemsOfLonger(s: seq<Sock>, j: nat)
    requires j < |s|
    ensures Elems(s[..j + 1]) == Elems(s[..j]) + {s[j]}
  {
    assert s[..j + 1] == s[..j] + [s[j]];
  }

  // ---------------------------------------------------------------- the server object

  class MessageServer {
    var clients: seq<Sock>
    var running: bool
    /** Every `send` call made so far, in order. */
    var sent: seq<Send>
    /** Every `close` call made on a client socket so far, in order. */
    var closed: seq<Sock>

    /** Each accepted socket is a new object, so no socket is listed twice. */
    ghost predicate Valid()
      reads this
    {
      NoDup(clients)
    }

    constructor ()
      ensures Valid() && clients == [] && !running && sent == [] && closed == []
    {
      clients, running, sent, closed := [], false, [], [];
    }

    /** `start` before its accept loop: the flag is raised. */
    method Start()
      modifies this`running
      ensures running
    {
      running := true;
    }

    /** One accepted connection: the new socket goes to the end of the list. */
    method Accept(c: Sock)
      requires Valid() && c !in clients
      modifies this`clients
      ensures Valid()
      ensures clients == old(clients) + [c]
    {
      clients := clients + [c];
    }

    /**
     * `broadcast`: the message is sent once to every listed client except the
     * sender, in list order; afterwards the clients whose send raised are
     * removed and the others stay, in their order.
     */
    method Broadcast(message: string, sender: Sock, broken: set<Sock>)
      requires Valid()
      modifies this`clients, this`sent
      ensures Valid()
      ensures sent == old(sent) + Sends(old(clients), sender, message)
      ensures clients == Without(old(clients), broken - {sender})
    {
      var failed := SendToOthers(message, sender, broken);
      ghost var listed := clients;
      RemoveFailed(failed);
      WithoutSameOnMembers(listed, Elems(failed), broken - {sender});
      WithoutKeepsNoDup(listed, broken - {sender});
    }

    /** The first loop of `broadcast`: one send per client other than the sender; the ones that raise are collected. */
    method SendToOthers(message: string, sender: Sock, broken: set<Sock>) returns (failed: seq<Sock>)
      modifies this`sent
      ensures sent == old(sent) + Sends(clients, sender, message)
      ensures failed == Failed(clients, sender, broken)
    {
      failed := [];
      for i := 0 to |clients|
        invariant sent == old(sent) + Sends(clients[..i], sender, message)
        invariant failed == Failed(clients[..i], sender, broken)
      {
        OneMoreTried(clients, i, sender, message, broken);
        if clients[i] != sender {
          AppendRegroup(old(sent), Sends(clients[..i], sender, message), [Send(clients[i], message)]);
          sent := sent + [Send(clients[i], message)];
          if clients[i] in broken {
            failed := failed + [clients[i]];
          }
        }
      }
      assert clients[..|clients|] == clients;
    }

    /** The second loop of `broadcast`: `list.remove` for each failed client, in the order they failed. */
    method RemoveFailed(failed: seq<Sock>)
      requires Valid() && NoDup(failed)
      requires forall x :: x in failed ==> x in clients
      modifies this`clients
      ensures clients == Without(old(clients), Elems(failed))
    {
      ghost var listed := clients;
      WithoutNothing(listed, Elems(failed[..0]));
      for j := 0 to |failed|
        invariant clients == Without(listed, Elems(failed[..j]))
      {
        RemoveNextFailed(listed, failed, j);
        clients := ListRemove(clients, failed[j]);
      }
      assert failed[..|failed|] == failed;
    }

    /** `remove_client`: the socket leaves the list if it is there, and is closed either way. */
    method RemoveClient(c: Sock)
      requires Valid()
      modifies this`clients, this`closed
      ensures Valid()
      ensures clients == Without(old(clients), {c})
      ensures closed == old(closed) + [c]
    {
      if c in clients {
        ListRemoveIsWithout(clients, c);
        clients := ListRemove(clients, c);
      } else {
        WithoutNothing(clients, {c});
      }
      WithoutKeepsNoDup(old(clients), {c});
      closed := closed + [c];
    }

    /** `stop`: the flag drops, every listed socket is closed in list order, and the list is emptied. */
    method Stop()
      modifies this`running, this`clients, this`closed
      ensures Valid()
      ensures !running && clients == []
      ensures closed == old(closed) + old(clients)
    {
      running := false;
      var listed := clients;
      for i := 0 to |listed|
        modifies this`closed
        invariant closed == old(closed) + listed[..i]
      {
        closed := closed + [listed[i]];
      }
      assert listed[..|listed|] == listed;
      clients := [];
    }
  }
}
