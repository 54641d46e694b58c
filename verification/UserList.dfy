/**
 data_structure/list.c: a circular doubly linked list through a sentinel, its lookup, delete,
 free-all and printing, and the walk-through of module_init with its error path.

 `ring` is the ghost sequence of the nodes in the order of the `next` pointers, the sentinel
 first, and `nodes` the set of them; `live` are the user_infos that have been allocated and not
 freed. Loops only follow pointers of nodes that are the sentinel or live. A node stands for a
 struct list_head and the user_info around it; the sentinel has no user_info and its user
 fields are never read. list_del poisons the pointers of the node it unlinks: they become null.
 */
module UserList {
  import opened Wrappers
  import opened ShoppingCart

  class Node {
    var next: Node?
    var prev: Node?
    var username: string
    var age: nat
    var cart: seq<int>

    constructor ()
      ensures next == null && prev == null
      ensures username == "" && age == 0 && cart == []
    {
      next, prev, username, age, cart := null, null, "", 0, [];
    }
  }

  // ---------- the list as a sequence

  /** Position of the first occurrence, or the length. */
  function Find(names: seq<string>, name: string): (k: nat)
    ensures k <= |names| && (forall i | 0 <= i < k :: names[i] != name)
    ensures k < |names| ==> names[k] == name
  {
    if names == [] || names[0] == name then 0 else 1 + Find(names[1..], name)
  }

  lemma FindIsFirst(names: seq<string>, name: string, k: nat)
    requires k <= |names| && (forall i | 0 <= i < k :: names[i] != name)
    requires k < |names| ==> names[k] == name
    ensures Find(names, name) == k
  {
  }

  lemma FindMember(names: seq<string>, name: string)
    ensures Find(names, name) < |names| <==> name in names
  {
  }

  function Without<T>(s: seq<T>, k: nat): (rest: seq<T>)
    requires k < |s|
    ensures |rest| == |s| - 1
  {
    s[..k] + s[k + 1..]
  }

  lemma WithoutAt<T>(s: seq<T>, k: nat, i: nat)
    requires k < |s| && i < |s| - 1
    ensures Without(s, k)[i] == s[if i < k then i else i + 1]
  {
  }

  ghost predicate Distinct<T>(s: seq<T>) {
    forall i, j | 0 <= i < j < |s| :: s[i] != s[j]
  }

  lemma WithoutMembers<T>(s: seq<T>, k: nat)
    requires k < |s| && Distinct(s)
    ensures Distinct(Without(s, k))
    ensures forall x :: x in Without(s, k) <==> x in s && x != s[k]
  {
    var rest := Without(s, k);
    assert forall i | 0 <= i < |rest| :: rest[i] == s[if i < k then i else i + 1];
    forall x | x in s && x != s[k]
      ensures x in rest
    {
      var i :| 0 <= i < |s| && s[i] == x;
      assert x == rest[if i < k then i else i - 1];
    }
  }

  /** What delete_user_info does to the names. */
  function Deleted(names: seq<string>, name: string): seq<string> {
    var k := Find(names, name);
    if k < |names| then Without(names, k) else names
  }

  /** With distinct names a deleted name is gone: a lookup or second delete fails, and
      everybody else is still there. */
  lemma DeletedIsGone(names: seq<string>, name: string)
    requires Distinct(names)
    ensures Distinct(Deleted(names, name)) && name !in Deleted(names, name)
    ensures forall other | other != name :: other in Deleted(names, name) <==> other in names
    ensures Deleted(Deleted(names, name), name) == Deleted(names, name)
  {
    var k := Find(names, name);
    FindMember(names, name);
    if k < |names| { WithoutMembers(names, k); }
    FindMember(Deleted(names, name), name);
  }

  // ---------- the ring

  /** Every node but number k points at its neighbours, numbers k - 1 and k + 1 at each other. */
  ghost predicate SkipLinks(ring: seq<Node>, k: nat)
    requires 1 <= k < |ring|
    reads ring
  {
    && (forall i {:trigger ring[i].next} | 0 <= i < |ring| && i != k ::
          ring[i].next == ring[Up(|ring|, if i + 1 == k then k else i)])
    && (forall i {:trigger ring[i].prev} | 0 <= i < |ring| && i != k ::
          ring[i].prev == ring[Down(|ring|, if i == Up(|ring|, k) then k else i)])
  }

  function Up(n: nat, i: nat): nat { if i + 1 < n then i + 1 else 0 }

  function Down(n: nat, i: nat): int { if i > 0 then i - 1 else n - 1 }

  lemma SkipLinksAreLinks(was: seq<Node>, k: nat)
    requires 1 <= k < |was| && SkipLinks(was, k)
    ensures var ring := Without(was, k);
      && (forall i {:trigger ring[i].next} | 0 <= i < |ring| :: ring[i].next == ring[Up(|ring|, i)])
      && (forall i {:trigger ring[i].prev} | 0 <= i < |ring| :: ring[i].prev == ring[Down(|ring|, i)])
  {
    var ring := Without(was, k);
    forall i | 0 <= i < |ring|
      ensures ring[i].next == ring[Up(|ring|, i)] && ring[i].prev == ring[Down(|ring|, i)]
    {
      WithoutAt(was, k, i);
      WithoutAt(was, k, Up(|ring|, i));
      WithoutAt(was, k, Down(|ring|, i));
    }
  }

  /** The nodes of the ring and one more behind the last point at their neighbours. */
  ghost predicate AppendLinks(ring: seq<Node>, n: Node)
    requires ring != []
    reads ring, n
  {
    && (forall i {:trigger ring[i].next} | 0 <= i < |ring| ::
          ring[i].next == if i + 1 < |ring| then ring[i + 1] else n)
    && (forall i {:trigger ring[i].prev} | 0 <= i < |ring| ::
          ring[i].prev == if i > 0 then ring[i - 1] else n)
    && n.next == ring[0] && n.prev == ring[|ring| - 1]
  }

  lemma AppendLinksAreLinks(was: seq<Node>, n: Node)
    requires was != [] && AppendLinks(was, n)
    ensures var ring := was + [n];
      && (forall i {:trigger ring[i].next} | 0 <= i < |ring| :: ring[i].next == ring[Up(|ring|, i)])
      && (forall i {:trigger ring[i].prev} | 0 <= i < |ring| :: ring[i].prev == ring[Down(|ring|, i)])
  {
    var ring := was + [n];
    forall i | 0 <= i < |ring|
      ensures ring[i].next == ring[Up(|ring|, i)] && ring[i].prev == ring[Down(|ring|, i)]
    {
      if i < |was| {
        assert ring[i] == was[i] && was[i].next == ring[Up(|ring|, i)];
        assert was[i].prev == ring[Down(|ring|, i)];
      }
    }
  }

  class UserRing {
    const head: Node
    ghost var ring: seq<Node>
    ghost var nodes: set<Node>
    ghost var live: set<Node>

    ghost predicate NextLinks()
      reads this, nodes
    {
      forall i {:trigger ring[i].next} | 0 <= i < |ring| ::
        ring[i] in nodes && ring[i].next == ring[Up(|ring|, i)]
    }

    ghost predicate PrevLinks()
      reads this, nodes
    {
      forall i {:trigger ring[i].prev} | 0 <= i < |ring| ::
        ring[i] in nodes && ring[i].prev == ring[Down(|ring|, i)]
    }

    /** The pointers form one cycle through `ring`, in both directions. */
    ghost predicate Valid()
      reads this, nodes
    {
      && |ring| >= 1 && ring[0] == head
      && (forall x | x in nodes :: x in ring) && (forall x | x in ring :: x in nodes)
      && Distinct(ring)
      && nodes <= live + {head} && head !in live
      && NextLinks() && PrevLinks()
    }

    /** The users in list order. */
    ghost function Entries(): seq<Node>
      reads this
      requires |ring| >= 1
    {
      ring[1..]
    }

    ghost function Names(): (names: seq<string>)
      reads this, ring
      requires |ring| >= 1
      ensures |names| == |ring| - 1 && forall i | 0 <= i < |names| :: names[i] == ring[i + 1].username
    {
      seq(|ring| - 1, i requires 0 <= i < |ring| - 1 reads this, ring => ring[i + 1].username)
    }

    /** LIST_HEAD: the sentinel points at itself. */
    constructor ()
      ensures Valid() && ring == [head] && nodes == {head} && live == {} && fresh(head)
    {
      head := new Node();
      new;
      head.next := head;
      head.prev := head;
      ring := [head];
      nodes := {head};
      live := {};
    }

    /** The four pointer writes of __list_add. */
    method LinkLast(n: Node)
      requires Valid() && n !in nodes
      modifies nodes`next, nodes`prev, n`next, n`prev
      ensures AppendLinks(ring, n)
    {
      var last := head.prev;
      assert last == ring[|ring| - 1];
      head.prev := n;
      n.next := head;
      n.prev := last;
      last.next := n;
    }

    /** list_add_tail */
    method ListAddTail(n: Node)
      requires Valid() && n in live && n !in nodes
      modifies this`ring, this`nodes, nodes`next, nodes`prev, n`next, n`prev
      ensures Valid() && ring == old(ring) + [n] && nodes == old(nodes) + {n}
    {
      LinkLast(n);
      AppendLinksAreLinks(ring, n);
      ring := ring + [n];
      nodes := nodes + {n};
    }

    /** The pointer writes of list_del: __list_del, then the poison. */
    method Unlink(n: Node, ghost k: nat)
      requires Valid() && 1 <= k < |ring| && ring[k] == n
      modifies nodes`next, nodes`prev
      ensures SkipLinks(ring, k) && n.next == null && n.prev == null
    {
      ghost var after := if k + 1 < |ring| then k + 1 else 0;
      var prev, next := n.prev, n.next;
      assert prev == ring[k - 1] && next == ring[after];
      next.prev := prev;
      prev.next := next;
      n.next := null;
      n.prev := null;
      forall i | 0 <= i < |ring| && i != k
        ensures ring[i].next == ring[Up(|ring|, if i + 1 == k then k else i)]
        ensures ring[i].prev == ring[Down(|ring|, if i == Up(|ring|, k) then k else i)]
      {
        assert ring[i] != n && (ring[i] == prev <==> i == k - 1) && (ring[i] == next <==> i == after);
      }
    }

    /** list_del of the entry at position k of the ring. */
    method ListDel(n: Node, ghost k: nat)
      requires Valid() && 1 <= k < |ring| && ring[k] == n
      modifies this`ring, this`nodes, nodes`next, nodes`prev
      ensures Valid() && ring == Without(old(ring), k) && nodes == old(nodes) - {n}
      ensures n.next == null && n.prev == null
    {
      Unlink(n, k);
      WithoutMembers(ring, k);
      SkipLinksAreLinks(ring, k);
      ring := Without(ring, k);
      nodes := nodes - {n};
    }

    /** kzalloc, which may fail. */
    method Alloc(ok: bool) returns (n: Node?)
      modifies this`live
      ensures n == null <==> !ok
      ensures n == null ==> live == old(live)
      ensures n != null ==> fresh(n) && live == old(live) + {n}
    {
      n := null;
      if ok {
        n := new Node();
        live := live + {n};
      }
    }

    /** kfree: only of something allocated and not yet freed. */
    method Free(n: Node)
      requires n in live
      modifies this`live
      ensures live == old(live) - {n}
    {
      live := live - {n};
    }

    /** list_del and kfree. */
    method Discard(n: Node, ghost k: nat)
      requires Valid() && 1 <= k < |ring| && ring[k] == n
      modifies this, nodes`next, nodes`prev
      ensures Valid() && ring == Without(old(ring), k) && nodes == old(nodes) - {n}
      ensures live == old(live) - {n} && n.next == null && n.prev == null
      ensures Names() == Without(old(Names()), k - 1)
    {
      assert n in nodes && n in live;
      ghost var names := Names();
      ListDel(n, k);
      Free(n);
      assert Names() == Without(names, k - 1) by {
        forall i | 0 <= i < |Names()|
          ensures Names()[i] == Without(names, k - 1)[i]
        {
          WithoutAt(old(ring), k, i + 1);
          WithoutAt(names, k - 1, i);
        }
      }
    }

    /** get_user_info: the first entry with that name, or NULL. */
    method GetUserInfo(username: Option<string>) returns (user: Node?, ghost k: nat)
      requires Valid()
      ensures username.None? ==> user == null
      ensures username.Some? ==>
        && k == Find(Names(), username.value)
        && (user == null <==> k == |Names()|)
        && (user != null ==> user == Entries()[k] && user in live && user.username == username.value)
    {
      k := 0;
      if username.None? {
        return null, k;
      }
      var pos := head.next;
      while pos != head
        invariant k <= |ring| - 1
        invariant pos == ring[if k + 1 < |ring| then k + 1 else 0]
        invariant forall i | 0 <= i < k :: Names()[i] != username.value
        decreases |ring| - k
      {
        assert pos in nodes && pos in live;
        if pos.username == username.value {
          FindIsFirst(Names(), username.value, k);
          return pos, k;
        }
        pos := pos.next;
        k := k + 1;
      }
      FindIsFirst(Names(), username.value, k);
      return null, k;
    }

    /** delete_user_info: unlink and free the first entry with that name. */
    method DeleteUserInfo(username: Option<string>) returns (ret: int)
      requires Valid()
      modifies this, nodes`next, nodes`prev
      ensures Valid()
      ensures username.None? ==> ret == -ENOENT && ring == old(ring) && live == old(live)
      ensures username.Some? ==>
        var k := Find(old(Names()), username.value);
        && Names() == Deleted(old(Names()), username.value)
        && (if k < |old(Names())| then
              && ret == 0 && ring == Without(old(ring), k + 1)
              && nodes == old(nodes) - {old(ring)[k + 1]} && live == old(live) - {old(ring)[k + 1]}
            else ret == -ENOENT && ring == old(ring) && nodes == old(nodes) && live == old(live))
    {
      var user, k := GetUserInfo(username);
      if user == null {
        return -ENOENT;
      }
      Discard(user, k + 1);
      ret := 0;
    }

    /** The body and the advance of list_for_each_entry_safe: `tmp`, read before `user` was
        unlinked and freed, is the next node to look at. */
    method FreeStep(user: Node, tmp: Node?) returns (user': Node, tmp': Node?)
      requires Valid() && |ring| > 1 && user == ring[1] && tmp == ring[if |ring| > 2 then 2 else 0]
      modifies this, nodes`next, nodes`prev
      ensures Valid() && nodes == old(nodes) - {user} && live == old(live) - {user}
      ensures |ring| == old(|ring|) - 1
      ensures user' == ring[if |ring| > 1 then 1 else 0]
      ensures |ring| > 1 ==> tmp' == ring[if |ring| > 2 then 2 else 0]
    {
      Discard(user, 1);
      assert ring == [head] + old(ring)[2..];
      user' := tmp;
      tmp' := user'.next;
    }

    /** free_all_user_infos: every user is freed, each exactly once, and the ring is empty. */
    method FreeAllUserInfos()
      requires Valid()
      modifies this, nodes`next, nodes`prev
      ensures Valid() && ring == [head] && nodes == {head}
      ensures live == old(live) - (old(nodes) - {head})
    {
      var user := head.next;
      var tmp := user.next;
      while user != head
        invariant Valid() && nodes <= old(nodes)
        invariant live == old(live) - (old(nodes) - nodes)
        invariant user == ring[if |ring| > 1 then 1 else 0]
        invariant |ring| > 1 ==> tmp == ring[if |ring| > 2 then 2 else 0]
        decreases |ring|
      {
        assert user in nodes;
        user, tmp := FreeStep(user, tmp);
      }
      assert ring == [head] && nodes == {head};
    }

    /** list_count_nodes */
    method CountNodes() returns (n: nat)
      requires Valid()
      ensures n == |Entries()|
    {
      n := 0;
      var pos := head.next;
      while pos != head
        invariant n <= |ring| - 1
        invariant pos == ring[if n + 1 < |ring| then n + 1 else 0]
        decreases |ring| - n
      {
        assert pos in nodes && pos in live;
        n := n + 1;
        pos := pos.next;
      }
    }
  }

  // ---------- printing

  /** What print_all_user_infos logs about one user. */
  datatype UserLine = UserLine(username: string, age: nat, cart: string)

  ghost function LineOf(n: Node): UserLine
    reads n
  {
    UserLine(n.username, n.age, CartText(n.cart))
  }

  method PrintUser(n: Node) returns (line: UserLine)
    ensures line == LineOf(n)
  {
    var text := PrintShoppingCart(n.cart);
    line := UserLine(n.username, n.age, text);
  }

  datatype Listing = Listing(count: nat, ends: Option<(string, string)>, lines: seq<UserLine>)

  /** One turn of list_for_each_entry: the line of the user at k, then on to its successor. */
  method PrintTurn(list: UserRing, pos: Node, ghost k: nat) returns (line: UserLine, next: Node)
    requires list.Valid() && 1 <= k < |list.ring| && pos == list.ring[k]
    ensures list.Valid() && next == list.ring[Up(|list.ring|, k)]
    ensures LinesOf(list.Entries()) == old(LinesOf(list.Entries()))
    ensures line == LinesOf(list.Entries())[k - 1]
  {
    assert pos in list.nodes && pos in list.live && pos == list.Entries()[k - 1];
    next := pos.next;
    assert next == list.ring[Up(|list.ring|, k)];
    line := PrintUser(pos);
  }

  ghost function LinesOf(users: seq<Node>): (lines: seq<UserLine>)
    reads users
    ensures |lines| == |users| && forall i | 0 <= i < |users| :: lines[i] == LineOf(users[i])
  {
    seq(|users|, i requires 0 <= i < |users| reads users => LineOf(users[i]))
  }

  /** list_for_each_entry over the users: one line each. */
  method PrintLines(list: UserRing) returns (lines: seq<UserLine>)
    requires list.Valid()
    ensures lines == LinesOf(list.Entries())
  {
    ghost var shown := LinesOf(list.Entries());
    lines := [];
    var pos := list.head.next;
    while pos != list.head
      invariant list.Valid() && |lines| < |list.ring|
      invariant pos == list.ring[if |lines| + 1 < |list.ring| then |lines| + 1 else 0]
      invariant LinesOf(list.Entries()) == shown && lines == shown[..|lines|]
      decreases |list.ring| - |lines|
    {
      var line, next := PrintTurn(list, pos, |lines| + 1);
      lines := lines + [line];
      pos := next;
    }
  }

  /** The count, the first and the last name if there are any, one line for each user in order. */
  ghost predicate Shows(out: Listing, list: UserRing)
    requires |list.ring| >= 1
    reads list, list.ring
  {
    && out.count == |list.Entries()| && out.lines == LinesOf(list.Entries())
    && out.ends == if list.Names() == [] then None
                   else Some((list.Names()[0], list.Names()[|list.Names()| - 1]))
  }

  /** print_all_user_infos */
  method PrintAllUserInfos(list: UserRing) returns (out: Listing)
    requires list.Valid()
    ensures Shows(out, list)
  {
    var count := list.CountNodes();
    if list.head.next == list.head {
      return Listing(count, None, []);
    }
    var ends := (list.head.next.username, list.head.prev.username);
    assert ends == (list.Names()[0], list.Names()[|list.Names()| - 1]);
    var lines := PrintLines(list);
    out := Listing(count, Some(ends), lines);
  }
}
