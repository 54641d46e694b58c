/**
 list_module_init and list_module_exit of data_structure/list.c, for any number of users and
 any outcome of the allocations.
 */
module UserListInit {
  import opened Wrappers
  import opened Text
  import opened ShoppingCart
  import opened UserList

  /** The names init gives to n users. */
  function InitNames(n: nat): (names: seq<string>)
    ensures |names| == n && forall i | 0 <= i < n :: names[i] == UserName(i)
  {
    seq(n, i requires 0 <= i => UserName(i))
  }

  lemma InitNamesDistinct(n: nat)
    requires n <= 0x1_0000_0000
    ensures Distinct(InitNames(n))
  {
    forall i, j | 0 <= i < j < n
      ensures InitNames(n)[i] != InitNames(n)[j]
    {
      NamesAreUnique(i, j);
    }
  }

  /** What get_random_u32_below gives the init loop: an age of 1..100 and at most ten foods. */
  datatype Draw = Draw(age: nat, cart: seq<int>)

  predicate Drawn(d: Draw) {
    1 <= d.age <= 100 && |d.cart| <= MAX_CART_SIZE && Foods(d.cart)
  }

  ghost predicate Holds(n: Node, i: nat, d: Draw)
    reads n
  {
    n.username == UserName(i) && n.age == d.age && n.cart == d.cart
  }

  /** One turn of the init loop: a user filled in and then linked, or no memory and no change. */
  method AddUser(list: UserRing, i: nat, d: Draw, ok: bool) returns (user: Node?)
    requires list.Valid()
    modifies list, list.nodes`next, list.nodes`prev
    ensures list.Valid()
    ensures user == null <==> !ok
    ensures user == null ==>
              list.ring == old(list.ring) && list.nodes == old(list.nodes) && list.live == old(list.live)
    ensures user != null ==> fresh(user) && Holds(user, i, d)
    ensures user != null ==>
      && list.ring == old(list.ring) + [user] && list.nodes == old(list.nodes) + {user}
      && list.live == old(list.live) + {user}
  {
    user := list.Alloc(ok);
    if user != null {
      user.username := UserName(i);
      user.age := d.age;
      user.cart := d.cart;
      list.ListAddTail(user);
    }
  }

  /** The loop of list_module_init and its error path: either every user is in the list, in
      order, or nothing is left of any of them. */
  method AddUsers(list: UserRing, draws: seq<Draw>, allocOk: seq<bool>) returns (ret: int)
    requires list.Valid() && list.ring == [list.head]
    requires |allocOk| == |draws| && forall i | 0 <= i < |draws| :: Drawn(draws[i])
    modifies list, list.head`next, list.head`prev
    ensures list.Valid()
    ensures ret == if false in allocOk then -ENOMEM else 0
    ensures ret != 0 ==> list.ring == [list.head] && list.live == old(list.live)
    ensures ret == 0 ==>
      && |list.ring| == |draws| + 1 && fresh(list.nodes - {list.head})
      && list.live == old(list.live) + (list.nodes - {list.head})
      && forall m | 1 <= m <= |draws| :: Holds(list.ring[m], m - 1, draws[m - 1])
  {
    assert list.nodes == {list.head};
    var i := 0;
    while i < |draws|
      invariant list.Valid() && 0 <= i <= |draws| && |list.ring| == i + 1
      invariant false !in allocOk[..i]
      invariant fresh(list.nodes - {list.head})
      invariant list.live == old(list.live) + (list.nodes - {list.head})
      invariant forall m | 1 <= m <= i :: Holds(list.ring[m], m - 1, draws[m - 1])
    {
      assert forall m | 1 <= m <= i :: list.ring[m] in list.nodes;
      var user := AddUser(list, i, draws[i], allocOk[i]);
      if user == null {
        assert !allocOk[i];
        list.FreeAllUserInfos();
        return -ENOMEM;
      }
      assert allocOk[..i + 1] == allocOk[..i] + [allocOk[i]];
      i := i + 1;
    }
    assert allocOk[..i] == allocOk;
    ret := 0;
  }

  // ---------- deleting

  function DeletedAll(names: seq<string>, targets: seq<string>): seq<string> {
    if targets == [] then names
    else Deleted(DeletedAll(names, targets[..|targets| - 1]), targets[|targets| - 1])
  }

  /** The results of deleting the targets one after the other. */
  function DeleteResults(names: seq<string>, targets: seq<string>): (rets: seq<int>)
    ensures |rets| == |targets|
  {
    if targets == [] then []
    else
      var rest := targets[..|targets| - 1];
      DeleteResults(names, rest)
      + [if targets[|targets| - 1] in DeletedAll(names, rest) then 0 else -ENOENT]
  }

  function Zeros(rets: seq<int>): nat {
    if rets == [] then 0 else Zeros(rets[..|rets| - 1]) + (if rets[|rets| - 1] == 0 then 1 else 0)
  }

  /** Users left and successful deletes add up to the users there were. */
  lemma {:induction false} DeletesAddUp(names: seq<string>, targets: seq<string>)
    ensures |DeletedAll(names, targets)| + Zeros(DeleteResults(names, targets)) == |names|
  {
    if targets != [] {
      var rest := targets[..|targets| - 1];
      DeletesAddUp(names, rest);
      FindMember(DeletedAll(names, rest), targets[|targets| - 1]);
      var rets := DeleteResults(names, targets);
      assert rets[..|rets| - 1] == DeleteResults(names, rest);
    }
  }

  /** The names that are no target, in their order. */
  function Others(names: seq<string>, targets: seq<string>): seq<string> {
    if names == [] then []
    else (if names[0] in targets then [] else [names[0]]) + Others(names[1..], targets)
  }

  lemma {:induction false} OthersOfNone(names: seq<string>)
    ensures Others(names, []) == names
  {
    if names != [] { OthersOfNone(names[1..]); }
  }

  lemma {:induction false} OthersMembers(names: seq<string>, targets: seq<string>, name: string)
    ensures name in Others(names, targets) <==> name in names && name !in targets
  {
    if names != [] { OthersMembers(names[1..], targets, name); }
  }

  lemma {:induction false} OthersUnchanged(names: seq<string>, targets: seq<string>, target: string)
    requires target !in names
    ensures Others(names, targets + [target]) == Others(names, targets)
  {
    if names != [] { OthersUnchanged(names[1..], targets, target); }
  }

  lemma DeletedTail(name: string, rest: seq<string>, target: string)
    ensures Deleted([name] + rest, target) == if name == target then rest else [name] + Deleted(rest, target)
  {
    var names := [name] + rest;
    assert names[1..] == rest;
    if name != target {
      assert Find(names, target) == 1 + Find(rest, target);
    }
  }

  lemma OthersHead(name: string, rest: seq<string>, targets: seq<string>)
    ensures Others([name] + rest, targets)
            == if name in targets then Others(rest, targets) else [name] + Others(rest, targets)
  {
    assert ([name] + rest)[1..] == rest;
  }

  lemma OthersStepHead(name: string, rest: seq<string>, targets: seq<string>, target: string)
    requires Deleted(Others(rest, targets), target) == Others(rest, targets + [target])
    requires name == target ==> target !in rest
    ensures Deleted(Others([name] + rest, targets), target) == Others([name] + rest, targets + [target])
  {
    OthersHead(name, rest, targets);
    OthersHead(name, rest, targets + [target]);
    if name !in targets {
      DeletedTail(name, Others(rest, targets), target);
      if name == target {
        OthersUnchanged(rest, targets, target);
      }
    }
  }

  lemma DistinctTail(names: seq<string>)
    requires Distinct(names) && names != []
    ensures Distinct(names[1..]) && names[0] !in names[1..]
  {
    var rest := names[1..];
    assert forall i | 0 <= i < |rest| :: rest[i] == names[i + 1];
  }

  /** One more target takes away at most one more name, and keeps the order. */
  lemma {:induction false} OthersStep(names: seq<string>, targets: seq<string>, target: string)
    requires Distinct(names)
    ensures Deleted(Others(names, targets), target) == Others(names, targets + [target])
  {
    if names != [] {
      DistinctTail(names);
      OthersStep(names[1..], targets, target);
      OthersStepHead(names[0], names[1..], targets, target);
      assert names == [names[0]] + names[1..];
    }
  }

  /** The delete loop leaves the names that are no target, in their order. */
  lemma {:induction false} DeletedAllIsOthers(names: seq<string>, targets: seq<string>)
    requires Distinct(names)
    ensures DeletedAll(names, targets) == Others(names, targets)
  {
    if targets == [] {
      OthersOfNone(names);
    } else {
      var rest, last := targets[..|targets| - 1], targets[|targets| - 1];
      DeletedAllIsOthers(names, rest);
      OthersStep(names, rest, last);
      assert targets == rest + [last];
    }
  }

  /** A delete succeeds for a name that is there and is not deleted before, and else fails. */
  lemma {:induction false} DeleteResultAt(names: seq<string>, targets: seq<string>, i: nat)
    requires Distinct(names) && i < |targets|
    ensures DeleteResults(names, targets)[i]
            == if targets[i] in names && targets[i] !in targets[..i] then 0 else -ENOENT
  {
    var rest := targets[..|targets| - 1];
    if i < |rest| {
      DeleteResultAt(names, rest, i);
      assert rest[..i] == targets[..i];
    } else {
      DeletedAllIsOthers(names, rest);
      OthersMembers(names, rest, targets[i]);
    }
  }

  /** One delete, as the walk-through sees it: what is freed is what left the ring. */
  method DeleteTarget(list: UserRing, target: string) returns (ret: int)
    requires list.Valid()
    modifies list, list.nodes`next, list.nodes`prev
    ensures list.Valid() && list.Names() == Deleted(old(list.Names()), target)
    ensures ret == if target in old(list.Names()) then 0 else -ENOENT
    ensures list.nodes <= old(list.nodes) && list.live == old(list.live) - (old(list.nodes) - list.nodes)
  {
    FindMember(list.Names(), target);
    ret := list.DeleteUserInfo(Some(target));
  }

  /** The delete loop of list_module_init, for any targets. */
  method DeleteTargets(list: UserRing, targets: seq<string>) returns (rets: seq<int>)
    requires list.Valid()
    modifies list, list.nodes`next, list.nodes`prev
    ensures list.Valid()
    ensures list.Names() == DeletedAll(old(list.Names()), targets)
    ensures rets == DeleteResults(old(list.Names()), targets)
    ensures list.nodes <= old(list.nodes) && list.live == old(list.live) - (old(list.nodes) - list.nodes)
  {
    ghost var names := list.Names();
    rets := [];
    var i := 0;
    while i < |targets|
      invariant 0 <= i <= |targets| && list.Valid()
      invariant list.Names() == DeletedAll(names, targets[..i])
      invariant rets == DeleteResults(names, targets[..i])
      invariant list.nodes <= old(list.nodes)
      invariant list.live == old(list.live) - (old(list.nodes) - list.nodes)
    {
      var ret := DeleteTarget(list, targets[i]);
      assert targets[..i + 1][..i] == targets[..i];
      rets := rets + [ret];
      i := i + 1;
    }
    assert targets[..i] == targets;
  }

  // ---------- updating

  /** The chosen user has the new age and cart, any other still has the old ones. */
  ghost predicate Updated(n: Node, chosen: bool, age: nat, cart: seq<int>, oldAge: nat, oldCart: seq<int>)
    reads n`age, n`cart
  {
    if chosen then n.age == age && n.cart == cart else n.age == oldAge && n.cart == oldCart
  }

  /** The update of one user: nobody else's age or cart changes. */
  method UpdateUser(list: UserRing, username: string, age: nat, cart: seq<int>) returns (found: bool)
    requires list.Valid()
    modifies (list.nodes - {list.head})`age, (list.nodes - {list.head})`cart
    ensures list.Valid() && list.Names() == old(list.Names())
    ensures found <==> username in list.Names()
    ensures forall i | 0 <= i < |list.Entries()| ::
        Updated(list.Entries()[i], i == Find(old(list.Names()), username), age, cart,
                old(list.Entries()[i].age), old(list.Entries()[i].cart))
  {
    var user, k := list.GetUserInfo(Some(username));
    FindMember(list.Names(), username);
    found := user != null;
    if user != null {
      assert user == list.ring[k + 1] && user != list.head && user in list.nodes;
      user.age := age;
      user.cart := cart;
      assert list.NextLinks() && list.PrevLinks();
    }
    assert list.Names() == old(list.Names());
  }

  /** The age of the first user with that name, if any. */
  ghost predicate HasAge(list: UserRing, name: string, age: Option<nat>)
    requires |list.ring| >= 1
    reads list, list.ring
  {
    var k := Find(list.Names(), name);
    age == if k < |list.Names()| then Some(list.Entries()[k].age) else None
  }

  /** The loop over get_targets. */
  method LookUpAll(list: UserRing, gets: seq<string>) returns (ages: seq<Option<nat>>)
    requires list.Valid()
    ensures |ages| == |gets| && forall i | 0 <= i < |gets| :: HasAge(list, gets[i], ages[i])
  {
    ages := [];
    for i := 0 to |gets|
      invariant |ages| == i && forall m | 0 <= m < i :: HasAge(list, gets[m], ages[m])
    {
      var user, _ := list.GetUserInfo(Some(gets[i]));
      var age := if user != null then Some(user.age) else None;
      assert HasAge(list, gets[i], age);
      ages := ages + [age];
    }
  }

  /** What is logged before the update: every user, and the ages of the users looked up. */
  datatype Report = Report(listing: Listing, ages: seq<Option<nat>>)

  ghost predicate Reports(r: Report, list: UserRing, gets: seq<string>)
    requires |list.ring| >= 1
    reads list, list.ring
  {
    && Shows(r.listing, list)
    && |r.ages| == |gets| && forall i | 0 <= i < |gets| :: HasAge(list, gets[i], r.ages[i])
  }

  method PrintAndLookUp(list: UserRing, gets: seq<string>) returns (before: Report)
    requires list.Valid()
    ensures list.Valid() && Reports(before, list, gets)
  {
    var listing := PrintAllUserInfos(list);
    var ages := LookUpAll(list, gets);
    before := Report(listing, ages);
  }

  /** The first half of the walk-through: print, look names up, update username#3. */
  method LookUpAndUpdate(list: UserRing, gets: seq<string>) returns (before: Report, updated: bool)
    requires list.Valid()
    modifies (list.nodes - {list.head})`age, (list.nodes - {list.head})`cart
    ensures list.Valid() && list.Names() == old(list.Names())
    ensures old(Reports(before, list, gets)) && (updated <==> "username#3" in list.Names())
    ensures forall i | 0 <= i < |list.Entries()| ::
        Updated(list.Entries()[i], i == Find(old(list.Names()), "username#3"), 99, [4, 5],
                old(list.Entries()[i].age), old(list.Entries()[i].cart))
  {
    before := PrintAndLookUp(list, gets);
    updated := UpdateUser(list, "username#3", 99, [4, 5]);
  }

  // ---------- the whole walk-through

  const GET_TARGETS: seq<string> := ["username#2", "username#4", "nobody"]
  const DELETE_TARGETS: seq<string> := ["username#1", "username#1", "username#4", "nobody"]

  /** User i of the init loop as the finished init leaves it. */
  ghost predicate Left(n: Node, i: nat, d: Draw)
    reads n`username, n`age, n`cart
  {
    n.username == UserName(i) && Updated(n, i == 3, 99, [4, 5], d.age, d.cart)
  }

  /** Number i is where init put it, and no other number has its name. */
  lemma FindUserName(n: nat, i: nat)
    requires n <= 0x1_0000_0000 && i < 0x1_0000_0000
    ensures Find(InitNames(n), UserName(i)) == if i < n then i else n
  {
    forall j: nat | j < n
      ensures InitNames(n)[j] == UserName(i) <==> j == i
    {
      NamesAreUnique(i, j);
    }
    FindIsFirst(InitNames(n), UserName(i), if i < n then i else n);
  }

  lemma FindNumber3(n: nat)
    ensures Find(InitNames(n), "username#3") == if n > 3 then 3 else n
  {
    var names := InitNames(n);
    assert UserName(0) == "username#0" && UserName(1) == "username#1";
    assert UserName(2) == "username#2" && UserName(3) == "username#3";
    assert forall i | 0 <= i < n :: names[i] == UserName(i);
    FindIsFirst(names, "username#3", if n > 3 then 3 else n);
  }

  lemma NamesFromHolds(list: UserRing, draws: seq<Draw>)
    requires list.Valid() && |list.ring| == |draws| + 1
    requires forall m | 1 <= m <= |draws| :: Holds(list.ring[m], m - 1, draws[m - 1])
    ensures list.Names() == InitNames(|draws|)
  {
    forall i | 0 <= i < |draws|
      ensures list.Names()[i] == InitNames(|draws|)[i]
    {
      assert Holds(list.ring[i + 1], i, draws[i]);
    }
  }

  /** The age drawn for the first user that init gives that name. */
  function DrawnAge(draws: seq<Draw>, name: string): Option<nat> {
    var k := Find(InitNames(|draws|), name);
    if k < |draws| then Some(draws[k].age) else None
  }

  /** The listing and the ages of the users as drawn. */
  ghost predicate ReportsDrawn(r: Report, draws: seq<Draw>, gets: seq<string>) {
    && r.listing.count == |r.listing.lines| == |draws|
    && (forall i | 0 <= i < |draws| ::
          r.listing.lines[i] == UserLine(UserName(i), draws[i].age, CartText(draws[i].cart)))
    && r.listing.ends == (if draws == [] then None else Some((UserName(0), UserName(|draws| - 1))))
    && |r.ages| == |gets| && forall i | 0 <= i < |gets| :: r.ages[i] == DrawnAge(draws, gets[i])
  }

  lemma ReportOfDrawn(r: Report, list: UserRing, draws: seq<Draw>, gets: seq<string>)
    requires list.Valid() && |list.ring| == |draws| + 1 && Reports(r, list, gets)
    requires forall m | 1 <= m <= |draws| :: Holds(list.ring[m], m - 1, draws[m - 1])
    ensures ReportsDrawn(r, draws, gets)
  {
    NamesFromHolds(list, draws);
    forall i | 0 <= i < |draws|
      ensures r.listing.lines[i] == UserLine(UserName(i), draws[i].age, CartText(draws[i].cart))
    {
      assert Holds(list.ring[i + 1], i, draws[i]);
    }
    forall i | 0 <= i < |gets|
      ensures r.ages[i] == DrawnAge(draws, gets[i])
    {
      assert HasAge(list, gets[i], r.ages[i]);
      var k := Find(list.Names(), gets[i]);
      if k < |draws| { assert Holds(list.ring[k + 1], k, draws[k]); }
    }
  }

  /** The lookups of the sample find numbers 2 and 4 if there are so many users, and nobody else. */
  lemma SampleLookups(draws: seq<Draw>)
    requires |draws| <= 0x1_0000_0000
    ensures DrawnAge(draws, GET_TARGETS[0]) == if |draws| > 2 then Some(draws[2].age) else None
    ensures DrawnAge(draws, GET_TARGETS[1]) == if |draws| > 4 then Some(draws[4].age) else None
    ensures DrawnAge(draws, GET_TARGETS[2]) == None
  {
    assert UserName(2) == "username#2" && UserName(4) == "username#4";
    FindUserName(|draws|, 2);
    FindUserName(|draws|, 4);
    NobodyIsDrawn(|draws|);
  }

  lemma NobodyIsDrawn(n: nat)
    ensures Find(InitNames(n), "nobody") == n
  {
    forall j: nat | j < n
      ensures InitNames(n)[j] != "nobody"
    {
      assert UserName(j)[0] == 'u' && "nobody"[0] == 'n';
    }
    FindIsFirst(InitNames(n), "nobody", n);
  }

  /** The list holds every user as drawn except for the update. */
  ghost predicate Filled(list: UserRing, draws: seq<Draw>)
    requires |list.ring| >= 1
    reads list, list.ring
  {
    && list.Names() == InitNames(|draws|)
    && forall m | 1 <= m <= |draws| :: Left(list.ring[m], m - 1, draws[m - 1])
  }

  /** The first half of the walk-through on the users as drawn. */
  method ShowAndUpdate(list: UserRing, draws: seq<Draw>, gets: seq<string>) returns (before: Report)
    requires list.Valid() && |list.ring| == |draws| + 1
    requires forall m | 1 <= m <= |draws| :: Holds(list.ring[m], m - 1, draws[m - 1])
    modifies (list.nodes - {list.head})`age, (list.nodes - {list.head})`cart
    ensures list.Valid() && Filled(list, draws) && ReportsDrawn(before, draws, gets)
  {
    ghost var users := list.Entries();
    assert forall m | 1 <= m <= |draws| :: list.ring[m] == users[m - 1];
    NamesFromHolds(list, draws);
    FindNumber3(|draws|);
    forall r: Report | Reports(r, list, gets)
      ensures ReportsDrawn(r, draws, gets)
    {
      ReportOfDrawn(r, list, draws, gets);
    }
    var updated: bool;
    before, updated := LookUpAndUpdate(list, gets);
    forall m | 1 <= m <= |draws|
      ensures Left(list.ring[m], m - 1, draws[m - 1])
    {
      assert list.Names()[m - 1] == UserName(m - 1);
      assert Updated(users[m - 1], m - 1 == 3, 99, [4, 5], draws[m - 1].age, draws[m - 1].cart);
    }
  }

  /** list_module_init up to the delete loop: on success the list holds every user, updated. */
  method Fill(list: UserRing, draws: seq<Draw>, allocOk: seq<bool>, gets: seq<string>)
    returns (ret: int, before: Option<Report>)
    requires list.Valid() && list.ring == [list.head]
    requires |allocOk| == |draws| && forall i | 0 <= i < |draws| :: Drawn(draws[i])
    modifies list, list.head`next, list.head`prev
    ensures list.Valid()
    ensures ret == if false in allocOk then -ENOMEM else 0
    ensures ret != 0 ==> list.ring == [list.head] && list.live == old(list.live)
    ensures ret == 0 ==>
      && Filled(list, draws) && fresh(list.nodes - {list.head})
      && list.live == old(list.live) + (list.nodes - {list.head})
      && |list.ring| == |draws| + 1
      && before.Some? && ReportsDrawn(before.value, draws, gets)
  {
    before := None;
    ret := AddUsers(list, draws, allocOk);
    if ret == 0 {
      assert list.head !in old(list.live);
      var report := ShowAndUpdate(list, draws, gets);
      before := Some(report);
    }
  }

  /** After the deletes: users left plus users deleted are the users drawn, and every user left
      is as drawn except for the update. */
  ghost predicate Finished(list: UserRing, draws: seq<Draw>, targets: seq<string>, rets: seq<int>)
    requires |list.ring| >= 1
    reads list, list.ring
  {
    && list.Names() == DeletedAll(InitNames(|draws|), targets)
    && rets == DeleteResults(InitNames(|draws|), targets)
    && |list.Names()| + Zeros(rets) == |draws|
    && forall x | x in list.Entries() :: IsLeft(x, draws)
  }

  ghost predicate IsLeft(x: Node, draws: seq<Draw>)
    reads x`username, x`age, x`cart
  {
    exists i :: 0 <= i < |draws| && Left(x, i, draws[i])
  }

  lemma FilledAreLeft(list: UserRing, draws: seq<Draw>)
    requires list.Valid() && |list.ring| == |draws| + 1 && Filled(list, draws)
    ensures forall x | x in list.nodes && x != list.head :: IsLeft(x, draws)
  {
    forall x | x in list.nodes && x != list.head
      ensures IsLeft(x, draws)
    {
      var m :| 0 <= m < |list.ring| && list.ring[m] == x;
      assert Left(list.ring[m], m - 1, draws[m - 1]);
    }
  }

  lemma EntriesAreNodes(list: UserRing)
    requires list.Valid()
    ensures forall x | x in list.Entries() :: x in list.nodes && x != list.head
  {
    forall x | x in list.Entries()
      ensures x in list.nodes && x != list.head
    {
      var m :| 1 <= m < |list.ring| && list.ring[m] == x;
    }
  }

  /** The delete loop on the filled list. */
  method DeleteFromFilled(list: UserRing, draws: seq<Draw>, targets: seq<string>)
    returns (rets: seq<int>)
    requires list.Valid() && |list.ring| == |draws| + 1 && Filled(list, draws)
    modifies list, list.nodes`next, list.nodes`prev
    ensures list.Valid() && list.nodes <= old(list.nodes)
    ensures list.live == old(list.live) - (old(list.nodes) - list.nodes)
    ensures Finished(list, draws, targets, rets)
  {
    FilledAreLeft(list, draws);
    DeletesAddUp(InitNames(|draws|), targets);
    rets := DeleteTargets(list, targets);
    assert forall x | x in list.Entries() :: IsLeft(x, draws) by { EntriesAreNodes(list); }
  }

  /** The second half of the walk-through. */
  method DeleteAndShow(list: UserRing, draws: seq<Draw>, targets: seq<string>)
    returns (rets: seq<int>, after: Listing)
    requires list.Valid() && |list.ring| == |draws| + 1 && Filled(list, draws)
    modifies list, list.nodes`next, list.nodes`prev
    ensures list.Valid() && list.nodes <= old(list.nodes)
    ensures list.live == old(list.live) - (old(list.nodes) - list.nodes)
    ensures Finished(list, draws, targets, rets) && Shows(after, list)
  {
    rets := DeleteFromFilled(list, draws, targets);
    after := PrintAllUserInfos(list);
  }

  lemma FreedOfFresh<T>(live: set<T>, filled: set<T>, left: set<T>, head: T)
    requires live !! filled - {head} && left <= filled && head in left
    ensures live + (filled - {head}) - (filled - left) == live + (left - {head})
  {
  }

  /** list_module_init, for any names to look up and to delete: nothing but the users left stays
      allocated, and the two listings show the list before and after. */
  method ModuleInit(list: UserRing, draws: seq<Draw>, allocOk: seq<bool>,
                    gets: seq<string>, targets: seq<string>)
    returns (ret: int, before: Option<Report>, rets: seq<int>, after: Option<Listing>)
    requires list.Valid() && list.ring == [list.head]
    requires |allocOk| == |draws| && forall i | 0 <= i < |draws| :: Drawn(draws[i])
    modifies list, list.head`next, list.head`prev
    ensures list.Valid()
    ensures ret == if false in allocOk then -ENOMEM else 0
    ensures ret != 0 ==> list.ring == [list.head] && list.live == old(list.live)
    ensures ret == 0 ==>
      && list.live == old(list.live) + (list.nodes - {list.head})
      && before.Some? && ReportsDrawn(before.value, draws, gets)
      && Finished(list, draws, targets, rets)
      && after.Some? && Shows(after.value, list)
  {
    rets, after := [], None;
    ret, before := Fill(list, draws, allocOk, gets);
    if ret == 0 {
      ghost var filled := list.nodes;
      var listing: Listing;
      rets, listing := DeleteAndShow(list, draws, targets);
      after := Some(listing);
      assert old(list.live) !! filled - {list.head};
      FreedOfFresh(old(list.live), filled, list.nodes, list.head);
    }
  }

  /** list_module_exit */
  method ModuleExit(list: UserRing)
    requires list.Valid()
    modifies list, list.nodes`next, list.nodes`prev
    ensures list.Valid() && list.ring == [list.head]
    ensures list.live == old(list.live) - (old(list.nodes) - {list.head})
  {
    list.FreeAllUserInfos();
  }

  // ---------- which users the walk-through leaves

  lemma {:induction false} DeletedAllMembers(names: seq<string>, targets: seq<string>, name: string)
    requires Distinct(names)
    ensures Distinct(DeletedAll(names, targets))
    ensures name in DeletedAll(names, targets) <==> name in names && name !in targets
  {
    if targets != [] {
      var rest, last := targets[..|targets| - 1], targets[|targets| - 1];
      DeletedAllMembers(names, rest, name);
      DeletedIsGone(DeletedAll(names, rest), last);
      assert targets == rest + [last];
    }
  }

  /** The deletes of the sample: number 1, number 1 again, number 4, nobody. */
  lemma SampleDeletes(n: nat)
    requires n <= 0x1_0000_0000
    ensures DeleteResults(InitNames(n), DELETE_TARGETS)
            == [if n > 1 then 0 else -2, -2, if n > 4 then 0 else -2, -2]
  {
    var names, targets := InitNames(n), DELETE_TARGETS;
    InitNamesDistinct(n);
    assert targets[0] == targets[1] == UserName(1) && targets[2] == UserName(4);
    FindUserName(n, 1);
    FindUserName(n, 4);
    NobodyIsDrawn(n);
    FindMember(names, targets[0]);
    FindMember(names, targets[2]);
    FindMember(names, targets[3]);
    DeleteResultAt(names, targets, 0);
    DeleteResultAt(names, targets, 1);
    DeleteResultAt(names, targets, 2);
    DeleteResultAt(names, targets, 3);
    assert targets[1] == targets[..1][0];
    assert targets[2] !in targets[..2];
  }

  /** For any number of users, init leaves exactly those other than number 1 and number 4. */
  lemma FinalUsers(n: nat, i: nat)
    requires i < n <= 0x1_0000_0000
    ensures UserName(i) in DeletedAll(InitNames(n), DELETE_TARGETS) <==> i != 1 && i != 4
  {
    InitNamesDistinct(n);
    DeletedAllMembers(InitNames(n), DELETE_TARGETS, UserName(i));
    assert InitNames(n)[i] == UserName(i);
    NameFits(i);
    assert UserName(1) == "username#1" && UserName(4) == "username#4";
    NamesAreUnique(i, 1);
    NamesAreUnique(i, 4);
    assert UserName(i)[0] == 'u';
  }
}
