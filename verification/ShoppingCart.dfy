/**
 print_shopping_cart of data_structure/list.c: the loop that joins food names in a buffer of
 128 bytes, what it prints, and why what it prints can be read back.
 */
module ShoppingCart {
  import opened Wrappers
  import opened Text

  const MAX_CART_SIZE: nat := 10
  const CART_BUFFER: nat := 128
  const N_FOOD_CODES: int := 6

  /** gs_food_names, and "unknown" for anything outside enum food_code. */
  function GetFoodName(food: int): (name: string)
    ensures 1 <= |name| <= 10 && NoNul(name) && ',' !in name
  {
    if food == 0 then "banana" else if food == 1 then "kiwi" else if food == 2 then "strawberry"
    else if food == 3 then "bread" else if food == 4 then "milk" else if food == 5 then "ham"
    else "unknown"
  }

  function FoodNames(items: seq<int>): (names: seq<string>)
    ensures |names| == |items|
    ensures forall i | 0 <= i < |items| :: names[i] == GetFoodName(items[i])
  {
    if items == [] then [] else [GetFoodName(items[0])] + FoodNames(items[1..])
  }

  /** Names separated by ", ". */
  function Joined(names: seq<string>): string {
    if names == [] then "" else if |names| == 1 then names[0]
    else names[0] + ", " + Joined(names[1..])
  }

  /** What is printed after "cart(..): ". */
  function CartText(items: seq<int>): string {
    if items == [] then "(empty)" else Cut(Joined(FoodNames(items)), CART_BUFFER)
  }

  function Separator(i: nat): string { if i > 0 then ", " else "" }

  /** One more name at the end, the way the loop adds it. */
  lemma {:induction false} JoinedAppend(names: seq<string>, name: string)
    ensures Joined(names + [name]) == Joined(names) + (Separator(|names|) + name)
  {
    if |names| == 0 {
      assert names + [name] == [name];
    } else {
      assert (names + [name])[1..] == names[1..] + [name];
      JoinedAppend(names[1..], name);
      if |names| == 1 {
        assert Joined(names[1..] + [name]) == name;
      }
    }
  }

  /** What one turn of the loop adds to the buffer. */
  lemma NextPiece(names: seq<string>, i: nat)
    requires i < |names|
    ensures var before := Cut(Joined(names[..i]), CART_BUFFER);
      before + Cut(Separator(i) + names[i], CART_BUFFER - |before|) == Cut(Joined(names[..i + 1]), CART_BUFFER)
  {
    assert names[..i + 1] == names[..i] + [names[i]];
    JoinedAppend(names[..i], names[i]);
    CutAppend(Joined(names[..i]), Separator(i) + names[i], CART_BUFFER);
  }

  lemma {:induction false} JoinedHasNoNul(names: seq<string>)
    requires forall i | 0 <= i < |names| :: NoNul(names[i])
    ensures NoNul(Joined(names))
  {
    if |names| > 1 {
      JoinedHasNoNul(names[1..]);
    }
  }

  /** What is printed has no NUL in it. */
  lemma CartTextHasNoNul(items: seq<int>)
    requires items != []
    ensures NoNul(CartText(items))
  {
    JoinedHasNoNul(FoodNames(items));
  }

  /** One turn of the loop: one more name, as much of it as fits. */
  method AddName(cart: array<char>, len: nat, i: nat, name: string, ghost names: seq<string>)
    returns (len': nat)
    requires cart.Length == CART_BUFFER && i < |names| && name == names[i]
    requires len < CART_BUFFER && cart[..len] == Cut(Joined(names[..i]), CART_BUFFER)
    modifies cart
    ensures len' < CART_BUFFER && cart[len'] == '\0'
    ensures cart[..len'] == Cut(Joined(names[..i + 1]), CART_BUFFER)
  {
    ghost var before := cart[..len];
    assert |before| == len;
    NextPiece(names, i);
    var n := Scnprintf(cart, len, CART_BUFFER - len, Separator(i) + name);
    len' := len + n;
    assert cart[..len'] == before + Cut(Separator(i) + name, CART_BUFFER - len);
  }

  /** The loop of print_shopping_cart. `len` stays below the size of the buffer, so that the
      room left never underflows, however many items there are. */
  method PrintShoppingCart(items: seq<int>) returns (text: string)
    ensures text == CartText(items)
  {
    ghost var names := FoodNames(items);
    var cart := new char[CART_BUFFER](_ => '\0');
    var len: nat := 0;
    var i := 0;
    while i < |items|
      invariant 0 <= i <= |items|
      invariant len <= 127 && cart[len] == '\0'
      invariant cart[..len] == Cut(Joined(names[..i]), CART_BUFFER)
    {
      len := AddName(cart, len, i, GetFoodName(items[i]), names);
      i := i + 1;
    }
    if |items| == 0 {
      text := "(empty)";
    } else {
      assert names[..i] == names;
      assert cart[..len] == CartText(items);
      CartTextHasNoNul(items);
      assert forall m | 0 <= m < len :: cart[m] == cart[..len][m];
      text := CString(cart, len);
    }
  }

  // ---------- nothing is cut in a cart of at most ten items

  lemma {:induction false} JoinedLength(names: seq<string>)
    requires forall i | 0 <= i < |names| :: |names[i]| <= 10
    ensures |Joined(names)| <= if |names| == 0 then 0 else 12 * |names| - 2
  {
    if |names| > 1 { JoinedLength(names[1..]); }
  }

  lemma TenItemsFit(items: seq<int>)
    requires 1 <= |items| <= MAX_CART_SIZE
    ensures CartText(items) == Joined(FoodNames(items)) && |CartText(items)| <= 118
  {
    JoinedLength(FoodNames(items));
  }

  /** A longer cart is cut to what 127 characters hold. */
  lemma LongCartIsCut(items: seq<int>)
    requires items != []
    ensures CartText(items) <= Joined(FoodNames(items))
    ensures |CartText(items)| == if |Joined(FoodNames(items))| <= 127 then |Joined(FoodNames(items))| else 127
  {
  }

  lemma JoinedMore(name: string, names: seq<string>)
    requires names != []
    ensures Joined([name] + names) == name + ", " + Joined(names)
  {
    assert ([name] + names)[1..] == names;
  }

  lemma JoinedOne(name: string)
    ensures Joined([name]) == name
  {
  }

  /** enum food_code in its order. */
  lemma FoodsInOrder()
    ensures FoodNames([0, 1, 2, 3, 4, 5]) == ["banana", "kiwi", "strawberry", "bread", "milk", "ham"]
  {
  }

  /** An empty cart, and the one that the walk-through gives to username#3. */
  lemma SampleCarts()
    ensures CartText([]) == "(empty)" && CartText([4, 5]) == "milk" + ", " + "ham"
  {
    TenItemsFit([4, 5]);
    assert FoodNames([4, 5]) == ["milk"] + ["ham"];
    JoinedOne("ham");
    JoinedMore("milk", ["ham"]);
  }

  lemma UnknownFood(food: int)
    requires food < 0 || food >= 6
    ensures CartText([food]) == "unknown"
  {
    assert FoodNames([food]) == ["unknown"];
    JoinedOne("unknown");
  }

  // ---------- reading a cart back

  /** Position of the first comma, or the length. */
  function Comma(s: string): (k: nat)
    ensures k <= |s| && (forall i | 0 <= i < k :: s[i] != ',') && (k < |s| ==> s[k] == ',')
  {
    if s == "" || s[0] == ',' then 0 else 1 + Comma(s[1..])
  }

  function Split(s: string): seq<string>
    decreases |s|
  {
    var k := Comma(s);
    if k + 2 > |s| then [s] else [s[..k]] + Split(s[k + 2..])
  }

  lemma CommaAfter(name: string, rest: string)
    requires ',' !in name
    ensures Comma(name + ", " + rest) == |name| && Comma(name) == |name|
  {
    var s := name + ", " + rest;
    assert s[|name|] == ',';
    assert forall i | 0 <= i < |name| :: s[i] == name[i];
  }

  lemma {:induction false} SplitJoined(names: seq<string>)
    requires names != [] && forall i | 0 <= i < |names| :: ',' !in names[i]
    ensures Split(Joined(names)) == names
  {
    if |names| == 1 {
      CommaAfter(names[0], "");
    } else {
      var rest := Joined(names[1..]);
      var s := names[0] + ", " + rest;
      CommaAfter(names[0], rest);
      assert s[..|names[0]|] == names[0] && s[|names[0]| + 2..] == rest;
      SplitJoined(names[1..]);
    }
  }

  function FoodCode(name: string): Option<int> {
    if name == "banana" then Some(0) else if name == "kiwi" then Some(1)
    else if name == "strawberry" then Some(2) else if name == "bread" then Some(3)
    else if name == "milk" then Some(4) else if name == "ham" then Some(5) else None
  }

  function Codes(names: seq<string>): seq<int> {
    if names == [] then []
    else (if FoodCode(names[0]).Some? then [FoodCode(names[0]).value] else []) + Codes(names[1..])
  }

  function ReadCart(text: string): seq<int> {
    Codes(Split(text))
  }

  predicate Foods(items: seq<int>) {
    forall i | 0 <= i < |items| :: 0 <= items[i] < N_FOOD_CODES
  }

  lemma CodeOfName(food: int)
    requires 0 <= food < N_FOOD_CODES
    ensures FoodCode(GetFoodName(food)) == Some(food)
  {
  }

  lemma {:induction false} CodesOfNames(items: seq<int>)
    requires Foods(items)
    ensures Codes(FoodNames(items)) == items
  {
    if items != [] {
      CodeOfName(items[0]);
      assert FoodNames(items)[1..] == FoodNames(items[1..]);
      CodesOfNames(items[1..]);
    }
  }

  /** The printed text of a cart gives the cart back. */
  lemma CartRoundTrip(items: seq<int>)
    requires |items| <= MAX_CART_SIZE && Foods(items)
    ensures ReadCart(CartText(items)) == items
  {
    if items == [] {
      EmptyReadsBack();
    } else {
      TenItemsFit(items);
      SplitJoined(FoodNames(items));
      CodesOfNames(items);
    }
  }

  lemma EmptyReadsBack()
    ensures ReadCart("(empty)") == []
  {
    CommaAfter("(empty)", "");
    assert Split("(empty)") == ["(empty)"];
  }

  /** So different carts are printed differently. */
  lemma CartTextInjective(a: seq<int>, b: seq<int>)
    requires |a| <= MAX_CART_SIZE && |b| <= MAX_CART_SIZE && Foods(a) && Foods(b)
    ensures CartText(a) == CartText(b) <==> a == b
  {
    CartRoundTrip(a);
    CartRoundTrip(b);
  }
}
