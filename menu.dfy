/**
 * The barista's three tools over its two fixed tables: the coffee menu and
 * the preset weather per city.
 */
module Menu {
  import opened Wrappers
  import opened Text

  /**
   * One menu record. The price is kept as the text Python prints for it
   * (`3.0`), since only that text ever leaves the program.
   */
  datatype MenuItem = MenuItem(
    id: int,
    name: string,
    description: string,
    price: string,
    popularity: int,
    allergens: seq<string>)

  const COFFEE_MENU: seq<MenuItem> := [
    MenuItem(1, "Espresso", "Strong and bold espresso shot.", "2.5", 90, []),
    MenuItem(2, "Cappuccino", "Espresso with steamed milk and foam.", "3.0", 85, ["milk"]),
    MenuItem(3, "Latte", "Smooth espresso with lots of steamed milk.", "3.5", 80, ["milk"]),
    MenuItem(4, "Mocha", "Espresso with chocolate and steamed milk.", "4.0", 75, ["milk", "soy"]),
    MenuItem(5, "Americano", "Espresso with hot water for a lighter taste.", "2.8", 70, []),
    MenuItem(6, "Flat White", "Velvety espresso with microfoam milk.", "3.2", 65, ["milk"]),
    MenuItem(7, "Iced Coffee", "Chilled coffee served over ice.", "3.0", 60, []),
    MenuItem(8, "Caramel Macchiato", "Espresso, steamed milk, and caramel drizzle.", "4.2", 78, ["milk"])
  ]

  /** A weather record; a temperature of `None` is Python's `None`. */
  datatype Weather = Weather(temperature: Option<int>, condition: string)

  const WEATHER_DATA: map<string, Weather> := map[
    "london" := Weather(Some(16), "cloudy"),
    "new york" := Weather(Some(22), "sunny"),
    "paris" := Weather(Some(18), "rainy"),
    "tokyo" := Weather(Some(20), "clear"),
    "sydney" := Weather(Some(25), "sunny")
  ]

  /** The record returned for a city that is not in the table. */
  const UNKNOWN_WEATHER := Weather(None, "unknown")

  // ---------------------------------------------------------------- search

  /** The search test for one item: the lowered query occurs in its lowered name or description. */
  predicate Matches(item: MenuItem, query: string)
  {
    Contains(Lower(item.name), Lower(query)) || Contains(Lower(item.description), Lower(query))
  }

  /** The items of `menu` that match `query`, in menu order. */
  function Select(menu: seq<MenuItem>, query: string): seq<MenuItem>
    decreases |menu|
  {
    if menu == [] then []
    else
      var rest := Select(menu[..|menu| - 1], query);
      if Matches(menu[|menu| - 1], query) then rest + [menu[|menu| - 1]] else rest
  }

  /** `a` is `b` with some elements left out, the rest kept in order. */
  predicate IsSubsequence<T(==)>(a: seq<T>, b: seq<T>)
    decreases |b|
  {
    if a == [] then true
    else if b == [] then false
    else if a[|a| - 1] == b[|b| - 1] then IsSubsequence(a[..|a| - 1], b[..|b| - 1])
    else IsSubsequence(a, b[..|b| - 1])
  }

  /** An item is selected exactly when it is on the menu and matches. */
  lemma {:induction false} SelectMembers(menu: seq<MenuItem>, query: string)
    ensures forall x :: x in Select(menu, query) <==> x in menu && Matches(x, query)
    decreases |menu|
  {
    if menu != [] {
      SelectMembers(menu[..|menu| - 1], query);
      assert menu == menu[..|menu| - 1] + [menu[|menu| - 1]];
    }
  }

  /** The results keep menu order: they are a subsequence of the menu. */
  lemma {:induction false} SelectIsSubsequence(menu: seq<MenuItem>, query: string)
    ensures IsSubsequence(Select(menu, query), menu)
    decreases |menu|
  {
    if menu != [] {
      var init := menu[..|menu| - 1];
      SelectIsSubsequence(init, query);
      if Matches(menu[|menu| - 1], query) {
        var r := Select(menu, query);
        assert r[..|r| - 1] == Select(init, query);
      } else {
        assert init + [menu[|menu| - 1]] == menu;
        SubsequenceExtend(Select(init, query), init, menu[|menu| - 1]);
      }
    }
  }

  /** A subsequence of `b` is a subsequence of `b` with one more element at the end. */
  lemma {:induction false} SubsequenceExtend<T>(a: seq<T>, b: seq<T>, x: T)
    requires IsSubsequence(a, b)
    ensures IsSubsequence(a, b + [x])
    decreases |b|, 1
  {
    var bx := b + [x];
    assert bx[..|bx| - 1] == b;
    if a != [] && a[|a| - 1] == x {
      SubsequenceDropLast(a, b);
    }
  }

  /** Dropping the last element of a subsequence keeps it a subsequence. */
  lemma {:induction false} SubsequenceDropLast<T>(a: seq<T>, b: seq<T>)
    requires a != [] && IsSubsequence(a, b)
    ensures IsSubsequence(a[..|a| - 1], b)
    decreases |b|, 0
  {
    var b' := b[..|b| - 1];
    assert b' + [b[|b| - 1]] == b;
    if a[|a| - 1] == b[|b| - 1] {
      SubsequenceExtend(a[..|a| - 1], b', b[|b| - 1]);
    } else {
      SubsequenceDropLast(a, b');
      SubsequenceExtend(a[..|a| - 1], b', b[|b| - 1]);
    }
  }

  /** The empty query occurs in every name, so it selects the whole menu. */
  lemma {:induction false} SelectEmptyQuery(menu: seq<MenuItem>)
    ensures Select(menu, "") == menu
    decreases |menu|
  {
    if menu != [] {
      SelectEmptyQuery(menu[..|menu| - 1]);
      ContainsEmpty(Lower(menu[|menu| - 1].name));
    }
  }

  /** Only the lowered query matters: queries equal up to case select the same items. */
  lemma {:induction false} SelectIgnoresCase(menu: seq<MenuItem>, q1: string, q2: string)
    requires Lower(q1) == Lower(q2)
    ensures Select(menu, q1) == Select(menu, q2)
    decreases |menu|
  {
    if menu != [] {
      SelectIgnoresCase(menu[..|menu| - 1], q1, q2);
    }
  }

  /** Filtering one more item of the menu appends it exactly when it matches. */
  lemma SelectStep(menu: seq<MenuItem>, i: nat, query: string)
    requires i < |menu|
    ensures Select(menu[..i + 1], query) ==
      if Matches(menu[i], query) then Select(menu[..i], query) + [menu[i]] else Select(menu[..i], query)
  {
    assert menu[..i + 1][..i] == menu[..i];
  }

  /** The whole menu as a slice filters like the menu itself. */
  lemma SelectWhole(menu: seq<MenuItem>, query: string)
    ensures Select(menu[..|menu|], query) == Select(menu, query)
  {
    assert menu[..|menu|] == menu;
  }

  /** `search_items(query_string)`: the loop over the menu that collects the matches. */
  method SearchItems(queryString: string) returns (results: seq<MenuItem>)
    ensures results == Select(COFFEE_MENU, queryString)
    ensures forall x :: x in results <==> x in COFFEE_MENU && Matches(x, queryString)
    ensures IsSubsequence(results, COFFEE_MENU)
  {
    var query := Lower(queryString);
    results := [];
    for i := 0 to |COFFEE_MENU|
      invariant results == Select(COFFEE_MENU[..i], queryString)
    {
      var item := COFFEE_MENU[i];
      SelectStep(COFFEE_MENU, i, queryString);
      if Contains(Lower(item.name), query) || Contains(Lower(item.description), query) {
        results := results + [item];
      }
    }
    SelectWhole(COFFEE_MENU, queryString);
    SelectMembers(COFFEE_MENU, queryString);
    SelectIsSubsequence(COFFEE_MENU, queryString);
  }

  // --------------------------------------------------------------- weather

  /** `get_weather(city)`: the record under the lowered city name, or the unknown record. */
  function GetWeather(city: string): Weather
  {
    var key := Lower(city);
    if key in WEATHER_DATA then WEATHER_DATA[key] else UNKNOWN_WEATHER
  }

  /** Every key of the table is already lower case, so every record can be reached. */
  lemma WeatherKeysReachable()
    ensures forall key :: key in WEATHER_DATA ==> Lower(key) == key && GetWeather(key) == WEATHER_DATA[key]
  {
    forall key | key in WEATHER_DATA
      ensures Lower(key) == key && GetWeather(key) == WEATHER_DATA[key]
    {
      assert key in {"london", "new york", "paris", "tokyo", "sydney"};
      LowerOfLowerCase(key);
    }
  }

  /**
   * The lookup depends on the lowered name only, and it answers with a real
   * record exactly when the lowered name is a key of the table.
   */
  lemma GetWeatherSpec(city: string)
    ensures GetWeather(city) == GetWeather(Lower(city))
    ensures GetWeather(city) != UNKNOWN_WEATHER <==> Lower(city) in WEATHER_DATA
    ensures Lower(city) in WEATHER_DATA ==> GetWeather(city) == WEATHER_DATA[Lower(city)]
  {
    LowerIdempotent(city);
  }

  // ---------------------------------------------------------------- orders

  /** A Python value handed to a tool: the argument payload holds strings and integers. */
  datatype Value = Str(s: string) | Int(i: int)

  /** Python's `str(v)` of an argument value. */
  function Show(v: Value): string
  {
    match v
    case Str(s) => s
    case Int(i) => IntToString(i)
  }

  /** Position of the first item whose id equals `itemId` (Python `==`: a string never equals an int). */
  function FirstWithId(menu: seq<MenuItem>, itemId: Value): (r: Option<nat>)
    ensures r.Some? ==> r.value < |menu| && Int(menu[r.value].id) == itemId
    ensures r.Some? ==> forall j :: 0 <= j < r.value ==> Int(menu[j].id) != itemId
    ensures r.None? <==> forall j :: 0 <= j < |menu| ==> Int(menu[j].id) != itemId
    decreases |menu|
  {
    if menu == [] then None
    else if Int(menu[0].id) == itemId then Some(0)
    else match FirstWithId(menu[1..], itemId)
      case None => None
      case Some(k) => Some(k + 1)
  }

  /** What `order_item` returns, and the lines it prints on the console. */
  datatype Receipt = Receipt(message: string, printed: seq<string>)

  function Confirmation(item: MenuItem): string
  {
    "Order placed: " + item.name + " (id: " + IntToString(item.id) + ") for $" + item.price
  }

  function NotFound(itemId: Value): string
  {
    "Item with id " + Show(itemId) + " not found."
  }

  /** `order_item(item_id)`: confirm and print the order of the first item with that id. */
  function OrderItem(itemId: Value): Receipt
  {
    match FirstWithId(COFFEE_MENU, itemId)
    case Some(k) =>
      var msg := Confirmation(COFFEE_MENU[k]);
      Receipt(msg, [msg])
    case None => Receipt(NotFound(itemId), [])
  }

  /** Menu ids are distinct, so the id of an item names that item. */
  lemma MenuIdsDistinct()
    ensures forall k :: 0 <= k < |COFFEE_MENU| ==> COFFEE_MENU[k].id == k + 1
    ensures forall j, k :: 0 <= j < k < |COFFEE_MENU| ==> COFFEE_MENU[j].id != COFFEE_MENU[k].id
  {
  }

  /**
   * An order for an id on the menu confirms that item and prints the
   * confirmation once; any other value is answered with the not-found text
   * and prints nothing.
   */
  lemma OrderItemSpec(itemId: Value)
    ensures forall k :: 0 <= k < |COFFEE_MENU| && Int(COFFEE_MENU[k].id) == itemId ==>
      OrderItem(itemId) == Receipt(Confirmation(COFFEE_MENU[k]), [Confirmation(COFFEE_MENU[k])])
    ensures (forall k :: 0 <= k < |COFFEE_MENU| ==> Int(COFFEE_MENU[k].id) != itemId) ==>
      OrderItem(itemId) == Receipt(NotFound(itemId), [])
    ensures OrderItem(itemId).printed != [] <==> exists k :: 0 <= k < |COFFEE_MENU| && Int(COFFEE_MENU[k].id) == itemId
  {
    MenuIdsDistinct();
  }

  // -------------------------------------------------------- worked examples

  /** London is found whatever its case ("London", "LONDON", ...): 16 degrees and cloudy. */
  lemma LondonWeather(city: string)
    requires Lower(city) == "london"
    ensures GetWeather(city) == Weather(Some(16), "cloudy")
  {
    assert "london" in WEATHER_DATA;
  }

  /** A city missing from the table, such as Atlantis, gets the unknown record whatever its case. */
  lemma AtlantisWeather(city: string)
    requires Lower(city) == "atlantis"
    ensures GetWeather(city) == UNKNOWN_WEATHER
  {
    assert "atlantis" !in WEATHER_DATA;
  }

  /** Ordering id 2 confirms the cappuccino at 3.0 and prints the confirmation. */
  lemma OrderCappuccinoExample()
    ensures OrderItem(Int(2)).message == Confirmation(COFFEE_MENU[1])
    ensures OrderItem(Int(2)).printed == [OrderItem(Int(2)).message]
    ensures Contains(OrderItem(Int(2)).message, "Cappuccino") && Contains(OrderItem(Int(2)).message, "3.0")
  {
    assert COFFEE_MENU[1].id == 2;
    assert FirstWithId(COFFEE_MENU, Int(2)) == Some(1);
    var item := COFFEE_MENU[1];
    var head := "Order placed: ";
    var tail := " (id: " + IntToString(item.id) + ") for $" + item.price;
    assert Confirmation(item) == head + item.name + tail;
    ContainsInfix(head, item.name, tail);
    ContainsInfix(head + item.name + " (id: " + IntToString(item.id) + ") for $", item.price, "");
    assert Confirmation(item) == head + item.name + " (id: " + IntToString(item.id) + ") for $" + item.price + "";
  }

  /** An integer id off the menu, such as 999, is answered with the not-found text and prints nothing. */
  lemma OrderOffMenu(id: int)
    requires id < 1 || 8 < id
    ensures OrderItem(Int(id)) == Receipt("Item with id " + IntToString(id) + " not found.", [])
  {
    MenuIdsDistinct();
    OrderItemSpec(Int(id));
  }

  /** An id given as a string never equals an integer id, so it is never found, even "2". */
  lemma OrderStringId(s: string)
    ensures OrderItem(Str(s)) == Receipt("Item with id " + s + " not found.", [])
  {
    OrderItemSpec(Str(s));
  }
}
