/**
 * Orders (Order.java, OrderOutcome.java): a customer's order as received, validated by a
 * fixed sequence of checks whose first failure decides the outcome.
 */
module Orders {
  import opened Wrappers
  import opened JavaInts
  import opened Restaurants

  /** What became of an order. */
  datatype OrderOutcome =
    | Delivered
    | ValidButNotDelivered
    | InvalidCardNumber
    | InvalidExpiryDate
    | InvalidCvv
    | InvalidTotal
    | InvalidPizzaNotDefined
    | InvalidPizzaCount
    | InvalidPizzaCountMultipleSuppliers
    | Invalid

  /** The exceptions an order's methods can throw. */
  datatype OrderError =
    /** `LocalDate.parse` rejects the order date (DateTimeParseException). */
    | OrderDateUnparsable
    /** Asked for the restaurant or the cost before validation. */
    | NotYetValidated
    /** Asked for the restaurant or the cost of an invalid order. */
    | InvalidOrder
    /** An item has no price on the restaurant's menu (the unboxing NullPointerException). */
    | PriceMissing

  // ---------------------------------------------------------------------------------------
  // Characters and digits

  /** The character class `[0-9]`. */
  predicate IsDigit(c: char)
  {
    '0' <= c <= '9'
  }

  /** Every character is in `[0-9]`. */
  predicate AllDigits(s: string)
  {
    forall i :: 0 <= i < |s| ==> IsDigit(s[i])
  }

  /** `Integer.parseInt` of one digit. */
  function DigitValue(c: char): (d: nat)
    requires IsDigit(c)
    ensures d <= 9
  {
    c as int - '0' as int
  }

  /** `Integer.parseInt` of a string of digits: its decimal value. */
  function ParseDigits(s: string): (n: nat)
    requires AllDigits(s)
  {
    if |s| == 0 then 0 else ParseDigits(s[..|s| - 1]) * 10 + DigitValue(s[|s| - 1])
  }

  // ---------------------------------------------------------------------------------------
  // Card verification value

  /** `isCardCvvValid`: the whole string matches `^[0-9]{3}$`. */
  predicate CvvValid(cvv: string)
  {
    |cvv| == 3 && AllDigits(cvv)
  }

  // ---------------------------------------------------------------------------------------
  // Expiry date

  /** A calendar date. */
  datatype Date = Date(year: int, month: int, day: int)

  /** Gregorian leap years. */
  predicate IsLeapYear(y: int)
  {
    y % 4 == 0 && (y % 100 != 0 || y % 400 == 0)
  }

  /** The number of days in a month (`YearMonth.lengthOfMonth`). */
  function LastDay(y: int, m: int): (d: int)
    ensures 28 <= d <= 31
  {
    if m == 2 then (if IsLeapYear(y) then 29 else 28)
    else if m == 4 || m == 6 || m == 9 || m == 11 then 30
    else 31
  }

  /** `YearMonth.atEndOfMonth`. */
  function EndOfMonth(y: int, m: int): Date
  {
    Date(y, m, LastDay(y, m))
  }

  /** `LocalDate.isAfter`: strictly later in (year, month, day) order. */
  predicate IsAfter(a: Date, b: Date)
  {
    a.year > b.year || (a.year == b.year && (a.month > b.month || (a.month == b.month && a.day > b.day)))
  }

  /** Character `i` of `s` is a digit. */
  predicate DigitAt(s: string, i: int)
    requires 0 <= i < |s|
  {
    IsDigit(s[i])
  }

  /**
   * `LocalDate.parse(s, "yyyy-MM-dd")` under the default smart resolver: four year digits
   * (year of era from 1), a month from 1 to 12 and a day from 1 to 31, a day past the end
   * of the month being moved back to its last day; anything else is rejected.
   */
  function ParseOrderDate(s: string): (r: Option<Date>)
    ensures r.Some? ==> 1 <= r.value.month <= 12 && 1 <= r.value.day <= LastDay(r.value.year, r.value.month)
  {
    if |s| == 10 && AllDigits(s[..4]) && s[4] == '-' && AllDigits(s[5..7]) && s[7] == '-' && AllDigits(s[8..])
    then
      var y, m, d := ParseDigits(s[..4]), ParseDigits(s[5..7]), ParseDigits(s[8..]);
      if 1 <= y && 1 <= m <= 12 && 1 <= d <= 31
      then Some(Date(y, m, if d <= LastDay(y, m) then d else LastDay(y, m)))
      else None
    else None
  }

  /** The shape `([0-9]{2})/([0-9]{2})` of a five-character expiry. */
  predicate ExpiryShapeOk(e: string)
  {
    |e| == 5 && AllDigits(e[..2]) && e[2] == '/' && AllDigits(e[3..])
  }

  /** The expiry's month, `MM`. */
  function ExpiryMonth(e: string): nat
    requires ExpiryShapeOk(e)
  {
    ParseDigits(e[..2])
  }

  /** The expiry's year, `yy` read with the formatter's base year 2000. */
  function ExpiryYear(e: string): nat
    requires ExpiryShapeOk(e)
  {
    2000 + ParseDigits(e[3..])
  }

  /**
   * `isCardExpiryValid`: the shape, then the month, then whether the order date falls after
   * the last day of the expiry month. Parsing the order date may throw.
   */
  function ExpiryCheck(expiry: string, orderDate: string): Result<bool, OrderError>
  {
    if !ExpiryShapeOk(expiry) then Ok(false)
    else if ExpiryMonth(expiry) < 1 || ExpiryMonth(expiry) > 12 then Ok(false)
    else match ParseOrderDate(orderDate)
      case None => Err(OrderDateUnparsable)
      case Some(d) => Ok(!IsAfter(d, EndOfMonth(ExpiryYear(expiry), ExpiryMonth(expiry))))
  }

  /** A date within its month is after the end of a month exactly when its own month is later. */
  lemma AfterEndOfMonthIffLaterMonth(d: Date, y: int, m: int)
    requires 1 <= d.day <= LastDay(d.year, d.month)
    ensures IsAfter(d, EndOfMonth(y, m)) <==> d.year > y || (d.year == y && d.month > m)
  {
  }

  /**
   * The expiry check in the terms of the card: `MM/YY` with a real month, and the order's
   * (year, month) not later than (2000 + YY, MM).
   */
  lemma ExpiryCheckByMonth(expiry: string, orderDate: string)
    requires ParseOrderDate(orderDate).Some?
    ensures ExpiryCheck(expiry, orderDate) == Ok(true) <==>
      && ExpiryShapeOk(expiry)
      && 1 <= ExpiryMonth(expiry) <= 12
      && var d := ParseOrderDate(orderDate).value;
         d.year < ExpiryYear(expiry) || (d.year == ExpiryYear(expiry) && d.month <= ExpiryMonth(expiry))
  {
    if ExpiryShapeOk(expiry) && 1 <= ExpiryMonth(expiry) <= 12 {
      var d := ParseOrderDate(orderDate).value;
      AfterEndOfMonthIffLaterMonth(d, ExpiryYear(expiry), ExpiryMonth(expiry));
    }
  }

  // ---------------------------------------------------------------------------------------
  // Card number

  /** What digit `i` (from the left, from 0) adds to the sum: the digits of its double at even positions. */
  function LuhnTerm(i: int, c: char): (t: nat)
    requires IsDigit(c)
    ensures t <= 9
  {
    var digit := DigitValue(c);
    if i % 2 == 0 then (digit * 2) / 10 + (digit * 2) % 10 else digit
  }

  /** `isCardNumberValid`'s sum, accumulated from the left. */
  function LuhnSum(s: string): nat
    requires AllDigits(s)
  {
    if |s| == 0 then 0 else LuhnSum(s[..|s| - 1]) + LuhnTerm(|s| - 1, s[|s| - 1])
  }

  /** The sum of the digits of twice a digit. */
  function DoubledDigitSum(c: char): nat
    requires IsDigit(c)
  {
    var digit := DigitValue(c);
    (digit * 2) / 10 + (digit * 2) % 10
  }

  /**
   * The Luhn sum of ISO/IEC 7812-1 (Annex B), taken from the right: the rightmost digit as
   * it is, the one before it doubled with its digits added, and so on alternately.
   */
  function StandardLuhnSum(s: string): nat
    requires AllDigits(s)
    decreases |s|
  {
    if |s| == 0 then 0
    else if |s| == 1 then DigitValue(s[0])
    else StandardLuhnSum(s[..|s| - 2]) + DoubledDigitSum(s[|s| - 2]) + DigitValue(s[|s| - 1])
  }

  /** `isCardNumberValid`: sixteen digits whose sum is a multiple of ten. */
  predicate CardNumberValid(n: string)
  {
    |n| == 16 && AllDigits(n) && LuhnSum(n) % 10 == 0
  }

  /**
   * On numbers of even length, such as the sixteen digits required, doubling the digits at
   * even positions from the left is the standard check, which doubles every second digit
   * from the right.
   */
  lemma {:induction false} LuhnSumIsStandard(s: string)
    requires AllDigits(s) && |s| % 2 == 0
    ensures LuhnSum(s) == StandardLuhnSum(s)
    decreases |s|
  {
    if |s| > 0 {
      var n := |s|;
      var p := s[..n - 2];
      assert AllDigits(p);
      LuhnSumIsStandard(p);
      assert s[..n - 1][..n - 2] == p;
      assert LuhnSum(s[..n - 1]) == LuhnSum(p) + LuhnTerm(n - 2, s[n - 2]);
    }
  }

  /** The check accepts exactly the sixteen-digit numbers that pass the standard Luhn test. */
  lemma CardNumberValidIsLuhn(n: string)
    ensures CardNumberValid(n) <==> |n| == 16 && AllDigits(n) && StandardLuhnSum(n) % 10 == 0
  {
    if |n| == 16 && AllDigits(n) {
      LuhnSumIsStandard(n);
    }
  }

  // ---------------------------------------------------------------------------------------
  // Items and restaurants

  /** Every item has a price on the menu (`keySet().containsAll`). */
  predicate Covers(menu: map<string, int>, items: seq<string>)
  {
    forall i :: 0 <= i < |items| ==> items[i] in menu
  }

  /** The participants' menus, in order. */
  function Menus(participants: seq<Restaurant>): seq<map<string, int>>
  {
    seq(|participants|, k requires 0 <= k < |participants| => MenuPrices(participants[k].menuItems))
  }

  /** The first menu that prices every item, if any. */
  function FirstSupplier(menus: seq<map<string, int>>, items: seq<string>): (r: Option<nat>)
    ensures r.Some? ==> r.value < |menus| && Covers(menus[r.value], items)
    ensures r.Some? ==> forall j :: 0 <= j < r.value ==> !Covers(menus[j], items)
    ensures r.None? ==> forall j :: 0 <= j < |menus| ==> !Covers(menus[j], items)
  {
    if |menus| == 0 then None
    else if Covers(menus[0], items) then Some(0)
    else match FirstSupplier(menus[1..], items)
      case None => None
      case Some(k) => Some(k + 1)
  }

  /** The name is on one of the menus. */
  predicate OnAMenu(menus: seq<map<string, int>>, s: string)
  {
    exists k :: 0 <= k < |menus| && s in menus[k]
  }

  /** Every item is on one menu or another (the union `allPizzas` contains them all). */
  predicate OnSomeMenu(menus: seq<map<string, int>>, items: seq<string>)
  {
    forall i :: 0 <= i < |items| ==> OnAMenu(menus, items[i])
  }

  /** The union of the menus' names (`allPizzas` after a full pass). */
  function AllKeys(menus: seq<map<string, int>>): set<string>
  {
    if |menus| == 0 then {} else AllKeys(menus[..|menus| - 1]) + menus[|menus| - 1].Keys
  }

  /** A name is in the union exactly when it is on one of the menus. */
  lemma {:induction false} AllKeysMembers(menus: seq<map<string, int>>, s: string)
    ensures s in AllKeys(menus) <==> OnAMenu(menus, s)
    decreases |menus|
  {
    if |menus| > 0 {
      var p := menus[..|menus| - 1];
      AllKeysMembers(p, s);
      if OnAMenu(p, s) {
        var k :| 0 <= k < |p| && s in p[k];
        assert menus[k] == p[k];
      }
      if OnAMenu(menus, s) {
        var k :| 0 <= k < |menus| && s in menus[k];
        if k < |p| { assert p[k] == menus[k]; }
      }
    }
  }

  /** Testing the items against the union is testing that each is on some menu. */
  lemma AllKeysOnSomeMenu(menus: seq<map<string, int>>, items: seq<string>)
    ensures (forall i :: 0 <= i < |items| ==> items[i] in AllKeys(menus)) <==> OnSomeMenu(menus, items)
  {
    forall i | 0 <= i < |items|
      ensures items[i] in AllKeys(menus) <==> OnAMenu(menus, items[i])
    {
      AllKeysMembers(menus, items[i]);
    }
  }

  /** The sum of the items' prices, an item ordered twice counted twice. */
  function ItemsCost(items: seq<string>, menu: map<string, int>): int
    requires Covers(menu, items)
  {
    if |items| == 0 then 0 else ItemsCost(items[..|items| - 1], menu) + menu[items[|items| - 1]]
  }

  /** The cost of two batches of items ordered together is the sum of their costs. */
  lemma {:induction false} ItemsCostAppend(a: seq<string>, b: seq<string>, menu: map<string, int>)
    requires Covers(menu, a) && Covers(menu, b)
    ensures Covers(menu, a + b)
    ensures ItemsCost(a + b, menu) == ItemsCost(a, menu) + ItemsCost(b, menu)
    decreases |b|
  {
    if |b| == 0 {
      assert a + b == a;
    } else {
      var b' := b[..|b| - 1];
      assert Covers(menu, b');
      ItemsCostAppend(a, b', menu);
      assert (a + b)[..|a + b| - 1] == a + b';
      assert (a + b)[|a + b| - 1] == b[|b| - 1];
    }
    assert forall i :: 0 <= i < |a + b| ==> (a + b)[i] == if i < |a| then a[i] else b[i - |a|];
  }

  /** The delivery charge of 100 pence plus the items, in Java's wrapping `int` arithmetic. */
  function DeliveryCost(items: seq<string>, menu: map<string, int>): int
    requires Covers(menu, items)
  {
    Wrap32(100 + ItemsCost(items, menu))
  }

  // ---------------------------------------------------------------------------------------
  // Orders

  class Order {
    const orderNo: string
    const orderDate: string
    const customer: string
    const creditCardNumber: string
    const creditCardExpiry: string
    const cvv: string
    const priceTotalInPence: int
    const orderItems: seq<string>
    /** The restaurant that supplies every item; set by a successful items check. */
    var orderRestaurant: Restaurant?
    /** Null until validated. */
    var orderOutcome: Option<OrderOutcome>
    /** Estimated length of the order's full delivery path. */
    var movesToDeliver: int

    constructor (orderNo: string, orderDate: string, customer: string, creditCardNumber: string,
                 creditCardExpiry: string, cvv: string, priceTotalInPence: int, orderItems: seq<string>)
      ensures this.orderNo == orderNo && this.orderDate == orderDate && this.customer == customer
      ensures this.creditCardNumber == creditCardNumber && this.creditCardExpiry == creditCardExpiry
      ensures this.cvv == cvv && this.priceTotalInPence == priceTotalInPence && this.orderItems == orderItems
      ensures orderRestaurant == null && orderOutcome == None && movesToDeliver == 0
    {
      this.orderNo := orderNo;
      this.orderDate := orderDate;
      this.customer := customer;
      this.creditCardNumber := creditCardNumber;
      this.creditCardExpiry := creditCardExpiry;
      this.cvv := cvv;
      this.priceTotalInPence := priceTotalInPence;
      this.orderItems := orderItems;
      orderRestaurant := null;
      orderOutcome := None;
      movesToDeliver := 0;
    }

    /** `setOrderOutcome`. */
    method SetOrderOutcome(orderOutcome: OrderOutcome)
      modifies this`orderOutcome
      ensures this.orderOutcome == Some(orderOutcome)
    {
      this.orderOutcome := Some(orderOutcome);
    }

    /** `setMovesToDeliver`. */
    method SetMovesToDeliver(movesToDeliver: int)
      modifies this`movesToDeliver
      ensures this.movesToDeliver == movesToDeliver
    {
      this.movesToDeliver := movesToDeliver;
    }

    /** `isCardCvvValid`: the outcome is set only when the check fails. */
    method IsCardCvvValid() returns (valid: bool)
      modifies this`orderOutcome
      ensures valid <==> CvvValid(cvv)
      ensures orderOutcome == if valid then old(orderOutcome) else Some(InvalidCvv)
    {
      if !CvvValid(cvv) {
        orderOutcome := Some(InvalidCvv);
        return false;
      }
      return true;
    }

    /** `isCardExpiryValid`: the outcome is set only when the check fails; an unreadable order date throws. */
    method IsCardExpiryValid() returns (r: Result<bool, OrderError>)
      modifies this`orderOutcome
      ensures r == ExpiryCheck(creditCardExpiry, orderDate)
      ensures orderOutcome == if r == Ok(false) then Some(InvalidExpiryDate) else old(orderOutcome)
    {
      if !ExpiryShapeOk(creditCardExpiry) {
        orderOutcome := Some(InvalidExpiryDate);
        return Ok(false);
      }
      var month := ExpiryMonth(creditCardExpiry);
      if month < 1 || month > 12 {
        orderOutcome := Some(InvalidExpiryDate);
        return Ok(false);
      }
      var expiryDate := EndOfMonth(ExpiryYear(creditCardExpiry), month);
      var parsed := ParseOrderDate(orderDate);
      if parsed.None? {
        return Err(OrderDateUnparsable);
      }
      if IsAfter(parsed.value, expiryDate) {
        orderOutcome := Some(InvalidExpiryDate);
        return Ok(false);
      }
      return Ok(true);
    }

    /** `isCardNumberValid`: the shape, then the digit sum, accumulated from the left. */
    method IsCardNumberValid() returns (valid: bool)
      modifies this`orderOutcome
      ensures valid <==> CardNumberValid(creditCardNumber)
      ensures orderOutcome == if valid then old(orderOutcome) else Some(InvalidCardNumber)
    {
      if |creditCardNumber| != 16 || !AllDigits(creditCardNumber) {
        orderOutcome := Some(InvalidCardNumber);
        return false;
      }
      var digitSum := 0;
      for i := 0 to |creditCardNumber|
        invariant AllDigits(creditCardNumber[..i])
        invariant digitSum == LuhnSum(creditCardNumber[..i])
      {
        assert creditCardNumber[..i + 1][..i] == creditCardNumber[..i];
        var digit := DigitValue(creditCardNumber[i]);
        if i % 2 == 0 {
          digit := digit * 2;
          digitSum := digitSum + digit / 10 + digit % 10;
        } else {
          digitSum := digitSum + digit;
        }
      }
      assert creditCardNumber[..|creditCardNumber|] == creditCardNumber;
      if digitSum % 10 != 0 {
        orderOutcome := Some(InvalidCardNumber);
        return false;
      }
      return true;
    }

    /**
     * The loop of `areItemsValid`: ask each participant for its prices in turn, stopping at the
     * first menu that prices every item, and collect the names seen on the menus passed over.
     */
    method ScanMenus(participants: seq<Restaurant>) returns (supplier: Option<nat>, allPizzas: set<string>)
      requires forall k :: 0 <= k < |participants| ==> participants[k].Valid()
      modifies set r | r in participants
      ensures forall k :: 0 <= k < |participants| ==> participants[k].Valid()
      ensures supplier == FirstSupplier(Menus(participants), orderItems)
      ensures supplier.None? ==> allPizzas == AllKeys(Menus(participants))
    {
      ghost var menus := Menus(participants);
      assert |menus| == |participants|;
      allPizzas := {};
      for k := 0 to |participants|
        invariant forall j :: 0 <= j < |participants| ==> participants[j].Valid()
        invariant forall j :: 0 <= j < k ==> !Covers(menus[j], orderItems)
        invariant allPizzas == AllKeys(menus[..k])
      {
        var restaurantMenu := participants[k].GetMenuItemPrices();
        assert restaurantMenu == menus[k];
        if Covers(restaurantMenu, orderItems) {
          return Some(k), allPizzas;
        }
        assert menus[..k + 1][..k] == menus[..k];
        allPizzas := allPizzas + restaurantMenu.Keys;
      }
      assert menus[..|participants|] == menus;
      return None, allPizzas;
    }

    /**
     * `areItemsValid`: the first participant whose menu prices every item becomes the order's
     * restaurant; failing that, the outcome says whether the items are all on some menu.
     */
    method AreItemsValid(participants: seq<Restaurant>) returns (valid: bool)
      requires forall k :: 0 <= k < |participants| ==> participants[k].Valid()
      modifies this`orderRestaurant, this`orderOutcome, set r | r in participants
      ensures forall k :: 0 <= k < |participants| ==> participants[k].Valid()
      ensures var supplier := FirstSupplier(Menus(participants), orderItems);
        && (valid <==> supplier.Some?)
        && (valid ==> orderRestaurant == participants[supplier.value] && orderOutcome == old(orderOutcome))
        && (!valid ==> orderRestaurant == old(orderRestaurant))
        && (!valid ==> orderOutcome == Some(if OnSomeMenu(Menus(participants), orderItems)
                                            then InvalidPizzaCountMultipleSuppliers
                                            else InvalidPizzaNotDefined))
    {
      var supplier, allPizzas := ScanMenus(participants);
      if supplier.Some? {
        orderRestaurant := participants[supplier.value];
        return true;
      }
      AllKeysOnSomeMenu(Menus(participants), orderItems);
      if forall i :: 0 <= i < |orderItems| ==> orderItems[i] in allPizzas {
        orderOutcome := Some(InvalidPizzaCountMultipleSuppliers);
      } else {
        orderOutcome := Some(InvalidPizzaNotDefined);
      }
      return false;
    }

    /**
     * `getDeliveryCost`: 100 pence plus each item's price on the order's restaurant's menu.
     * Without a restaurant it throws, saying whether the order was validated at all.
     */
    method GetDeliveryCost() returns (r: Result<int, OrderError>)
      requires orderRestaurant != null ==> orderRestaurant.Valid()
      modifies if orderRestaurant == null then {} else {orderRestaurant}
      ensures orderRestaurant == old(orderRestaurant)
      ensures orderRestaurant != null ==> orderRestaurant.Valid()
      ensures orderRestaurant == null ==> r == Err(if orderOutcome.None? then NotYetValidated else InvalidOrder)
      ensures orderRestaurant != null ==>
        var menu := MenuPrices(orderRestaurant.menuItems);
        if Covers(menu, orderItems) then r == Ok(DeliveryCost(orderItems, menu)) else r == Err(PriceMissing)
    {
      if orderRestaurant == null {
        if orderOutcome.None? {
          return Err(NotYetValidated);
        } else {
          return Err(InvalidOrder);
        }
      }
      var deliveryCost := 100;
      var restaurantMenu := orderRestaurant.GetMenuItemPrices();
      for i := 0 to |orderItems|
        invariant orderRestaurant.Valid() && restaurantMenu == MenuPrices(orderRestaurant.menuItems)
        invariant Covers(restaurantMenu, orderItems[..i])
        invariant deliveryCost == Wrap32(100 + ItemsCost(orderItems[..i], restaurantMenu))
      {
        if orderItems[i] !in restaurantMenu {
          return Err(PriceMissing);
        }
        assert orderItems[..i + 1][..i] == orderItems[..i];
        WrapThenAdd(100 + ItemsCost(orderItems[..i], restaurantMenu), restaurantMenu[orderItems[i]]);
        deliveryCost := Wrap32(deliveryCost + restaurantMenu[orderItems[i]]);
      }
      assert orderItems[..|orderItems|] == orderItems;
      return Ok(deliveryCost);
    }

    /**
     * `isOrderValid` against the given participants: the checks in the source's order, the
     * first failure setting the outcome; an order passing them all is ValidButNotDelivered.
     */
    method IsOrderValid(participants: seq<Restaurant>) returns (r: Result<bool, OrderError>)
      requires forall k :: 0 <= k < |participants| ==> participants[k].Valid()
      modifies this`orderRestaurant, this`orderOutcome, set r | r in participants
      ensures forall k :: 0 <= k < |participants| ==> participants[k].Valid()
      ensures var v := Verdict(this, participants);
        && (r.Ok? <==> v.Ok?)
        && (r.Ok? ==> (r.value <==> v.value == ValidButNotDelivered) && orderOutcome == Some(v.value))
        && (r.Err? ==> r.error == v.error && orderOutcome == old(orderOutcome))
      ensures orderRestaurant == if ReachesItems(this) && Supplier(this, participants).Some?
                                 then participants[Supplier(this, participants).value]
                                 else old(orderRestaurant)
    {
      if |orderItems| < 1 || |orderItems| > 5 {
        orderOutcome := Some(InvalidPizzaCount);
        return Ok(false);
      }
      var cvvOk := IsCardCvvValid();
      if !cvvOk {
        return Ok(false);
      }
      var expiry := IsCardExpiryValid();
      if expiry.Err? {
        return Err(expiry.error);
      }
      if !expiry.value {
        return Ok(false);
      }
      var numberOk := IsCardNumberValid();
      if !numberOk {
        return Ok(false);
      }
      var itemsOk := AreItemsValid(participants);
      if !itemsOk {
        return Ok(false);
      }
      var cost := GetDeliveryCost();
      if cost != Ok(priceTotalInPence) {
        orderOutcome := Some(InvalidTotal);
        return Ok(false);
      }
      orderOutcome := Some(ValidButNotDelivered);
      return Ok(true);
    }

    /**
     * `getRestaurant`: the supplying restaurant of a valid or delivered order; before
     * validation, or for an invalid order, it throws.
     */
    function GetRestaurant(): (r: Result<Restaurant?, OrderError>)
      reads this
      ensures r.Ok? <==> orderOutcome == Some(ValidButNotDelivered) || orderOutcome == Some(Delivered)
      ensures r.Ok? ==> r.value == orderRestaurant
      ensures r.Err? ==> (r.error == NotYetValidated <==> orderOutcome.None?)
    {
      match orderOutcome
      case None => Err(NotYetValidated)
      case Some(outcome) =>
        if outcome == ValidButNotDelivered || outcome == Delivered then Ok(orderRestaurant) else Err(InvalidOrder)
    }
  }

  /** The checks before the items check all pass. */
  predicate ReachesItems(o: Order)
  {
    && 1 <= |o.orderItems| <= 5
    && CvvValid(o.cvv)
    && ExpiryCheck(o.creditCardExpiry, o.orderDate) == Ok(true)
    && CardNumberValid(o.creditCardNumber)
  }

  /** The restaurant the items check picks among the participants. */
  function Supplier(o: Order, participants: seq<Restaurant>): Option<nat>
  {
    FirstSupplier(Menus(participants), o.orderItems)
  }

  /**
   * The outcome `isOrderValid` decides, from the order's fields and the participants' menus:
   * item count, CVV, expiry, card number, single supplier, total, in that order.
   */
  function Verdict(o: Order, participants: seq<Restaurant>): Result<OrderOutcome, OrderError>
  {
    if |o.orderItems| < 1 || |o.orderItems| > 5 then Ok(InvalidPizzaCount)
    else if !CvvValid(o.cvv) then Ok(InvalidCvv)
    else match ExpiryCheck(o.creditCardExpiry, o.orderDate)
      case Err(e) => Err(e)
      case Ok(expiryOk) =>
        if !expiryOk then Ok(InvalidExpiryDate)
        else if !CardNumberValid(o.creditCardNumber) then Ok(InvalidCardNumber)
        else match Supplier(o, participants)
          case None =>
            if OnSomeMenu(Menus(participants), o.orderItems) then Ok(InvalidPizzaCountMultipleSuppliers)
            else Ok(InvalidPizzaNotDefined)
          case Some(k) =>
            if DeliveryCost(o.orderItems, Menus(participants)[k]) != o.priceTotalInPence then Ok(InvalidTotal)
            else Ok(ValidButNotDelivered)
  }

  /** An order is valid exactly when it passes every check, and then its supplier prices it at its total. */
  lemma ValidIffEveryCheckPasses(o: Order, participants: seq<Restaurant>)
    ensures Verdict(o, participants) == Ok(ValidButNotDelivered) <==>
      && ReachesItems(o)
      && Supplier(o, participants).Some?
      && DeliveryCost(o.orderItems, Menus(participants)[Supplier(o, participants).value]) == o.priceTotalInPence
  {
  }

  /** Validation never reports an order as delivered, nor uses the catch-all outcome. */
  lemma VerdictNeverDelivered(o: Order, participants: seq<Restaurant>)
    ensures Verdict(o, participants) != Ok(Delivered) && Verdict(o, participants) != Ok(Invalid)
  {
  }

  /** A count outside 1..5 decides the outcome whatever the rest of the order says. */
  lemma CountDecidesFirst(o: Order, o': Order, participants: seq<Restaurant>)
    requires |o.orderItems| == |o'.orderItems| && !(1 <= |o.orderItems| <= 5)
    ensures Verdict(o, participants) == Verdict(o', participants) == Ok(InvalidPizzaCount)
  {
  }
}
