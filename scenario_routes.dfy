/**
 * The scenario endpoints whose behaviour is arithmetic rather than a fixed
 * reply: delay clamping, the `/orders` checks, the mock data set, offset,
 * cursor and Link-header pagination, nested objects and the ETag check of
 * `/redirect/304`. Query parameters are optional strings; the clock is a parameter.
 */
module ScenarioRoutes {
  import opened Wrappers
  import opened Strings
  import opened JsNumbers

  /** `x || d` for a number: NaN (written None) and 0 fall back to `d`. */
  function OrDefault(x: Option<int>, d: int): (r: int)
    ensures x.Some? && x.value != 0 ==> r == x.value
    ensures x.None? || x.value == 0 ==> r == d
  {
    if x.None? || x.value == 0 then d else x.value
  }

  /** `parseInt(req.query.name)`: an absent parameter parses to NaN. */
  function QueryInt(q: Option<string>): Option<int> {
    if q.None? then None else ParseInt(q.value)
  }

  /**
   * `Number(s)` for the integer forms: white space around the text is ignored,
   * an empty text is 0, otherwise an optional sign and decimal digits only.
   */
  function StringToNumber(s: string): (r: Option<int>)
    ensures AllDigits(s) && s != [] ==> r == Some(DigitsValue(s) as int)
    ensures IsBlank(Js, s) ==> r == Some(0)
    ensures !IsBlank(Js, s) ==> r == SignedInteger(Trim(Js, s))
  {
    var t := Trim(Js, s);
    assert AllDigits(s) && s != [] ==> t == s by {
      if AllDigits(s) && s != [] {
        TrimOfDigits(s);
      }
    }
    if t == [] then Some(0) else SignedInteger(t)
  }

  /** An optional sign followed by one or more decimal digits and nothing else; None otherwise. */
  function SignedInteger(t: string): (r: Option<int>)
    ensures AllDigits(t) && t != [] ==> r == Some(DigitsValue(t) as int)
    ensures |t| > 1 && t[0] == '+' && AllDigits(t[1..]) ==> r == Some(DigitsValue(t[1..]) as int)
    ensures |t| > 1 && t[0] == '-' && AllDigits(t[1..]) ==> r == Some(-(DigitsValue(t[1..]) as int))
    ensures r.Some? <==> (t != [] && AllDigits(t)) || (|t| > 1 && (t[0] == '+' || t[0] == '-') && AllDigits(t[1..]))
  {
    var signed := t != [] && (t[0] == '+' || t[0] == '-');
    var digits := if signed then t[1..] else t;
    if digits == [] || !AllDigits(digits) then None
    else
      var v: int := DigitsValue(digits);
      Some(if signed && t[0] == '-' then -v else v)
  }

  /** A digit string has no white space to trim. */
  lemma TrimOfDigits(s: string)
    requires s != [] && AllDigits(s)
    ensures Trim(Js, s) == s
  {
    DigitOrMinusNotSpace(Js, s[0]);
    DigitOrMinusNotSpace(Js, s[|s| - 1]);
    TrimOfNonSpaceEnds(s);
  }

  /** A text that begins and ends with non-space characters is its own trim. */
  lemma TrimOfNonSpaceEnds(s: string)
    requires s != [] && !IsSpace(Js, s[0]) && !IsSpace(Js, s[|s| - 1])
    ensures Trim(Js, s) == s
  {
    var k := LeadingSpaces(Js, s);
    var r := Trim(Js, s);
    assert k <= 0 < k + |r|;
    assert k <= |s| - 1 < k + |r|;
  }

  const MaxDelayMs: int := 10000

  /**
   * The delay of `/delayed` and `/delay`: `Number(ms)`, or the default when that
   * is NaN or 0, clamped to [0, 10000].
   */
  function ClampDelay(ms: Option<int>, default: int): (delay: int)
    ensures 0 <= delay <= MaxDelayMs
    ensures ms.None? || ms.value == 0 ==> delay == Min(Max(default, 0), MaxDelayMs)
    ensures ms.Some? && 0 < ms.value <= MaxDelayMs ==> delay == ms.value
    ensures ms.Some? && ms.value < 0 ==> delay == 0
    ensures ms.Some? && ms.value > MaxDelayMs ==> delay == MaxDelayMs
  {
    Min(Max(OrDefault(ms, default), 0), MaxDelayMs)
  }

  /** GET /delayed waits 1500 ms unless told otherwise. */
  function DelayedMs(msQuery: Option<string>): (delay: int)
    ensures 0 <= delay <= MaxDelayMs
    ensures msQuery.None? ==> delay == 1500
  {
    ClampDelay(if msQuery.None? then None else StringToNumber(msQuery.value), 1500)
  }

  /** GET /delay waits 1000 ms unless told otherwise. */
  function DelayMs(msQuery: Option<string>): (delay: int)
    ensures 0 <= delay <= MaxDelayMs
    ensures msQuery.None? ==> delay == 1000
  {
    ClampDelay(if msQuery.None? then None else StringToNumber(msQuery.value), 1000)
  }

  /** A value of a JSON request body, as far as the order checks look at it. */
  datatype JsValue = Undefined | Null | Bool(b: bool) | Num(n: int) | Str(s: string) | Object

  predicate IsTruthy(v: JsValue) {
    match v
    case Undefined => false
    case Null => false
    case Bool(b) => b
    case Num(n) => n != 0
    case Str(s) => s != ""
    case Object => true
  }

  /** `Number(v)`; None is NaN. */
  function ToNumber(v: JsValue): Option<int> {
    match v
    case Undefined => None
    case Null => Some(0)
    case Bool(b) => Some(if b then 1 else 0)
    case Num(n) => Some(n)
    case Str(s) => StringToNumber(s)
    case Object => None
  }

  datatype OrderBody = OrderBody(productId: JsValue, quantity: JsValue, channel: JsValue)

  datatype OrderResponse =
    | OrderRejected(status: int, message: string, field: string)
    | OrderCreated(status: int, id: string, productId: string, quantity: int, channel: JsValue, orderStatus: string)

  predicate ValidProductId(v: JsValue) {
    v.Str? && v.s != ""
  }

  predicate ValidQuantity(v: JsValue) {
    ToNumber(v).Some? && ToNumber(v).value > 0
  }

  /**
   * POST /orders: the product id is checked first, then the quantity; an order
   * that passes both is created, its channel defaulting to "app". A missing
   * body is read as an empty one.
   */
  function CreateOrder(body: Option<OrderBody>, now: int): (r: OrderResponse)
    ensures var b := body.GetOr(OrderBody(Undefined, Undefined, Undefined));
            && (r == OrderRejected(422, "productId is required", "productId") <==> !ValidProductId(b.productId))
            && ((r == OrderRejected(422, "quantity must be a positive number", "quantity"))
                  <==> ValidProductId(b.productId) && !ValidQuantity(b.quantity))
            && (r.OrderCreated? <==> ValidProductId(b.productId) && ValidQuantity(b.quantity))
            && (r.OrderCreated? ==>
                  && r.status == 201 && r.productId == b.productId.s
                  && r.quantity == ToNumber(b.quantity).value && r.quantity > 0
                  && r.channel == (if IsTruthy(b.channel) then b.channel else Str("app"))
                  && r.orderStatus == "received" && r.id == "order_" + IntToString(now))
  {
    var b := body.GetOr(OrderBody(Undefined, Undefined, Undefined));
    if !IsTruthy(b.productId) || !b.productId.Str? then
      OrderRejected(422, "productId is required", "productId")
    else
      var quantity := ToNumber(b.quantity);
      if quantity.None? || quantity.value <= 0 then
        OrderRejected(422, "quantity must be a positive number", "quantity")
      else
        OrderCreated(201, "order_" + IntToString(now), b.productId.s, quantity.value,
                     if IsTruthy(b.channel) then b.channel else Str("app"), "received")
  }

  const DayMs: int := 86400000

  /** One mock item; `createdAt` is in milliseconds. */
  datatype Item = Item(id: int, name: string, description: string, createdAt: int, status: string)

  function StatusFor(i: nat): string {
    if i % 3 == 0 then "active" else if i % 3 == 1 then "pending" else "completed"
  }

  /**
   * generateMockData: items numbered 1..count, created one day apart and ending
   * a day before `now`, with the status cycling active, pending, completed.
   */
  function MockData(count: nat, now: int): (items: seq<Item>)
    ensures |items| == count
    ensures forall i :: 0 <= i < count ==> items[i].id == i + 1
    ensures forall i :: 0 <= i < count ==> items[i].name == "Item " + IntToString(i + 1)
    ensures forall i :: 0 <= i < count ==> items[i].status == StatusFor(i)
    ensures forall i :: 0 <= i < count ==> items[i].createdAt == now - (count - i) * DayMs
  {
    seq(count, i requires 0 <= i < count =>
      Item(i + 1, "Item " + IntToString(i + 1), "Description for item " + IntToString(i + 1),
           now - (count - i) * DayMs, StatusFor(i)))
  }

  /** The items are in the order they were created, all before `now`. */
  lemma MockDataChronological(count: nat, now: int, i: nat, j: nat)
    requires i < j < count
    ensures MockData(count, now)[i].createdAt < MockData(count, now)[j].createdAt < now
  {
    var items := MockData(count, now);
    assert (count - j) * DayMs < (count - i) * DayMs;
    assert 0 < (count - j) * DayMs;
  }

  /** The status repeats every three items. */
  lemma StatusCycle(count: nat, now: int, i: nat)
    requires i + 3 < count
    ensures MockData(count, now)[i].status == MockData(count, now)[i + 3].status
  {
    assert (i + 3) % 3 == i % 3;
  }

  /** A slice of the mock items from position `lo`: consecutive ids from lo + 1, cut at the end of the data. */
  lemma MockWindow(count: nat, now: int, lo: int, hi: int)
    requires 0 <= lo <= hi
    ensures var w := Slice(MockData(count, now), lo, hi);
            && |w| == Max(Min(hi, count) - lo, 0)
            && forall k :: 0 <= k < |w| ==> w[k].id == lo + k + 1
  {
    var all := MockData(count, now);
    var w := Slice(all, lo, hi);
    assert w == all[Min(lo, count)..Min(hi, count)];
  }

  const TotalItems: int := 100

  /** `generateMockData(100).slice(lo, hi)`. */
  function ItemsBetween(now: int, lo: int, hi: int): (w: seq<Item>)
    ensures 0 <= lo <= hi ==>
              && |w| == Max(Min(hi, TotalItems) - lo, 0)
              && forall k :: 0 <= k < |w| ==> w[k].id == lo + k + 1
    ensures 0 <= lo && hi < 0 ==> |w| == Max(TotalItems + hi - lo, 0)
  {
    var w := Slice(MockData(TotalItems as nat, now), lo, hi);
    assert 0 <= lo <= hi ==> |w| == Max(Min(hi, TotalItems) - lo, 0)
                             && forall k :: 0 <= k < |w| ==> w[k].id == lo + k + 1 by {
      if 0 <= lo <= hi {
        MockWindow(TotalItems as nat, now, lo, hi);
      }
    }
    w
  }

  /** `parseInt(page) || 1`. */
  function PageParam(pageQ: Option<string>): int {
    OrDefault(QueryInt(pageQ), 1)
  }

  /** `Math.min(parseInt(limit) || 10, 100)`: never 0, never above 100, but possibly negative. */
  function CappedLimit(limitQ: Option<string>): (limit: int)
    ensures limit != 0 && limit <= 100
  {
    Min(OrDefault(QueryInt(limitQ), 10), 100)
  }

  /** Where page `page` of `limit` items starts. */
  function PageOffset(page: int, limit: int): (offset: int)
    ensures page >= 1 && limit > 0 ==> offset >= 0
  {
    (page - 1) * limit
  }

  datatype OffsetResult =
    | InvalidPage(message: string, code: string)
    | OffsetPage(items: seq<Item>, page: int, limit: int, totalItems: int, totalPages: int,
                 hasNext: bool, hasPrevious: bool, nextPage: Option<int>, previousPage: Option<int>)

  /**
   * GET /pagination/offset over the 100 mock items: `limit` items from position
   * (page - 1) * limit, with the page count rounded up.
   */
  function OffsetPagination(pageQ: Option<string>, limitQ: Option<string>, now: int): (r: OffsetResult)
    ensures r.InvalidPage? <==> PageParam(pageQ) < 1
    ensures r.InvalidPage? ==> r == InvalidPage("Page number must be >= 1", "INVALID_PAGE")
    ensures r.OffsetPage? ==>
              && r.page == PageParam(pageQ) && r.limit == CappedLimit(limitQ) && r.totalItems == TotalItems
              && r.totalPages == CeilDiv(TotalItems, r.limit)
              && (r.hasNext <==> r.page < r.totalPages) && (r.hasPrevious <==> r.page > 1)
              && r.nextPage == (if r.hasNext then Some(r.page + 1) else None)
              && r.previousPage == (if r.hasPrevious then Some(r.page - 1) else None)
    ensures r.OffsetPage? && r.limit > 0 ==>
              var offset := PageOffset(r.page, r.limit);
              && |r.items| == Max(Min(offset + r.limit, TotalItems) - offset, 0)
              && forall k :: 0 <= k < |r.items| ==> r.items[k].id == offset + k + 1
  {
    var page := PageParam(pageQ);
    if page < 1 then InvalidPage("Page number must be >= 1", "INVALID_PAGE")
    else OffsetPageAt(page, CappedLimit(limitQ), now)
  }

  /** Page `page` (at least 1) of `limit` items, with the page count and the neighbours. */
  function OffsetPageAt(page: int, limit: int, now: int): (r: OffsetResult)
    requires page >= 1 && limit != 0
    ensures r.OffsetPage? && r.page == page && r.limit == limit && r.totalItems == TotalItems
    ensures r.totalPages == CeilDiv(TotalItems, limit)
    ensures (r.hasNext <==> page < r.totalPages) && (r.hasPrevious <==> page > 1)
    ensures r.nextPage == (if r.hasNext then Some(page + 1) else None)
    ensures r.previousPage == (if r.hasPrevious then Some(page - 1) else None)
    ensures limit > 0 ==>
              var offset := PageOffset(page, limit);
              && |r.items| == Max(Min(offset + limit, TotalItems) - offset, 0)
              && forall k :: 0 <= k < |r.items| ==> r.items[k].id == offset + k + 1
  {
    var totalPages := CeilDiv(TotalItems, limit);
    var offset := PageOffset(page, limit);
    var items := ItemsBetween(now, offset, offset + limit);
    OffsetPage(items, page, limit, TotalItems, totalPages, page < totalPages, page > 1,
               if page < totalPages then Some(page + 1) else None, if page > 1 then Some(page - 1) else None)
  }

  /** The arithmetic of the page count: a page before the last ends within the data. */
  lemma PageBeforeLastArith(page: int, limit: int)
    requires page >= 1 && limit > 0 && page < CeilDiv(TotalItems, limit)
    ensures PageOffset(page, limit) + limit <= TotalItems
  {
    var totalPages := CeilDiv(TotalItems, limit);
    assert page * limit <= (totalPages - 1) * limit;
  }

  /** The arithmetic of the page count: the last page starts within the data and reaches its end. */
  lemma LastPageArith(page: int, limit: int)
    requires page >= 1 && limit > 0 && page == CeilDiv(TotalItems, limit)
    ensures PageOffset(page, limit) < TotalItems <= PageOffset(page, limit) + limit
  {
  }

  /** The arithmetic of the page count: a page after the last starts past the data. */
  lemma PageAfterLastArith(page: int, limit: int)
    requires page >= 1 && limit > 0 && page > CeilDiv(TotalItems, limit)
    ensures PageOffset(page, limit) >= TotalItems
  {
    var totalPages := CeilDiv(TotalItems, limit);
    assert (page - 1) * limit >= totalPages * limit;
  }

  /** Every page before the last is full. */
  lemma OffsetPagesBeforeLastAreFull(pageQ: Option<string>, limitQ: Option<string>, now: int)
    requires OffsetPagination(pageQ, limitQ, now).OffsetPage?
    requires CappedLimit(limitQ) > 0 && OffsetPagination(pageQ, limitQ, now).hasNext
    ensures |OffsetPagination(pageQ, limitQ, now).items| == CappedLimit(limitQ)
  {
    var r := OffsetPagination(pageQ, limitQ, now);
    PageBeforeLastArith(r.page, r.limit);
  }

  /** The last page is not empty and ends with the last item; pages after it are empty. */
  lemma OffsetLastPage(pageQ: Option<string>, limitQ: Option<string>, now: int)
    requires OffsetPagination(pageQ, limitQ, now).OffsetPage? && CappedLimit(limitQ) > 0
    ensures var r := OffsetPagination(pageQ, limitQ, now);
            r.page == r.totalPages ==> r.items != [] && r.items[|r.items| - 1].id == TotalItems
    ensures var r := OffsetPagination(pageQ, limitQ, now);
            r.page > r.totalPages ==> r.items == []
  {
    var r := OffsetPagination(pageQ, limitQ, now);
    if r.page == r.totalPages {
      LastPageArith(r.page, r.limit);
    } else if r.page > r.totalPages {
      PageAfterLastArith(r.page, r.limit);
    }
  }

  /**
   * A negative limit is not rejected: `slice` reads the negative end from the
   * back, so page 1 with limit -n returns the first 100 - n items.
   */
  lemma OffsetNegativeLimit(n: nat, now: int)
    requires 0 < n < 100
    ensures var r := OffsetPagination(None, Some(IntToString(-(n as int))), now);
            r.OffsetPage? && r.limit == -(n as int) && |r.items| == 100 - n && !r.hasNext
  {
    NegativeLimitQuery(n);
    assert PageParam(None) == 1;
    assert CeilDiv(TotalItems, -(n as int)) <= 0;
    assert PageOffset(1, -(n as int)) == 0;
  }

  /** A negative limit passes the cap unchanged. */
  lemma NegativeLimitQuery(n: nat)
    requires n > 0
    ensures CappedLimit(Some(IntToString(-(n as int)))) == -(n as int)
  {
    IntToStringParses(-(n as int));
    assert QueryInt(Some(IntToString(-(n as int)))) == Some(-(n as int));
  }

  datatype CursorResult =
    | InvalidCursor(message: string, code: string)
    | CursorCrash
    | CursorPage(items: seq<Item>, cursor: Option<string>, limit: int, nextCursor: Option<int>, hasMore: bool, itemsReturned: nat)

  /** Where a cursor page starts: 0 without a cursor, just after the item the cursor names, or nowhere. */
  function CursorStart(cursorQ: Option<string>): (start: Option<int>)
    ensures !Truthy(cursorQ) ==> start == Some(0)
    ensures start.Some? ==> 0 <= start.value <= TotalItems
    ensures Truthy(cursorQ) ==>
              start == (if ParseInt(cursorQ.value).Some? && 1 <= ParseInt(cursorQ.value).value <= TotalItems
                        then ParseInt(cursorQ.value) else None)
  {
    if !Truthy(cursorQ) then Some(0)
    else
      var id := ParseInt(cursorQ.value);
      if id.Some? && 1 <= id.value <= TotalItems then Some(id.value) else None
  }

  /**
   * GET /pagination/cursor over the 100 mock items. The cursor is an item id;
   * the page starts after that item. With a limit so negative that the page is
   * empty while `hasMore` holds, reading the last item's id throws.
   */
  function CursorPagination(cursorQ: Option<string>, limitQ: Option<string>, now: int): (r: CursorResult)
    ensures r.InvalidCursor? <==> CursorStart(cursorQ).None?
    ensures r.InvalidCursor? ==> r == InvalidCursor("Invalid cursor", "INVALID_CURSOR")
  {
    var start := CursorStart(cursorQ);
    if start.None? then InvalidCursor("Invalid cursor", "INVALID_CURSOR")
    else CursorPageAt(if Truthy(cursorQ) then cursorQ else None, start.value, CappedLimit(limitQ), now)
  }

  /** The cursor page of `limit` items after position `s`, or the crash when it is empty while more remain. */
  function CursorPageAt(cursor: Option<string>, s: int, limit: int, now: int): (r: CursorResult)
    ensures !r.InvalidCursor?
    ensures r.CursorPage? ==>
              && r.limit == limit && r.cursor == cursor
              && (r.hasMore <==> s + limit < TotalItems)
              && r.itemsReturned == |r.items|
              && (r.nextCursor.Some? <==> r.hasMore)
              && (r.hasMore ==> r.items != [] && r.nextCursor == Some(r.items[|r.items| - 1].id))
    ensures 0 <= s && limit > 0 ==>
              && r.CursorPage?
              && |r.items| <= r.limit
              && (forall k :: 0 <= k < |r.items| ==> r.items[k].id == s + k + 1)
              && (r.hasMore ==> r.nextCursor == Some(s + r.limit))
  {
    var items := ItemsBetween(now, s, s + limit);
    var hasMore := s + limit < TotalItems;
    if hasMore && items == [] then CursorCrash
    else
      CursorPage(items, cursor, limit, if hasMore then Some(items[|items| - 1].id) else None, hasMore, |items|)
  }

  /**
   * A cursor page reports its limit and cursor, hasMore exactly when items
   * remain past start + limit, and nextCursor the last returned id exactly
   * when hasMore.
   */
  lemma CursorPageFacts(cursorQ: Option<string>, limitQ: Option<string>, now: int)
    ensures var r := CursorPagination(cursorQ, limitQ, now);
            r.CursorPage? ==>
              && r.limit == CappedLimit(limitQ)
              && (r.hasMore <==> CursorStart(cursorQ).value + r.limit < TotalItems)
              && r.itemsReturned == |r.items|
              && r.cursor == (if Truthy(cursorQ) then cursorQ else None)
              && (r.nextCursor.Some? <==> r.hasMore)
              && (r.hasMore ==> r.items != [] && r.nextCursor == Some(r.items[|r.items| - 1].id))
  {
    CursorPageIs(cursorQ, limitQ, now);
  }

  /**
   * With a positive limit a valid cursor never crashes: the page holds at most
   * limit items, the ones just after the start, and the next cursor is start + limit.
   */
  lemma CursorPageWindow(cursorQ: Option<string>, limitQ: Option<string>, now: int)
    requires CappedLimit(limitQ) > 0 && CursorStart(cursorQ).Some?
    ensures var r := CursorPagination(cursorQ, limitQ, now);
            && r.CursorPage?
            && |r.items| <= r.limit
            && (forall k :: 0 <= k < |r.items| ==> r.items[k].id == CursorStart(cursorQ).value + k + 1)
            && (r.hasMore ==> r.nextCursor == Some(CursorStart(cursorQ).value + r.limit))
  {
    CursorPageIs(cursorQ, limitQ, now);
  }

  /** A valid cursor's page is the page after its start. */
  lemma CursorPageIs(cursorQ: Option<string>, limitQ: Option<string>, now: int)
    ensures CursorStart(cursorQ).Some? ==>
              CursorPagination(cursorQ, limitQ, now)
              == CursorPageAt(if Truthy(cursorQ) then cursorQ else None, CursorStart(cursorQ).value, CappedLimit(limitQ), now)
  {
  }

  /** Following `nextCursor` continues exactly where the previous page stopped. */
  lemma CursorPagesChain(cursorQ: Option<string>, limitQ: Option<string>, now: int)
    requires CappedLimit(limitQ) > 0
    requires CursorPagination(cursorQ, limitQ, now).CursorPage? && CursorPagination(cursorQ, limitQ, now).nextCursor.Some?
    ensures var next := CursorPagination(cursorQ, limitQ, now).nextCursor.value;
            && CursorStart(Some(IntToString(next))) == Some(next)
            && var following := CursorPagination(Some(IntToString(next)), limitQ, now);
               following.CursorPage? && (following.items != [] ==> following.items[0].id == next + 1)
  {
    var next := CursorPagination(cursorQ, limitQ, now).nextCursor.value;
    CursorPageFacts(cursorQ, limitQ, now);
    CursorPageWindow(cursorQ, limitQ, now);
    CursorOfId(next);
    CursorPageWindow(Some(IntToString(next)), limitQ, now);
  }

  /** The cursor an item id renders to names that item. */
  lemma CursorOfId(id: int)
    requires 1 <= id <= TotalItems
    ensures CursorStart(Some(IntToString(id))) == Some(id)
  {
    IntToStringParses(id);
    assert IntToString(id) != "";
  }

  /** `parseInt` reads a "0x" cursor in radix 16: "0x10" names item 16. */
  lemma HexCursor()
    ensures CursorStart(Some("0x10")) == Some(16)
  {
    assert AllHexDigits("10");
    assert HexValue("10") == 16 by {
      assert "10"[..1] == "1";
    }
    ParseIntOfHex("10", []);
    assert "0x" + "10" + [] == "0x10";
  }

  /** A limit of -100 or below empties the first page while `hasMore` holds, and the handler throws. */
  lemma CursorNegativeLimitCrash(n: nat, now: int)
    requires n >= 100
    ensures CursorPagination(None, Some(IntToString(-(n as int))), now) == CursorCrash
  {
    NegativeLimitQuery(n);
  }

  /** One entry of the Link header: the page it points to and its relation. */
  datatype PageLink = PageLink(page: int, rel: string)

  predicate HasRel(links: seq<PageLink>, rel: string) {
    exists k :: 0 <= k < |links| && links[k].rel == rel
  }

  /**
   * The relations of the Link header, in order: first, then prev when there is
   * an earlier page, then next when there is a later one, then last.
   */
  function LinkTargets(page: int, totalPages: int): seq<PageLink> {
    [PageLink(1, "first")] + (if page > 1 then [PageLink(page - 1, "prev")] else [])
    + (if page < totalPages then [PageLink(page + 1, "next")] else []) + [PageLink(totalPages, "last")]
  }

  /** The Link header always has first and last; prev exactly when there is an earlier page, next exactly when there is a later one. */
  lemma LinkTargetsRelations(page: int, totalPages: int)
    ensures var links := LinkTargets(page, totalPages);
            && |links| == 2 + (if page > 1 then 1 else 0) + (if page < totalPages then 1 else 0)
            && links[0] == PageLink(1, "first") && links[|links| - 1] == PageLink(totalPages, "last")
            && (HasRel(links, "prev") <==> page > 1)
            && (HasRel(links, "next") <==> page < totalPages)
            && (page > 1 ==> links[1] == PageLink(page - 1, "prev"))
            && (page < totalPages ==> links[|links| - 2] == PageLink(page + 1, "next"))
  {
    var links := LinkTargets(page, totalPages);
    assert page > 1 ==> links[1].rel == "prev";
    assert page < totalPages ==> links[|links| - 2].rel == "next";
  }

  /** `<base?page=P&limit=L>; rel="R"`. */
  function RenderLink(baseUrl: string, limit: int, link: PageLink): string {
    "<" + baseUrl + "?page=" + IntToString(link.page) + "&limit=" + IntToString(limit) + ">; rel=\"" + link.rel + "\""
  }

  /** Every link rendered, in order. */
  function RenderLinks(baseUrl: string, limit: int, links: seq<PageLink>): (r: seq<string>)
    ensures |r| == |links|
  {
    if links == [] then [] else RenderLinks(baseUrl, limit, links[..|links| - 1]) + [RenderLink(baseUrl, limit, links[|links| - 1])]
  }

  datatype LinkPage = LinkPage(header: string, items: seq<Item>, page: int, totalPages: int, totalItems: int, itemsPerPage: int)

  /**
   * The links of the Link header, collected one by one in the order first,
   * prev, next, last.
   */
  method CollectLinks(baseUrl: string, page: int, limit: int, totalPages: int) returns (links: seq<string>)
    ensures links == RenderLinks(baseUrl, limit, LinkTargets(page, totalPages))
  {
    ghost var prev := if page > 1 then [PageLink(page - 1, "prev")] else [];
    ghost var next := if page < totalPages then [PageLink(page + 1, "next")] else [];
    ghost var targets: seq<PageLink> := [];
    links := [];
    links, targets := PushLink(baseUrl, limit, links, targets, PageLink(1, "first"));
    if page > 1 {
      links, targets := PushLink(baseUrl, limit, links, targets, PageLink(page - 1, "prev"));
    }
    assert targets == [PageLink(1, "first")] + prev;
    if page < totalPages {
      links, targets := PushLink(baseUrl, limit, links, targets, PageLink(page + 1, "next"));
    }
    assert targets == [PageLink(1, "first")] + prev + next;
    links, targets := PushLink(baseUrl, limit, links, targets, PageLink(totalPages, "last"));
  }

  /** `links.push(...)` of one rendered link, with the ghost list of the links rendered so far. */
  method PushLink(baseUrl: string, limit: int, links: seq<string>, ghost targets: seq<PageLink>, link: PageLink)
    returns (links': seq<string>, ghost targets': seq<PageLink>)
    requires links == RenderLinks(baseUrl, limit, targets)
    ensures targets' == targets + [link] && links' == RenderLinks(baseUrl, limit, targets')
  {
    RenderLinksAppend(baseUrl, limit, targets, link);
    links', targets' := links + [RenderLink(baseUrl, limit, link)], targets + [link];
  }

  /**
   * GET /pagination/link-header: like offset pagination but with no cap on the
   * limit and no check of the page; the links are joined with ", ".
   */
  method LinkHeaderPage(baseUrl: string, pageQ: Option<string>, limitQ: Option<string>, now: int) returns (result: LinkPage)
    ensures var page := PageParam(pageQ);
            var limit := OrDefault(QueryInt(limitQ), 10);
            && result.page == page && result.itemsPerPage == limit && result.totalItems == TotalItems
            && result.totalPages == CeilDiv(TotalItems, limit)
            && result.items == ItemsBetween(now, PageOffset(page, limit), PageOffset(page, limit) + limit)
            && result.header == JoinWith(RenderLinks(baseUrl, limit, LinkTargets(page, result.totalPages)), ", ")
  {
    var page := PageParam(pageQ);
    var limit := OrDefault(QueryInt(limitQ), 10);
    var totalPages := CeilDiv(TotalItems, limit);
    var offset := PageOffset(page, limit);
    var items := ItemsBetween(now, offset, offset + limit);
    var links := CollectLinks(baseUrl, page, limit, totalPages);
    result := LinkPage(JoinWith(links, ", "), items, page, totalPages, TotalItems, limit);
  }

  /** The rendering keeps one entry per link, in the links' order. */
  lemma {:induction false} RenderLinksEach(baseUrl: string, limit: int, links: seq<PageLink>)
    ensures var r := RenderLinks(baseUrl, limit, links);
            forall i :: 0 <= i < |links| ==> r[i] == RenderLink(baseUrl, limit, links[i])
  {
    if links != [] {
      var init := links[..|links| - 1];
      RenderLinksEach(baseUrl, limit, init);
      var r := RenderLinks(baseUrl, limit, links);
      assert r == RenderLinks(baseUrl, limit, init) + [RenderLink(baseUrl, limit, links[|links| - 1])];
      forall i | 0 <= i < |links| - 1
        ensures r[i] == RenderLink(baseUrl, limit, links[i])
      {
        assert links[i] == init[i];
      }
    }
  }

  lemma RenderLinksAppend(baseUrl: string, limit: int, links: seq<PageLink>, link: PageLink)
    ensures RenderLinks(baseUrl, limit, links + [link]) == RenderLinks(baseUrl, limit, links) + [RenderLink(baseUrl, limit, link)]
  {
    assert (links + [link])[..|links|] == links;
  }

  /** The nested object of `/nested-deep`: levels, each holding the next, down to the deepest. */
  datatype Nested =
    | Deepest(level: int, value: string, timestamp: int)
    | Level(level: int, message: string, data: Nested)

  /** The level number of the innermost object. */
  function DeepestLevel(n: Nested): int {
    match n
    case Deepest(level, _, _) => level
    case Level(_, _, data) => DeepestLevel(data)
  }

  /** How many objects are nested, the outermost included. */
  function Levels(n: Nested): nat {
    match n
    case Deepest(_, _, _) => 1
    case Level(_, _, data) => 1 + Levels(data)
  }

  /** Levels are numbered consecutively from the outside in. */
  predicate Consecutive(n: Nested) {
    match n
    case Deepest(_, _, _) => true
    case Level(level, _, data) => data.level == level + 1 && Consecutive(data)
  }

  /**
   * generateNestedObject(depth, currentDepth): levels numbered from `current`
   * down to `depth`, or a single deepest object when `current` is already at
   * or past `depth`.
   */
  function GenerateNested(depth: int, current: int, timestamp: int): (r: Nested)
    decreases depth - current
    ensures r.level == current
    ensures DeepestLevel(r) == Max(depth, current)
    ensures Levels(r) == Max(depth - current, 0) + 1
    ensures Consecutive(r)
  {
    if current >= depth then Deepest(current, "Deepest level reached", timestamp)
    else
      Level(current, "Level " + IntToString(current) + " of " + IntToString(depth), GenerateNested(depth, current + 1, timestamp))
  }

  /**
   * GET /nested-deep: `parseInt(depth) || 10`, capped at 50; the object then
   * bottoms out at level max(depth, 1).
   */
  function NestedDeep(depthQ: Option<string>, timestamp: int): (r: (int, Nested))
    ensures r.0 <= 50
    ensures r.0 == Min(OrDefault(QueryInt(depthQ), 10), 50)
    ensures DeepestLevel(r.1) == Max(r.0, 1) && Levels(r.1) == Max(r.0, 1)
  {
    var maxDepth := Min(OrDefault(QueryInt(depthQ), 10), 50);
    (maxDepth, GenerateNested(maxDepth, 1, timestamp))
  }

  const ResourceETag: string := "\"abc123\""

  datatype ConditionalResponse = NotModified | Fresh(etag: string, value: string)

  /**
   * GET /redirect/304: 304 with no body exactly when If-None-Match is the
   * resource's tag, character for character; otherwise 200 with the tag.
   */
  function ConditionalGet(ifNoneMatch: Option<string>): (r: ConditionalResponse)
    ensures r == NotModified <==> ifNoneMatch == Some(ResourceETag)
    ensures r.Fresh? ==> r.etag == ResourceETag
  {
    if ifNoneMatch == Some(ResourceETag) then NotModified else Fresh(ResourceETag, "sample data")
  }

  /** Unlike the weak comparison of section 3.2 of RFC 7232, a weak form of the same tag is not a match. */
  lemma WeakTagIsNotMatched()
    ensures ConditionalGet(Some("W/" + ResourceETag)).Fresh?
    ensures ConditionalGet(Some(ResourceETag + ", \"other\"")).Fresh?
  {
    assert |"W/" + ResourceETag| != |ResourceETag|;
    assert |ResourceETag + ", \"other\""| != |ResourceETag|;
  }
}
