/**
 * routes/rentals_routes.py: booking a rental (validation, then the price
 * arithmetic and the inserted row) and the choice of the renter/owner
 * listings. The database lookups, the date parser and the float parser are
 * parameters; prices are exact reals and dates are day numbers.
 */
module RentalsRoutes {
  import opened Wrappers
  import opened StringUtil
  import opened SqlParams

  /** The columns of an active `items` row that booking reads. */
  datatype Item = Item(ownerId: int, dailyRentalPrice: Json, securityDeposit: Json)

  const RequiredFields: seq<string> := ["item_id", "rental_start_date", "rental_end_date"]

  const MissingFields: string := "Missing required fields"
  const ItemNotFound: string := "Item not found"
  const OwnItem: string := "Cannot rent your own item"
  const InvalidDates: string := "Invalid rental dates"
  const InsertFailed: string := "Failed to create rental"

  /** The fifteen values bound to the INSERT INTO rentals statement. */
  datatype RentalRow = RentalRow(
    itemId: Json, renterId: int, ownerId: int, startDate: string, endDate: string,
    durationDays: int, dailyPrice: real, subtotal: real, securityDeposit: real,
    insurancePrice: real, deliveryPrice: real, totalPrice: real,
    pickupLocation: Json, deliveryLocation: Json, notes: Json)

  /** The outcome of validation: a client error, an exception (500), or the
      row to insert. */
  datatype Booking = Rejected(status: int, message: string) | Raised | Insert(row: RentalRow)

  /** The reply of `create_rental`. */
  datatype Reply = Failed(status: int, message: string) | ServerError | Created(rowCount: int, totalPrice: real)

  predicate HasRequired(data: map<string, Json>) {
    forall f :: f in RequiredFields ==> f in data
  }

  /** `datetime.strptime(v, '%Y-%m-%d')` as a day number: only strings are
      accepted; `parseDate` says which texts match the format. */
  function DateOf(v: Json, parseDate: string -> Option<int>): Option<int> {
    if v.JStr? then parseDate(v.s) else None
  }

  /** Validation and price computation of `create_rental`, in the handler's
      order: required fields, active item, owner, dates, prices. */
  function Book(userId: int, data: map<string, Json>, findActiveItem: Json -> Option<Item>,
                parseDate: string -> Option<int>, parseFloat: string -> Option<real>): Booking
  {
    if !HasRequired(data) then Rejected(400, MissingFields)
    else
      assert RequiredFields[0] in RequiredFields && RequiredFields[1] in RequiredFields && RequiredFields[2] in RequiredFields;
      match findActiveItem(data["item_id"])
      case None => Rejected(404, ItemNotFound)
      case Some(item) =>
        if item.ownerId == userId then Rejected(400, OwnItem)
        else
          var start := DateOf(data["rental_start_date"], parseDate);
          var end := DateOf(data["rental_end_date"], parseDate);
          if start.None? || end.None? then Raised
          else
            var duration := end.value - start.value;
            if duration <= 0 then Rejected(400, InvalidDates)
            else
              var daily := FloatOf(item.dailyRentalPrice, parseFloat);
              var deposit := if Truthy(item.securityDeposit) then FloatOf(item.securityDeposit, parseFloat) else Some(0.0);
              var insurance := FloatOf(Get(data, "insurance_price", JInt(0)), parseFloat);
              var delivery := FloatOf(Get(data, "delivery_price", JInt(0)), parseFloat);
              if daily.None? || deposit.None? || insurance.None? || delivery.None? then Raised
              else
                var subtotal := daily.value * duration as real;
                Insert(RentalRow(
                  data["item_id"], userId, item.ownerId,
                  data["rental_start_date"].s, data["rental_end_date"].s,
                  duration, daily.value, subtotal, deposit.value, insurance.value, delivery.value,
                  subtotal + deposit.value + insurance.value + delivery.value,
                  Get(data, "pickup_location", JNull), Get(data, "delivery_location", JNull),
                  Get(data, "notes", JNull)))
  }

  /** `create_rental`: the booking, then the insert; a falsy insert result is
      a 400. `insert` stands for the database call and returns what
      `execute_query` returns for an INSERT, the affected row count, which the
      reply reports as `rental_id`. */
  function CreateRental(userId: int, data: map<string, Json>, findActiveItem: Json -> Option<Item>,
                        parseDate: string -> Option<int>, parseFloat: string -> Option<real>,
                        insert: RentalRow -> int): (r: Reply)
    ensures r.Created? <==>
              (Book(userId, data, findActiveItem, parseDate, parseFloat).Insert?
               && insert(Book(userId, data, findActiveItem, parseDate, parseFloat).row) != 0)
    ensures r.Created? ==> r.totalPrice == Book(userId, data, findActiveItem, parseDate, parseFloat).row.totalPrice
    ensures r.ServerError? <==> Book(userId, data, findActiveItem, parseDate, parseFloat).Raised?
    ensures r == Failed(400, InsertFailed) <==>
              (Book(userId, data, findActiveItem, parseDate, parseFloat).Insert?
               && insert(Book(userId, data, findActiveItem, parseDate, parseFloat).row) == 0)
  {
    match Book(userId, data, findActiveItem, parseDate, parseFloat)
    case Rejected(status, message) => Failed(status, message)
    case Raised => ServerError
    case Insert(row) =>
      var result := insert(row);
      if result != 0 then Created(result, row.totalPrice) else Failed(400, InsertFailed)
  }

  /** A body without one of the three required fields is refused with 400
      whatever the database holds, and only then. */
  lemma MissingFieldsFirst(userId: int, data: map<string, Json>, findActiveItem: Json -> Option<Item>,
                           parseDate: string -> Option<int>, parseFloat: string -> Option<real>)
    ensures Book(userId, data, findActiveItem, parseDate, parseFloat) == Rejected(400, MissingFields)
            <==> "item_id" !in data || "rental_start_date" !in data || "rental_end_date" !in data
  {
  }

  /** With the fields present: no active item is a 404, and renting one's own
      item is a 400. */
  lemma ItemChecks(userId: int, data: map<string, Json>, findActiveItem: Json -> Option<Item>,
                   parseDate: string -> Option<int>, parseFloat: string -> Option<real>)
    requires HasRequired(data)
    ensures findActiveItem(data["item_id"]).None? ==>
              Book(userId, data, findActiveItem, parseDate, parseFloat) == Rejected(404, ItemNotFound)
    ensures findActiveItem(data["item_id"]).Some? && findActiveItem(data["item_id"]).value.ownerId == userId ==>
              Book(userId, data, findActiveItem, parseDate, parseFloat) == Rejected(400, OwnItem)
  {
  }

  /** What every inserted row satisfies: it is the caller's booking of
      someone else's active item for at least one day, and its total is the
      sum of the daily subtotal, the deposit (0 when the item has none) and
      the two optional charges (0 when absent). */
  lemma BookedRowFacts(userId: int, data: map<string, Json>, findActiveItem: Json -> Option<Item>,
                       parseDate: string -> Option<int>, parseFloat: string -> Option<real>)
    requires Book(userId, data, findActiveItem, parseDate, parseFloat).Insert?
    ensures var row := Book(userId, data, findActiveItem, parseDate, parseFloat).row;
      HasRequired(data) && row.itemId == data["item_id"]
      && findActiveItem(data["item_id"]).Some?
      && row.renterId == userId && row.ownerId == findActiveItem(data["item_id"]).value.ownerId
      && row.ownerId != row.renterId
      && row.durationDays >= 1
      && DateOf(data["rental_start_date"], parseDate) == Some(DateOf(data["rental_end_date"], parseDate).value - row.durationDays)
      && row.subtotal == row.dailyPrice * row.durationDays as real
      && row.totalPrice == row.subtotal + row.securityDeposit + row.insurancePrice + row.deliveryPrice
      && (!Truthy(findActiveItem(data["item_id"]).value.securityDeposit) ==> row.securityDeposit == 0.0)
      && ("insurance_price" !in data ==> row.insurancePrice == 0.0)
      && ("delivery_price" !in data ==> row.deliveryPrice == 0.0)
  {
    assert RequiredFields[0] in RequiredFields;
  }

  /** Once the fields are present, the item is someone else's and both dates
      parse, the request is refused as invalid dates exactly when the end is
      not after the start. */
  lemma InvalidDatesExactly(userId: int, data: map<string, Json>, item: Item, start: int, end: int,
                            findActiveItem: Json -> Option<Item>,
                            parseDate: string -> Option<int>, parseFloat: string -> Option<real>)
    requires HasRequired(data)
    requires findActiveItem(data["item_id"]) == Some(item) && item.ownerId != userId
    requires DateOf(data["rental_start_date"], parseDate) == Some(start)
    requires DateOf(data["rental_end_date"], parseDate) == Some(end)
    ensures Book(userId, data, findActiveItem, parseDate, parseFloat) == Rejected(400, InvalidDates) <==> end - start <= 0
  {
    assert RequiredFields[0] in RequiredFields;
  }

  /** When `create_rental` raises (a 500): exactly when, past the field, item
      and owner checks, a date is not a `%Y-%m-%d` string, or the dates are in
      order and the daily price, a truthy deposit or a given charge does not
      convert with `float()`. */
  lemma RaisedExactly(userId: int, data: map<string, Json>, findActiveItem: Json -> Option<Item>,
                      parseDate: string -> Option<int>, parseFloat: string -> Option<real>)
    ensures Book(userId, data, findActiveItem, parseDate, parseFloat).Raised? <==>
      "item_id" in data && "rental_start_date" in data && "rental_end_date" in data
      && findActiveItem(data["item_id"]).Some? && findActiveItem(data["item_id"]).value.ownerId != userId
      && var item := findActiveItem(data["item_id"]).value;
         var start := DateOf(data["rental_start_date"], parseDate);
         var end := DateOf(data["rental_end_date"], parseDate);
         start.None? || end.None?
         || (end.value - start.value > 0
             && (FloatOf(item.dailyRentalPrice, parseFloat).None?
                 || (Truthy(item.securityDeposit) && FloatOf(item.securityDeposit, parseFloat).None?)
                 || FloatOf(Get(data, "insurance_price", JInt(0)), parseFloat).None?
                 || FloatOf(Get(data, "delivery_price", JInt(0)), parseFloat).None?))
  {
    assert RequiredFields[0] == "item_id" && RequiredFields[1] == "rental_start_date" && RequiredFields[2] == "rental_end_date";
  }

  /** Conversely, a valid request always reaches the insert, and its total is
      the daily subtotal plus the deposit and the two charges as converted. */
  lemma ValidRequestIsBooked(userId: int, data: map<string, Json>, item: Item, start: int, end: int,
                             daily: real, deposit: real, insurance: real, delivery: real,
                             findActiveItem: Json -> Option<Item>,
                             parseDate: string -> Option<int>, parseFloat: string -> Option<real>)
    requires HasRequired(data)
    requires findActiveItem(data["item_id"]) == Some(item) && item.ownerId != userId
    requires DateOf(data["rental_start_date"], parseDate) == Some(start)
    requires DateOf(data["rental_end_date"], parseDate) == Some(end)
    requires start < end
    requires FloatOf(item.dailyRentalPrice, parseFloat) == Some(daily)
    requires (if Truthy(item.securityDeposit) then FloatOf(item.securityDeposit, parseFloat) else Some(0.0)) == Some(deposit)
    requires FloatOf(Get(data, "insurance_price", JInt(0)), parseFloat) == Some(insurance)
    requires FloatOf(Get(data, "delivery_price", JInt(0)), parseFloat) == Some(delivery)
    ensures Book(userId, data, findActiveItem, parseDate, parseFloat).Insert?
    ensures Book(userId, data, findActiveItem, parseDate, parseFloat).row.totalPrice
            == daily * (end - start) as real + deposit + insurance + delivery
  {
    assert RequiredFields[0] in RequiredFields;
  }

  /** With no deposit on the item and neither charge in the body, the total is
      the daily price times the number of days. */
  lemma PlainRequestTotal(userId: int, data: map<string, Json>, item: Item, start: int, end: int, daily: real,
                          findActiveItem: Json -> Option<Item>,
                          parseDate: string -> Option<int>, parseFloat: string -> Option<real>)
    requires HasRequired(data)
    requires findActiveItem(data["item_id"]) == Some(item) && item.ownerId != userId
    requires DateOf(data["rental_start_date"], parseDate) == Some(start)
    requires DateOf(data["rental_end_date"], parseDate) == Some(end)
    requires start < end
    requires FloatOf(item.dailyRentalPrice, parseFloat) == Some(daily)
    requires !Truthy(item.securityDeposit)
    requires "insurance_price" !in data && "delivery_price" !in data
    ensures Book(userId, data, findActiveItem, parseDate, parseFloat).Insert?
    ensures Book(userId, data, findActiveItem, parseDate, parseFloat).row.totalPrice == daily * (end - start) as real
  {
    ValidRequestIsBooked(userId, data, item, start, end, daily, 0.0, 0.0, 0.0, findActiveItem, parseDate, parseFloat);
  }

  /** A prepared SELECT: its text and the parameters bound to it. */
  datatype Query = Query(sql: string, params: seq<Param>)

  /** The SELECT heads of the two listings, up to the user-id placeholder
      (whitespace condensed; the text is kept in short pieces so that the
      verifier can see it holds no '%'). */
  const ListingSelect: string :=
    "SELECT r.*, " + "i.title as item_title, " + "i.daily_rental_price, " + "u.first_name, "
  const ListingNames: string := "u.last_name, " + "u.profile_picture_url "
  const ListingFrom: string := "FROM rentals r " + "JOIN items i " + "ON r.item_id = i.id "
  const ListingColumns: string := ListingSelect + ListingNames + ListingFrom
  const RenterJoin: string := "JOIN users u " + "ON r.owner_id = u.id " + "WHERE r.renter_id = "
  const OwnerJoin: string := "JOIN users u " + "ON r.renter_id = u.id " + "WHERE r.owner_id = "
  const RenterRentalsSql: string := ListingColumns + RenterJoin
  const OwnerRentalsSql: string := ListingColumns + OwnerJoin
  const StatusFilter: string := " AND r.rental_status = "
  const NewestFirst: string := " ORDER BY r.created_at DESC"

  /** One side's listing: the user's id, then the status filter when the
      status argument is non-empty, newest first. */
  function RentalsQuery(head: string, userId: int, status: Option<string>): Query {
    if ArgTruthy(status) then
      Query(head + Placeholder + StatusFilter + Placeholder + NewestFirst, [PInt(userId), PStr(status.value)])
    else
      Query(head + Placeholder + NewestFirst, [PInt(userId)])
  }

  /** `request.args.get('type', 'all')`. */
  function RentalType(arg: Option<string>): string {
    arg.GetOr("all")
  }

  /** `get_user_rentals`: which listings are queried (None stands for the
      empty list the handler returns without a query). */
  method GetUserRentals(userId: int, rentalType: Option<string>, status: Option<string>)
    returns (renter: Option<Query>, owner: Option<Query>)
    ensures renter.Some? <==> RentalType(rentalType) == "renter" || RentalType(rentalType) == "all"
    ensures owner.Some? <==> RentalType(rentalType) == "owner" || RentalType(rentalType) == "all"
    ensures renter.Some? ==> renter.value == RentalsQuery(RenterRentalsSql, userId, status)
    ensures owner.Some? ==> owner.value == RentalsQuery(OwnerRentalsSql, userId, status)
  {
    var t := RentalType(rentalType);
    if t in ["renter", "all"] {
      var q, params := ListingQuery(RenterRentalsSql, userId, status);
      renter := Some(Query(q, params));
    } else {
      renter := None;
    }
    if t in ["owner", "all"] {
      var q, params := ListingQuery(OwnerRentalsSql, userId, status);
      owner := Some(Query(q, params));
    } else {
      owner := None;
    }
  }

  /** The query text and parameter list one side of `get_user_rentals`
      grows by `+=` and `append`. */
  method ListingQuery(head: string, userId: int, status: Option<string>) returns (q: string, params: seq<Param>)
    ensures Query(q, params) == RentalsQuery(head, userId, status)
  {
    q := head + Placeholder;
    params := [PInt(userId)];
    if status.Some? && status.value != "" {
      q := q + StatusFilter + Placeholder;
      params := params + [PStr(status.value)];
    }
    q := q + NewestFirst;
  }

  /** Each listing binds one parameter per placeholder, the first being the
      caller's id. */
  lemma RentalsQueryPlaceholders(head: string, userId: int, status: Option<string>)
    requires head == RenterRentalsSql || head == OwnerRentalsSql
    ensures Placeholders(RentalsQuery(head, userId, status).sql) == |RentalsQuery(head, userId, status).params|
    ensures RentalsQuery(head, userId, status).params[0] == PInt(userId)
  {
    HeadsPlain();
    ListingPlaceholders(head, userId, status);
  }

  /** The listing heads hold no '%'. */
  lemma HeadsPlain()
    ensures '%' !in RenterRentalsSql && '%' !in OwnerRentalsSql
  {
    ColumnsPlain();
    JoinsPlain();
  }

  lemma ColumnsPlain()
    ensures '%' !in ListingColumns
  {
    SelectPlain();
    NamesPlain();
    FromPlain();
  }

  lemma JoinsPlain()
    ensures '%' !in RenterJoin && '%' !in OwnerJoin
  {
  }

  lemma SelectPlain()
    ensures '%' !in ListingSelect
  {
  }

  lemma NamesPlain()
    ensures '%' !in ListingNames
  {
  }

  lemma FromPlain()
    ensures '%' !in ListingFrom
  {
  }

  lemma ListingPlaceholders(head: string, userId: int, status: Option<string>)
    requires '%' !in head
    ensures Placeholders(RentalsQuery(head, userId, status).sql) == |RentalsQuery(head, userId, status).params|
  {
    ClauseAppend([], head);
    assert [] + head + Placeholder == head + Placeholder;
    var base := head + Placeholder;
    assert '%' !in NewestFirst;
    if ArgTruthy(status) {
      assert '%' !in StatusFilter;
      ClauseAppend(base, StatusFilter);
      TextAppend(base + StatusFilter + Placeholder, NewestFirst);
    } else {
      TextAppend(base, NewestFirst);
    }
  }
}
