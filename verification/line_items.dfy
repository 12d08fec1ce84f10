/** The blank-row normalisation of the six parallel line-item fields (`part_url`,
    `part_number`, `part_name`, `subsystem`, `price_per_unit`, `quantity`) done by
    POST /create (routers/member/purchase.js:146-171) and POST /edit (216-243), and
    the conversions the two handlers then apply to those fields (179-184, 252-257). */
module LineItemRows {
  import opened JsValues
  import opened FormFields

  /** The six line-item fields of a submitted purchase form. */
  datatype LineItems = LineItems(partUrl: Value, partNumber: Value, partName: Value,
                                 subsystem: Value, pricePerUnit: Value, quantity: Value)

  /** Six empty arrays: no line item at all. */
  const NoRows := LineItems(List([]), List([]), List([]), List([]), List([]), List([]))

  predicate AllLists(b: LineItems) {
    b.partUrl.List? && b.partNumber.List? && b.partName.List? && b.subsystem.List?
    && b.pricePerUnit.List? && b.quantity.List?
  }

  /** The invariant the line items should keep: six arrays of one common length. */
  predicate Aligned(b: LineItems) {
    AllLists(b)
    && |b.partNumber.items| == |b.partUrl.items| && |b.partName.items| == |b.partUrl.items|
    && |b.subsystem.items| == |b.partUrl.items| && |b.pricePerUnit.items| == |b.partUrl.items|
    && |b.quantity.items| == |b.partUrl.items|
  }

  /** An array whose first slot is the empty string. */
  predicate LeadsWithBlank(v: Value) {
    v.List? && v.items != [] && v.items[0] == Str("")
  }

  /** The test of 146-151: all six fields are exactly the empty string. */
  predicate CreateFormBlank(b: LineItems) {
    b.partUrl == EmptyString && b.partNumber == EmptyString && b.partName == EmptyString
    && b.subsystem == EmptyString && b.pricePerUnit == EmptyString && b.quantity == EmptyString
  }

  /** The test of 216-222: the four text fields are exactly the empty string and
      price and quantity are falsy (empty, or missing). */
  predicate EditFormBlank(b: LineItems) {
    b.partUrl == EmptyString && b.partNumber == EmptyString && b.partName == EmptyString
    && b.subsystem == EmptyString && !ValueTruthy(b.pricePerUnit) && !ValueTruthy(b.quantity)
  }

  /** The first-row test of 158-164 and 230-236, evaluated left to right with `&&`
      short-circuiting (its repeated `part_url[0] === ""` changes nothing): true when
      the first text slot of each text field is "" and the first price and quantity
      are falsy; Throws when an index it reaches is taken of undefined or null. */
  function FirstRowBlank(b: LineItems): (r: Eval<bool>)
    ensures r == Returns(true) <==>
      LeadsWithBlank(b.partUrl) && LeadsWithBlank(b.partNumber) && LeadsWithBlank(b.partName)
      && LeadsWithBlank(b.subsystem)
      && At0(b.pricePerUnit).Returns? && !Truthy(At0(b.pricePerUnit).value)
      && At0(b.quantity).Returns? && !Truthy(At0(b.quantity).value)
    ensures AllLists(b) ==> r.Returns?
  {
    var url :- At0(b.partUrl);
    if url != Str("") then Returns(false) else
    var number :- At0(b.partNumber);
    if number != Str("") then Returns(false) else
    var name :- At0(b.partName);
    if name != Str("") then Returns(false) else
    var subsystem :- At0(b.subsystem);
    if subsystem != Str("") then Returns(false) else
    var price :- At0(b.pricePerUnit);
    if Truthy(price) then Returns(false) else
    var quantity :- At0(b.quantity);
    Returns(!Truthy(quantity))
  }

  function Drop1(s: seq<Prim>): seq<Prim> {
    if s == [] then [] else s[1..]
  }

  /** `after` is `before` with the first slot of each of the six arrays removed and
      every later slot kept where it was. */
  predicate DropsFirstRow(before: LineItems, after: LineItems) {
    AllLists(before) && AllLists(after)
    && after.partUrl.items == Drop1(before.partUrl.items)
    && after.partNumber.items == Drop1(before.partNumber.items)
    && after.partName.items == Drop1(before.partName.items)
    && after.subsystem.items == Drop1(before.subsystem.items)
    && after.pricePerUnit.items == Drop1(before.pricePerUnit.items)
    && after.quantity.items == Drop1(before.quantity.items)
  }

  /** The six `.shift()` calls: each throws unless its receiver is an array. */
  function ShiftAll(b: LineItems): (r: Eval<LineItems>)
    ensures r.Returns? <==> AllLists(b)
    ensures r.Returns? ==> DropsFirstRow(b, r.value)
  {
    if AllLists(b) then
      Returns(LineItems(List(Drop1(b.partUrl.items)), List(Drop1(b.partNumber.items)),
                        List(Drop1(b.partName.items)), List(Drop1(b.subsystem.items)),
                        List(Drop1(b.pricePerUnit.items)), List(Drop1(b.quantity.items))))
    else Throws
  }

  // ----- create -----

  /** The line items after 146-171: an all-empty form has five of its fields
      replaced by [] while `price_per_unit` stays ""; then a blank first row is shifted off. */
  function CreateNormalised(b: LineItems): (r: Eval<LineItems>)
    ensures CreateFormBlank(b) ==> r == Returns(NoRows.(pricePerUnit := EmptyString))
    ensures !CreateFormBlank(b) && FirstRowBlank(b) == Returns(false) ==> r == Returns(b)
    ensures !CreateFormBlank(b) && FirstRowBlank(b) == Returns(true) ==>
      (r.Returns? <==> AllLists(b)) && (r.Returns? ==> DropsFirstRow(b, r.value))
    ensures !CreateFormBlank(b) && FirstRowBlank(b) == Throws ==> r == Throws
  {
    var start := if CreateFormBlank(b) then NoRows.(pricePerUnit := b.pricePerUnit) else b;
    var blank :- FirstRowBlank(start);
    if blank then ShiftAll(start) else Returns(start)
  }

  /** 146-171 step by step: the chained assignment of [] to five fields, then the
      first-row test and the six shifts. */
  method NormaliseForCreate(b: LineItems) returns (r: Eval<LineItems>)
    ensures r == CreateNormalised(b)
  {
    var body := b;
    if body.partUrl == EmptyString && body.partNumber == EmptyString && body.partName == EmptyString
       && body.subsystem == EmptyString && body.pricePerUnit == EmptyString && body.quantity == EmptyString
    {
      var rows := List([]);
      body := body.(partUrl := rows, partNumber := rows, partName := rows, subsystem := rows, quantity := rows);
    }
    var blank :- FirstRowBlank(body);
    if blank {
      body :- ShiftFirstRow(body);
    }
    r := Returns(body);
  }

  // ----- edit -----

  /** The line items after 216-243: an all-empty form becomes six empty arrays;
      otherwise a blank first row is shifted off every field. */
  function EditNormalised(b: LineItems): (r: Eval<LineItems>)
    ensures EditFormBlank(b) ==> r == Returns(NoRows)
    ensures !EditFormBlank(b) && FirstRowBlank(b) == Returns(false) ==> r == Returns(b)
    ensures !EditFormBlank(b) && FirstRowBlank(b) == Returns(true) ==>
      (r.Returns? <==> AllLists(b)) && (r.Returns? ==> DropsFirstRow(b, r.value))
    ensures !EditFormBlank(b) && FirstRowBlank(b) == Throws ==> r == Throws
  {
    if EditFormBlank(b) then Returns(NoRows)
    else
      var blank :- FirstRowBlank(b);
      if blank then ShiftAll(b) else Returns(b)
  }

  /** 216-243 step by step. */
  method NormaliseForEdit(b: LineItems) returns (r: Eval<LineItems>)
    ensures r == EditNormalised(b)
  {
    var body := b;
    if body.partUrl == EmptyString && body.partNumber == EmptyString && body.partName == EmptyString
       && body.subsystem == EmptyString && !ValueTruthy(body.pricePerUnit) && !ValueTruthy(body.quantity)
    {
      var rows := List([]);
      body := LineItems(rows, rows, rows, rows, rows, rows);
    } else {
      var blank :- FirstRowBlank(body);
      if blank {
        body :- ShiftFirstRow(body);
      }
    }
    r := Returns(body);
  }

  /** The six `shift()` calls in source order; the first receiver that is not an
      array throws. */
  method ShiftFirstRow(b: LineItems) returns (r: Eval<LineItems>)
    ensures r == ShiftAll(b)
  {
    var body := b;
    var url :- Shift(body.partUrl);
    body := body.(partUrl := url);
    var number :- Shift(body.partNumber);
    body := body.(partNumber := number);
    var name :- Shift(body.partName);
    body := body.(partName := name);
    var subsystem :- Shift(body.subsystem);
    body := body.(subsystem := subsystem);
    var price :- Shift(body.pricePerUnit);
    body := body.(pricePerUnit := price);
    var quantity :- Shift(body.quantity);
    body := body.(quantity := quantity);
    r := Returns(body);
  }

  // ----- conversions after normalisation -----

  /** The six line-item values the handlers write (179-184, 252-257): `xss_array` of
      each text field, of `mapToDollarAmount(price_per_unit, 0)` and of
      `mapToNumber(quantity, 0)`, in that order; the first one that throws wins. */
  function SanitisedRows(rows: LineItems, xss: Value -> string, fixed2: string -> string): (r: Eval<LineItems>)
    ensures AllLists(rows) ==> r.Returns? && AllLists(r.value)
    ensures Aligned(rows) ==> r.Returns? && Aligned(r.value) && |r.value.partUrl.items| == |rows.partUrl.items|
  {
    var url :- XssArrayOf(rows.partUrl, xss);
    var number :- XssArrayOf(rows.partNumber, xss);
    var name :- XssArrayOf(rows.partName, xss);
    var subsystem :- XssArrayOf(rows.subsystem, xss);
    var price :- XssArrayOf(MapToDollarAmount(rows.pricePerUnit, 0, fixed2), xss);
    var quantity :- XssArrayOf(MapToNumber(rows.quantity, 0), xss);
    Returns(LineItems(url, number, name, subsystem, price, quantity))
  }

  /** The same six conversions, each through the `xss_array` loop. */
  method SanitiseRows(rows: LineItems, xss: Value -> string, fixed2: string -> string) returns (r: Eval<LineItems>)
    ensures r == SanitisedRows(rows, xss, fixed2)
  {
    var url :- XssArray(rows.partUrl, xss);
    var number :- XssArray(rows.partNumber, xss);
    var name :- XssArray(rows.partName, xss);
    var subsystem :- XssArray(rows.subsystem, xss);
    var price :- XssArray(MapToDollarAmount(rows.pricePerUnit, 0, fixed2), xss);
    var quantity :- XssArray(MapToNumber(rows.quantity, 0), xss);
    r := Returns(LineItems(url, number, name, subsystem, price, quantity));
  }

  /** The line items POST /create writes: six arrays never make it throw and come
      out as six arrays, and an all-empty form never makes it throw either. */
  function CreateRows(b: LineItems, xss: Value -> string, fixed2: string -> string): (r: Eval<LineItems>)
    ensures AllLists(b) ==> r.Returns? && AllLists(r.value)
    ensures CreateFormBlank(b) ==> r.Returns?
  {
    var rows :- CreateNormalised(b);
    SanitisedRows(rows, xss, fixed2)
  }

  /** The line items POST /edit writes: six arrays never make it throw and come out
      as six arrays, and an all-empty form is written as six empty arrays. */
  function EditRows(b: LineItems, xss: Value -> string, fixed2: string -> string): (r: Eval<LineItems>)
    ensures AllLists(b) ==> r.Returns? && AllLists(r.value)
    ensures EditFormBlank(b) ==> r == Returns(NoRows)
  {
    var rows :- EditNormalised(b);
    SanitisedRows(rows, xss, fixed2)
  }

  // ----- the equal-length invariant -----

  /** Shifting a blank first row off six aligned arrays keeps them aligned, one row shorter. */
  lemma DroppingFirstRowKeepsAlignment(before: LineItems, after: LineItems)
    requires Aligned(before) && LeadsWithBlank(before.partUrl) && DropsFirstRow(before, after)
    ensures Aligned(after) && |after.partUrl.items| == |before.partUrl.items| - 1
  {
  }

  /** Edit keeps the line items aligned: a form of six aligned arrays is written as
      six aligned arrays (one row fewer when its first row was blank), and an
      all-empty form as six empty arrays. */
  lemma EditRowsAligned(b: LineItems, xss: Value -> string, fixed2: string -> string)
    requires Aligned(b) || EditFormBlank(b)
    ensures EditRows(b, xss, fixed2).Returns?
    ensures Aligned(EditRows(b, xss, fixed2).value)
    ensures EditFormBlank(b) ==> EditRows(b, xss, fixed2).value == NoRows
    ensures Aligned(b) ==> |EditRows(b, xss, fixed2).value.partUrl.items|
                           == if LeadsWithBlank(b.partUrl) && FirstRowBlank(b) == Returns(true)
                              then |b.partUrl.items| - 1 else |b.partUrl.items|
  {
    if EditFormBlank(b) {
      assert EditNormalised(b) == Returns(NoRows);
      assert SanitisedRows(NoRows, xss, fixed2) == Returns(NoRows);
    } else {
      var blank := FirstRowBlank(b);
      if blank == Returns(true) {
        DroppingFirstRowKeepsAlignment(b, EditNormalised(b).value);
      }
    }
  }

  /** Create keeps six aligned arrays aligned. */
  lemma CreateRowsAlignedForArrays(b: LineItems, xss: Value -> string, fixed2: string -> string)
    requires Aligned(b)
    ensures CreateRows(b, xss, fixed2).Returns? && Aligned(CreateRows(b, xss, fixed2).value)
  {
    if FirstRowBlank(b) == Returns(true) {
      DroppingFirstRowKeepsAlignment(b, CreateNormalised(b).value);
    }
  }

  /** As written, create breaks the invariant on an all-empty form: five fields are
      written as [] but `price_per_unit` stays "", which `mapToDollarAmount` turns
      into "0" and `xss_array` into a one-element array. */
  lemma CreateBlankFormLeavesPriceRow(b: LineItems, xss: Value -> string, fixed2: string -> string)
    requires CreateFormBlank(b)
    ensures CreateRows(b, xss, fixed2) == Returns(NoRows.(pricePerUnit := List([Str(xss(Scalar(Str("0"))))])))
    ensures !Aligned(CreateRows(b, xss, fixed2).value)
  {
    BlankAmountFallsBack(EmptyString, 0, fixed2);
    assert Decimal(0) == "0";
    assert MapToDollarAmount(EmptyString, 0, fixed2) == Scalar(Str("0"));
  }

  /** Create's normalisation as evidently intended: the all-empty branch resets
      `price_per_unit` to [] along with the other five, as edit's does. */
  function CreateNormalisedIntended(b: LineItems): (r: Eval<LineItems>)
    ensures CreateFormBlank(b) ==> r == Returns(NoRows)
    ensures !CreateFormBlank(b) ==> r == CreateNormalised(b)
  {
    var start := if CreateFormBlank(b) then NoRows else b;
    var blank :- FirstRowBlank(start);
    if blank then ShiftAll(start) else Returns(start)
  }

  /** With that correction, every form of six aligned arrays or six empty strings is
      written as six aligned arrays. */
  lemma CreateIntendedRowsAligned(b: LineItems, xss: Value -> string, fixed2: string -> string)
    requires Aligned(b) || CreateFormBlank(b)
    ensures CreateNormalisedIntended(b).Returns?
    ensures SanitisedRows(CreateNormalisedIntended(b).value, xss, fixed2).Returns?
    ensures Aligned(SanitisedRows(CreateNormalisedIntended(b).value, xss, fixed2).value)
  {
    if CreateFormBlank(b) {
      assert SanitisedRows(NoRows, xss, fixed2) == Returns(NoRows);
    } else {
      CreateRowsAlignedForArrays(b, xss, fixed2);
    }
  }

  // ----- a form with exactly one line item -----

  /** One line item: the body parser delivers each of the six fields as a single
      string rather than an array. */
  predicate OneItemForm(b: LineItems) {
    b.partUrl.Scalar? && b.partUrl.p.Str? && b.partNumber.Scalar? && b.partNumber.p.Str?
    && b.partName.Scalar? && b.partName.p.Str? && b.subsystem.Scalar? && b.subsystem.p.Str?
    && b.pricePerUnit.Scalar? && b.pricePerUnit.p.Str? && b.quantity.Scalar? && b.quantity.p.Str?
  }

  /** What a one-item form is written as: each text field and the price wrapped in a
      one-element array by `xss_array`; the quantity, once `toNumber` has read it,
      left as a bare number, which `xss_array` returns unchanged; an unreadable
      quantity becomes the fallback string "0" and is wrapped like the rest. */
  function OneItemStored(b: LineItems, xss: Value -> string, fixed2: string -> string): LineItems
    requires OneItemForm(b)
  {
    var quantity := ToNumber(b.quantity.p, 0);
    LineItems(List([Str(xss(b.partUrl))]), List([Str(xss(b.partNumber))]), List([Str(xss(b.partName))]),
              List([Str(xss(b.subsystem))]),
              List([Str(xss(Scalar(ToDollarAmount(b.pricePerUnit, 0, fixed2))))]),
              if quantity.Num? then Scalar(quantity) else List([Str(xss(Scalar(Str("0"))))]))
  }

  /** The first-row test is false on a one-item form: indexing a string yields at
      most one character, never an array slot holding "". */
  lemma OneItemFirstRowNotBlank(b: LineItems)
    requires OneItemForm(b)
    ensures FirstRowBlank(b) == Returns(false)
  {
    assert At0(b.partUrl).Returns? && At0(b.partUrl).value != Str("");
  }

  /** The conversions turn a one-item form into `OneItemStored`. */
  lemma OneItemSanitised(b: LineItems, xss: Value -> string, fixed2: string -> string)
    requires OneItemForm(b)
    ensures SanitisedRows(b, xss, fixed2) == Returns(OneItemStored(b, xss, fixed2))
  {
    var quantity := ToNumber(b.quantity.p, 0);
    assert MapToNumber(b.quantity, 0) == Scalar(quantity);
    if quantity.Str? {
      assert Decimal(0) == "0";
      assert XssArrayOf(Scalar(quantity), xss) == Returns(List([Str(xss(Scalar(Str("0"))))]));
    }
  }

  /** Create and edit write a one-item form (unless it is their all-empty form) as
      `OneItemStored`: the six fields are aligned exactly when the quantity does not
      read as an integer. */
  lemma OneItemFormStoresBareQuantity(b: LineItems, xss: Value -> string, fixed2: string -> string)
    requires OneItemForm(b)
    ensures !CreateFormBlank(b) ==> CreateRows(b, xss, fixed2) == Returns(OneItemStored(b, xss, fixed2))
    ensures !EditFormBlank(b) ==> EditRows(b, xss, fixed2) == Returns(OneItemStored(b, xss, fixed2))
    ensures Aligned(OneItemStored(b, xss, fixed2)) <==> ToNumber(b.quantity.p, 0).Str?
  {
    OneItemFirstRowNotBlank(b);
    OneItemSanitised(b, xss, fixed2);
    if !CreateFormBlank(b) {
      assert CreateNormalised(b) == Returns(b);
    }
    if !EditFormBlank(b) {
      assert EditNormalised(b) == Returns(b);
    }
    var stored := OneItemStored(b, xss, fixed2);
    assert |stored.partUrl.items| == 1 && |stored.pricePerUnit.items| == 1;
  }

  /** A single item with quantity "2" is stored with the bare number 2 as its
      quantity, next to five one-element arrays. */
  lemma OneItemQuantityTwo(b: LineItems, xss: Value -> string, fixed2: string -> string)
    requires b == LineItems(Scalar(Str("u")), Scalar(Str("n")), Scalar(Str("m")), Scalar(Str("s")),
                            Scalar(Str("1.5")), Scalar(Str("2")))
    ensures EditRows(b, xss, fixed2).Returns? && EditRows(b, xss, fixed2).value.quantity == Scalar(Num(2))
    ensures !Aligned(EditRows(b, xss, fixed2).value)
  {
    assert Decimal(2) == "2";
    ToNumberReadsLeadingInteger("", 2, "", 0);
    assert "" + Decimal(2) + "" == "2";
    assert ToNumber(b.quantity.p, 0) == Num(2);
    assert b.partUrl != EmptyString;
    OneItemFormStoresBareQuantity(b, xss, fixed2);
  }
}
