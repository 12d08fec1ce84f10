/** The purchase collection and the handlers that read and write it: POST /create
    (routers/member/purchase.js:145-205), GET and POST /edit/:purchase_id (207-279),
    POST /admin/approve/:id and /admin/reject/:id (295-351), and the JSON listings
    /list_object/:filter and /list_object/ (79-120). A failing database call is the
    parameter `storeFails`. */
module PurchaseStore {
  import opened JsValues
  import opened FormFields
  import opened LineItemRows
  import opened RankGates
  import opened Approval

  /** `xss(safeString(v))`. */
  function Text(v: Value, xss: Value -> string): Value {
    Scalar(Str(xss(SafeString(v))))
  }

  /** A single string, as `xss` returns. */
  predicate IsText(v: Value) {
    v.Scalar? && v.p.Str?
  }

  /** The fields of 173-186 and 246-259, given the line items the handler
      computed: the six text fields through `xss(safeString(...))`, shipping through
      `xss_array(toDollarAmount(...))` and tax through `xss(toDollarAmount(...))`. */
  function StoredFields(f: PurchaseFields, rows: Eval<LineItems>, xss: Value -> string, fixed2: string -> string)
    : (r: Eval<PurchaseFields>)
    ensures r.Returns? <==> rows.Returns?
    ensures r.Returns? ==> r.value.rows == rows.value
    ensures r.Returns? ==>
      IsText(r.value.subteam) && IsText(r.value.vendor) && IsText(r.value.vendorPhone)
      && IsText(r.value.vendorEmail) && IsText(r.value.vendorAddress) && IsText(r.value.reasonForPurchase)
      && IsText(r.value.tax)
    ensures r.Returns? ==> r.value.shippingAndHandling.List? && |r.value.shippingAndHandling.items| == 1
  {
    var items :- rows;
    var shipping := XssArrayOf(Scalar(ToDollarAmount(f.shippingAndHandling, 0, fixed2)), xss).value;
    Returns(PurchaseFields(
      Text(f.subteam, xss), Text(f.vendor, xss), Text(f.vendorPhone, xss), Text(f.vendorEmail, xss),
      Text(f.vendorAddress, xss), Text(f.reasonForPurchase, xss),
      items, shipping, Scalar(Str(xss(Scalar(ToDollarAmount(f.tax, 0, fixed2)))))))
  }

  /** The record POST /create inserts. It names no approval code: the code comes
      from the schema default, given here as `defaultApproval`. */
  function CreatedRecord(f: PurchaseFields, email: string, defaultApproval: int, xss: Value -> string, fixed2: string -> string)
    : (r: Eval<Purchase>)
    ensures r.Returns? <==> CreateRows(f.rows, xss, fixed2).Returns?
    ensures r.Returns? ==> r.value.approval == defaultApproval && r.value.submittedBy == email
    ensures r.Returns? ==> r.value.fields.rows == CreateRows(f.rows, xss, fixed2).value
    ensures r.Returns? ==> r.value.mentorStamp == None && r.value.adminStamp == None
  {
    var fields :- StoredFields(f, CreateRows(f.rows, xss, fixed2), xss, fixed2);
    Returns(Purchase(defaultApproval, email, fields, None, None))
  }

  /** The update POST /edit sends (245-261): the fields, the caller as submitter
      and approval 0. */
  function EditUpdate(f: PurchaseFields, email: string, xss: Value -> string, fixed2: string -> string)
    : (r: Eval<Update>)
    ensures r.Returns? <==> EditRows(f.rows, xss, fixed2).Returns?
    ensures r.Returns? ==> r.value.approval == Some(0) && r.value.submittedBy == Some(email)
    ensures r.Returns? ==> r.value.fields.Some? && r.value.fields.value.rows == EditRows(f.rows, xss, fixed2).value
    ensures r.Returns? ==> r.value.mentorStamp == None && r.value.adminStamp == None
  {
    var fields :- StoredFields(f, EditRows(f.rows, xss, fixed2), xss, fixed2);
    Returns(Update(Some(0), Some(email), Some(fields), None, None))
  }

  // ----- listing -----

  /** The Mongo query a listing runs. */
  datatype Query = Everything | SubmittedBy(email: string) | ApprovalIn(codes: set<int>)

  /** The filter of 80-89 (`None` is the /list_object/ route of 106-107). Only "my"
      brings the caller's email into the query, and no approval-code query contains
      1 (rejected by an admin) or 4 (approved by a mentor): only "my" and the
      unfiltered listing (no filter, or an unknown one) show such records. */
  function FilterQuery(filter: Option<string>, email: string): (q: Query)
    ensures q.SubmittedBy? <==> filter == Some("my")
    ensures q.SubmittedBy? ==> q.email == email
    ensures q.ApprovalIn? ==> q.codes <= {0, 2, 3} && 1 !in q.codes && 4 !in q.codes
  {
    if filter == Some("my") then SubmittedBy(email)
    else if filter == Some("admin") then ApprovalIn({0, 3})
    else if filter == Some("mentor") then ApprovalIn({2})
    else Everything
  }

  predicate Matches(p: Purchase, q: Query) {
    match q
    case Everything => true
    case SubmittedBy(email) => p.submittedBy == email
    case ApprovalIn(codes) => p.approval in codes
  }

  /** What each filter keeps: "my" the caller's own records (exact, case-sensitive
      comparison), "admin" those pending or rejected by a mentor, "mentor" those an
      admin approved, and anything else (or no filter) every record. */
  lemma FilterKeeps(filter: Option<string>, email: string, p: Purchase)
    ensures filter == Some("my") ==> (Matches(p, FilterQuery(filter, email)) <==> p.submittedBy == email)
    ensures filter == Some("admin") ==> (Matches(p, FilterQuery(filter, email)) <==> p.approval == 0 || p.approval == 3)
    ensures filter == Some("mentor") ==> (Matches(p, FilterQuery(filter, email)) <==> p.approval == 2)
    ensures filter !in {Some("my"), Some("admin"), Some("mentor")} ==> Matches(p, FilterQuery(filter, email))
  {
  }

  /** `m` is the largest element of `s`. */
  predicate IsMax(m: int, s: set<int>) {
    m in s && forall k :: k in s ==> k <= m
  }

  lemma HasElement(s: set<int>)
    requires s != {}
    ensures exists x :: x in s
  {
    if forall x :: x !in s {
      assert false;
    }
  }

  /** A finite, non-empty set of ids has a largest one. */
  lemma {:induction false} MaxExists(s: set<int>)
    requires s != {}
    ensures exists m :: IsMax(m, s)
    decreases |s|
  {
    HasElement(s);
    var x :| x in s;
    if forall k :: k in s ==> k <= x {
      assert IsMax(x, s);
    } else {
      var y :| y in s && y > x;
      var rest := s - {x};
      assert y in rest;
      MaxExists(rest);
      var m :| IsMax(m, rest);
      forall k | k in s ensures k <= m {
        if k != x { assert k in rest; } else { assert y <= m; }
      }
      assert IsMax(m, s);
    }
  }

  function Max(s: set<int>): (m: int)
    requires s != {}
    ensures IsMax(m, s)
  {
    MaxExists(s);
    var m :| IsMax(m, s);
    m
  }

  predicate StrictlyDescending(ids: seq<int>) {
    forall i, j :: 0 <= i < j < |ids| ==> ids[i] > ids[j]
  }

  /** The ids of a set, largest first: `.sort({ purchase_id: -1 })`. */
  function SortedDescending(s: set<int>): (r: seq<int>)
    ensures |r| == |s|
    ensures forall k :: k in r <==> k in s
    ensures StrictlyDescending(r)
    decreases |s|
  {
    if s == {} then []
    else
      var m := Max(s);
      [m] + SortedDescending(s - {m})
  }

  /** A listed purchase with its id. */
  datatype Row = Row(id: int, purchase: Purchase)

  /** The ids of the records a query selects. */
  function Selected(records: map<int, Purchase>, q: Query): (ids: set<int>)
    ensures forall k :: k in ids <==> k in records && Matches(records[k], q)
  {
    set k | k in records && Matches(records[k], q)
  }

  /** The records under the given ids, in the order of the ids. */
  function RowsOf(records: map<int, Purchase>, ids: seq<int>): (rows: seq<Row>)
    requires forall i :: 0 <= i < |ids| ==> ids[i] in records
    ensures |rows| == |ids|
    ensures forall i :: 0 <= i < |ids| ==> rows[i] == Row(ids[i], records[ids[i]])
  {
    seq(|ids|, i requires 0 <= i < |ids| => Row(ids[i], records[ids[i]]))
  }

  /** Every id of `ids` is the id of some row of `RowsOf(records, ids)`. */
  lemma RowsOfCover(records: map<int, Purchase>, ids: seq<int>, k: int)
    requires forall i :: 0 <= i < |ids| ==> ids[i] in records
    requires k in ids
    ensures exists i :: 0 <= i < |RowsOf(records, ids)| && RowsOf(records, ids)[i].id == k
  {
    var i :| 0 <= i < |ids| && ids[i] == k;
    assert RowsOf(records, ids)[i].id == k;
  }

  /** The records a query selects, largest id first: every row is a selected record
      under its own id, and every selected record appears. */
  function Listing(records: map<int, Purchase>, q: Query): (rows: seq<Row>)
    ensures forall i, j :: 0 <= i < j < |rows| ==> rows[i].id > rows[j].id
    ensures forall i :: 0 <= i < |rows| ==>
      rows[i].id in records && rows[i].purchase == records[rows[i].id] && Matches(rows[i].purchase, q)
    ensures forall k :: k in records && Matches(records[k], q) ==> exists i :: 0 <= i < |rows| && rows[i].id == k
  {
    var ids := SortedDescending(Selected(records, q));
    assert forall i :: 0 <= i < |ids| ==> ids[i] in Selected(records, q);
    assert forall k :: k in records && Matches(records[k], q) ==>
      exists i :: 0 <= i < |RowsOf(records, ids)| && RowsOf(records, ids)[i].id == k
    by {
      forall k | k in records && Matches(records[k], q)
        ensures exists i :: 0 <= i < |RowsOf(records, ids)| && RowsOf(records, ids)[i].id == k
      {
        assert k in Selected(records, q);
        RowsOfCover(records, ids, k);
      }
    }
    RowsOf(records, ids)
  }

  // ----- the collection -----

  /** What `findOneAndUpdate` reports: a database error, no record with the id, or the record as it was before the update. */
  datatype StoreResult = StoreError | Missing | Found(before: Purchase)

  datatype EditOutcome = FormThrows | EditStoreError | EditMissing | EditSaved
  datatype CreateOutcome = CreateThrows | CreateStoreError | Created(id: int)
  datatype EditPage = NotFound | ShowEditForm(purchase: Purchase) | ShowView(purchase: Purchase)
  datatype ListOutcome = ListFailed | Listed(rows: seq<Row>)

  /** The purchases collection, keyed by `purchase_id`. */
  class Store {
    var records: map<int, Purchase>

    constructor()
      ensures records == map[]
    {
      records := map[];
    }

    /** `findOneAndUpdate({ purchase_id: id }, u)`: no write when the call fails or no
        record has the id; otherwise the record before the update is handed back. */
    method FindOneAndUpdate(id: int, u: Update, storeFails: bool) returns (result: StoreResult)
      modifies this
      ensures storeFails ==> result == StoreError && records == old(records)
      ensures !storeFails && id !in old(records) ==> result == Missing && records == old(records)
      ensures !storeFails && id in old(records) ==>
        result == Found(old(records)[id]) && records == old(records)[id := Apply(old(records)[id], u)]
    {
      if storeFails {
        return StoreError;
      }
      if id !in records {
        return Missing;
      }
      result := Found(records[id]);
      records := records[id := Apply(records[id], u)];
    }

    /** POST /admin/approve/:id: 500 on a database error, 404 when no record has the
        id, else 200 after setting approval 4 or 2, whatever the prior state. */
    method Approve(id: int, level: int, mentorField: Value, comments: Value, email: string, now: int,
                   r: Ranks, storeFails: bool) returns (status: int)
      modifies this
      ensures storeFails ==> status == 500 && records == old(records)
      ensures !storeFails && id !in old(records) ==> status == 404 && records == old(records)
      ensures !storeFails && id in old(records) ==>
        status == 200 && records == old(records)[id := Apply(old(records)[id], ApproveQuery(level, mentorField, comments, email, now, r))]
    {
      var query := BuildApproveQuery(level, mentorField, comments, email, now, r);
      var result := FindOneAndUpdate(id, query, storeFails);
      status := match result
        case StoreError => 500
        case Missing => 404
        case Found(_) => 200;
    }

    /** POST /admin/reject/:id, with the branch test of line 327 as written. */
    method Reject(id: int, level: int, mentorField: Value, comments: Value, email: string, now: int,
                  r: Ranks, storeFails: bool) returns (status: int)
      modifies this
      ensures storeFails ==> status == 500 && records == old(records)
      ensures !storeFails && id !in old(records) ==> status == 404 && records == old(records)
      ensures !storeFails && id in old(records) ==>
        status == 200 && records == old(records)[id := Apply(old(records)[id], RejectQuery(level, mentorField, comments, email, now, r))]
    {
      var query := BuildRejectQuery(level, mentorField, comments, email, now, r);
      var result := FindOneAndUpdate(id, query, storeFails);
      status := match result
        case StoreError => 500
        case Missing => 404
        case Found(_) => 200;
    }

    /** POST /edit/:purchase_id: normalise the line items, build the update and write
        it to whatever record has the id. Neither the submitter nor the approval code
        of that record is checked. A form the normalisation or `xss_array` throws on
        writes nothing; with no record of that id nothing is written and the redirect
        of 276 throws. */
    method Edit(id: int, f: PurchaseFields, email: string, xss: Value -> string, fixed2: string -> string,
                storeFails: bool) returns (outcome: EditOutcome)
      modifies this
      ensures EditUpdate(f, email, xss, fixed2).Throws? ==> outcome == FormThrows && records == old(records)
      ensures EditUpdate(f, email, xss, fixed2).Returns? && storeFails ==>
        outcome == EditStoreError && records == old(records)
      ensures EditUpdate(f, email, xss, fixed2).Returns? && !storeFails && id !in old(records) ==>
        outcome == EditMissing && records == old(records)
      ensures EditUpdate(f, email, xss, fixed2).Returns? && !storeFails && id in old(records) ==>
        outcome == EditSaved
        && records == old(records)[id := Apply(old(records)[id], EditUpdate(f, email, xss, fixed2).value)]
    {
      var rows := NormaliseForEdit(f.rows);
      if rows.Throws? {
        return FormThrows;
      }
      var items := SanitiseRows(rows.value, xss, fixed2);
      if items.Throws? {
        return FormThrows;
      }
      assert EditRows(f.rows, xss, fixed2) == items;
      var fields := StoredFields(f, items, xss, fixed2).value;
      var result := FindOneAndUpdate(id, Update(Some(0), Some(email), Some(fields), None, None), storeFails);
      outcome := match result
        case StoreError => EditStoreError
        case Missing => EditMissing
        case Found(_) => EditSaved;
    }

    /** POST /create: normalise the line items, build the record and insert it under
        the id the schema assigns (`freshId`). */
    method Create(f: PurchaseFields, email: string, freshId: int, defaultApproval: int,
                  xss: Value -> string, fixed2: string -> string, storeFails: bool) returns (outcome: CreateOutcome)
      requires freshId !in records
      modifies this
      ensures CreatedRecord(f, email, defaultApproval, xss, fixed2).Throws? ==>
        outcome == CreateThrows && records == old(records)
      ensures CreatedRecord(f, email, defaultApproval, xss, fixed2).Returns? && storeFails ==>
        outcome == CreateStoreError && records == old(records)
      ensures CreatedRecord(f, email, defaultApproval, xss, fixed2).Returns? && !storeFails ==>
        outcome == Created(freshId)
        && records == old(records)[freshId := CreatedRecord(f, email, defaultApproval, xss, fixed2).value]
    {
      var rows := NormaliseForCreate(f.rows);
      if rows.Throws? {
        return CreateThrows;
      }
      var items := SanitiseRows(rows.value, xss, fixed2);
      if items.Throws? {
        return CreateThrows;
      }
      assert CreateRows(f.rows, xss, fixed2) == items;
      var fields := StoredFields(f, items, xss, fixed2).value;
      if storeFails {
        return CreateStoreError;
      }
      records := records[freshId := Purchase(defaultApproval, email, fields, None, None)];
      outcome := Created(freshId);
    }

    /** GET /edit/:purchase_id: 404 when the lookup fails or finds nothing; the edit
        form for the submitter (compared without regard to case) while the code is
        at most 1; the read-only view otherwise. */
    method EditForm(id: int, email: string, storeFails: bool) returns (page: EditPage)
      ensures storeFails || id !in records ==> page == NotFound
      ensures !storeFails && id in records ==>
        (page == ShowEditForm(records[id]) <==> MayEdit(records[id].submittedBy, records[id].approval, email))
      ensures !storeFails && id in records && !MayEdit(records[id].submittedBy, records[id].approval, email) ==>
        page == ShowView(records[id])
    {
      if storeFails || id !in records {
        return NotFound;
      }
      var purchase := records[id];
      if LowerAscii(purchase.submittedBy) == LowerAscii(email) && purchase.approval <= 1 {
        page := ShowEditForm(purchase);
      } else {
        page := ShowView(purchase);
      }
    }

    /** GET /list_object/:filter and /list_object/: the selected records, largest id
        first, copied into the response array one by one; 500 when the query fails. */
    method ListObjects(filter: Option<string>, email: string, storeFails: bool) returns (outcome: ListOutcome)
      ensures storeFails ==> outcome == ListFailed
      ensures !storeFails ==> outcome == Listed(Listing(records, FilterQuery(filter, email)))
    {
      if storeFails {
        return ListFailed;
      }
      var q := FilterQuery(filter, email);
      var purchases := SortedDescending(Selected(records, q));
      assert forall j :: 0 <= j < |purchases| ==> purchases[j] in Selected(records, q);
      var out: seq<Row> := [];
      var i := 0;
      while i < |purchases|
        invariant 0 <= i <= |purchases|
        invariant forall j :: 0 <= j < |purchases| ==> purchases[j] in records
        invariant |out| == i
        invariant forall j :: 0 <= j < i ==> out[j] == Row(purchases[j], records[purchases[j]])
      {
        out := out + [Row(purchases[i], records[purchases[i]])];
        i := i + 1;
      }
      assert out == RowsOf(records, purchases);
      return Listed(out);
    }
  }

  // ----- properties across handlers -----

  /** POST /edit writes approval 0 and the caller as submitter into any record,
      whoever submitted it and whatever its code, 4 included; it replaces the
      purchase's fields and leaves the stamps of both stages in place. */
  lemma EditIgnoresOwnerAndState(p: Purchase, f: PurchaseFields, email: string, xss: Value -> string, fixed2: string -> string)
    requires EditUpdate(f, email, xss, fixed2).Returns?
    ensures Apply(p, EditUpdate(f, email, xss, fixed2).value).approval == 0
    ensures Apply(p, EditUpdate(f, email, xss, fixed2).value).submittedBy == email
    ensures Apply(p, EditUpdate(f, email, xss, fixed2).value).mentorStamp == p.mentorStamp
    ensures Apply(p, EditUpdate(f, email, xss, fixed2).value).adminStamp == p.adminStamp
  {
  }

  /** A form whose line items are six aligned arrays, or six empty values, is
      stored by edit with six aligned arrays. */
  lemma EditKeepsRowsAligned(p: Purchase, f: PurchaseFields, email: string, xss: Value -> string, fixed2: string -> string)
    requires Aligned(f.rows) || EditFormBlank(f.rows)
    ensures EditUpdate(f, email, xss, fixed2).Returns?
    ensures Aligned(Apply(p, EditUpdate(f, email, xss, fixed2).value).fields.rows)
  {
    EditRowsAligned(f.rows, xss, fixed2);
  }

  /** The edit form and the "my" listing disagree on case: a record submitted as
      "A@x" is editable by the caller "a@x" but is not among that caller's own. */
  lemma EditableButNotListedAsMine(fields: PurchaseFields)
    ensures MayEdit("A@x", 0, "a@x")
    ensures !Matches(Purchase(0, "A@x", fields, None, None), FilterQuery(Some("my"), "a@x"))
  {
    assert LowerAscii("A@x") == "a@x";
    assert LowerAscii("a@x") == "a@x";
    assert "A@x"[0] != "a@x"[0];
  }
}
