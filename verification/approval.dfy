/** The stored purchase record, the partial updates `findOneAndUpdate` applies to
    it, and the updates POST /admin/approve/:id and POST /admin/reject/:id build
    property by property (routers/member/purchase.js:295-351). */
module Approval {
  import opened JsValues
  import opened FormFields
  import opened LineItemRows
  import opened RankGates

  /** The purchase's own fields, as a form submits them and as a record stores
      them: `subteam`, `vendor`, `vendor_phone`, `vendor_email`, `vendor_address`,
      `reason_for_purchase`, the six line-item fields, `shipping_and_handling`
      and `tax`. */
  datatype PurchaseFields = PurchaseFields(
    subteam: Value, vendor: Value, vendorPhone: Value, vendorEmail: Value,
    vendorAddress: Value, reasonForPurchase: Value,
    rows: LineItems, shippingAndHandling: Value, tax: Value)

  /** A stage's record of its decision: `<stage>_comments`, `<stage>_username` and
      `<stage>_date_approved` (the time of `new Date()`). */
  datatype Stamp = Stamp(comments: Value, username: Value, dateApproved: int)

  /** A stored purchase: its approval code (0 pending, 1 rejected by an admin,
      2 approved by an admin, 3 rejected by a mentor, 4 approved by a mentor), the
      email of its submitter, its fields, and the stamps of the mentor and admin
      stages (`None` while a stage has written none). */
  datatype Purchase = Purchase(approval: int, submittedBy: string, fields: PurchaseFields,
                               mentorStamp: Option<Stamp>, adminStamp: Option<Stamp>)

  /** An update document: what it names is overwritten, the rest is kept. */
  datatype Update = Update(approval: Option<int>, submittedBy: Option<string>, fields: Option<PurchaseFields>,
                           mentorStamp: Option<Stamp>, adminStamp: Option<Stamp>)

  const NoChange := Update(None, None, None, None, None)

  /** `findOneAndUpdate` with a plain update document: each named property is set. */
  function Apply(p: Purchase, u: Update): (r: Purchase)
    ensures r.approval == if u.approval.Some? then u.approval.value else p.approval
    ensures r.submittedBy == if u.submittedBy.Some? then u.submittedBy.value else p.submittedBy
    ensures r.fields == if u.fields.Some? then u.fields.value else p.fields
    ensures r.mentorStamp == if u.mentorStamp.Some? then u.mentorStamp else p.mentorStamp
    ensures r.adminStamp == if u.adminStamp.Some? then u.adminStamp else p.adminStamp
  {
    Purchase(if u.approval.Some? then u.approval.value else p.approval,
             if u.submittedBy.Some? then u.submittedBy.value else p.submittedBy,
             if u.fields.Some? then u.fields.value else p.fields,
             if u.mentorStamp.Some? then u.mentorStamp else p.mentorStamp,
             if u.adminStamp.Some? then u.adminStamp else p.adminStamp)
  }

  /** Which stage a decision is recorded for. */
  datatype Stage = MentorStage | AdminStage

  /** A decision: the new approval code and that stage's stamp, made of the
      comments, the decider's email and the time of the decision. */
  function Decision(stage: Stage, code: int, comments: Value, email: string, now: int): (u: Update)
    ensures u.approval == Some(code) && u.submittedBy == None && u.fields == None
    ensures stage == MentorStage ==> u.mentorStamp.Some? && u.adminStamp.None?
    ensures stage == AdminStage ==> u.adminStamp.Some? && u.mentorStamp.None?
  {
    var stamp := Some(Stamp(SafeString(comments), SafeString(Scalar(Str(email))), now));
    if stage == MentorStage then Update(Some(code), None, None, stamp, None)
    else Update(Some(code), None, None, None, stamp)
  }

  /** The update approve sends (296-310): code 4 with the mentor stamp, or code 2
      with the admin stamp. */
  function ApproveQuery(level: int, mentorField: Value, comments: Value, email: string, now: int, r: Ranks): (u: Update)
    ensures u.approval == Some(4) || u.approval == Some(2)
    ensures u.approval == Some(4) <==> ApproveAsMentor(level, mentorField, r)
    ensures u.mentorStamp.Some? <==> ApproveAsMentor(level, mentorField, r)
    ensures u.adminStamp.Some? <==> !ApproveAsMentor(level, mentorField, r)
    ensures u.submittedBy == None && u.fields == None
  {
    if ApproveAsMentor(level, mentorField, r) then Decision(MentorStage, 4, comments, email, now)
    else Decision(AdminStage, 2, comments, email, now)
  }

  /** The update reject sends (325-339), with the test of line 327 as written:
      code 3 with the mentor stamp, or code 1 with the admin stamp. */
  function RejectQuery(level: int, mentorField: Value, comments: Value, email: string, now: int, r: Ranks): (u: Update)
    ensures u.approval == Some(3) || u.approval == Some(1)
    ensures u.approval == Some(3) <==> RejectAsMentor(level, mentorField, r)
    ensures u.mentorStamp.Some? <==> RejectAsMentor(level, mentorField, r)
    ensures u.adminStamp.Some? <==> !RejectAsMentor(level, mentorField, r)
    ensures u.submittedBy == None && u.fields == None
  {
    if RejectAsMentor(level, mentorField, r) then Decision(MentorStage, 3, comments, email, now)
    else Decision(AdminStage, 1, comments, email, now)
  }

  /** Approve's `query` object, built one property at a time. */
  method BuildApproveQuery(level: int, mentorField: Value, comments: Value, email: string, now: int, r: Ranks)
    returns (query: Update)
    ensures query == ApproveQuery(level, mentorField, comments, email, now, r)
  {
    query := NoChange;
    var stamp := Stamp(Absent, Absent, 0);
    if level == r.mentor || (level >= r.superadmin && mentorField == Scalar(Str("true"))) {
      query := query.(approval := Some(4));
      stamp := stamp.(comments := SafeString(comments));
      stamp := stamp.(username := SafeString(Scalar(Str(email))));
      stamp := stamp.(dateApproved := now);
      query := query.(mentorStamp := Some(stamp));
    } else {
      query := query.(approval := Some(2));
      stamp := stamp.(comments := SafeString(comments));
      stamp := stamp.(username := SafeString(Scalar(Str(email))));
      stamp := stamp.(dateApproved := now);
      query := query.(adminStamp := Some(stamp));
    }
  }

  /** Reject's `query` object, built one property at a time. */
  method BuildRejectQuery(level: int, mentorField: Value, comments: Value, email: string, now: int, r: Ranks)
    returns (query: Update)
    ensures query == RejectQuery(level, mentorField, comments, email, now, r)
  {
    query := NoChange;
    var stamp := Stamp(Absent, Absent, 0);
    if level == r.admin || (level >= r.superadmin && mentorField == Scalar(Str("true"))) {
      query := query.(approval := Some(3));
      stamp := stamp.(comments := SafeString(comments));
      stamp := stamp.(username := SafeString(Scalar(Str(email))));
      stamp := stamp.(dateApproved := now);
      query := query.(mentorStamp := Some(stamp));
    } else {
      query := query.(approval := Some(1));
      stamp := stamp.(comments := SafeString(comments));
      stamp := stamp.(username := SafeString(Scalar(Str(email))));
      stamp := stamp.(dateApproved := now);
      query := query.(adminStamp := Some(stamp));
    }
  }

  /** A decision sets the approval code and its own stage's stamp, recording the
      decider's email as given; the submitter, the purchase's fields and the other
      stage's stamp are left as they were. */
  lemma DecisionTouchesOnlyItsStage(p: Purchase, stage: Stage, code: int, comments: Value, email: string, now: int)
    ensures Apply(p, Decision(stage, code, comments, email, now))
         == if stage == MentorStage
            then p.(approval := code, mentorStamp := Some(Stamp(SafeString(comments), Scalar(Str(email)), now)))
            else p.(approval := code, adminStamp := Some(Stamp(SafeString(comments), Scalar(Str(email)), now)))
  {
  }

  /** Approving ends in 4 exactly on the mentor branch and in 2 otherwise, from any
      prior state: in particular a record a mentor already approved (4) goes back
      to 2 when an admin approves it again. Only the deciding stage's stamp changes. */
  lemma ApproveIgnoresPriorState(p: Purchase, level: int, mentorField: Value, comments: Value, email: string, now: int, r: Ranks)
    ensures Apply(p, ApproveQuery(level, mentorField, comments, email, now, r)).approval
            == if ApproveAsMentor(level, mentorField, r) then 4 else 2
    ensures ApproveAsMentor(level, mentorField, r) ==>
            Apply(p, ApproveQuery(level, mentorField, comments, email, now, r)).adminStamp == p.adminStamp
    ensures !ApproveAsMentor(level, mentorField, r) ==>
            Apply(p, ApproveQuery(level, mentorField, comments, email, now, r)).mentorStamp == p.mentorStamp
    ensures p.approval == 4 && !ApproveAsMentor(level, mentorField, r) ==>
            Apply(p, ApproveQuery(level, mentorField, comments, email, now, r)).approval == 2
  {
  }

  /** Rejecting ends in 3 or 1 from any prior state, 4 included. */
  lemma RejectIgnoresPriorState(p: Purchase, level: int, mentorField: Value, comments: Value, email: string, now: int, r: Ranks)
    ensures Apply(p, RejectQuery(level, mentorField, comments, email, now, r)).approval
            == if RejectAsMentor(level, mentorField, r) then 3 else 1
    ensures RejectAsMentor(level, mentorField, r) ==>
            Apply(p, RejectQuery(level, mentorField, comments, email, now, r)).adminStamp == p.adminStamp
    ensures !RejectAsMentor(level, mentorField, r) ==>
            Apply(p, RejectQuery(level, mentorField, comments, email, now, r)).mentorStamp == p.mentorStamp
  {
  }

  /** As written, with mentors ranked below admins, an admin (exactly admin rank)
      who rejects is recorded as a mentor: code 3 and the mentor stamp, although
      the same admin approving is recorded in the admin stamp. */
  lemma AdminRejectIsRecordedAsMentorRejection(mentorField: Value, comments: Value, email: string, now: int, r: Ranks)
    requires Ordered(r)
    ensures RejectQuery(r.admin, mentorField, comments, email, now, r).approval == Some(3)
    ensures RejectQuery(r.admin, mentorField, comments, email, now, r).mentorStamp.Some?
    ensures ApproveQuery(r.admin, mentorField, comments, email, now, r).adminStamp.Some?
  {
    AdminRejectTakesMentorBranch(mentorField, r);
  }

  /** As written, with mentors ranked above admins, a mentor who rejects is
      recorded as an admin (code 1, admin stamp) although the same mentor approving
      is recorded as a mentor (code 4), and an admin who rejects is recorded as a
      mentor (code 3). */
  lemma MentorRejectIsRecordedAsAdminRejection(mentorField: Value, comments: Value, email: string, now: int, r: Ranks)
    requires MentorAboveAdmin(r)
    ensures RejectQuery(r.mentor, mentorField, comments, email, now, r).approval == Some(1)
    ensures RejectQuery(r.mentor, mentorField, comments, email, now, r).adminStamp.Some?
    ensures ApproveQuery(r.mentor, mentorField, comments, email, now, r).approval == Some(4)
    ensures RejectQuery(r.admin, mentorField, comments, email, now, r).approval == Some(3)
  {
    MentorAboveAdminGates(r.mentor, mentorField, r);
  }

  /** Reject's update as evidently intended: the mentor branch uses approve's test. */
  function RejectQueryIntended(level: int, mentorField: Value, comments: Value, email: string, now: int, r: Ranks): (u: Update)
    ensures u.approval == Some(3) || u.approval == Some(1)
    ensures u.approval == Some(3) <==> ApproveAsMentor(level, mentorField, r)
    ensures u.mentorStamp.Some? <==> ApproveAsMentor(level, mentorField, r)
    ensures u.adminStamp.Some? <==> !ApproveAsMentor(level, mentorField, r)
  {
    if ApproveAsMentor(level, mentorField, r) then Decision(MentorStage, 3, comments, email, now)
    else Decision(AdminStage, 1, comments, email, now)
  }

  /** With the correction, a caller admitted to /admin/reject records a rejection
      in the stage an approval would be recorded in, and differs from the code as
      written exactly for callers of the admin or the mentor rank. With mentors below admins, an
      admin's rejection is 1 and 3 needs the superadmin override; with mentors
      above admins, a mentor's rejection is 3 and an admin's is 1. */
  lemma IntendedRejectMirrorsApprove(level: int, mentorField: Value, comments: Value, email: string, now: int, r: Ranks)
    requires (Ordered(r) || MentorAboveAdmin(r)) && Admit(Reject, level, r) == Admitted
    ensures RejectQueryIntended(level, mentorField, comments, email, now, r)
            != RejectQuery(level, mentorField, comments, email, now, r)
            <==> level == r.admin || level == r.mentor
    ensures Ordered(r) ==>
      (RejectQueryIntended(level, mentorField, comments, email, now, r).approval == Some(3)
       <==> level >= r.superadmin && OverrideRequested(mentorField))
    ensures RejectQueryIntended(r.admin, mentorField, comments, email, now, r).approval == Some(1)
    ensures MentorAboveAdmin(r) ==> RejectQueryIntended(r.mentor, mentorField, comments, email, now, r).approval == Some(3)
  {
    AdmitExactly(Reject, level, r);
  }
}
