/** The rank gates of the purchase router: the three guards registered with
    `router.all` (routers/member/purchase.js:56-62, 283-289, 358-364), which every later route
    sits behind, and the role tests inside the approve and reject handlers (298, 327).
    The numeric ranks come from helpers/ranks.json, which is not part of this model:
    they are a parameter, and results that need an order among them say which. */
module RankGates {
  import opened JsValues

  /** The four rank values of helpers/ranks.json. */
  datatype Ranks = Ranks(prWhitelist: int, mentor: int, admin: int, superadmin: int)

  /** One order the ranks may take: mentors below admins. Under it no mentor gets
      past the admin guard, so only the superadmin override takes approve's mentor
      branch; as written, reject still records an admin's rejection in the mentor
      stage (line 327). */
  predicate Ordered(r: Ranks) {
    r.prWhitelist < r.mentor < r.admin < r.superadmin
  }

  /** The other order, the one the guards' layout suggests: the mentor guard sits
      behind the admin guard, and approve's mentor test behind both. Under it a
      mentor approves in the mentor stage, but as written a mentor's rejection is
      recorded in the admin stage (line 327). */
  predicate MentorAboveAdmin(r: Ranks) {
    r.prWhitelist < r.admin < r.mentor < r.superadmin
  }

  /** One guard registered with `router.all`: callers below `minLevel` get a 401 page with `reason`. */
  datatype Guard = Guard(minLevel: int, reason: string)

  /** The three guards in declaration order. */
  function Guards(r: Ranks): seq<Guard> {
    [ Guard(r.prWhitelist, "Must be whitelisted to use the Purchase Request system."),
      Guard(r.admin, "You must have higher clearance to reach this page."),
      Guard(r.mentor, "You must have higher clearance to reach this page.") ]
  }

  /** The routes of the purchase router, in declaration order. */
  datatype Route =
    | Home | View | ListObjectFiltered | ListObjectAll | ListAll | ListMy
    | CreateForm | CreateSubmit | EditForm | EditSubmit
    | AdminList | Approve | Reject
    | MentorList

  /** How many guards are declared above the route. */
  function GuardsAbove(route: Route): (n: nat)
    ensures 1 <= n <= 3
  {
    match route
    case AdminList => 2
    case Approve => 2
    case Reject => 2
    case MentorList => 3
    case _ => 1
  }

  /** A refused caller is answered with an error page rendered with `statusCode`
      and `reason`; `status` is the code that page reports (the response itself
      keeps Express's default status). */
  datatype Admission = Admitted | Denied(status: int, reason: string)

  /** Runs the guards in order; the first one the level fails answers the request. */
  function Screen(level: int, guards: seq<Guard>): (a: Admission)
    ensures a.Denied? ==>
      a.status == 401 && exists i :: 0 <= i < |guards| && level < guards[i].minLevel && a.reason == guards[i].reason
  {
    if guards == [] then Admitted
    else if level >= guards[0].minLevel then
      var rest := Screen(level, guards[1..]);
      assert rest.Denied? ==> exists i :: 1 <= i < |guards| && level < guards[i].minLevel && rest.reason == guards[i].reason by {
        if rest.Denied? {
          var k :| 0 <= k < |guards[1..]| && level < guards[1..][k].minLevel && rest.reason == guards[1..][k].reason;
          assert guards[k + 1] == guards[1..][k];
        }
      }
      rest
    else Denied(401, guards[0].reason)
  }

  /** What the guards do with a caller of rank `level` asking for `route`: a caller
      at or above all three guarded ranks reaches every route, and one below the
      whitelist rank is turned away from every route with the whitelist message. */
  function Admit(route: Route, level: int, r: Ranks): (a: Admission)
    ensures level >= r.prWhitelist && level >= r.admin && level >= r.mentor ==> a == Admitted
    ensures level < r.prWhitelist ==> a == Denied(401, "Must be whitelisted to use the Purchase Request system.")
  {
    var guards := Guards(r)[..GuardsAbove(route)];
    ScreenPassesAll(level, guards);
    assert guards[0] == Guard(r.prWhitelist, "Must be whitelisted to use the Purchase Request system.");
    Screen(level, guards)
  }

  /** The guards admit exactly the callers that pass every one of them; a refused
      caller gets an error page reporting 401, with the reason of the first guard it fails. */
  lemma {:induction false} ScreenPassesAll(level: int, guards: seq<Guard>)
    ensures Screen(level, guards) == Admitted <==> forall i :: 0 <= i < |guards| ==> level >= guards[i].minLevel
    ensures Screen(level, guards) != Admitted ==>
      exists i :: 0 <= i < |guards| && level < guards[i].minLevel
        && Screen(level, guards) == Denied(401, guards[i].reason)
        && forall j :: 0 <= j < i ==> level >= guards[j].minLevel
  {
    if guards != [] {
      ScreenPassesAll(level, guards[1..]);
      if level >= guards[0].minLevel && Screen(level, guards) != Admitted {
        var i :| 0 <= i < |guards[1..]| && level < guards[1..][i].minLevel
          && Screen(level, guards[1..]) == Denied(401, guards[1..][i].reason)
          && forall j :: 0 <= j < i ==> level >= guards[1..][j].minLevel;
        assert level < guards[i + 1].minLevel;
      }
      if Screen(level, guards) == Admitted {
        forall i | 0 <= i < |guards| ensures level >= guards[i].minLevel {
          if i > 0 { assert guards[i] == guards[1..][i - 1]; }
        }
      }
    }
  }

  /** Reaching a route means passing the whitelist guard, then the admin guard if the
      route is declared after line 283, then the mentor guard if after line 358. */
  lemma AdmitExactly(route: Route, level: int, r: Ranks)
    ensures Admit(route, level, r) == Admitted <==>
      level >= r.prWhitelist
      && (GuardsAbove(route) >= 2 ==> level >= r.admin)
      && (GuardsAbove(route) >= 3 ==> level >= r.mentor)
  {
    var guards := Guards(r)[..GuardsAbove(route)];
    ScreenPassesAll(level, guards);
    if GuardsAbove(route) >= 2 { assert guards[1].minLevel == r.admin; }
    if GuardsAbove(route) >= 3 { assert guards[2].minLevel == r.mentor; }
  }

  /** A caller of exactly mentor rank reaches /admin/approve only if ranks.json puts
      the mentor rank at or above both the whitelist and the admin rank. */
  lemma MentorReachesApproveOnlyIfRankedAsAdmin(r: Ranks)
    ensures Admit(Approve, r.mentor, r) == Admitted <==> r.mentor >= r.prWhitelist && r.mentor >= r.admin
  {
    AdmitExactly(Approve, r.mentor, r);
  }

  /** With mentors ranked below admins (`Ordered`), the /mentor list needs admin rank, and a caller
      of mentor rank is refused by the admin guard. */
  lemma OrderedMentorListNeedsAdmin(level: int, r: Ranks)
    requires Ordered(r)
    ensures Admit(MentorList, level, r) == Admitted <==> level >= r.admin
    ensures Admit(MentorList, r.mentor, r) == Denied(401, "You must have higher clearance to reach this page.")
  {
    AdmitExactly(MentorList, level, r);
    var guards := Guards(r)[..3];
    assert guards[1..][0].minLevel == r.admin;
    assert Screen(r.mentor, guards) == Screen(r.mentor, guards[1..]);
  }

  // ----- role tests of approve and reject -----

  /** The `mentor` field of the request body is exactly the string 'true'. */
  predicate OverrideRequested(mentorField: Value) {
    mentorField == Scalar(Str("true"))
  }

  /** Line 298: approve acts for the mentor stage when the caller's rank is the
      mentor rank, or at least superadmin with the override. Below superadmin only
      the exact mentor rank counts; above it, the override decides for anyone else. */
  function ApproveAsMentor(level: int, mentorField: Value, r: Ranks): (mentorBranch: bool)
    ensures level < r.superadmin ==> (mentorBranch <==> level == r.mentor)
    ensures level >= r.superadmin && level != r.mentor ==> (mentorBranch <==> OverrideRequested(mentorField))
  {
    level == r.mentor || (level >= r.superadmin && OverrideRequested(mentorField))
  }

  /** Line 327 as written: reject acts for the mentor stage when the caller's rank
      is the ADMIN rank, or at least superadmin with the override. */
  function RejectAsMentor(level: int, mentorField: Value, r: Ranks): (mentorBranch: bool)
    ensures level < r.superadmin ==> (mentorBranch <==> level == r.admin)
    ensures level >= r.superadmin && level != r.admin ==> (mentorBranch <==> OverrideRequested(mentorField))
  {
    level == r.admin || (level >= r.superadmin && OverrideRequested(mentorField))
  }

  /** With mentors ranked below admins (`Ordered`), nobody who gets past the guards of /admin/approve
      has the mentor rank, so only the superadmin override reaches the mentor branch. */
  lemma OrderedApproveMentorBranchNeedsOverride(level: int, mentorField: Value, r: Ranks)
    requires Ordered(r) && Admit(Approve, level, r) == Admitted
    ensures ApproveAsMentor(level, mentorField, r) <==> level >= r.superadmin && OverrideRequested(mentorField)
  {
    AdmitExactly(Approve, level, r);
  }

  /** As written, a caller of exactly admin rank takes the mentor branch when
      rejecting but the admin branch when approving, whenever the two ranks differ. */
  lemma AdminRejectTakesMentorBranch(mentorField: Value, r: Ranks)
    requires r.admin != r.mentor && r.admin < r.superadmin
    ensures RejectAsMentor(r.admin, mentorField, r)
    ensures !ApproveAsMentor(r.admin, mentorField, r)
  {
  }

  /** With mentors ranked above admins, the guards work as a two-stage chain: the
      /mentor list needs the mentor rank and turns admins away, a mentor reaches
      approve and reject, and approve takes its mentor branch for a mentor. As
      written, reject does not: for a mentor it takes the admin branch. */
  lemma MentorAboveAdminGates(level: int, mentorField: Value, r: Ranks)
    requires MentorAboveAdmin(r)
    ensures Admit(MentorList, level, r) == Admitted <==> level >= r.mentor
    ensures Admit(MentorList, r.admin, r) == Denied(401, "You must have higher clearance to reach this page.")
    ensures Admit(Approve, r.mentor, r) == Admitted && Admit(Reject, r.mentor, r) == Admitted
    ensures ApproveAsMentor(r.mentor, mentorField, r)
    ensures !RejectAsMentor(r.mentor, mentorField, r)
  {
    AdmitExactly(MentorList, level, r);
    AdmitExactly(MentorList, r.admin, r);
    var guards := Guards(r)[..3];
    assert guards[1..][1..][0].minLevel == r.mentor;
    assert Screen(r.admin, guards) == Screen(r.admin, guards[1..]);
    assert Screen(r.admin, guards[1..]) == Screen(r.admin, guards[1..][1..]);
  }

  // ----- the edit form -----

  /** ASCII `toLowerCase` of one character. */
  function LowerChar(c: char): char {
    if 'A' <= c <= 'Z' then (c as int + 32) as char else c
  }

  /** Two characters that are equal, or the upper- and lower-case forms of one
      ASCII letter. */
  predicate SameIgnoringAsciiCase(a: char, b: char) {
    a == b || ('A' <= a <= 'Z' && b as int == a as int + 32) || ('A' <= b <= 'Z' && a as int == b as int + 32)
  }

  /** ASCII `toLowerCase`. */
  function LowerAscii(s: string): (r: string)
    ensures |r| == |s|
    ensures forall i :: 0 <= i < |s| ==> r[i] == if 'A' <= s[i] <= 'Z' then (s[i] as int + 32) as char else s[i]
    ensures forall i :: 0 <= i < |s| ==> r[i] == LowerChar(s[i])
  {
    if s == [] then []
    else [LowerChar(s[0])] + LowerAscii(s[1..])
  }

  lemma LowerAsciiIdempotent(s: string)
    ensures LowerAscii(LowerAscii(s)) == LowerAscii(s)
  {
    var once := LowerAscii(s);
    assert forall i :: 0 <= i < |once| ==> !('A' <= once[i] <= 'Z');
  }

  /** Two characters lower-case alike exactly when they are the same up to ASCII case. */
  lemma LowerCharAlike(a: char, b: char)
    ensures LowerChar(a) == LowerChar(b) <==> SameIgnoringAsciiCase(a, b)
  {
  }

  /** Strings that lower-case alike agree character by character up to ASCII case. */
  lemma LowerAsciiEqualAgrees(s: string, t: string)
    requires LowerAscii(s) == LowerAscii(t)
    ensures |s| == |t| && forall i :: 0 <= i < |t| ==> SameIgnoringAsciiCase(s[i], t[i])
  {
    forall i | 0 <= i < |t| ensures SameIgnoringAsciiCase(s[i], t[i]) {
      assert LowerAscii(s)[i] == LowerAscii(t)[i];
      LowerCharAlike(s[i], t[i]);
    }
  }

  /** Strings that agree character by character up to ASCII case lower-case alike. */
  lemma AgreeingLowerAsciiEqual(s: string, t: string)
    requires |s| == |t| && forall i :: 0 <= i < |t| ==> SameIgnoringAsciiCase(s[i], t[i])
    ensures LowerAscii(s) == LowerAscii(t)
  {
    var ls, lt := LowerAscii(s), LowerAscii(t);
    forall i | 0 <= i < |t| ensures ls[i] == lt[i] {
      LowerCharAlike(s[i], t[i]);
    }
  }

  /** Two strings lower-case to the same string exactly when they have one length
      and agree character by character up to ASCII case. */
  lemma LowerAsciiEqual(s: string, t: string)
    ensures LowerAscii(s) == LowerAscii(t) <==>
      |s| == |t| && forall i :: 0 <= i < |t| ==> SameIgnoringAsciiCase(s[i], t[i])
  {
    if LowerAscii(s) == LowerAscii(t) {
      LowerAsciiEqualAgrees(s, t);
    }
    if |s| == |t| && forall i :: 0 <= i < |t| ==> SameIgnoringAsciiCase(s[i], t[i]) {
      AgreeingLowerAsciiEqual(s, t);
    }
  }

  /** Line 210: the edit form is shown to the submitter, compared without regard to
      case, while the record is pending (0) or admin-rejected (1); a caller whose
      email differs from the submitter's in anything but ASCII case is refused. */
  function MayEdit(submittedBy: string, approval: int, email: string): (editable: bool)
    ensures editable <==>
      approval <= 1 && |submittedBy| == |email|
      && forall i :: 0 <= i < |email| ==> SameIgnoringAsciiCase(submittedBy[i], email[i])
    ensures submittedBy == email ==> (editable <==> approval <= 1)
  {
    LowerAsciiEqual(submittedBy, email);
    LowerAscii(submittedBy) == LowerAscii(email) && approval <= 1
  }

  /** Someone else's pending record is never editable. */
  lemma MayEditRefusesOthers()
    ensures !MayEdit("bob@x", 0, "ann@x")
  {
    assert !SameIgnoringAsciiCase("bob@x"[0], "ann@x"[0]);
  }

  /** Who may see the edit form does not depend on the case of the caller's email. */
  lemma MayEditIgnoresCase(submittedBy: string, approval: int, email: string)
    ensures MayEdit(submittedBy, approval, email) <==> MayEdit(submittedBy, approval, LowerAscii(email))
  {
    LowerAsciiIdempotent(email);
  }
}
