/** The form-field normalisers of the purchase router (routers/member/purchase.js:23-53
    and 134-143): `safeString`, `toNumber`/`mapToNumber`, `toDollarAmount`/
    `mapToDollarAmount`, `deleteBlanks` and `xss_array`. The `xss` filter and the
    two-decimal rendering of a float are parameters: their insides are not modelled. */
module FormFields {
  import opened JsValues

  /** `safeString`: a missing field reads as the empty string, anything else is kept. */
  function SafeString(v: Value): (r: Value)
    ensures r != Absent
    ensures v == Absent ==> r == EmptyString
    ensures v != Absent ==> r == v
  {
    if v == Absent then EmptyString else v
  }

  // ----- integers -----

  /** `toNumber(num, err)`: the integer `parseInt(num, 10)` reads, or `err.toString()`
      when it reads NaN. */
  function ToNumber(p: Prim, err: int): (r: Prim)
    ensures r.Num? || r == Str(Decimal(err))
    ensures r.Num? <==> ParseInt(PrimString(p)).Some?
    ensures r.Num? ==> ParseInt(PrimString(p)) == Some(r.n)
  {
    match ParseInt(PrimString(p))
    case Some(n) => Num(n)
    case None => Str(Decimal(err))
  }

  /** A quantity typed with white space before it and text after it ("  3 pcs")
      still reads as its leading integer. */
  lemma ToNumberReadsLeadingInteger(ws: string, n: int, rest: string, err: int)
    requires forall i :: 0 <= i < |ws| ==> IsJsSpace(ws[i])
    requires rest == [] || !IsDigit(rest[0])
    ensures ToNumber(Str(ws + Decimal(n) + rest), err) == Num(n)
  {
    ParseIntReadsDecimal(ws, n, rest);
  }

  /** `mapToNumber(arr, err)`: element-wise on an array, one `toNumber` otherwise. */
  function MapToNumber(v: Value, err: int): (r: Value)
    ensures v.Scalar? ==> r == Scalar(ToNumber(v.p, err))
    ensures v.List? ==> r.List? && |r.items| == |v.items|
    ensures v.List? ==> forall i :: 0 <= i < |v.items| ==> r.items[i] == ToNumber(v.items[i], err)
  {
    match v
    case Scalar(p) => Scalar(ToNumber(p, err))
    case List(items) => List(seq(|items|, i requires 0 <= i < |items| => ToNumber(items[i], err)))
  }

  // ----- dollar amounts -----

  /** `toDollarAmount(num, err)`: `parseFloat(num).toFixed(2)`, or `err.toString()`
      when that is "NaN". `fixed2(s)` stands for the two-decimal rendering of the
      number `parseFloat` reads from `s`; it is only consulted when one is read. */
  function ToDollarAmount(v: Value, err: int, fixed2: string -> string): (r: Prim)
    ensures r.Str?
    ensures ParsesAsFloat(ValueString(v)) ==> r.s == fixed2(ValueString(v))
    ensures !ParsesAsFloat(ValueString(v)) ==> r.s == Decimal(err)
  {
    var text := ValueString(v);
    if ParsesAsFloat(text) then Str(fixed2(text)) else Str(Decimal(err))
  }

  /** `mapToDollarAmount(arr, err)`: element-wise on an array, one
      `toDollarAmount` otherwise. */
  function MapToDollarAmount(v: Value, err: int, fixed2: string -> string): (r: Value)
    ensures v.Scalar? ==> r == Scalar(ToDollarAmount(v, err, fixed2))
    ensures v.List? ==> r.List? && |r.items| == |v.items|
    ensures v.List? ==> forall i :: 0 <= i < |v.items| ==> r.items[i] == ToDollarAmount(Scalar(v.items[i]), err, fixed2)
  {
    match v
    case Scalar(_) => Scalar(ToDollarAmount(v, err, fixed2))
    case List(items) =>
      List(seq(|items|, i requires 0 <= i < |items| => ToDollarAmount(Scalar(items[i]), err, fixed2)))
  }

  /** An empty or missing amount falls back to `err`, rendered as a string. */
  lemma BlankAmountFallsBack(v: Value, err: int, fixed2: string -> string)
    requires v == EmptyString || v == Absent
    ensures ToDollarAmount(v, err, fixed2) == Str(Decimal(err))
  {
    assert !ParsesAsFloat(ValueString(v)) by {
      if v == Absent {
        assert ValueString(v) == "undefined";
        assert TrimStart("undefined") == "undefined";
      }
    }
  }

  // ----- deleteBlanks -----

  /** The slots `deleteBlanks` removes: undefined, null and the empty string. */
  predicate IsBlank(p: Prim) {
    p == Undefined || p == Null || p == Str("")
  }

  /** The array with its blank slots removed, the others kept in order. */
  function KeepNonBlank(s: seq<Prim>): (r: seq<Prim>)
    ensures |r| <= |s|
  {
    if s == [] then [] else (if IsBlank(s[0]) then [] else [s[0]]) + KeepNonBlank(s[1..])
  }

  lemma {:induction false} KeepNonBlankMembers(s: seq<Prim>, p: Prim)
    ensures p in KeepNonBlank(s) <==> p in s && !IsBlank(p)
  {
    if s != [] {
      KeepNonBlankMembers(s[1..], p);
      assert s == [s[0]] + s[1..];
    }
  }

  /** Removing blanks distributes over concatenation, so the kept slots keep their order. */
  lemma {:induction false} KeepNonBlankAppend(s: seq<Prim>, t: seq<Prim>)
    ensures KeepNonBlank(s + t) == KeepNonBlank(s) + KeepNonBlank(t)
  {
    if s == [] {
      assert s + t == t;
    } else {
      assert (s + t)[1..] == s[1..] + t;
      KeepNonBlankAppend(s[1..], t);
    }
  }

  /** An array with no blank slot is left as it is. */
  lemma {:induction false} KeepNonBlankUnchanged(s: seq<Prim>)
    requires forall i :: 0 <= i < |s| ==> !IsBlank(s[i])
    ensures KeepNonBlank(s) == s
  {
    if s != [] {
      KeepNonBlankUnchanged(s[1..]);
    }
  }

  /** `deleteBlanks(arr)`: walks the array from its last index down to 0 and splices
      out each blank slot. The JavaScript changes its argument in place; here the
      array after the loop is returned. */
  method DeleteBlanks(arr: seq<Prim>) returns (r: seq<Prim>)
    ensures r == KeepNonBlank(arr)
  {
    r := arr;
    var i := |arr| - 1;
    while i >= 0
      invariant -1 <= i < |arr|
      invariant r == arr[..i + 1] + KeepNonBlank(arr[i + 1..])
    {
      assert arr[i..][1..] == arr[i + 1..];
      assert arr[..i + 1] == arr[..i] + [arr[i]];
      if IsBlank(r[i]) {
        r := r[..i] + r[i + 1..];
      }
      i := i - 1;
    }
    assert arr[0..] == arr;
  }

  // ----- xss_array -----

  /** What `xss_array(arr)` returns: a string is first wrapped into a one-element
      array; each array slot is replaced by `xss` of it; reading `length` of
      undefined or null throws; a number has no length and comes back unchanged. */
  function XssArrayOf(v: Value, xss: Value -> string): (r: Eval<Value>)
    ensures r == Throws <==> v == Absent || v == Scalar(Null)
    ensures v.Scalar? && v.p.Str? ==> r == Returns(List([Str(xss(v))]))
    ensures v.Scalar? && v.p.Num? ==> r == Returns(v)
    ensures v.List? ==> r.Returns? && r.value.List? && |r.value.items| == |v.items|
    ensures v.List? ==> forall i :: 0 <= i < |v.items| ==> r.value.items[i] == Str(xss(Scalar(v.items[i])))
  {
    match v
    case Scalar(Str(_)) => Returns(List([Str(xss(v))]))
    case Scalar(Num(_)) => Returns(v)
    case Scalar(_) => Throws
    case List(items) => Returns(List(seq(|items|, i requires 0 <= i < |items| => Str(xss(Scalar(items[i]))))))
  }

  /** `xss_array(arr)`, rewriting the slots one by one. */
  method XssArray(arr: Value, xss: Value -> string) returns (r: Eval<Value>)
    ensures r == XssArrayOf(arr, xss)
  {
    var res := arr;
    if arr.Scalar? && arr.p.Str? {
      res := List([arr.p]);
    }
    if res.Scalar? {
      if res.p.Undefined? || res.p.Null? {
        return Throws;
      }
      return Returns(res);
    }
    var slots := res.items;
    var i := 0;
    while i < |slots|
      invariant 0 <= i <= |slots| == |res.items|
      invariant forall j :: 0 <= j < i ==> slots[j] == Str(xss(Scalar(res.items[j])))
      invariant forall j :: i <= j < |slots| ==> slots[j] == res.items[j]
    {
      slots := slots[i := Str(xss(Scalar(slots[i])))];
      i := i + 1;
    }
    assert arr.List? || (arr.Scalar? && arr.p.Str? && res == List([arr.p]) && arr == Scalar(arr.p));
    assert List(slots) == XssArrayOf(arr, xss).value;
    return Returns(List(slots));
  }
}
