/**
 * The subset of the struct-tag validation rules (`validate:"..."`) that the
 * request types use, with the meaning the validator library gives them:
 * rules are checked left to right; `omitempty` stops the check successfully
 * when the field holds no value; `required` fails when it holds none; `min`
 * and `max` bound an integer; `oneof` lists the accepted strings.
 *
 * "Holds a value" depends on the field's Go type: a plain `int` or `string`
 * holds one when it is not the zero value (0 or ""), a pointer when it is
 * not nil (a pointer to 0 does hold a value).
 */
module Tags {
  import opened Wrappers

  datatype NumTag = Required | OmitEmpty | Min(bound: int) | Max(bound: int)
  datatype TextTag = TextRequired | TextOmitEmpty | OneOf(options: seq<string>)

  /** An integer struct field: a plain `int` or an `*int`. */
  datatype NumField = PlainInt(n: int) | IntPointer(target: Option<int>)
  /** A string struct field: a plain `string` or a `*string`. */
  datatype TextField = PlainString(s: string) | StringPointer(target: Option<string>)

  predicate HasNum(f: NumField) {
    match f
    case PlainInt(n) => n != 0
    case IntPointer(p) => p.Some?
  }

  predicate HasText(f: TextField) {
    match f
    case PlainString(s) => s != ""
    case StringPointer(p) => p.Some?
  }

  /** The integer the field holds, looking through a pointer; None for a nil pointer. */
  function NumOf(f: NumField): Option<int> {
    match f
    case PlainInt(n) => Some(n)
    case IntPointer(p) => p
  }

  function TextOf(f: TextField): Option<string> {
    match f
    case PlainString(s) => Some(s)
    case StringPointer(p) => p
  }

  /** The name a rule has in a struct tag, which is what a failure report names. */
  function NumTagName(t: NumTag): string {
    match t
    case Required => "required"
    case OmitEmpty => "omitempty"
    case Min(_) => "min"
    case Max(_) => "max"
  }

  function TextTagName(t: TextTag): string {
    match t
    case TextRequired => "required"
    case TextOmitEmpty => "omitempty"
    case OneOf(_) => "oneof"
  }

  /**
   * The first rule of `tags` that the field breaks, or None when it passes
   * them all. A nil pointer breaks any rule other than `omitempty`.
   */
  function NumFailure(tags: seq<NumTag>, f: NumField): (r: Option<NumTag>)
    ensures r.Some? ==> r.value in tags
    decreases |tags|
  {
    if tags == [] then None
    else match tags[0]
      case OmitEmpty => if HasNum(f) then NumFailure(tags[1..], f) else None
      case Required => if HasNum(f) then NumFailure(tags[1..], f) else Some(tags[0])
      case Min(b) =>
        if NumOf(f).Some? && NumOf(f).value >= b then NumFailure(tags[1..], f) else Some(tags[0])
      case Max(b) =>
        if NumOf(f).Some? && NumOf(f).value <= b then NumFailure(tags[1..], f) else Some(tags[0])
  }

  function TextFailure(tags: seq<TextTag>, f: TextField): (r: Option<TextTag>)
    ensures r.Some? ==> r.value in tags
    decreases |tags|
  {
    if tags == [] then None
    else match tags[0]
      case TextOmitEmpty => if HasText(f) then TextFailure(tags[1..], f) else None
      case TextRequired => if HasText(f) then TextFailure(tags[1..], f) else Some(tags[0])
      case OneOf(opts) =>
        if TextOf(f).Some? && TextOf(f).value in opts then TextFailure(tags[1..], f) else Some(tags[0])
  }

  predicate NumValid(tags: seq<NumTag>, f: NumField) {
    NumFailure(tags, f).None?
  }

  predicate TextValid(tags: seq<TextTag>, f: TextField) {
    TextFailure(tags, f).None?
  }

  /** One entry of a validation report: a field name and, when it failed, the rule it broke. */
  datatype Check = Check(field: string, failed: Option<string>)

  function NumCheck(field: string, tags: seq<NumTag>, f: NumField): Check {
    var r := NumFailure(tags, f);
    Check(field, if r.Some? then Some(NumTagName(r.value)) else None)
  }

  function TextCheck(field: string, tags: seq<TextTag>, f: TextField): Check {
    var r := TextFailure(tags, f);
    Check(field, if r.Some? then Some(TextTagName(r.value)) else None)
  }

  /**
   * The report for a struct: every failing field mapped to the rule it broke.
   * A key is reported exactly when some check of that field failed, and when
   * a field is checked once its value is the name of the rule it broke.
   */
  function Report(checks: seq<Check>): (m: map<string, string>)
    ensures forall k :: k in m ==> exists i :: 0 <= i < |checks| && checks[i].field == k && checks[i].failed == Some(m[k])
    ensures forall i :: 0 <= i < |checks| && checks[i].failed.Some? ==> checks[i].field in m
    ensures forall i :: 0 <= i < |checks| && checks[i].failed.Some? && OnlyCheckOf(checks, i) ==>
      m[checks[i].field] == checks[i].failed.value
  {
    if checks == [] then map[]
    else
      var rest := Report(checks[1..]);
      if checks[0].failed.Some? then rest[checks[0].field := checks[0].failed.value] else rest
  }

  /** Check `i` is the only check of its field. */
  predicate OnlyCheckOf(checks: seq<Check>, i: int)
    requires 0 <= i < |checks|
  {
    forall j :: 0 <= j < |checks| && j != i ==> checks[j].field != checks[i].field
  }

  /** A report is empty exactly when no field failed. */
  lemma {:induction false} ReportEmpty(checks: seq<Check>)
    ensures Report(checks) == map[] <==> forall i :: 0 <= i < |checks| ==> checks[i].failed.None?
  {
    if checks != [] {
      ReportEmpty(checks[1..]);
      if checks[0].failed.Some? {
        assert checks[0].field in Report(checks);
      } else {
        forall i | 1 <= i < |checks| ensures checks[i] == checks[1..][i - 1] { }
      }
    }
  }

  // ---- the closed forms of the rule lists the request types use -------------

  /** `required,min=b` on a plain int: the zero value fails `required`, anything else must reach `b`. */
  lemma RequiredMinIff(b: int, n: int)
    ensures NumValid([Required, Min(b)], PlainInt(n)) <==> n != 0 && n >= b
  {
    var f := PlainInt(n);
    assert [Required, Min(b)][1..] == [Min(b)];
    assert NumFailure([Min(b)], f) == if n >= b then NumFailure([], f) else Some(Min(b));
    assert NumFailure([Required, Min(b)], f) == if n != 0 then NumFailure([Min(b)], f) else Some(Required);
  }

  /** `omitempty,min=b` on a pointer: nil passes, a target must reach `b`. */
  lemma OmitMinIff(b: int, p: Option<int>)
    ensures NumValid([OmitEmpty, Min(b)], IntPointer(p)) <==> (p.Some? ==> p.value >= b)
  {
    var f := IntPointer(p);
    assert [OmitEmpty, Min(b)][1..] == [Min(b)];
    assert NumFailure([OmitEmpty, Min(b)], f) == if p.Some? then NumFailure([Min(b)], f) else None;
    if p.Some? {
      assert NumFailure([Min(b)], f) == if p.value >= b then NumFailure([], f) else Some(Min(b));
    }
  }

  /** `omitempty,min=lo,max=hi` on a plain int: 0 passes, anything else lies in lo..hi. */
  lemma OmitRangeIff(lo: int, hi: int, f: NumField)
    ensures NumValid([OmitEmpty, Min(lo), Max(hi)], f) <==>
      (HasNum(f) ==> lo <= NumOf(f).value <= hi)
  {
    assert [OmitEmpty, Min(lo), Max(hi)][1..] == [Min(lo), Max(hi)];
    assert [Min(lo), Max(hi)][1..] == [Max(hi)];
    assert NumFailure([OmitEmpty, Min(lo), Max(hi)], f) ==
      if HasNum(f) then NumFailure([Min(lo), Max(hi)], f) else None;
    if HasNum(f) {
      var n := NumOf(f);
      assert n.Some?;
      assert NumFailure([Min(lo), Max(hi)], f) ==
        if n.value >= lo then NumFailure([Max(hi)], f) else Some(Min(lo));
      assert NumFailure([Max(hi)], f) == if n.value <= hi then NumFailure([], f) else Some(Max(hi));
    }
  }

  /** `omitempty,oneof=...`: a field holding no value passes, anything else is one of the options. */
  lemma OmitOneOfIff(options: seq<string>, f: TextField)
    ensures TextValid([TextOmitEmpty, OneOf(options)], f) <==>
      (HasText(f) ==> TextOf(f).value in options)
  {
    assert [TextOmitEmpty, OneOf(options)][1..] == [OneOf(options)];
    assert TextFailure([TextOmitEmpty, OneOf(options)], f) ==
      if HasText(f) then TextFailure([OneOf(options)], f) else None;
    if HasText(f) {
      var t := TextOf(f);
      assert t.Some?;
      assert TextFailure([OneOf(options)], f) ==
        if t.value in options then TextFailure([], f) else Some(OneOf(options));
    }
  }
}
