/**
 * The text of a validation-failure map: "map[]" for no entries, otherwise
 * one "field: message" segment per entry, separated by "; ". Go visits the
 * map in an unspecified order; the order actually taken is returned as a
 * ghost enumeration of the keys.
 */
module Validator {

  /** The segment for one entry. */
  function Segment(field: string, msg: string): (r: string)
    ensures |r| == |field| + 2 + |msg|
    ensures r[..|field|] == field && r[|field|..|field| + 2] == ": " && r[|field| + 2..] == msg
  {
    field + ": " + msg
  }

  /** Segments separated by "; ". */
  function Join(segments: seq<string>): string
    requires |segments| >= 1
  {
    if |segments| == 1 then segments[0] else segments[0] + "; " + Join(segments[1..])
  }

  /** `order` lists every key of `e` exactly once. */
  ghost predicate Enumerates(order: seq<string>, e: map<string, string>) {
    && (forall i, j :: 0 <= i < j < |order| ==> order[i] != order[j])
    && (forall k :: k in e <==> k in order)
  }

  /** The segments of the entries of `e`, in the order `order` visits them. */
  function Segments(e: map<string, string>, order: seq<string>): (segs: seq<string>)
    requires forall i :: 0 <= i < |order| ==> order[i] in e
    ensures |segs| == |order|
    ensures forall i :: 0 <= i < |order| ==> segs[i] == Segment(order[i], e[order[i]])
  {
    seq(|order|, i requires 0 <= i < |order| => Segment(order[i], e[order[i]]))
  }

  /** The text of `e` when its entries are visited in the order `order`. */
  function Render(e: map<string, string>, order: seq<string>): string
    requires forall i :: 0 <= i < |order| ==> order[i] in e
  {
    if order == [] then "map[]" else Join(Segments(e, order))
  }

  /**
   * The formatting routine, with Go's early returns for no entries and one
   * entry and its counting loop for the rest.
   */
  method Error(e: map<string, string>) returns (s: string, ghost order: seq<string>)
    ensures Enumerates(order, e)
    ensures forall i :: 0 <= i < |order| ==> order[i] in e
    ensures s == Render(e, order)
    ensures |e| == 0 ==> s == "map[]"
    ensures forall field :: field in e && |e| == 1 ==> s == Segment(field, e[field])
    ensures forall field :: field in e ==> Occurs(Segment(field, e[field]), s)
    ensures |s| > 0
  {
    if |e| == 0 {
      assert e.Keys == {};
      s, order := "map[]", [];
      RenderFacts(order, e);
      return;
    }
    if |e| == 1 {
      var field :| field in e;
      assert |e.Keys| == 1;
      assert |e.Keys - {field}| == 0;
      assert e.Keys == {field};
      s, order := Segment(field, e[field]), [field];
      RenderFacts(order, e);
      return;
    }

    var builder := "";
    var count := 0;
    var remaining := e.Keys;
    order := [];
    while remaining != {}
      invariant forall i :: 0 <= i < |order| ==> order[i] in e
      invariant forall i, j :: 0 <= i < j < |order| ==> order[i] != order[j]
      invariant forall k :: k in e <==> k in remaining || k in order
      invariant forall k :: k in remaining ==> k !in order
      invariant count == |order|
      invariant count == 0 ==> builder == ""
      invariant count > 0 ==> builder == Join(Segments(e, order))
      decreases remaining
    {
      var field :| field in remaining;
      if count > 0 {
        builder := builder + "; ";
      }
      builder := builder + Segment(field, e[field]);
      count := count + 1;
      if |order| > 0 {
        JoinSnoc(Segments(e, order), Segment(field, e[field]));
      }
      assert Segments(e, order + [field]) == Segments(e, order) + [Segment(field, e[field])];
      order := order + [field];
      remaining := remaining - {field};
    }
    s := builder;
    assert order != [] by {
      var k :| k in e;
    }
    RenderFacts(order, e);
  }

  /** `sub` occurs in `s` starting at position `i`. */
  predicate OccursAt(sub: string, s: string, i: int) {
    0 <= i && i + |sub| <= |s| && s[i..i + |sub|] == sub
  }

  /** `sub` occurs somewhere in `s`. */
  predicate Occurs(sub: string, s: string) {
    exists i :: 0 <= i <= |s| && OccursAt(sub, s, i)
  }

  /** Each segment occurs in the joined text. */
  lemma {:induction false} JoinContains(segments: seq<string>, k: int)
    requires 0 <= k < |segments|
    ensures Occurs(segments[k], Join(segments))
  {
    var sub := segments[k];
    if k == 0 {
      JoinEnds(segments);
      assert OccursAt(sub, Join(segments), 0);
    } else {
      JoinContains(segments[1..], k - 1);
      assert segments[1..][k - 1] == sub;
      var rest := Join(segments[1..]);
      var i :| 0 <= i <= |rest| && OccursAt(sub, rest, i);
      var head := segments[0] + "; ";
      assert Join(segments) == head + rest;
      assert (head + rest)[|head| + i .. |head| + i + |sub|] == rest[i..i + |sub|];
      assert OccursAt(sub, Join(segments), |head| + i);
    }
  }

  /**
   * What holds of the text for every order of visiting the entries: "map[]"
   * for no entries, the only segment for one entry, every entry's segment
   * somewhere in it, and never empty.
   */
  lemma RenderFacts(order: seq<string>, e: map<string, string>)
    requires Enumerates(order, e)
    ensures forall i :: 0 <= i < |order| ==> order[i] in e
    ensures |e| == 0 ==> Render(e, order) == "map[]"
    ensures forall field :: field in e && |e| == 1 ==> Render(e, order) == Segment(field, e[field])
    ensures forall field :: field in e ==> Occurs(Segment(field, e[field]), Render(e, order))
    ensures |Render(e, order)| > 0
  {
    EnumerationLength(order, e);
    RenderNotEmpty(order, e);
    forall field | field in e && |e| == 1 ensures Render(e, order) == Segment(field, e[field]) {
      assert field in order;
      assert order == [order[0]];
    }
    forall field | field in e ensures Occurs(Segment(field, e[field]), Render(e, order)) {
      EachEntryOnce(order, e, field);
      var i :| 0 <= i < |order| && order[i] == field && Segments(e, order)[i] == Segment(field, e[field]);
      JoinContains(Segments(e, order), i);
    }
  }

  lemma {:induction false} JoinSnoc(segments: seq<string>, last: string)
    requires |segments| >= 1
    ensures Join(segments + [last]) == Join(segments) + "; " + last
  {
    if |segments| > 1 {
      assert (segments + [last])[1..] == segments[1..] + [last];
      JoinSnoc(segments[1..], last);
    } else {
      assert (segments + [last])[1..] == [last];
    }
  }

  /** An enumeration of a map has as many keys as the map. */
  lemma {:induction false} EnumerationLength(order: seq<string>, e: map<string, string>)
    requires Enumerates(order, e)
    ensures |order| == |e|
    decreases |order|
  {
    if order == [] {
      assert e.Keys == {};
    } else {
      var last := order[|order| - 1];
      var shorter := order[..|order| - 1];
      var rest := e - {last};
      forall k ensures k in rest <==> k in shorter {
        if k in shorter {
          var i :| 0 <= i < |shorter| && shorter[i] == k;
          assert order[i] == k;
        }
        if k in order && k != last {
          var i :| 0 <= i < |order| && order[i] == k;
          assert i < |order| - 1 && shorter[i] == k;
        }
      }
      EnumerationLength(shorter, rest);
      assert last in e;
      assert |rest| == |e| - 1;
    }
  }

  /** No entries: exactly "map[]". */
  lemma EmptyMapText(order: seq<string>, e: map<string, string>)
    requires Enumerates(order, e) && |e| == 0
    ensures forall i :: 0 <= i < |order| ==> order[i] in e
    ensures Render(e, order) == "map[]"
  {
    EnumerationLength(order, e);
  }

  /** One entry: exactly "field: message". */
  lemma SingleEntryText(order: seq<string>, field: string, msg: string)
    requires Enumerates(order, map[field := msg])
    ensures forall i :: 0 <= i < |order| ==> order[i] in map[field := msg]
    ensures Render(map[field := msg], order) == field + ": " + msg
  {
    EnumerationLength(order, map[field := msg]);
    assert order[0] in map[field := msg];
  }

  /** The total length of a sequence of strings. */
  function TotalLength(segments: seq<string>): nat {
    if segments == [] then 0 else |segments[0]| + TotalLength(segments[1..])
  }

  /** n segments are joined by exactly n - 1 two-character separators. */
  lemma {:induction false} JoinLength(segments: seq<string>)
    requires |segments| >= 1
    ensures |Join(segments)| == TotalLength(segments) + 2 * (|segments| - 1)
  {
    if |segments| > 1 {
      JoinLength(segments[1..]);
    }
  }

  /** The text starts with the first segment and ends with the last: no separator at either end. */
  lemma {:induction false} JoinEnds(segments: seq<string>)
    requires |segments| >= 1
    ensures var s := Join(segments);
      |segments[0]| <= |s| && s[..|segments[0]|] == segments[0] &&
      |segments[|segments| - 1]| <= |s| && s[|s| - |segments[|segments| - 1]|..] == segments[|segments| - 1]
  {
    if |segments| > 1 {
      JoinEnds(segments[1..]);
      var s, rest := Join(segments), Join(segments[1..]);
      assert s == segments[0] + "; " + rest;
      assert s[|s| - |rest|..] == rest;
    }
  }

  /**
   * With two or more entries, every entry contributes exactly one segment:
   * the i-th segment is the segment of the i-th visited key, and each key is
   * visited at exactly one position.
   */
  lemma EachEntryOnce(order: seq<string>, e: map<string, string>, field: string)
    requires Enumerates(order, e) && field in e
    ensures forall i :: 0 <= i < |order| ==> order[i] in e
    ensures exists i :: (0 <= i < |order| && order[i] == field &&
      Segments(e, order)[i] == Segment(field, e[field]) &&
      (forall j :: 0 <= j < |order| && j != i ==> order[j] != field))
  {
    var i :| 0 <= i < |order| && order[i] == field;
    forall j | 0 <= j < |order| && j != i ensures order[j] != field {
      if j < i {
        assert order[j] != order[i];
      } else {
        assert order[i] != order[j];
      }
    }
  }

  /** The text is never empty. */
  lemma RenderNotEmpty(order: seq<string>, e: map<string, string>)
    requires forall i :: 0 <= i < |order| ==> order[i] in e
    ensures |Render(e, order)| > 0
  {
    if order != [] {
      var segs := Segments(e, order);
      JoinEnds(segs);
      assert |segs[0]| >= 2;
    }
  }
}
