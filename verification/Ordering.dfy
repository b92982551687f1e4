/** Row order of the store's queries: newest stamp first, ties by primary key
    (what ORDER BY updated_at DESC followed by First's own ORDER BY id asks for). */
module Ordering {
  import opened Text

  predicate Before(stamps: map<string, nat>, a: string, b: string)
    requires a in stamps && b in stamps
  {
    stamps[a] > stamps[b] || (stamps[a] == stamps[b] && Less(a, b))
  }

  lemma BeforeIsStrictOrder(stamps: map<string, nat>)
    ensures forall a, b | a in stamps && b in stamps && Before(stamps, a, b) :: a != b && !Before(stamps, b, a)
    ensures forall a, b | a in stamps && b in stamps && a != b :: Before(stamps, a, b) || Before(stamps, b, a)
  {
    forall a: string, b: string | Less(a, b) ensures a != b && !Less(b, a) {
      LessIsAsymmetric(a, b);
    }
    forall a: string, b: string ensures a == b || Less(a, b) || Less(b, a) {
      LessIsTotal(a, b);
    }
  }

  lemma BeforeIsTransitive(stamps: map<string, nat>, a: string, b: string, c: string)
    requires a in stamps && b in stamps && c in stamps
    requires Before(stamps, a, b) && Before(stamps, b, c)
    ensures Before(stamps, a, c)
  {
    if Less(a, b) && Less(b, c) {
      LessIsTransitive(a, b, c);
    }
  }

  ghost predicate IsNewest(stamps: map<string, nat>, id: string) {
    id in stamps && forall o | o in stamps && o != id :: Before(stamps, id, o)
  }

  lemma {:induction false} NewestExists(stamps: map<string, nat>)
    requires stamps != map[]
    ensures exists id :: IsNewest(stamps, id)
  {
    var x :| x in stamps;
    var rest := stamps - {x};
    if rest == map[] {
      assert stamps.Keys == {x} + rest.Keys;
      assert IsNewest(stamps, x);
    } else {
      assert |rest| < |stamps| by { assert rest.Keys == stamps.Keys - {x}; }
      NewestExists(rest);
      var y :| IsNewest(rest, y);
      BeforeIsStrictOrder(stamps);
      assert forall o | o in stamps && o != x :: o in rest;
      if Before(stamps, x, y) {
        forall o | o in stamps && o != x ensures Before(stamps, x, o) {
          if o != y { BeforeIsTransitive(stamps, x, y, o); }
        }
        assert IsNewest(stamps, x);
      } else {
        assert IsNewest(stamps, y);
      }
    }
  }

  /** The row a query with this order returns first. */
  function Newest(stamps: map<string, nat>): (id: string)
    requires stamps != map[]
    ensures id in stamps && forall o | o in stamps && o != id :: Before(stamps, id, o)
  {
    NewestExists(stamps);
    BeforeIsStrictOrder(stamps);
    var id :| id in stamps && forall o | o in stamps && o != id :: Before(stamps, id, o);
    id
  }

  /** First() without an explicit order: the smallest primary key. */
  function First(ids: set<string>): (id: string)
    requires ids != {}
    ensures id in ids
  {
    var rows := map i | i in ids :: 0;
    assert rows.Keys == ids;
    Newest(rows)
  }

  /** All matching rows, in query order. */
  function Sorted(stamps: map<string, nat>): (ids: seq<string>)
    ensures |ids| == |stamps|
    ensures forall id :: id in ids <==> id in stamps
    decreases |stamps|
  {
    if stamps == map[] then [] else
    var top := Newest(stamps);
    var rest := stamps - {top};
    assert rest.Keys == stamps.Keys - {top};
    [top] + Sorted(rest)
  }

  /** Every earlier row comes strictly before every later one, so nothing is repeated. */
  ghost predicate Ordered(stamps: map<string, nat>, ids: seq<string>) {
    && (forall k | 0 <= k < |ids| :: ids[k] in stamps)
    && (forall i, j | 0 <= i < j < |ids| :: ids[i] != ids[j] && Before(stamps, ids[i], ids[j]))
  }

  lemma {:induction false} SortedIsOrdered(stamps: map<string, nat>)
    ensures Ordered(stamps, Sorted(stamps))
    decreases |stamps|
  {
    if stamps == map[] {
    } else {
      var top := Newest(stamps);
      var rest := stamps - {top};
      assert rest.Keys == stamps.Keys - {top};
      SortedIsOrdered(rest);
      PrependNewest(stamps, top, rest, Sorted(rest));
    }
  }

  lemma PrependNewest(stamps: map<string, nat>, top: string, rest: map<string, nat>, tail: seq<string>)
    requires IsNewest(stamps, top) && rest == stamps - {top}
    requires Ordered(rest, tail)
    ensures Ordered(stamps, [top] + tail)
  {
    var ids := [top] + tail;
    assert forall k | 1 <= k < |ids| :: ids[k] == tail[k - 1];
  }
}
