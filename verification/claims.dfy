/**
 * EasyAuth claims: a list of `{typ, val}` records. Both the server gate and the
 * client's user menu look claims up by type with `Array.prototype.find`, and the
 * gate collects group ids with `filter` followed by `map`.
 */
module Claims {
  import opened Wrappers

  datatype Claim = Claim(typ: string, val: string)

  /** The index `claims.findIndex(c => c.typ === typ)` reports, or None for -1. */
  function FindIndex(claims: seq<Claim>, typ: string): (r: Option<nat>)
    ensures r.None? <==> forall i :: 0 <= i < |claims| ==> claims[i].typ != typ
    ensures r.Some? ==> r.value < |claims| && claims[r.value].typ == typ
    ensures r.Some? ==> forall j :: 0 <= j < r.value ==> claims[j].typ != typ
  {
    if claims == [] then None
    else if claims[0].typ == typ then Some(0)
    else match FindIndex(claims[1..], typ)
      case None => None
      case Some(i) => Some(i + 1)
  }

  /** `claims.find(c => c.typ === typ)?.val`: the value of the first claim of that type. */
  function FirstVal(claims: seq<Claim>, typ: string): (r: Option<string>)
    ensures r.None? <==> forall i :: 0 <= i < |claims| ==> claims[i].typ != typ
    ensures r.Some? ==> exists i :: 0 <= i < |claims| && claims[i] == Claim(typ, r.value)
                                   && forall j :: 0 <= j < i ==> claims[j].typ != typ
  {
    match FindIndex(claims, typ)
    case None => None
    case Some(i) => Some(claims[i].val)
  }

  /** `claims.filter(c => c.typ === typ).map(c => c.val)`. */
  function Vals(claims: seq<Claim>, typ: string): (r: seq<string>)
    ensures |r| <= |claims|
  {
    if claims == [] then []
    else (if claims[0].typ == typ then [claims[0].val] else []) + Vals(claims[1..], typ)
  }

  /** The filter-map keeps claim order: it distributes over concatenation. */
  lemma {:induction false} ValsAppend(a: seq<Claim>, b: seq<Claim>, typ: string)
    ensures Vals(a + b, typ) == Vals(a, typ) + Vals(b, typ)
  {
    if a == [] {
      assert a + b == b;
    } else {
      assert (a + b)[0] == a[0] && (a + b)[1..] == a[1..] + b;
      ValsAppend(a[1..], b, typ);
    }
  }

  /** A value is collected exactly when some claim of that type carries it. */
  lemma {:induction false} InVals(claims: seq<Claim>, typ: string, v: string)
    ensures v in Vals(claims, typ) <==> exists i :: 0 <= i < |claims| && claims[i] == Claim(typ, v)
  {
    if claims != [] {
      InVals(claims[1..], typ, v);
      if exists i :: 0 <= i < |claims[1..]| && claims[1..][i] == Claim(typ, v) {
        var i :| 0 <= i < |claims[1..]| && claims[1..][i] == Claim(typ, v);
        assert claims[i + 1] == Claim(typ, v);
      }
      if exists i :: 0 <= i < |claims| && claims[i] == Claim(typ, v) {
        var i :| 0 <= i < |claims| && claims[i] == Claim(typ, v);
        if i > 0 {
          assert claims[1..][i - 1] == Claim(typ, v);
        }
      }
    }
  }
}
