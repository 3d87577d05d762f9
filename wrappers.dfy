/** Option and Result, used for Python's None and for raised exceptions. */
module Wrappers {

  datatype Option<+T> = None | Some(value: T) {
    /** The value, or `default` when there is none (Python's `x or default` on an optional argument). */
    function GetOr(default: T): T {
      match this
      case Some(v) => v
      case None => default
    }
  }

  /** Either a value or the message of the exception the source raises. */
  datatype Result<+T> = Ok(value: T) | Err(msg: string)

  /** The values of the successful results, in order; failures are dropped. */
  function Oks<T>(rs: seq<Result<T>>): seq<T> {
    if |rs| == 0 then []
    else
      var rest := Oks(rs[..|rs| - 1]);
      match rs[|rs| - 1]
      case Err(_) => rest
      case Ok(v) => rest + [v]
  }

  /** One more result adds its value when it is a success and nothing otherwise. */
  lemma OksSnoc<T>(rs: seq<Result<T>>, r: Result<T>)
    ensures Oks(rs + [r]) == if r.Ok? then Oks(rs) + [r.value] else Oks(rs)
  {
    assert (rs + [r])[..|rs|] == rs;
  }

  /** With no failure, nothing is dropped and the order is kept. */
  lemma {:induction false} OksAll<T>(rs: seq<Result<T>>)
    requires forall k :: 0 <= k < |rs| ==> rs[k].Ok?
    ensures |Oks(rs)| == |rs|
    ensures forall k :: 0 <= k < |rs| ==> Oks(rs)[k] == rs[k].value
  {
    if |rs| > 0 {
      OksAll(rs[..|rs| - 1]);
    }
  }

  /** The values kept are exactly those of the successes, and there are no more of them than results. */
  lemma {:induction false} OksMembers<T>(rs: seq<Result<T>>)
    ensures forall v :: v in Oks(rs) ==> exists k :: 0 <= k < |rs| && rs[k] == Ok(v)
    ensures forall k :: 0 <= k < |rs| && rs[k].Ok? ==> rs[k].value in Oks(rs)
    ensures |Oks(rs)| <= |rs|
  {
    if |rs| > 0 {
      var init := rs[..|rs| - 1];
      OksMembers(init);
      assert rs == init + [rs[|rs| - 1]];
      OksSnoc(init, rs[|rs| - 1]);
      forall v | v in Oks(rs)
        ensures exists k :: 0 <= k < |rs| && rs[k] == Ok(v)
      {
        if v in Oks(init) {
          var k :| 0 <= k < |init| && init[k] == Ok(v);
          assert rs[k] == Ok(v);
        } else {
          assert rs[|rs| - 1] == Ok(v);
        }
      }
      forall k | 0 <= k < |rs| && rs[k].Ok?
        ensures rs[k].value in Oks(rs)
      {
        if k < |init| {
          assert init[k] == rs[k];
        }
      }
    }
  }
}
