/** `URLSearchParams` as an ordered list of key/value pairs. */
module UrlParams {
  import opened Wrappers

  datatype Param = Param(key: string, value: string)

  /** `params.get(key)`: the value of the first pair with that key. */
  function Get(params: seq<Param>, key: string): Option<string> {
    if params == [] then None
    else if params[0].key == key then Some(params[0].value)
    else Get(params[1..], key)
  }

  /** `get` finds a value exactly when some pair has the key, and then it is the first such pair's value. */
  lemma {:induction false} GetFirst(params: seq<Param>, key: string)
    ensures Get(params, key).Some? <==> exists i :: 0 <= i < |params| && params[i].key == key
    ensures Get(params, key).Some? ==> exists i :: (0 <= i < |params| && params[i].key == key
      && params[i].value == Get(params, key).value && forall j :: 0 <= j < i ==> params[j].key != key)
  {
    if params != [] {
      GetFirst(params[1..], key);
      if params[0].key != key && Get(params, key).Some? {
        var i :| 0 <= i < |params[1..]| && params[1..][i].key == key
          && params[1..][i].value == Get(params, key).value && forall j :: 0 <= j < i ==> params[1..][j].key != key;
        assert params[i + 1].key == key;
      }
      if exists i :: 0 <= i < |params| && params[i].key == key {
        var i :| 0 <= i < |params| && params[i].key == key;
        if i > 0 {
          assert params[1..][i - 1].key == key;
        }
      }
    }
  }

  /** `params.get(key) || fallback`: a missing or empty value gives `fallback`. */
  function GetOr(params: seq<Param>, key: string, fallback: string): (r: string)
    ensures Get(params, key).Some? && Get(params, key).value != "" ==> r == Get(params, key).value
    ensures Get(params, key).None? || Get(params, key).value == "" ==> r == fallback
  {
    match Get(params, key)
    case Some(v) => if v != "" then v else fallback
    case None => fallback
  }

  /** `get` on a list of pairs none of which has the key. */
  lemma {:induction false} GetMissing(params: seq<Param>, key: string)
    requires forall i :: 0 <= i < |params| ==> params[i].key != key
    ensures Get(params, key) == None
  {
    if params != [] {
      GetMissing(params[1..], key);
    }
  }

  /** `get` on a concatenation: the first list decides when it holds the key, the second otherwise. */
  lemma {:induction false} GetAppend(front: seq<Param>, back: seq<Param>, key: string)
    ensures Get(front + back, key) == if Get(front, key).Some? then Get(front, key) else Get(back, key)
    decreases |front|
  {
    if front != [] {
      var whole := front + back;
      assert whole[0] == front[0];
      assert whole[1..] == front[1..] + back;
      GetAppend(front[1..], back, key);
    } else {
      assert front + back == back;
    }
  }
}
